/** The use-counter of a skill, as pure values: what one call to use() does
    to the number of tries left, and what a run of consecutive calls does. */
module UseCounter {

  /** The outcome of one call: whether it succeeded, and the tries left after it. */
  datatype Attempt = Attempt(succeeded: bool, left: int)

  /** One call to use() on a skill with `left` tries remaining. */
  function UseOnce(left: int): (r: Attempt)
    // a call succeeds exactly when a try is left, and exactly then it consumes one
    ensures r.succeeded <==> left > 0
    ensures r.succeeded <==> r.left < left
    ensures left - 1 <= r.left <= left
    // a non-negative count never goes negative
    ensures left >= 0 ==> r.left >= 0
  {
    if left > 0 then Attempt(true, left - 1) else Attempt(false, left)
  }

  /** Tries left after `n` consecutive calls, starting from `start` tries left. */
  function LeftAfter(start: int, n: nat): (r: int)
    ensures r <= start
    ensures start >= 0 ==> 0 <= r
    ensures start - n <= r
  {
    if n == 0 then start else UseOnce(LeftAfter(start, n - 1)).left
  }

  /** The results of `n` consecutive calls, starting from `start` tries left. */
  function Outcomes(start: int, n: nat): (r: seq<bool>)
    ensures |r| == n
    // entry i is the result of the call made after i earlier calls
    ensures forall i :: 0 <= i < n ==> r[i] == UseOnce(LeftAfter(start, i)).succeeded
  {
    if n == 0 then [] else Outcomes(start, n - 1) + [UseOnce(LeftAfter(start, n - 1)).succeeded]
  }

  function Min(a: int, b: int): int { if a <= b then a else b }

  function Max(a: int, b: int): int { if a <= b then b else a }

  /** Closed form of the count: it goes down by one per call until it reaches
      zero, and a count that starts at or below zero never moves. */
  lemma {:induction false} LeftAfterCalls(start: int, n: nat)
    ensures LeftAfter(start, n) == if n <= start then start - n else Min(start, 0)
  {
    if n > 0 {
      LeftAfterCalls(start, n - 1);
    }
  }

  /** The call made after `k` earlier calls succeeds exactly when `k < start`. */
  lemma NextCallSucceeds(start: int, k: nat)
    ensures UseOnce(LeftAfter(start, k)).succeeded <==> k < start
  {
    LeftAfterCalls(start, k);
  }

  /** Exactly the first `start` calls succeed and every later call fails
      (for a negative `start`, no call succeeds). */
  lemma FirstCallsSucceed(start: int, n: nat)
    ensures forall i :: 0 <= i < n ==> (Outcomes(start, n)[i] <==> i < start)
  {
    forall i | 0 <= i < n
      ensures Outcomes(start, n)[i] <==> i < start
    {
      NextCallSucceeds(start, i);
    }
  }

  /** Of `n` calls, exactly min(n, max(start, 0)) succeed: never more than
      max(start, 0), and none at all when `start` is negative. */
  lemma {:induction false} SuccessCount(start: int, n: nat)
    ensures multiset(Outcomes(start, n))[true] == Min(n, Max(start, 0))
  {
    if n > 0 {
      var before := Outcomes(start, n - 1);
      var last := UseOnce(LeftAfter(start, n - 1)).succeeded;
      assert Outcomes(start, n) == before + [last];
      assert multiset(before + [last]) == multiset(before) + multiset{last};
      SuccessCount(start, n - 1);
      NextCallSucceeds(start, n - 1);
    }
  }

  /** A failed call is never followed by a successful one. */
  lemma FailureIsPermanent(start: int, n: nat, i: nat, j: nat)
    requires i <= j < n
    requires !Outcomes(start, n)[i]
    ensures !Outcomes(start, n)[j]
  {
    NextCallSucceeds(start, i);
    NextCallSucceeds(start, j);
  }

  /** The count never increases over a run of calls. */
  lemma {:induction false} LeftNeverIncreases(start: int, j: nat, k: nat)
    requires j <= k
    ensures LeftAfter(start, k) <= LeftAfter(start, j)
  {
    if j < k {
      LeftNeverIncreases(start, j, k - 1);
    }
  }
}

/** The Skill class: a move with a limited number of uses. */
module Skills {
  import opened UseCounter

  /** The 32-bit `int` of the fields. */
  newtype int32 = x: int | -0x8000_0000 <= x < 0x8000_0000

  class Skill {
    var name: string
    var typeName: string
    var damage: int32
    var maxTry: int32
    var remainingTry: int32

    /** The results of every call to Use since construction, oldest first. */
    ghost var history: seq<bool>

    /** The state reached from construction by the calls in `history`. */
    ghost predicate Valid()
      reads this
    {
      && history == Outcomes(maxTry as int, |history|)
      && remainingTry as int == LeftAfter(maxTry as int, |history|)
    }

    /** Stores the arguments and starts with every try available; `maxTry`
        is not checked. */
    constructor (name: string, typeName: string, damage: int32, maxTry: int32)
      ensures this.name == name && this.typeName == typeName
      ensures this.damage == damage && this.maxTry == maxTry
      ensures remainingTry == maxTry
      ensures history == [] && Valid()
      ensures maxTry >= 0 ==> 0 <= remainingTry <= this.maxTry
    {
      this.name := name;
      this.typeName := typeName;
      this.damage := damage;
      this.maxTry := maxTry;
      remainingTry := maxTry;
      history := [];
    }

    /** Spends one try if one is left. */
    method Use() returns (ok: bool)
      modifies this
      ensures ok <==> old(remainingTry) > 0
      ensures remainingTry == if ok then old(remainingTry) - 1 else old(remainingTry)
      ensures Attempt(ok, remainingTry as int) == UseOnce(old(remainingTry) as int)
      ensures name == old(name) && typeName == old(typeName)
      ensures damage == old(damage) && maxTry == old(maxTry)
      ensures history == old(history) + [ok]
      ensures old(0 <= remainingTry <= maxTry) ==> 0 <= remainingTry <= maxTry
      // from construction on: the first maxTry calls succeed, every later one fails
      ensures old(Valid()) ==> Valid()
      ensures old(Valid()) ==> (ok <==> |old(history)| < maxTry as int)
      ensures old(Valid()) && maxTry >= 0 ==> 0 <= remainingTry <= maxTry
    {
      if remainingTry > 0 {
        remainingTry := remainingTry - 1;
        ok := true;
      } else {
        ok := false;
      }
      history := history + [ok];
      if old(Valid()) {
        NextCallSucceeds(maxTry as int, |old(history)|);
      }
    }
  }

  /** Two tries: two calls succeed, the third fails and changes nothing. */
  method TwoTriesScenario()
  {
    var s := new Skill("Ember", "Fire", 10, 2);
    var a := s.Use();
    var b := s.Use();
    var c := s.Use();
    assert a && b && !c;
    assert s.remainingTry == 0;
    assert s.history == [true, true, false];
  }

  /** A negative maxTry is stored as given, and every call fails. */
  method NegativeMaxTryScenario()
  {
    var s := new Skill("Tackle", "Normal", 5, -1);
    var a := s.Use();
    assert !a && s.remainingTry == -1;
  }
}

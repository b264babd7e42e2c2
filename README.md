# Skill: a move with a limited number of uses

This project models the `Skill` class of the Pokemon-Master battle simulator
(`src/main.cpp`). A skill has a name, a type, a base damage and a maximum
number of tries; it starts with every try available, and each call to `use()`
spends one try if one is left and reports whether it did.

The model has two modules in `skill.dfy`:

- `UseCounter` states the behaviour on plain values. `UseOnce` is one call
  to `use()`; `LeftAfter` and `Outcomes` give the tries left after, and the
  results of, `n` consecutive calls. The lemmas prove what a run of calls
  does: exactly the first `maxTry` calls succeed, every later call fails, the
  count never increases, and at most `max(maxTry, 0)` calls succeed.
- `Skills` holds the class itself. Its fields are updated in place, and
  `Use` has `modifies this`. A ghost field `history` records the result of
  every call since construction. `Valid()` ties `remainingTry` and `history`
  to `LeftAfter` and `Outcomes` started from `maxTry`. The C++ fields are
  public and nothing stops other code from writing them. So `Use` has no
  precondition: its field-level guarantees hold from any state, and the
  claims about the history hold whenever `Valid()` held before the call.

The C++ field `type` is called `typeName` here, because `type` is a Dafny
keyword. The C++ `int` fields use the 32-bit newtype `int32`. `use()` only
decrements a positive count, so no wrap-around can happen.

The constructor does not check `maxTry`. The bound `0 <= remainingTry <= maxTry`
is therefore claimed only when `maxTry >= 0`. A skill built with a negative
`maxTry` keeps that negative count, and every call to `use()` fails.

## Model

| member | source | states |
|---|---|---|
| Skills.Skill.constructor | src/main.cpp:15-16 | every argument is stored unchanged and `remainingTry` starts at `maxTry`; `maxTry` is not checked, and `0 <= remainingTry <= maxTry` holds only when `maxTry >= 0`; no call has been made yet |
| Skills.Skill.Use | src/main.cpp:18-24 | succeeds exactly when a try was left, and then spends exactly one; a failed call changes nothing; name, type, damage and maxTry never change; keeps `0 <= remainingTry <= maxTry` when it held; from construction on, the call succeeds exactly when fewer than `maxTry` calls were made before it |
| UseCounter.UseOnce | src/main.cpp:19-23 | one call succeeds exactly when a try is left, succeeds exactly when it lowers the count, lowers it by at most one, and never takes a non-negative count below zero |
| UseCounter.LeftAfter | src/main.cpp:18-24 | after any number of calls the count is no higher than at the start, at most one lower per call, and not negative when the start was not negative |
| UseCounter.Outcomes | src/main.cpp:18-24 | a run of `n` calls gives `n` results, and result `i` is that of a call made on the count left by the `i` calls before it |
| UseCounter.LeftAfterCalls | src/main.cpp:16-24 | closed form: after `n` calls from `start` tries, `start - n` are left while `n <= start`; after that the count stays at zero, or at `start` when `start` was negative |
| UseCounter.NextCallSucceeds | src/main.cpp:16-24 | the call made after `k` earlier calls succeeds if and only if `k < maxTry` |
| UseCounter.FirstCallsSucceed | src/main.cpp:16-24 | from a fresh skill, exactly the first `maxTry` calls succeed and every later call fails; with a negative `maxTry` no call succeeds |
| UseCounter.SuccessCount | src/main.cpp:16-24 | of `n` calls, exactly `min(n, max(maxTry, 0))` succeed, so never more than `max(maxTry, 0)` |
| UseCounter.FailureIsPermanent | src/main.cpp:19-23 | once a call fails, every later call fails too |
| UseCounter.LeftNeverIncreases | src/main.cpp:18-24 | `remainingTry` never increases across any run of calls |

## Left out

- Console input and output (`<iostream>`, `<iomanip>`, src/main.cpp:1,4): the model has no I/O.
- The type-effectiveness table, health and damage handling, the battle loop, the roster and the selection prompts are not part of this model: none of them is in `src/main.cpp` as far as it goes (28 lines).
- `type` is kept as an uninterpreted string; `use()` never reads it, and neither does the model.
- Skills.Skill.Use: its claims about `history` and its bound from construction hold only when `Valid()` held before the call. Other code that writes the public fields directly can break `Valid()`.
- Skills.Skill: the C++ `Skill` is a value type, and its implicit copy constructor and copy assignment give each copy its own `remainingTry`. The Dafny class is shared by reference, so two variables that hold the same `Skill` share one counter, and the model has no copy operation.

# Remaining-effort synchronisation rule

This project models the issue-tracker workflow rule "Update 'Remaining effort' on change of
subissues" (`src/main/index.ts`). A parent issue's 'Remaining effort' is kept equal to the sum
of its sub-issues' values. The rule fires when an issue's own value changes or its
'subtask of' links change. It then does two things:

- If the issue's own value was just cleared, it recomputes that value from the issue's own
  sub-issues.
- It visits every parent removed during the transaction, then every parent the issue has
  now. A visited parent gets the new sum of its sub-issues' values only when the
  parent's value is empty or, in minutes, still equals its sub-issues' sum from before the
  transaction. A value a user set by hand is left alone.

The model has these modules:

- `Wrappers`: `Option`.
- `Durations`: periods (weeks, days, hours, minutes) and the project's work calendar. It
  covers conversion to working minutes (`periodToMinutes`), its agreement with the rule's
  nested formula, and the write-back conversion (`toPeriod`) with its round trip.
- `NullSum`: the null-preserving addition `addPreservingNull` and its laws. It has the fold
  over a sequence and an order-free sum over a dictionary, proved equal to the fold in every
  key order.
- `Issues`: the issue class. Its one mutable field is the 'Remaining effort' value. It also
  holds the link sets (current, added, removed, isChanged) and the store of all values.
- `SubtaskSum`: `sumTime`. The new sum is over the current sub-issues' current values. The old
  sum is over the sub-issues from before the transaction, rebuilt from the current, added and
  removed links, and their old values. Each loop is a method proved against a specification
  function.
- `EffortRule`: the guard, `setRemainingEffort`, `parentUpdateFunction` and the action. The
  guard is a function, as the source's guard is an expression. `setRemainingEffort`,
  `parentUpdateFunction` and the action are methods with field-level `modifies` frames. Each
  method is proved equal to a specification over a snapshot of all values. Lemmas give the
  rule's promises: only the issue and its visited parents change, a cleared value is
  recomputed, and a visited parent is written only when it is in sync.
- `RuleScenarios`: the repository's guard table and its eight action tests, replayed on the
  specification under the tests' calendar (8-hour days, 5-day weeks).

## Model

| member | source | states |
|---|---|---|
| Durations.WorkMinutesPerWeek | src/main/index.ts:11-16 | the calendar's working minutes in a span of one week; WorkDaysPerWeek states how it relates to days and hours |
| Durations.WorkHoursPerDay | src/main/index.ts:26-27 | the calendar's working minutes in a span of one day, divided by 60 |
| Durations.WorkDaysPerWeek | src/main/index.ts:26-28 | working days per week times working hours per day times 60 is the week's working minutes |
| Durations.PeriodToMinutes | src/main/index.ts:21-34 | the result is null exactly when no period is given |
| Durations.NestedMinutes | src/main/index.ts:29-33 | the nested weeks/days/hours/minutes formula as written, over reals; NestedMinutesIsLinear gives its value |
| Durations.PeriodToMinutesIsNested | src/main/index.ts:21-34 | for a present period the minutes equal the value of the nested weeks/days/hours/minutes formula with days per week and hours per day taken from the calendar |
| Durations.NestedMinutesIsLinear | src/main/index.ts:26-33 | the nested formula equals weeks × week minutes + days × day minutes + hours × 60 + minutes |
| Durations.ToPeriod | src/main/index.ts:103 | the period written for a duration in milliseconds has no weeks or days, fewer than 60 minutes in magnitude, and hours×60+minutes equal to the duration's whole minutes, truncated toward zero |
| Durations.WholeMinutes | src/main/index.ts:103 | minutes × 60 × 1000 milliseconds truncate back to exactly those minutes |
| Durations.ToPeriodRoundTrip | src/main/index.ts:96-105 | a period written for m minutes reads back as m minutes under any calendar with a working day |
| Durations.TestCalendarMinutes | src/spec/index.spec.ts:456-460 | under the tests' calendar, the conversion is the tests' own ((weeks×5+days)×8+hours)×60+minutes |
| NullSum.AddPreservingNull | src/main/index.ts:39-52 | null only when both are null; otherwise the sum with a null read as 0 |
| NullSum.AddPreservingNullIdentity | src/main/index.ts:45-48 | null is a left and right identity |
| NullSum.AddPreservingNullCommutes | src/main/index.ts:39-52 | the addition is commutative |
| NullSum.AddPreservingNullAssociates | src/main/index.ts:39-52 | the addition is associative |
| NullSum.SumOf | src/main/index.ts:65-74 | folding from null gives null exactly when every value is null, and otherwise the total of the present values |
| NullSum.SumMap | src/main/index.ts:78-85 | the null-preserving sum of a dictionary's values, taken in no key order; SumMapPick and SumMapInAnyOrder show any enumeration gives it |
| NullSum.SumMapPick | src/main/index.ts:78-85 | the dictionary sum is the same whichever key is taken first |
| NullSum.SumMapInAnyOrder | src/main/index.ts:78-85 | folding the dictionary's values over its keys, in any order and each key once, gives the order-free sum |
| NullSum.SumMapAbsent | src/main/index.ts:54-60 | the old sum is null exactly when every old value in the dictionary is null |
| SubtaskSum.Enter | src/main/index.ts:73 | after entering each issue under its id, the keys are the old keys plus the ids, and each entered id maps to an issue of the list with that id |
| SubtaskSum.Delete | src/main/index.ts:75 | after deleting each issue's id, exactly those ids are gone and the other entries are unchanged |
| SubtaskSum.EnterFinds | src/main/index.ts:76 | when the ids are distinct, each entered issue is found under its own id |
| SubtaskSum.PreTransactionChildren | src/main/index.ts:63-76 | the rebuilt dictionary holds an id exactly when it is a current sub-issue's id not added during the transaction, or a removed one's; each entry is a current or removed sub-issue with that id |
| SubtaskSum.AddedChildNotCountedBefore | src/main/index.ts:75 | a sub-issue added during the transaction, and not also removed, is not among the sub-issues before it |
| SubtaskSum.RemovedChildCountedBefore | src/main/index.ts:76 | a removed sub-issue is among the sub-issues before the transaction, as itself |
| SubtaskSum.CurrentMinutes | src/main/index.ts:67-72 | one entry per current sub-issue: the minutes of its current value |
| SubtaskSum.OldMinutesById | src/main/index.ts:79-84 | keeps the dictionary's ids, each mapped to the minutes of its issue's old value |
| SubtaskSum.TimeSumIn | src/main/index.ts:61-91 | the pair sumTime returns for a snapshot of current values: the new sum over the current sub-issues and the order-free old sum over the pre-transaction ones; SumTime is proved to compute it |
| SubtaskSum.TimeSumAbsent | src/main/index.ts:54-60 | the new sum is null exactly when every current sub-issue's value is null, and the old sum exactly when every pre-transaction sub-issue's old value is null |
| SubtaskSum.TimeSumLocal | src/main/index.ts:61-91 | the sums depend on the stored values only at the parent's current sub-issues |
| SubtaskSum.EnterEach | src/main/index.ts:76 | the forEach over removed sub-issues produces the Enter dictionary |
| SubtaskSum.DeleteEach | src/main/index.ts:75 | the forEach over added sub-issues produces the Delete dictionary |
| SubtaskSum.SumOldValues | src/main/index.ts:78-85 | the loop over the dictionary's keys, in whatever order they come, ends with the order-free null-preserving sum of the old values |
| SubtaskSum.SumCurrent | src/main/index.ts:63-74 | the forEach over current sub-issues ends with the null-preserving sum of their current values and the dictionary of them by id |
| SubtaskSum.SumTime | src/main/index.ts:61-91 | sumTime returns the new sum over current sub-issues and values, and the old sum over the pre-transaction sub-issues and their old values |
| EffortRule.Guard | src/main/index.ts:109-112 | when the link set is consistent, the rule runs exactly when a parent link was added or removed or the issue's own value changed |
| EffortRule.EffortFor | src/main/index.ts:96-105 | the value written for a minute count reads back as that count, null for null, under any calendar |
| EffortRule.SetRemainingEffort | src/main/index.ts:96-105 | only the issue's value is written, and it becomes the value for the given minutes |
| EffortRule.InSync | src/main/index.ts:119-120 | a parent is in sync when its current value is null or, in minutes, equals the old sum |
| EffortRule.ParentTarget | src/main/index.ts:119-122 | an in-sync parent (current value null or equal in minutes to the old sum) gets the new sum; any other parent keeps its current value |
| EffortRule.WriteIfInSync | src/main/index.ts:119-122 | the parent's value becomes its target and no other value changes |
| EffortRule.ParentUpdate | src/main/index.ts:117-123 | parentUpdateFunction changes exactly the parent, to its target computed from the current values |
| EffortRule.Step | src/main/index.ts:117-123 | parentUpdateFunction on a snapshot: the same issues, with only the parent set to its target under the sums of that snapshot |
| EffortRule.Visited | src/main/index.ts:132-133 | the parents visited: the removed ones, then the current ones |
| EffortRule.UpdateParents | src/main/index.ts:132-133 | the visits in list order, each Step seeing the values the earlier ones left; the snapshot keeps the same issues |
| EffortRule.SelfRecompute | src/main/index.ts:125-130 | the same issues; when the issue's own value was changed to null, it becomes the value for its sub-issues' new sum |
| EffortRule.ActionSpec | src/main/index.ts:113-134 | the values after the action: SelfRecompute, then UpdateParents over Visited; the same issues |
| EffortRule.UpdateParentsOutside | src/main/index.ts:132-133 | visiting parents changes no issue outside the visited list |
| EffortRule.UpdateParentsAt | src/main/index.ts:117-123 | a parent visited once, none of whose sub-issues was visited before it, ends at its target computed from the values before the visits |
| EffortRule.UpdateParentsAppend | src/main/index.ts:132-133 | visiting removed parents and then current ones is visiting the concatenated list |
| EffortRule.UpdateEach | src/main/index.ts:132-133 | a forEach of parentUpdateFunction over parents equals the sequential fold of updates over the snapshot |
| EffortRule.RecomputeIfCleared | src/main/index.ts:125-130 | when the own value was changed to null, it becomes the new sum of the issue's sub-issues; otherwise nothing changes |
| EffortRule.Action | src/main/index.ts:113-134 | the action's final values are the self-recompute followed by the updates of the removed parents and then of the current parents |
| EffortRule.ActionFrame | src/main/index.ts:113-134 | no issue other than the issue and its visited parents changes |
| EffortRule.SelfRecomputeOnClear | src/main/index.ts:125-130 | a just-cleared issue that is not its own parent ends with the null-preserving sum of its sub-issues' current values; any other issue keeps its value |
| EffortRule.WriteIfSynchronised | src/main/index.ts:117-133 | a parent visited once takes the new sub-issue sum when its current value is null or equals the old sum in minutes, and keeps its value otherwise |
| RuleScenarios.GuardScenarios | src/spec/index.spec.ts:65-102 | for an issue without parents whose change flag is derived from its values, as the tests' mock does (src/spec/index.spec.ts:357-360), the table's four rows: nothing set, so the rule does not run; value differs from the old one, so it runs; value equals the old one, so it does not run; a sub-issue added while the value is unchanged, so it does not run |
| RuleScenarios.SingleParent | src/main/index.ts:132-133 | with one visited parent and nothing to recompute, the parent ends at its target |
| RuleScenarios.UpdatesSynchronisedParent | src/spec/index.spec.ts:104-127 | a child going from 2 to 4 minutes moves an in-sync parent at 5 to 7 |
| RuleScenarios.KeepsUnsynchronisedParent | src/spec/index.spec.ts:129-152 | a parent at 10, out of sync, stays at 10 |
| RuleScenarios.FillsNullParent | src/spec/index.spec.ts:154-175 | a null parent is set to the new sum, 7 |
| RuleScenarios.RecomputesClearedValue | src/spec/index.spec.ts:177-198 | a cleared parent is recomputed from sub-issues at 2 and 3 to 5 |
| RuleScenarios.ClearsSynchronisedParent | src/spec/index.spec.ts:200-223 | when every sub-issue becomes null, an in-sync parent becomes null |
| RuleScenarios.RemovalUpdatesSynchronisedParent | src/spec/index.spec.ts:225-249 | removing a 2-minute sub-issue moves an in-sync parent from 5 to 3 |
| RuleScenarios.RemovalKeepsUnsynchronisedParent | src/spec/index.spec.ts:251-275 | after a removal, an out-of-sync parent at 10 stays at 10 |
| RuleScenarios.AdditionUpdatesSynchronisedParent | src/spec/index.spec.ts:277-301 | adding a 2-minute sub-issue moves an in-sync parent from 3 to 5 |

## Left out

- Rule registration, its title and its field requirements (`src/main/index.ts:107-108, 135-140`) are host plumbing. They are not modelled.
- `src/main/youtrack-scripting-api.d.ts` holds type declarations only and is not part of this model.
- `intervalToWorkingMinutes` is a host calendar query. The model asks it exactly two questions, one day and one week (`src/main/index.ts:11-16, 26-27`). The answers are the two numbers of `Durations.Project`; the fixed dates are not modelled.
- Durations.ToPeriod: `toPeriod` is a host library function and is not part of this model. `ToPeriod` is a concrete stand-in that fills hours and minutes and truncates toward zero. The rule relies only on its round trip, `ToPeriodRoundTrip`.
- Durations.PeriodToMinutes requires a calendar with a working day (`dayMinutes > 0`). For a present period the source divides by zero without one and works with non-finite JavaScript numbers, so calendars without a working day are excluded altogether.
- JavaScript numbers are doubles. The model uses unbounded integers, and reals for the nested formula. Rounding of non-integral days per week or hours per day is not modelled. Under such a calendar, the `===` test at line 120 might then compare values that differ in the last bit.
- The order of `Object.keys` is not modelled. The old sum is defined without an order, and `NullSum.SumMapInAnyOrder` shows every enumeration order gives it.
- SubtaskSum.AddedChildNotCountedBefore requires that no sub-issue is both added and removed in one transaction. The tests' builder throws on that case (`src/spec/index.spec.ts:393-395`).
- Link sets are given once per issue (`const`), because the rule never writes them. As a result, the class constructor cannot build a cyclic parent/child graph. The lemmas quantify over arbitrary issues instead.
- `isChanged` is taken as answered by the host when the rule starts. The own field's flag is a snapshot, `Issue.effortChanged`, and `LinkSet.Consistent` ties the links' flag to their added and removed lists.
- EffortRule.WriteIfSynchronised and EffortRule.UpdateParentsAt are stated only for a parent visited once, none of whose sub-issues is visited before it. Otherwise an earlier write changes its sum. `EffortRule.Action` still states the exact outcome in that case, through `ActionSpec`.
- EffortRule.SelfRecomputeOnClear is stated for an issue that is not its own parent.
- The in-sync test compares a parent's old sub-issue sum with the parent's value as it is when
  the parent is visited (`src/main/index.ts:119`). That value already includes writes made
  earlier in the same action. The tests' titles speak of a parent "previously synchronized"
  (`src/spec/index.spec.ts:104, 225, 277`), and `sumTime`'s comment speaks of the values
  "one before and one after the transaction" (`src/main/index.ts:55-56`). Neither says which value of
  the parent is meant. The model follows the code.
- RuleScenarios: the tests' mocks and builder (`src/spec/index.spec.ts:304-461`) are not modelled. The scenarios replay each test's data on `ActionSpec`, which `EffortRule.Action` is proved to implement.

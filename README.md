# FocusFox planner in Dafny

FocusFox takes a list of tasks, a mood and a time budget, and returns a small
plan. It keeps the first three tasks when the user is tired, stressed or
lazy, and the first five otherwise. It scores each kept task by its minutes
times a priority weight. Each task gets its share of the budget in proportion
to its score, rounded to whole minutes and split into hours and minutes. A
motivating message is picked from the mood.

This project models the planner and the endpoint's mood handling in `main.py`.

Modules:

- `Wrappers` (`wrappers.dfy`): `Option` and `Result`.
- `Text` (`text.dfy`): ASCII lower-casing (`Lower`) and the predicate "has no
  upper-case letter".
- `Rounding` (`rounding.dfy`): `RoundHalfEven(num, den)`, the integer nearest
  to the exact fraction `num / den`, with ties going to the even neighbour.
  This is Python's `round` applied to an exact quotient. The module proves that
  the result is the unique integer within half of `num / den` that is even on
  a tie, and that no integer is strictly nearer.
- `FocusFox` (`focusfox.dfy`):
  - The request records with their defaults. `TimeEstimate` is 0h0m and
    `TimeAvailable` is 0h30m. A `TaskItem` defaults to a 0h0m estimate and
    priority `"medium"`. An `InputData` defaults to mood `"neutral"`. A
    pydantic `Optional` field is an `Option`, so an explicit JSON `null` can
    be represented.
  - The `PRIORITY_WEIGHTS` and `MOTIVATIONS` tables.
  - The pure pieces as functions, and the functional specification
    `PlanSpec`/`ShareOut` of `tiny_reorder`.
  - `tiny_reorder` as the method `TinyReorder`, with its two loops as
    `ScoreTasks` and `AllocateTime`. Each method is proved equal to the
    specification.
  - The endpoint as `FocusFoxEndpoint`.
- `FocusFoxProperties` (`properties.dfy`): what the planner promises, proved
  about the specification.

Arithmetic is on unbounded integers, as in Python. Negative estimates and
budgets are accepted, as pydantic accepts them, and the model keeps the
exceptions the code then raises:

- An explicit `null` estimate raises `AttributeError` on `hours`. The estimate
  is read first.
- An explicit `null` priority raises `AttributeError` on `lower`.
- Scores that add up to zero raise `ZeroDivisionError`. Only negative
  estimates can cause this.

`WellFormedTasksNeverFail` shows that tasks with non-negative estimates and
both fields present never fail.

Two behaviours of the code that are easy to miss:

- `(data.mood or "neutral")` also turns the empty string into `"neutral"`, not
  only a missing mood.
- Totals are not always positive. A negative estimate can cancel a positive
  one (`NegativeEstimateCanDivideByZero`).

## Model

| member | source | states |
|---|---|---|
| `FocusFox.TaskLimit` | main.py:54-57 | the limit is 3 exactly when the lower-cased mood is tired, stressed or lazy, and 5 otherwise |
| `FocusFox.Truncate` | main.py:54-57 | the kept tasks are a prefix of the input, of length min(input length, limit) |
| `FocusFoxProperties.PlanLength` | main.py:54-57 | a successful plan has min(n, 3) entries for a capping mood and min(n, 5) otherwise, never more than the input |
| `FocusFoxProperties.NeutralKeepsShortLists` | main.py:56-57 | with mood "neutral", a list of at most five tasks is kept whole |
| `FocusFoxProperties.EmptyTasksEmptyPlan` | main.py:59-60 | no tasks give an empty plan and no failure, whatever the mood and budget |
| `FocusFox.ToMinutes` | main.py:63 | hours*60+minutes as a number of minutes; it has no contract of its own, and `DivMod60RoundTrip` states that `DivMod60` inverts it |
| `FocusFox.EstimatedMinutes` | main.py:68-70 | the result is hours*60+minutes when that is not 0 and 5 when it is, so it is never 0; it is at least 1 for non-negative fields |
| `FocusFox.Weight` | main.py:73 | the weight is 3 exactly for a priority that lower-cases to "high", 1 exactly for one that lower-cases to "low", and 2 for every other string |
| `FocusFoxProperties.TableWeights` | main.py:25-29 | the table's own keys high, medium and low weigh 3, 2 and 1 |
| `FocusFoxProperties.WeightIgnoresCase` | main.py:73 | a priority and its lower-cased form weigh the same |
| `FocusFoxProperties.UnknownPriorityCountsAsMedium` | main.py:73 | any priority off the table weighs the same as "medium", the default of 2 |
| `FocusFoxProperties.UnknownPriorityScoresAsMedium` | main.py:73-75 | a task with an unknown priority scores exactly as the same task with priority "medium" |
| `FocusFox.Score` | main.py:67-75 | a null estimate gives AttributeError "hours"; otherwise a null priority gives AttributeError "lower"; otherwise the score is at least 1 for a non-negative estimate; the formula, estimated minutes times the weight, is the function's definition and not part of its ensures |
| `FocusFox.Scores` | main.py:66-76 | the scores of the tasks in order or the first task's error; a success has one score per task, and the only possible error is an AttributeError |
| `FocusFox.ScoresOk` | main.py:66-76 | scoring a list succeeds exactly when every task scores, and then yields one score per task in order |
| `FocusFox.ScoresFirstError` | main.py:66-76 | once a prefix of the list fails to score, the whole list fails with that prefix's error |
| `FocusFox.ScoresFirstFailure` | main.py:66-76 | when task i is the first that fails to score, the whole list fails with task i's error |
| `FocusFoxProperties.ScoresOfAll` | main.py:66-76 | when every task scores, the score list is exactly those scores |
| `FocusFoxProperties.WellFormedScoresPositive` | main.py:68-75 | tasks with both fields present and non-negative estimates all score at least 1 |
| `FocusFox.Sum` | main.py:78 | Python's `sum` of the scores, added left to right; it has no contract of its own, and `SumOfPositives` states its bound |
| `FocusFoxProperties.SumOfPositives` | main.py:78 | a total of scores that are each at least 1 is at least the number of tasks, and so positive |
| `FocusFox.ScoreTasks` | main.py:66-76 | the scoring loop returns exactly the specified scores, or the first AttributeError |
| `Rounding.RoundHalfEven` | main.py:83 | the result is within half of num/den, and even on an exact tie |
| `Rounding.RoundHalfEvenUnique` | main.py:83 | an integer within half of num/den (and even on a tie) is the rounded value |
| `Rounding.RoundHalfEvenNearest` | main.py:83 | no integer is closer to num/den than the rounded value |
| `Rounding.RoundHalfEvenNonNegative` | main.py:83 | a non-negative fraction over a positive divisor rounds to a non-negative integer |
| `Rounding.RoundHalfEvenExact` | main.py:83 | an integer q written as q*den/den rounds to q |
| `FocusFox.Allocate` | main.py:83 | the allocation is within half a minute of score*available/total, and even on a tie |
| `FocusFox.DivMod60` | main.py:84 | hours*60+minutes gives back the input, minutes lie in [0, 60), and hours are non-negative for a non-negative input |
| `FocusFoxProperties.DivMod60RoundTrip` | main.py:84 | splitting hours*60+minutes with minutes in [0, 60) gives back those hours and minutes |
| `FocusFox.MakeEntry` | main.py:83-90 | an entry carries the task's name and its priority string unchanged, its time adds up to the allocation, and its minutes lie in [0, 60) |
| `FocusFox.Entries` | main.py:81-90 | there is one entry per kept task, in order, each built from that task's score |
| `FocusFox.AllocateTime` | main.py:81-90 | the allocation loop returns one entry per kept task, each the specified entry |
| `FocusFox.ShareOutFromEntries` | main.py:81-92 | a list built entry by entry from successful scores with a non-zero total is the specified plan |
| `FocusFox.ShareOut` | main.py:59-92 | the plan of the kept tasks: empty for no tasks, otherwise the scoring error, ZeroDivisionError for a zero total, or one entry per kept task; a ZeroDivisionError means every task scored and the scores add up to 0 |
| `FocusFox.PlanSpec` | main.py:51-92 | the plan or exception of `tiny_reorder`: ShareOut of the mood-truncated tasks over hours*60+minutes, with min(n, limit) entries on success |
| `FocusFox.ShareOutKept` | main.py:59-92 | what follows truncation returns exactly the specified plan or error |
| `FocusFox.TinyReorder` | main.py:51-92 | `tiny_reorder` returns exactly the specified plan or error |
| `FocusFoxProperties.ShareOutEntries` | main.py:81-90 | a successful non-empty plan has one entry per kept task, each the entry of that task's score over a non-zero total |
| `FocusFoxProperties.PlanKeepsOrderAndFields` | main.py:82-90 | entry i carries the name and the original, not lower-cased, priority of input task i |
| `FocusFoxProperties.WellFormedTasksNeverFail` | main.py:66-83 | tasks with both fields present and non-negative estimates always give a plan |
| `FocusFoxProperties.NullFieldRaises` | main.py:68-73 | a task within the truncation limit with a null estimate or priority makes the planner raise AttributeError |
| `FocusFoxProperties.NegativeEstimateCanDivideByZero` | main.py:78-83 | 10 minutes at high priority and -15 minutes at medium priority score 30 and -30, and the planner raises ZeroDivisionError |
| `FocusFoxProperties.AllocationWithinHalfMinute` | main.py:83 | each entry's minutes are within half a minute of its exact share of the budget, and even on a tie |
| `FocusFoxProperties.DriftFromErrors` | main.py:81-83 | allocations that are each within half of their share add up to within half a minute per allocation of the budget |
| `FocusFoxProperties.EntriesAllocations` | main.py:81-83 | each entry built for the kept tasks is within half a minute of its exact share |
| `FocusFoxProperties.KeptEntriesDrift` | main.py:81-83 | the entries built for the kept tasks add up to within half a minute per entry of the budget |
| `FocusFoxProperties.ShareOutIsEntries` | main.py:81-90 | a successful non-empty plan is the list of entries built from the kept tasks' scores over their non-zero total |
| `FocusFoxProperties.ShareOutDrift` | main.py:81-83 | the entries of a successful non-empty plan add up to within half a minute per entry of the minutes shared out |
| `FocusFoxProperties.DriftWithinHalfMinutePerTask` | main.py:81-83 | the allocations of a successful non-empty plan add up to the budget only to within n/2 minutes, n the plan length; nothing corrects the drift |
| `FocusFoxProperties.DriftExample` | main.py:81-84 | three default tasks sharing 10 minutes get 3 minutes each, 9 in all |
| `FocusFoxProperties.EntryUnderAnHour` | main.py:83-90 | the entry of a share that rounds to q minutes, with q under an hour, is 0 hours and q minutes |
| `FocusFoxProperties.TieEntryUnderAnHour` | main.py:83-90 | likewise for a share exactly half-way between q and a neighbour, with q even |
| `FocusFoxProperties.HalfToEvenExample` | main.py:83-84 | 10 minutes high and 10 minutes low sharing 30 minutes get 22 and 8 minutes, as 22.5 and 7.5 round to even |
| `FocusFoxProperties.HoursAndMinutesSplit` | main.py:83-84 | every entry's hours*60+minutes is its allocation, and its minutes lie in [0, 60) |
| `FocusFoxProperties.HoursNotNegative` | main.py:84 | with well-formed tasks and a non-negative budget, the plan exists and no entry has negative hours |
| `FocusFoxProperties.ZeroBudgetZeroTimes` | main.py:63-84 | a zero budget gives every entry 0 hours and 0 minutes |
| `Text.LowerChar` | main.py:54 | an upper-case letter is shifted to lower case, anything else is unchanged |
| `Text.Lower` | main.py:54 | the result has the same length, each character is lower-cased in place, and no upper-case letter remains |
| `Text.LowerFixesLowerCase` | main.py:105 | lower-casing a string with no upper-case letter changes nothing |
| `Text.LowerIdempotent` | main.py:105 | lower-casing twice is lower-casing once |
| `FocusFox.NormaliseMood` | main.py:105 | a null or empty mood becomes "neutral"; any other mood is lower-cased; the result is never empty and has no upper-case letter |
| `FocusFox.Motivation` | main.py:107 | the message is always one of the table's; it is the neutral message exactly when the mood is "neutral" or not in the table |
| `FocusFox.FocusFoxEndpoint` | main.py:103-113 | the endpoint answers with the normalised mood, the specified plan for it and its message, or the planner's exception |
| `FocusFoxProperties.NotCapped` | main.py:54-57 | a lower-case mood other than tired, stressed or lazy keeps five tasks |
| `FocusFoxProperties.NormalisedMoodIsStable` | main.py:105-106 | lower-casing the normalised mood again, as the planner does, changes nothing |
| `FocusFoxProperties.MoodLimit` | main.py:105-106 | the plan is capped at three exactly when a mood was given whose lower-cased form is tired, stressed or lazy |
| `FocusFoxProperties.UnknownMoodFallsBack` | main.py:107 | a normalised mood that is not in the table gets the neutral message and a limit of five |
| `FocusFoxProperties.KnownMoodMessage` | main.py:107 | a known mood, in any case, gets its own message from the table |
| `FocusFoxProperties.ExcitedFallsBack` | main.py:105-107 | "Excited" becomes "excited", gets the neutral message and keeps five tasks |

## Left out

- The FastAPI application, the CORS middleware and the routes (main.py:7-14, 95-102): these are framework plumbing.
- The `print` of the request (main.py:104): it is output only.
- Pydantic validation and conversion of the JSON request: only the defaults are modelled, as constructor defaults. Explicit nulls are modelled as `None`.
- The greeting string (main.py:110): the modelled `Response` carries the normalised mood that the greeting would interpolate.
- The response is a `Response` datatype, not a JSON dictionary. A plan entry is a `PlanEntry` datatype.
- `FocusFox.Allocate`: it uses the exact rational `score * available / total` rounded half to even. Python computes `score / total_score * total_available` in IEEE-754 doubles first, so results just beside a .5 boundary, or with huge values, can differ.
- The `OverflowError` Python raises when `score / total_score` or the budget is beyond the range of a float, or when their product overflows to infinity before `round`, is not modelled.
- `Text.Lower`: it lower-cases ASCII letters only. Python's `str.lower` covers all of Unicode.
- `FocusFox.TinyReorder`: the part after truncation is the separate method `ShareOutKept`. Its two loops are `ScoreTasks` and `AllocateTime`. The order of reads and exceptions is the same as in one body.
- `FocusFoxProperties.DriftWithinHalfMinutePerTask`: it is stated for non-empty plans only. An empty plan allocates nothing, so its total is 0 rather than the budget.

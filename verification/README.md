# Study-plan generator, modelled in Dafny

This project models the deterministic plan generator of the study planner
(`generatePlan` and `getSessionType` in `src/logic/planner.js`). From the
subjects, the daily hour budgets and the target date, the generator runs
four stages:

1. **Capacity.** The horizon is the day difference to the target, clamped to
   1..365. The week count is `ceil(days / 7)`. The available hours add up
   the weekday or weekend budget of every day (module `Capacity`).
2. **Scoring and allocation.** Each subject's score is
   `credits * (1 + (5 - confidence) / 5)`. Each subject gets a share of the
   available hours proportional to its score (module `Scoring`).
3. **Calendar.** Every day ranks the allocations by descending score with a
   stable sort (module `Ranking`). It then fills three session slots by
   round-robin over the flattened (day, slot) position. Days are grouped into
   weeks of seven, and the last week takes the rest (module `Schedule`).
4. **Summary.** This stage gives the total hours, the week count, the weekly
   average and the confidence boost `(5 - totalScore / totalCredits).toFixed(1)`
   (modules `Formatting` and `Planner`).

The calendar is abstract:
- `diffDays` is the whole-day difference between the target and today.
- `startDow` is today's weekday (0 = Sunday).
- Day `i` of the plan falls on weekday `(startDow + i) % 7`, and a day records
  its offset `i` instead of a `Date`.

Hours, credits and scores are exact reals.

The loops of the source are methods proved against specification functions:
- `Capacity.TotalAvailableHours` against `AvailableHours`;
- `Schedule.FillSessions` against `DaySessions`;
- `Schedule.BuildWeeks` against `ChunkWeeks(ScheduleDays(..))`;
- `Ranking.SortInPlace` against `SortByScore`;
- `Planner.GeneratePlan` against `PlanFor`.

The properties of the plan are lemmas about those functions.

With an empty subject list the generator does not throw: it returns no
allocation, days without sessions (every slot hits the `continue`) and a
`NaN` boost, from `(5 - 0/0).toFixed(1)`. `Planner.PlanWithoutSubjects`
states this behaviour.

## Model

The `Planner` lemmas take the generator's own precondition: a start weekday in 0..6 and `Allocatable` subjects (none, or a non-zero score sum).

| member | source | states |
|---|---|---|
| Capacity.ClampDays | src/logic/planner.js:32 | the horizon lies in 1..365; it equals `diffDays` inside that range, is 1 below it and 365 above it |
| Capacity.HorizonCappedIffShortened | src/logic/planner.js:35-37 | the "too far" advisory is raised exactly when clamping shortens the horizon |
| Capacity.WeekCount | src/logic/planner.js:33 | the week count is at least 1, and is the least `w` with `7(w-1) < days <= 7w` (the ceiling) |
| Capacity.DayOfWeek | src/logic/planner.js:43 | the weekday of every plan day lies in 0..6 |
| Capacity.WeekendBudget | src/logic/planner.js:43-45 | Saturdays and Sundays take the weekend budget; every other day takes the weekday budget |
| Capacity.TotalAvailableHours | src/logic/planner.js:40-46 | the capacity loop returns exactly the sum of the daily budgets of days `0 .. totalDays-1` |
| Capacity.AvailableStep | src/logic/planner.js:45 | proof step for the capacity lemmas: one more day adds the budget of its weekday to the capacity |
| Capacity.WeekFromWeekday | src/logic/planner.js:43-45 | seven successive weekdays, from any start, cost 5 weekday budgets plus 2 weekend budgets |
| Capacity.FirstWeek | src/logic/planner.js:40-46 | the first seven days of any plan hold 5 weekday budgets plus 2 weekend budgets |
| Capacity.SevenDays | src/logic/planner.js:40-46 | any seven consecutive days add 5 weekday budgets plus 2 weekend budgets to the capacity |
| Capacity.DayNameShape | src/logic/planner.js:81 | a weekday name ends in `day` and starts with `S` exactly on the weekend |
| Capacity.DayNamesDistinct | src/logic/planner.js:81 | different weekdays get different names |
| Scoring.DifficultyMultiplier | src/logic/planner.js:56 | the multiplier lies in 1..1.8 for confidence 1..5; it is 1.0 exactly at confidence 5 and 1.8 exactly at confidence 1 (the formula's value; the comment at line 52 says 2.0) |
| Scoring.MultiplierDecreasing | src/logic/planner.js:56 | more confidence gives a strictly smaller multiplier |
| Scoring.ScoreSubject | src/logic/planner.js:50-59 | the scored subject keeps the subject's fields, and its score is credits times multiplier and, for a subject inside the form's ranges, between the credits and 1.8 times them |
| Scoring.ScoreSubjects | src/logic/planner.js:50-59 | the scoring map keeps length and input order, scoring each subject |
| Scoring.TotalScoreIsReduce | src/logic/planner.js:61 | the left-to-right `reduce` over the scores, started at any value, adds exactly the score sum to it |
| Scoring.TotalCreditsIsReduce | src/logic/planner.js:141 | the left-to-right `reduce` over the credits, started at any value, adds exactly the credit sum to it |
| Scoring.TotalScoreBounds | src/logic/planner.js:61 | for valid subjects, the score sum lies between the credit sum and 1.8 times the credit sum |
| Scoring.AllocateOne | src/logic/planner.js:64-73 | for a non-zero total score, one allocation keeps the subject and score; its ratio times the total score is the score, its hours are available hours times the ratio, and weekly hours times weeks give the hours back |
| Scoring.WeeklyTimesWeeks | src/logic/planner.js:70 | every allocation's weekly hours times the week count give its hours back |
| Scoring.Allocate | src/logic/planner.js:64-73 | the allocation map keeps length and order |
| Scoring.Allocations | src/logic/planner.js:50-73 | one allocation per subject, in input order |
| Scoring.SumRatiosAllocate | src/logic/planner.js:61-66 | for a non-zero common total, the ratio sum of any scored list is its score sum over that total |
| Scoring.SumHoursIsScaledRatios | src/logic/planner.js:66 | the allocated hours sum to the available hours times the ratio sum |
| Scoring.RatiosSumToOne | src/logic/planner.js:61-73 | with at least one subject and a non-zero score sum, the ratios add up to exactly 1 |
| Scoring.HoursSumToAvailable | src/logic/planner.js:61-73 | with at least one subject and a non-zero score sum, the allocated hours add up to exactly the available hours |
| Scoring.HoursFollowScore | src/logic/planner.js:64-73 | with a positive total score and non-negative available hours, a higher-scored subject never gets fewer hours |
| Scoring.SessionType.LabelsDistinct | src/logic/planner.js:158-160 | the three session labels differ, so a label names its session type |
| Scoring.SessionTypeOf | src/logic/planner.js:157-161 | weak-topic work iff confidence <= 2.5, practice iff 2.5 < confidence <= 4, revision iff confidence > 4 |
| Scoring.SessionTypeMonotone | src/logic/planner.js:157-161 | more confidence never moves a subject back towards weak-topic work |
| Ranking.Insert | src/logic/planner.js:97 | one insertion step lengthens the ranked list by one |
| Ranking.InsertMultiset | src/logic/planner.js:97 | an insertion step adds exactly the one element |
| Ranking.WithScoreAppend | src/logic/planner.js:97 | the score class of a concatenation is the concatenation of the classes |
| Ranking.SortByScore | src/logic/planner.js:97 | the ranking is a permutation, in non-increasing score order, with every equal-score subsequence in input order (stable) |
| Ranking.InsertKeepsOrder | src/logic/planner.js:97 | inserting into a descending list keeps it descending |
| Ranking.InsertWithScore | src/logic/planner.js:97 | inserting puts the element at the front of its own score class and leaves every other class unchanged: it passes only strictly higher scores |
| Ranking.StableSortUnique | src/logic/planner.js:97 | two descending lists with the same equal-score subsequences are equal, so a stable sort has one result |
| Ranking.StableSortIsSortByScore | src/logic/planner.js:97 | any stable descending sort of a list is `SortByScore` of it |
| Ranking.SortKeepsHours | src/logic/planner.js:152 | ranking does not change the sum of the allocated hours |
| Ranking.ShiftPast | src/logic/planner.js:97 | the shift loop moves the higher-scored elements one place left, leaves the element at the gap and everything after it alone, and stops before the first element scored no higher than the key |
| Ranking.SiftIn | src/logic/planner.js:97 | one in-place insertion step turns the array suffix into `Insert` of its head into its sorted tail, leaving the prefix alone |
| Ranking.SamePrefix | src/logic/planner.js:97 | an array state agreeing element by element with another below `h` has the same prefix of length `h` |
| Ranking.ScanPassed | src/logic/planner.js:97 | every element the shift loop moved past scores higher than the key |
| Ranking.SpliceShape | src/logic/planner.js:97 | after the shift and the write of the key, the suffix is the old tail with the key spliced in at the gap |
| Ranking.SiftResult | src/logic/planner.js:97 | that splice, placed after the higher-scored elements and before the rest, is `Insert` of the key into the sorted tail |
| Ranking.InsertAt | src/logic/planner.js:97 | insertion puts the element right after the run of higher-scored elements |
| Ranking.SortInPlace | src/logic/planner.js:152 | the in-place sort leaves the array equal to `SortByScore` of its old contents |
| Ranking.SortedCopy | src/logic/planner.js:97 | the copy-and-sort returns `SortByScore` of the allocations |
| Schedule.SessionFor | src/logic/planner.js:119-125 | a session names its subject, takes a third of the day's budget, and has the type the subject's confidence gives |
| Schedule.SlotIndex | src/logic/planner.js:114 | with at least one subject, the round-robin index is a valid position in the ranked list |
| Schedule.RotationShape | src/logic/planner.js:110-126 | with subjects, a day has three sessions, slot `j` of day `i` going to ranked subject `(3i+j) mod n`; without subjects, a day has none |
| Schedule.DayHoursAddUp | src/logic/planner.js:119 | with at least one subject, a day's sessions share out exactly its budget |
| Schedule.SlotOfPosition | src/logic/planner.js:114 | with at least one subject, flattened position `q` is slot `q mod 3` of day `q div 3` and picks subject `q mod n` |
| Schedule.RotationHitsWindow | src/logic/planner.js:112-115 | any `n` consecutive (day, slot) positions include one naming ranked subject `k` |
| Schedule.RotationNoRepeat | src/logic/planner.js:112-115 | no subject is named twice within `n` consecutive positions |
| Schedule.RotationCoversDays | src/logic/planner.js:112-115 | any `ceil(n/3)` consecutive days give ranked subject `k` a slot |
| Schedule.FillSessions | src/logic/planner.js:110-126 | the slot loop, skipping every slot when there is no subject, returns exactly the day's rotation |
| Schedule.BuildDay | src/logic/planner.js:80-132 | one iteration of the day loop builds day `i` from a freshly ranked copy of the allocations |
| Schedule.CloseWeek | src/logic/planner.js:135-138 | closing a week after its seventh day, or after the last day, yields the next week of the grouping |
| Schedule.BuildWeeks | src/logic/planner.js:76-139 | the day loop returns the days `0 .. totalDays-1` cut into weeks of seven |
| Schedule.ChunkShape | src/logic/planner.js:135-138 | `ceil(days/7)` weeks, every one of seven days but the last, which has one to seven |
| Schedule.ChunkTail | src/logic/planner.js:135-138 | after the first seven days, the grouping continues on the rest |
| Schedule.ChunkFlatten | src/logic/planner.js:128-138 | joining the weeks gives back the days in order |
| Schedule.ScheduleHoursAddUp | src/logic/planner.js:79-126 | with subjects, the sessions of the whole calendar add up to the capacity |
| Schedule.CalendarShape | src/logic/planner.js:76-139 | for a horizon of at least one day, the calendar has as many weeks as the week count, seven days a week but the last, and holds days `0 .. totalDays-1` in order |
| Schedule.CalendarCoverage | src/logic/planner.js:112-125 | within any `ceil(n/3)` consecutive days, ranked subject `k` has a session of its kind on that day's budget |
| Formatting.Digits | src/logic/planner.js:141 | decimal digits, without a leading zero, with one digit exactly below 10 |
| Formatting.DigitsRoundTrip | src/logic/planner.js:141 | reading the digits back gives the number |
| Formatting.RoundHalfUp | src/logic/planner.js:141 | the rounded tenths lie within half a unit of the value, halves going up |
| Formatting.ToFixed1 | src/logic/planner.js:141 | the text has a minus sign exactly for negative values, then digits without a leading zero, a point and one digit denoting the magnitude rounded to tenths |
| Formatting.UnsignedText | src/logic/planner.js:141 | the unsigned text of `m` tenths is well formed and denotes `m` |
| Planner.GeneratePlan | src/logic/planner.js:25-155 | the generator returns exactly `PlanFor`: capacity, allocations, calendar, summary |
| Planner.PlanShape | src/logic/planner.js:32-33 | the plan has 1 to 53 weeks, as many as the summary says, seven days a week but the last, and the days joined are offsets `0 .. ClampDays(diffDays)-1` |
| Planner.PlanSummary | src/logic/planner.js:145-151 | the total is the capacity, and the weekly average times the week count gives it back |
| Planner.SummaryAverage | src/logic/planner.js:145-151 | the summary record of lines 145-151 on its own, from which `PlanSummary` follows: its total is the capacity and its weekly average times the week count gives the total back |
| Planner.BoostWithCredits | src/logic/planner.js:141 | with a non-zero credit sum the boost text has a minus sign exactly when score/credits exceeds 5, then well-formed digits denoting `5 - score/credits` rounded to tenths |
| Planner.BoostWithoutCredits | src/logic/planner.js:141 | with a zero credit sum the boost is `NaN` for a zero score sum, `-Infinity` for a positive one, `Infinity` for a negative one, never a decimal |
| Planner.PlanAllocations | src/logic/planner.js:152 | the returned allocations are a stable descending permutation of the stage-2 list and, with subjects, their hours add up to the total and each one's weekly hours times the week count give its hours |
| Planner.PlanSessionHours | src/logic/planner.js:79-139 | with subjects, every day has three sessions summing to its budget, and all sessions add up to the total |
| Planner.PlanCoverage | src/logic/planner.js:97-125 | within any `ceil(n/3)` consecutive days, every returned allocation has a session of its kind |
| Planner.PlanWithoutSubjects | src/logic/planner.js:25-155 | with no subject the plan has no allocation, every day is empty, the capacity is still computed, and the boost is `NaN` |
| Planner.BoostRange | src/logic/planner.js:141 | for subjects inside the form's ranges, the boost is three characters, unsigned, and denotes 3.2 to 4.0 |

## Left out

- The React form, the result view, PDF export and every other file of the application are not part of this model.
- The `Date` arithmetic (`new Date()`, `addDays`, `differenceInDays`, `getDay`) is replaced by the parameters `diffDays` and `startDow`, so time zones and daylight-saving days are not modelled. A day records its offset from today instead of a `Date`.
- `console.time`, `console.timeEnd` and the text of `console.warn` are I/O. Only the advisory's condition is modelled (`HorizonCapped`).
- Binary floating point: hours, scores and ratios are exact reals. The sums may therefore differ from the JavaScript doubles in the last bits, and so may `toFixed(1)`, for example on values such as 0.15, whose double lies just below the half, so JavaScript prints `0.1` where exact rounding gives `0.2`. `ToFixed1` rounds the exact value and does not switch to exponent notation at 1e21.
- Planner.GeneratePlan: requires `Allocatable` (no subject, or a non-zero score sum). With subjects whose scores sum to 0 the source divides every score by 0: `NaN` for a zero score, `Infinity` or `-Infinity` otherwise, and the hours follow; exact reals cannot represent these values.
- Ranking.SortInPlace: the engine's own sorting algorithm is replaced by an insertion sort. `StableSortUnique` shows that any stable descending sort gives the same order, so only the order is modelled and not the algorithm's steps.
- `name` and `preferredTime` are carried in `Input` but never read, as in the source.
- Capacity.ClampDays: the model assumes a valid target date. With an invalid or empty date `differenceInDays` gives `NaN`, so `totalDays` and `weeks` are `NaN`, both loops run zero times, and the source returns `weeks: []`, `totalHours: 0` and `avgHoursPerWeek: NaN`; the 1..365 bound does not hold then.

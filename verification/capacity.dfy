/** Stage 1 of the planner: the clamped horizon, the week count and the
    total number of study hours available over the horizon. The calendar is
    abstract: `diffDays` is the whole-day difference between the target date
    and today, and `startDow` is today's weekday (0 = Sunday, 6 = Saturday),
    so day `i` of the plan falls on weekday `(startDow + i) % 7`. */
module Capacity {

  /** The safety ceiling on the horizon, in days. */
  const MaxDays: int := 365

  const DaysPerWeek: int := 7

  /** `Math.max(1, Math.min(diffDays, 365))`. */
  function ClampDays(diffDays: int): (d: int)
    ensures 1 <= d <= MaxDays
    ensures 1 <= diffDays <= MaxDays ==> d == diffDays
    ensures diffDays < 1 ==> d == 1
    ensures diffDays > MaxDays ==> d == MaxDays
  {
    var capped := if diffDays < MaxDays then diffDays else MaxDays;
    if 1 < capped then capped else 1
  }

  /** The condition of the "too far" advisory. */
  predicate HorizonCapped(diffDays: int)
  {
    diffDays > MaxDays
  }

  /** The advisory is raised exactly when the clamp shortens a target that
      lies in the future. */
  lemma HorizonCappedIffShortened(diffDays: int)
    ensures HorizonCapped(diffDays) <==> ClampDays(diffDays) < diffDays
  {
  }

  /** `Math.ceil(totalDays / 7)` for a positive day count. */
  function WeekCount(totalDays: int): (w: nat)
    requires totalDays >= 1
    ensures w >= 1
    ensures DaysPerWeek * (w - 1) < totalDays <= DaysPerWeek * w
  {
    (totalDays + DaysPerWeek - 1) / DaysPerWeek
  }

  /** The weekday of day `i` of the plan. */
  function DayOfWeek(startDow: int, i: nat): (d: int)
    requires 0 <= startDow < 7
    ensures 0 <= d < 7
  {
    (startDow + i) % 7
  }

  /** Sunday (0) and Saturday (6) are weekend days. */
  predicate IsWeekend(dow: int)
  {
    dow == 0 || dow == 6
  }

  /** The label `format(date, 'EEEE')` gives for a weekday, in English (the
      date library's default locale). */
  function DayName(dow: int): string
    requires 0 <= dow < 7
  {
    ["Sunday", "Monday", "Tuesday", "Wednesday", "Thursday", "Friday", "Saturday"][dow]
  }

  /** Every name is a full name ending in "day", and the only names starting
      with 'S' are those of the weekend days. */
  lemma DayNameShape(dow: int)
    requires 0 <= dow < 7
    ensures var n := DayName(dow);
      |n| >= 6 && n[|n| - 3..] == "day" && (n[0] == 'S' <==> IsWeekend(dow))
  {
  }

  /** Different weekdays get different names. */
  lemma DayNamesDistinct(d1: int, d2: int)
    requires 0 <= d1 < 7 && 0 <= d2 < 7 && d1 != d2
    ensures DayName(d1) != DayName(d2)
  {
  }

  /** The hour budget of day `i`: the weekend figure on Saturday and Sunday,
      the weekday figure otherwise. */
  function DailyHours(startDow: int, i: nat, weekdayHours: real, weekendHours: real): real
    requires 0 <= startDow < 7
  {
    Budget(DayOfWeek(startDow, i), weekdayHours, weekendHours)
  }

  /** Saturdays and Sundays take the weekend budget, every other day the
      weekday budget. */
  lemma WeekendBudget(startDow: int, i: nat, weekdayHours: real, weekendHours: real)
    requires 0 <= startDow < 7
    ensures IsWeekend(DayOfWeek(startDow, i)) ==> DailyHours(startDow, i, weekdayHours, weekendHours) == weekendHours
    ensures !IsWeekend(DayOfWeek(startDow, i)) ==> DailyHours(startDow, i, weekdayHours, weekendHours) == weekdayHours
  {
  }

  /** Sum of the daily budgets of days `0 .. n-1`. */
  function AvailableHours(startDow: int, n: nat, weekdayHours: real, weekendHours: real): real
    requires 0 <= startDow < 7
  {
    if n == 0 then 0.0
    else AvailableHours(startDow, n - 1, weekdayHours, weekendHours) + DailyHours(startDow, n - 1, weekdayHours, weekendHours)
  }

  /** The capacity loop: accumulates the daily budget of each day of the horizon. */
  method TotalAvailableHours(totalDays: nat, startDow: int, weekdayHours: real, weekendHours: real)
    returns (total: real)
    requires 0 <= startDow < 7
    ensures total == AvailableHours(startDow, totalDays, weekdayHours, weekendHours)
  {
    total := 0.0;
    var i := 0;
    while i < totalDays
      invariant 0 <= i <= totalDays
      invariant total == AvailableHours(startDow, i, weekdayHours, weekendHours)
    {
      var dow := (startDow + i) % 7;
      var isWeekend := dow == 0 || dow == 6;
      total := total + if isWeekend then weekendHours else weekdayHours;
      i := i + 1;
    }
  }

  /** The budget of a day on weekday `dow`. */
  function Budget(dow: int, weekdayHours: real, weekendHours: real): real
  {
    if IsWeekend(dow) then weekendHours else weekdayHours
  }

  /** A week starting on any weekday has five weekdays and two weekend days. */
  lemma WeekFromWeekday(r: int, weekdayHours: real, weekendHours: real)
    requires 0 <= r < 7
    ensures Budget(r, weekdayHours, weekendHours) + Budget((r + 1) % 7, weekdayHours, weekendHours)
          + Budget((r + 2) % 7, weekdayHours, weekendHours) + Budget((r + 3) % 7, weekdayHours, weekendHours)
          + Budget((r + 4) % 7, weekdayHours, weekendHours) + Budget((r + 5) % 7, weekdayHours, weekendHours)
          + Budget((r + 6) % 7, weekdayHours, weekendHours)
         == 5.0 * weekdayHours + 2.0 * weekendHours
  {
    if r == 0 {
    } else if r == 1 {
    } else if r == 2 {
    } else if r == 3 {
    } else if r == 4 {
    } else if r == 5 {
    } else {
    }
  }

  /** One more day adds the budget of its weekday. */
  lemma AvailableStep(startDow: int, m: nat, weekdayHours: real, weekendHours: real)
    requires 0 <= startDow < 7
    ensures AvailableHours(startDow, m + 1, weekdayHours, weekendHours)
         == AvailableHours(startDow, m, weekdayHours, weekendHours) + Budget(DayOfWeek(startDow, m), weekdayHours, weekendHours)
  {
  }

  /** The first seven days hold five weekdays and two weekend days. */
  lemma FirstWeek(startDow: int, weekdayHours: real, weekendHours: real)
    requires 0 <= startDow < 7
    ensures AvailableHours(startDow, 7, weekdayHours, weekendHours) == 5.0 * weekdayHours + 2.0 * weekendHours
  {
    WeekFromWeekday(startDow, weekdayHours, weekendHours);
    AvailableStep(startDow, 0, weekdayHours, weekendHours);
    AvailableStep(startDow, 1, weekdayHours, weekendHours);
    AvailableStep(startDow, 2, weekdayHours, weekendHours);
    AvailableStep(startDow, 3, weekdayHours, weekendHours);
    AvailableStep(startDow, 4, weekdayHours, weekendHours);
    AvailableStep(startDow, 5, weekdayHours, weekendHours);
    AvailableStep(startDow, 6, weekdayHours, weekendHours);
  }

  /** Any seven consecutive days hold five weekdays and two weekend days:
      the day a window gains has the weekday of the day it loses. */
  lemma {:induction false} SevenDays(startDow: int, n: nat, weekdayHours: real, weekendHours: real)
    requires 0 <= startDow < 7
    ensures AvailableHours(startDow, n + 7, weekdayHours, weekendHours)
         == AvailableHours(startDow, n, weekdayHours, weekendHours) + 5.0 * weekdayHours + 2.0 * weekendHours
  {
    if n == 0 {
      FirstWeek(startDow, weekdayHours, weekendHours);
    } else {
      SevenDays(startDow, n - 1, weekdayHours, weekendHours);
      AvailableStep(startDow, n + 6, weekdayHours, weekendHours);
      AvailableStep(startDow, n - 1, weekdayHours, weekendHours);
      assert DayOfWeek(startDow, n + 6) == DayOfWeek(startDow, n - 1);
    }
  }
}

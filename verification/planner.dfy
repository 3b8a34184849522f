/** The plan generator as a whole: capacity, scoring and allocation, the
    session calendar grouped into weeks, the summary and the ranked
    allocations. Today's date enters as `startDow` (today's weekday) and the
    target date as `diffDays` (whole days from today to the target). */
module Planner {
  import opened Scoring
  import opened Ranking
  import opened Capacity
  import opened Schedule
  import opened Formatting

  /** The form data the planner reads; `name` and `preferredTime` are carried
      but never consulted. */
  datatype Input = Input(
    name: string,
    subjects: seq<Subject>,
    weekdayHours: real,
    weekendHours: real,
    preferredTime: string)

  datatype Summary = Summary(totalHours: real, weeks: nat, avgHoursPerWeek: real, confidenceBoost: string)

  datatype Plan = Plan(summary: Summary, allocations: seq<Allocation>, weeks: seq<seq<Day>>)

  /** `(5 - totalScore / totalCredits).toFixed(1)`, including what JavaScript
      gives for a zero credit sum: `NaN` for 0/0, and an infinite quotient
      turned round by the subtraction from 5. */
  function BoostText(totalScore: real, totalCredits: real): string
  {
    if totalCredits == 0.0 then
      if totalScore == 0.0 then "NaN"
      else if totalScore > 0.0 then "-Infinity"
      else "Infinity"
    else ToFixed1(5.0 - totalScore / totalCredits)
  }

  /** With a non-zero credit sum the boost is `5 - score / credits` written
      to one decimal: signed exactly when the quotient exceeds 5, and denoting
      the magnitude rounded to tenths. */
  lemma BoostWithCredits(totalScore: real, totalCredits: real)
    requires totalCredits != 0.0
    ensures var t := BoostText(totalScore, totalCredits);
      var x := 5.0 - totalScore / totalCredits;
      var body := if x < 0.0 && |t| > 0 then t[1..] else t;
      && ((|t| > 0 && t[0] == '-') <==> totalScore / totalCredits > 5.0)
      && WellFormedUnsigned(body) && TenthsOf(body) == MagnitudeTenths(x)
  {
  }

  /** With a zero credit sum the boost is not a number: `NaN` when the score
      sum is zero as well, otherwise an infinity whose sign is opposite to the
      score sum's, since the quotient's infinity is subtracted from 5. */
  lemma BoostWithoutCredits(totalScore: real)
    ensures BoostText(totalScore, 0.0) == "NaN" <==> totalScore == 0.0
    ensures BoostText(totalScore, 0.0) == "-Infinity" <==> totalScore > 0.0
    ensures BoostText(totalScore, 0.0) == "Infinity" <==> totalScore < 0.0
    ensures !WellFormedUnsigned(BoostText(totalScore, 0.0))
  {
    var t := BoostText(totalScore, 0.0);
    assert t[|t| - 2] != '.';
  }

  /** The weekly average times the week count gives back the total. */
  predicate AverageSplit(s: Summary)
  {
    s.avgHoursPerWeek * (s.weeks as real) == s.totalHours
  }

  /** The summary block of the plan: the capacity, the week count, the
      weekly average and the boost. */
  function SummaryFor(input: Input, diffDays: int, startDow: int): Summary
    requires 0 <= startDow < 7
  {
    var totalDays: nat := ClampDays(diffDays);
    var weeks := WeekCount(totalDays);
    var total := AvailableHours(startDow, totalDays, input.weekdayHours, input.weekendHours);
    Summary(total, weeks, total / weeks as real,
            BoostText(TotalScore(ScoreSubjects(input.subjects)), TotalCredits(input.subjects)))
  }

  /** The plan the generator returns, stage by stage. */
  function PlanFor(input: Input, diffDays: int, startDow: int): Plan
    requires 0 <= startDow < 7 && Allocatable(input.subjects)
  {
    var totalDays: nat := ClampDays(diffDays);
    var summary := SummaryFor(input, diffDays, startDow);
    var allocations := Allocations(input.subjects, summary.totalHours, summary.weeks);
    Plan(summary,
         SortByScore(allocations),
         ChunkWeeks(ScheduleDays(SortByScore(allocations), totalDays, startDow, input.weekdayHours, input.weekendHours)))
  }

  /** The generator: stage 1 (capacity), stage 2 (scores and allocations),
      stage 3 (the calendar), then the summary; the returned allocations are
      the stage-2 list sorted in place by descending score. */
  method GeneratePlan(input: Input, diffDays: int, startDow: int) returns (plan: Plan)
    requires 0 <= startDow < 7
    requires Allocatable(input.subjects)
    ensures plan == PlanFor(input, diffDays, startDow)
  {
    var totalDays: nat := ClampDays(diffDays);
    var weeks := WeekCount(totalDays);
    var totalAvailableHours := TotalAvailableHours(totalDays, startDow, input.weekdayHours, input.weekendHours);
    var subjectScores := ScoreSubjects(input.subjects);
    var totalScore := ReduceScores(0.0, subjectScores);
    TotalScoreIsReduce(0.0, subjectScores);
    assert totalScore == TotalScore(subjectScores);
    // With no subject the `map` divides nothing, so the zero sum is never a divisor.
    var allocations := if subjectScores == [] then [] else Allocate(subjectScores, totalScore, totalAvailableHours, weeks);
    assert allocations == Allocations(input.subjects, totalAvailableHours, weeks);
    var weeksData := BuildWeeks(allocations, totalDays, startDow, input.weekdayHours, input.weekendHours);
    var totalCredits := ReduceCredits(0.0, input.subjects);
    TotalCreditsIsReduce(0.0, input.subjects);
    assert totalCredits == TotalCredits(input.subjects);
    var boost := BoostText(totalScore, totalCredits);
    var ranked := new Allocation[|allocations|](k requires 0 <= k < |allocations| => allocations[k]);
    assert ranked[..] == allocations;
    SortInPlace(ranked);
    var summary := Summary(totalAvailableHours, weeks, totalAvailableHours / weeks as real, boost);
    assert summary == SummaryFor(input, diffDays, startDow);
    plan := Plan(summary, ranked[..], weeksData);
  }

  /** The horizon: between one and 53 weeks, as many weeks in the calendar as
      the summary reports, every week of seven days but the last (which has
      one to seven), and the days, joined up, are days 0 .. totalDays - 1 in
      order. */
  lemma PlanShape(input: Input, diffDays: int, startDow: int)
    requires 0 <= startDow < 7 && Allocatable(input.subjects)
    ensures var p := PlanFor(input, diffDays, startDow);
      && 1 <= p.summary.weeks <= 53
      && |p.weeks| == p.summary.weeks
      && (forall w :: 0 <= w < |p.weeks| - 1 ==> |p.weeks[w]| == 7)
      && 1 <= |p.weeks[|p.weeks| - 1]| <= 7
      && |Flatten(p.weeks)| == ClampDays(diffDays)
      && (forall i :: 0 <= i < |Flatten(p.weeks)| ==> Flatten(p.weeks)[i].offset == i)
  {
    var p := PlanFor(input, diffDays, startDow);
    var totalDays: nat := ClampDays(diffDays);
    CalendarShape(p.allocations, totalDays, startDow, input.weekdayHours, input.weekendHours);
  }

  /** The summary: the total is the capacity of the horizon, and the weekly
      average times the week count gives it back. */
  lemma PlanSummary(input: Input, diffDays: int, startDow: int)
    requires 0 <= startDow < 7 && Allocatable(input.subjects)
    ensures var p := PlanFor(input, diffDays, startDow);
      && p.summary.totalHours == AvailableHours(startDow, ClampDays(diffDays), input.weekdayHours, input.weekendHours)
      && AverageSplit(p.summary)
  {
    SummaryAverage(input, diffDays, startDow);
    assert PlanFor(input, diffDays, startDow).summary == SummaryFor(input, diffDays, startDow);
  }

  lemma SummaryAverage(input: Input, diffDays: int, startDow: int)
    requires 0 <= startDow < 7
    ensures var s := SummaryFor(input, diffDays, startDow);
      && s.totalHours == AvailableHours(startDow, ClampDays(diffDays), input.weekdayHours, input.weekendHours)
      && AverageSplit(s)
  {
    var s := SummaryFor(input, diffDays, startDow);
    AverageTimesCount(s);
  }

  lemma AverageTimesCount(s: Summary)
    requires s.weeks > 0 && s.avgHoursPerWeek == s.totalHours / s.weeks as real
    ensures AverageSplit(s)
  {
  }

  /** The returned allocations: one per subject, in descending score order,
      ties in input order, and each subject's weekly hours times the week
      count is its total. With at least one subject their hours add up to
      the summary's total. */
  lemma PlanAllocations(input: Input, diffDays: int, startDow: int)
    requires 0 <= startDow < 7 && Allocatable(input.subjects)
    ensures var p := PlanFor(input, diffDays, startDow);
      var unsorted := Allocations(input.subjects, p.summary.totalHours, p.summary.weeks);
      && |p.allocations| == |input.subjects|
      && multiset(p.allocations) == multiset(unsorted)
      && NonIncreasing(p.allocations)
      && (forall v :: WithScore(p.allocations, v) == WithScore(unsorted, v))
      && (forall a :: a in p.allocations ==> WeeklySplit(a, p.summary.weeks))
      && (|input.subjects| > 0 ==> SumTotalHours(p.allocations) == p.summary.totalHours)
  {
    var p := PlanFor(input, diffDays, startDow);
    var unsorted := Allocations(input.subjects, p.summary.totalHours, p.summary.weeks);
    forall a | a in p.allocations
      ensures WeeklySplit(a, p.summary.weeks)
    {
      assert a in multiset(p.allocations);
      assert a in unsorted;
      WeeklyTimesWeeks(input.subjects, p.summary.totalHours, p.summary.weeks, a);
    }
    if |input.subjects| > 0 {
      SortKeepsHours(unsorted);
      HoursSumToAvailable(input.subjects, p.summary.totalHours, p.summary.weeks);
    }
  }

  /** With at least one subject every day has three sessions sharing out
      its budget, and the sessions of the whole calendar add up to the
      summary's total. */
  lemma PlanSessionHours(input: Input, diffDays: int, startDow: int)
    requires 0 <= startDow < 7 && Allocatable(input.subjects) && |input.subjects| > 0
    ensures var p := PlanFor(input, diffDays, startDow);
      && (forall i :: 0 <= i < |Flatten(p.weeks)| ==>
            |Flatten(p.weeks)[i].sessions| == SessionsPerDay
            && SessionHours(Flatten(p.weeks)[i].sessions) == DailyHours(startDow, i, input.weekdayHours, input.weekendHours))
      && ScheduledHours(Flatten(p.weeks)) == p.summary.totalHours
  {
    var p := PlanFor(input, diffDays, startDow);
    var totalDays: nat := ClampDays(diffDays);
    var ranked := p.allocations;
    var days := ScheduleDays(ranked, totalDays, startDow, input.weekdayHours, input.weekendHours);
    ChunkFlatten(days);
    forall i | 0 <= i < |days|
      ensures |days[i].sessions| == SessionsPerDay
      ensures SessionHours(days[i].sessions) == DailyHours(startDow, i, input.weekdayHours, input.weekendHours)
    {
      DayHoursAddUp(ranked, i, DailyHours(startDow, i, input.weekdayHours, input.weekendHours));
    }
    ScheduleHoursAddUp(ranked, totalDays, startDow, input.weekdayHours, input.weekendHours);
  }

  /** Rotation coverage: within any `ceil(n / 3)` consecutive days of the
      calendar, every one of the `n` ranked subjects has a session of its
      kind, on the slot the round-robin gives it. */
  lemma PlanCoverage(input: Input, diffDays: int, startDow: int, k: nat, d: nat) returns (i: nat, j: nat)
    requires 0 <= startDow < 7 && Allocatable(input.subjects)
    requires k < |input.subjects|
    requires d + (|input.subjects| + SessionsPerDay - 1) / SessionsPerDay <= ClampDays(diffDays)
    ensures var p := PlanFor(input, diffDays, startDow);
      var a := p.allocations[k];
      && d <= i < d + (|input.subjects| + SessionsPerDay - 1) / SessionsPerDay
      && i < |Flatten(p.weeks)| && j < |Flatten(p.weeks)[i].sessions|
      && Flatten(p.weeks)[i].sessions[j].subject == a.subject.name
      && Flatten(p.weeks)[i].sessions[j].kind == SessionTypeOf(a.subject.confidence)
  {
    var totalDays: nat := ClampDays(diffDays);
    var total := AvailableHours(startDow, totalDays, input.weekdayHours, input.weekendHours);
    var ranked := SortByScore(Allocations(input.subjects, total, WeekCount(totalDays)));
    i, j := CalendarCoverage(ranked, totalDays, startDow, input.weekdayHours, input.weekendHours, k, d);
  }

  /** With no subject the planner does not fail: no allocation, every day
      of the calendar empty, the capacity still computed, and a `NaN` boost. */
  lemma PlanWithoutSubjects(input: Input, diffDays: int, startDow: int)
    requires 0 <= startDow < 7 && input.subjects == []
    ensures var p := PlanFor(input, diffDays, startDow);
      && p.allocations == []
      && (forall i :: 0 <= i < |Flatten(p.weeks)| ==> Flatten(p.weeks)[i].sessions == [])
      && p.summary.totalHours == AvailableHours(startDow, ClampDays(diffDays), input.weekdayHours, input.weekendHours)
      && p.summary.confidenceBoost == "NaN"
  {
    var p := PlanFor(input, diffDays, startDow);
    var totalDays: nat := ClampDays(diffDays);
    var days := ScheduleDays(p.allocations, totalDays, startDow, input.weekdayHours, input.weekendHours);
    ChunkFlatten(days);
    assert ScoreSubjects(input.subjects) == [];
  }

  lemma QuotientBounds(s: real, c: real)
    requires c > 0.0 && c <= s <= 1.8 * c
    ensures 3.2 <= 5.0 - s / c <= 4.0
  {
    assert s / c >= 1.0 by {
      assert s / c * c == s;
    }
    assert s / c <= 1.8 by {
      assert s / c * c == s;
    }
  }

  lemma {:induction false} CreditsPositive(subjects: seq<Subject>)
    requires |subjects| > 0 && forall i :: 0 <= i < |subjects| ==> ValidSubject(subjects[i])
    ensures TotalCredits(subjects) >= 1.0
  {
    if |subjects| > 1 {
      CreditsPositive(subjects[1..]);
    } else {
      assert subjects[1..] == [];
    }
  }

  /** For subjects inside the form's slider ranges the boost lies between
      3.2 and 4.0: it is shown unsigned, as one digit, a point and one digit,
      denoting 32 to 40 tenths. */
  lemma BoostRange(subjects: seq<Subject>)
    requires |subjects| > 0 && forall i :: 0 <= i < |subjects| ==> ValidSubject(subjects[i])
    ensures var text := BoostText(TotalScore(ScoreSubjects(subjects)), TotalCredits(subjects));
      && |text| == 3 && text[0] != '-'
      && WellFormedUnsigned(text) && 32 <= TenthsOf(text) <= 40
  {
    var s, c := TotalScore(ScoreSubjects(subjects)), TotalCredits(subjects);
    TotalScoreBounds(subjects);
    CreditsPositive(subjects);
    QuotientBounds(s, c);
    var x := 5.0 - s / c;
    var m := MagnitudeTenths(x);
    assert 32 <= m <= 40;
    UnsignedText(m);
  }
}

/** Subjects, their scores and the proportional split of the available study
    hours (stage 2 of the planner), plus the confidence-driven session type. */
module Scoring {

  /** A subject as entered by the user: credits weigh the workload, confidence
      (1 = weakest, 5 = strongest) is self-reported mastery. */
  datatype Subject = Subject(id: string, name: string, credits: real, confidence: real)

  /** A subject extended with its difficulty multiplier and score. */
  datatype ScoredSubject = ScoredSubject(subject: Subject, difficultyMultiplier: real, score: real)

  /** A scored subject extended with its share of the available hours. */
  datatype Allocation = Allocation(
    subject: Subject,
    difficultyMultiplier: real,
    score: real,
    totalHours: real,
    weeklyHours: real,
    ratio: real)

  /** The kind of a study session, chosen from the subject's confidence. */
  datatype SessionType = LearnWeakTopics | PracticeProblems | Revision
  {
    /** The label the planner puts in the session record. */
    function Label(): string
    {
      match this
      case LearnWeakTopics => "Learn Weak Topics"
      case PracticeProblems => "Practice Problems"
      case Revision => "Revision"
    }

    /** Different session types carry different labels. */
    lemma LabelsDistinct(other: SessionType)
      requires this != other
      ensures Label() != other.Label()
    {
      match this
      case LearnWeakTopics => assert Label()[0] == 'L';
      case PracticeProblems => assert Label()[0] == 'P';
      case Revision => assert Label()[0] == 'R';
    }

    /** Position on the weak-to-strong scale, used to state monotonicity. */
    function Rank(): nat
    {
      match this
      case LearnWeakTopics => 0
      case PracticeProblems => 1
      case Revision => 2
    }
  }

  /** The slider range of the input form: credits 1..6, confidence 1..5. */
  predicate ValidSubject(s: Subject)
  {
    1.0 <= s.credits <= 6.0 && 1.0 <= s.confidence <= 5.0
  }

  /** `1 + (5 - confidence) / 5`: 1.0 at full confidence, 1.8 at confidence 1,
      and strictly decreasing in between. */
  function DifficultyMultiplier(confidence: real): (m: real)
    ensures 1.0 <= confidence <= 5.0 ==> 1.0 <= m <= 1.8
    ensures m == 1.0 <==> confidence == 5.0
    ensures m == 1.8 <==> confidence == 1.0
  {
    1.0 + (5.0 - confidence) / 5.0
  }

  lemma MulMonotone(c: real, x: real, y: real)
    requires c >= 0.0 && x <= y
    ensures c * x <= c * y
  {
  }

  lemma MultiplierDecreasing(c1: real, c2: real)
    requires c1 < c2
    ensures DifficultyMultiplier(c1) > DifficultyMultiplier(c2)
  {
  }

  /** The subject with its score `credits * multiplier`; the subject's own
      fields are carried over unchanged. */
  function ScoreSubject(s: Subject): (r: ScoredSubject)
    ensures r.subject == s
    ensures r.difficultyMultiplier == DifficultyMultiplier(s.confidence)
    ensures r.score == s.credits * r.difficultyMultiplier
    ensures ValidSubject(s) ==> s.credits <= r.score <= 1.8 * s.credits
  {
    var m := DifficultyMultiplier(s.confidence);
    assert ValidSubject(s) ==> s.credits * 1.0 <= s.credits * m <= s.credits * 1.8 by {
      if ValidSubject(s) {
        MulMonotone(s.credits, 1.0, m);
        MulMonotone(s.credits, m, 1.8);
      }
    }
    ScoredSubject(s, m, s.credits * m)
  }

  /** The scoring map over the subject list, in input order. */
  function ScoreSubjects(subjects: seq<Subject>): (r: seq<ScoredSubject>)
    ensures |r| == |subjects|
    ensures forall i :: 0 <= i < |subjects| ==> r[i] == ScoreSubject(subjects[i])
  {
    seq(|subjects|, i requires 0 <= i < |subjects| => ScoreSubject(subjects[i]))
  }

  /** Sum of the scores, as the reduce over the scored list computes it. */
  function TotalScore(scored: seq<ScoredSubject>): real
  {
    if scored == [] then 0.0 else scored[0].score + TotalScore(scored[1..])
  }

  /** Sum of the credits of the input subjects. */
  function TotalCredits(subjects: seq<Subject>): real
  {
    if subjects == [] then 0.0 else subjects[0].credits + TotalCredits(subjects[1..])
  }

  /** `reduce((sum, s) => sum + s.score, acc)`: the left-to-right running sum. */
  function ReduceScores(acc: real, scored: seq<ScoredSubject>): real
    decreases |scored|
  {
    if scored == [] then acc else ReduceScores(acc + scored[0].score, scored[1..])
  }

  /** `reduce((sum, s) => sum + s.credits, acc)`. */
  function ReduceCredits(acc: real, subjects: seq<Subject>): real
    decreases |subjects|
  {
    if subjects == [] then acc else ReduceCredits(acc + subjects[0].credits, subjects[1..])
  }

  /** The reduce over the scores, started at any accumulator, adds the score
      sum to it; started at 0 it is the score sum. */
  lemma {:induction false} TotalScoreIsReduce(acc: real, scored: seq<ScoredSubject>)
    ensures ReduceScores(acc, scored) == acc + TotalScore(scored)
    decreases |scored|
  {
    if scored != [] {
      TotalScoreIsReduce(acc + scored[0].score, scored[1..]);
    }
  }

  /** The same for the reduce over the credits. */
  lemma {:induction false} TotalCreditsIsReduce(acc: real, subjects: seq<Subject>)
    ensures ReduceCredits(acc, subjects) == acc + TotalCredits(subjects)
    decreases |subjects|
  {
    if subjects != [] {
      TotalCreditsIsReduce(acc + subjects[0].credits, subjects[1..]);
    }
  }

  /** The weekly figure of an allocation times the week count gives back its
      total hours. */
  predicate WeeklySplit(a: Allocation, weeks: nat)
  {
    a.weeklyHours * weeks as real == a.totalHours
  }

  /** The allocation of one scored subject, given the total score, the hours
      available over the whole horizon and the number of weeks. */
  function AllocateOne(s: ScoredSubject, totalScore: real, available: real, weeks: nat): (a: Allocation)
    requires totalScore != 0.0 && weeks > 0
    ensures a.subject == s.subject && a.score == s.score
    ensures a.difficultyMultiplier == s.difficultyMultiplier
    ensures a.ratio * totalScore == s.score
    ensures a.totalHours == available * a.ratio
    ensures WeeklySplit(a, weeks)
  {
    var ratio := s.score / totalScore;
    var totalHours := available * ratio;
    Allocation(s.subject, s.difficultyMultiplier, s.score, totalHours, totalHours / weeks as real, ratio)
  }

  /** The allocation map over the scored list, in input order. */
  function Allocate(scored: seq<ScoredSubject>, totalScore: real, available: real, weeks: nat): (r: seq<Allocation>)
    requires totalScore != 0.0 && weeks > 0
    ensures |r| == |scored|
    ensures forall i :: 0 <= i < |scored| ==> r[i] == AllocateOne(scored[i], totalScore, available, weeks)
  {
    seq(|scored|, i requires 0 <= i < |scored| => AllocateOne(scored[i], totalScore, available, weeks))
  }

  /** The precondition of the ratio division: with at least one subject the
      total score must be non-zero (the input form's credits of at least 1
      guarantee it). With no subject no ratio is ever computed. */
  predicate Allocatable(subjects: seq<Subject>)
  {
    |subjects| == 0 || TotalScore(ScoreSubjects(subjects)) != 0.0
  }

  /** Stage 2 as a whole: score every subject and split the available hours. */
  function Allocations(subjects: seq<Subject>, available: real, weeks: nat): (r: seq<Allocation>)
    requires Allocatable(subjects) && weeks > 0
    ensures |r| == |subjects|
    ensures forall i :: 0 <= i < |r| ==> r[i].subject == subjects[i]
  {
    if subjects == [] then []
    else
      var scored := ScoreSubjects(subjects);
      Allocate(scored, TotalScore(scored), available, weeks)
  }

  function SumRatios(allocs: seq<Allocation>): real
  {
    if allocs == [] then 0.0 else allocs[0].ratio + SumRatios(allocs[1..])
  }

  function SumTotalHours(allocs: seq<Allocation>): real
  {
    if allocs == [] then 0.0 else allocs[0].totalHours + SumTotalHours(allocs[1..])
  }

  /** Summing ratios over any list of scored subjects gives its score sum
      divided by the common total score. */
  lemma {:induction false} SumRatiosAllocate(scored: seq<ScoredSubject>, totalScore: real, available: real, weeks: nat)
    requires totalScore != 0.0 && weeks > 0
    ensures SumRatios(Allocate(scored, totalScore, available, weeks)) == TotalScore(scored) / totalScore
  {
    if scored != [] {
      SumRatiosAllocate(scored[1..], totalScore, available, weeks);
      var r := Allocate(scored, totalScore, available, weeks);
      assert r[1..] == Allocate(scored[1..], totalScore, available, weeks);
      assert r[0].ratio == scored[0].score / totalScore;
    }
  }

  /** Summing the allocated hours gives the available hours times the ratio sum. */
  lemma {:induction false} SumHoursIsScaledRatios(allocs: seq<Allocation>, available: real)
    requires forall i :: 0 <= i < |allocs| ==> allocs[i].totalHours == available * allocs[i].ratio
    ensures SumTotalHours(allocs) == available * SumRatios(allocs)
  {
    if allocs != [] {
      SumHoursIsScaledRatios(allocs[1..], available);
    }
  }

  /** Every allocation's weekly hours times the week count give back its
      total hours. */
  lemma WeeklyTimesWeeks(subjects: seq<Subject>, available: real, weeks: nat, a: Allocation)
    requires Allocatable(subjects) && weeks > 0
    requires a in Allocations(subjects, available, weeks)
    ensures WeeklySplit(a, weeks)
  {
    var scored := ScoreSubjects(subjects);
    var t := TotalScore(scored);
    var r := Allocate(scored, t, available, weeks);
    assert a in r;
    var k :| 0 <= k < |r| && r[k] == a;
    var _ := AllocateOne(scored[k], t, available, weeks);
  }

  /** With at least one subject, the ratios of the allocations add up to one. */
  lemma RatiosSumToOne(subjects: seq<Subject>, available: real, weeks: nat)
    requires Allocatable(subjects) && weeks > 0 && |subjects| > 0
    ensures SumRatios(Allocations(subjects, available, weeks)) == 1.0
  {
    var scored := ScoreSubjects(subjects);
    var t := TotalScore(scored);
    SumRatiosAllocate(scored, t, available, weeks);
    DivSelf(t);
  }

  lemma DivSelf(t: real)
    requires t != 0.0
    ensures t / t == 1.0
  {
  }

  /** With at least one subject, the allocated hours add up to exactly the
      hours available over the horizon. */
  lemma HoursSumToAvailable(subjects: seq<Subject>, available: real, weeks: nat)
    requires Allocatable(subjects) && weeks > 0 && |subjects| > 0
    ensures SumTotalHours(Allocations(subjects, available, weeks)) == available
  {
    var allocs := Allocations(subjects, available, weeks);
    RatiosSumToOne(subjects, available, weeks);
    SumHoursIsScaledRatios(allocs, available);
  }

  /** More score never means fewer hours: with a positive total score and
      non-negative available hours, allocated hours follow the score order. */
  lemma HoursFollowScore(subjects: seq<Subject>, available: real, weeks: nat, i: nat, j: nat)
    requires Allocatable(subjects) && weeks > 0
    requires |subjects| > 0 && TotalScore(ScoreSubjects(subjects)) > 0.0 && available >= 0.0
    requires i < |subjects| && j < |subjects|
    ensures var a := Allocations(subjects, available, weeks);
      a[i].score >= a[j].score ==> a[i].totalHours >= a[j].totalHours
  {
    var scored := ScoreSubjects(subjects);
    var t := TotalScore(scored);
    if scored[i].score >= scored[j].score {
      AllocateOneFollowsScore(scored[i], scored[j], t, available, weeks);
    }
  }

  lemma AllocateOneFollowsScore(s1: ScoredSubject, s2: ScoredSubject, t: real, available: real, weeks: nat)
    requires t > 0.0 && weeks > 0 && available >= 0.0 && s1.score >= s2.score
    ensures AllocateOne(s1, t, available, weeks).totalHours >= AllocateOne(s2, t, available, weeks).totalHours
  {
    var r1, r2 := s1.score / t, s2.score / t;
    RatioFollowsScore(r1, r2, s1.score, s2.score, t);
    MulMonotone(available, r2, r1);
  }

  lemma RatioFollowsScore(r1: real, r2: real, s1: real, s2: real, t: real)
    requires t > 0.0 && r1 * t == s1 && r2 * t == s2 && s1 >= s2
    ensures r1 >= r2
  {
  }

  /** Every valid subject contributes a score between its credits and 1.8
      times its credits, so the score sum lies between the credit sum and 1.8
      times the credit sum. */
  lemma {:induction false} TotalScoreBounds(subjects: seq<Subject>)
    requires forall i :: 0 <= i < |subjects| ==> ValidSubject(subjects[i])
    ensures TotalCredits(subjects) <= TotalScore(ScoreSubjects(subjects)) <= 1.8 * TotalCredits(subjects)
  {
    if subjects != [] {
      TotalScoreBounds(subjects[1..]);
      assert ScoreSubjects(subjects)[1..] == ScoreSubjects(subjects[1..]);
      var _ := ScoreSubject(subjects[0]);
    }
  }

  /** The session type of a subject with the given confidence:
      weak topics up to 2.5, practice up to 4, revision above. */
  function SessionTypeOf(confidence: real): (t: SessionType)
    ensures t == LearnWeakTopics <==> confidence <= 2.5
    ensures t == PracticeProblems <==> 2.5 < confidence <= 4.0
    ensures t == Revision <==> 4.0 < confidence
  {
    if confidence <= 2.5 then LearnWeakTopics
    else if confidence <= 4.0 then PracticeProblems
    else Revision
  }

  /** More confidence never moves a subject back towards weak-topic work. */
  lemma SessionTypeMonotone(c1: real, c2: real)
    requires c1 <= c2
    ensures SessionTypeOf(c1).Rank() <= SessionTypeOf(c2).Rank()
  {
  }
}

/** Stage 3 of the planner: the day-by-day session calendar. Every day takes
    the allocations ranked by score and fills three session slots by a
    round-robin over the flattened (day, slot) position; days are grouped
    into weeks of seven, the last week holding the remainder. */
module Schedule {
  import opened Scoring
  import opened Ranking
  import opened Capacity

  const SessionsPerDay: nat := 3

  /** One study block: the subject's name, its share of the day's budget
      and the kind of work. */
  datatype Session = Session(subject: string, hours: real, kind: SessionType)

  /** One calendar day of the plan; `offset` is the number of days after
      today (the date itself is `today + offset`). */
  datatype Day = Day(offset: nat, dayName: string, sessions: seq<Session>)

  /** The session a ranked allocation gets in a day with the given budget. */
  function SessionFor(a: Allocation, dailyHours: real): (s: Session)
    ensures s.subject == a.subject.name
    ensures s.hours * (SessionsPerDay as real) == dailyHours
    ensures s.kind == SessionTypeOf(a.subject.confidence)
  {
    Session(a.subject.name, dailyHours / SessionsPerDay as real, SessionTypeOf(a.subject.confidence))
  }

  /** `(i * sessionsPerDay + j) % subjectsCount`: the round-robin position of
      slot `j` of day `i`, defined only when there is a subject. */
  function SlotIndex(n: nat, i: nat, j: nat): (k: nat)
    requires n > 0
    ensures k < n
  {
    (i * SessionsPerDay + j) % n
  }

  /** The sessions of day `i`: three rotating slots, or none at all when
      there is no subject to pick. */
  function DaySessions(ranked: seq<Allocation>, i: nat, dailyHours: real): seq<Session>
  {
    if |ranked| == 0 then []
    else seq(SessionsPerDay, j requires 0 <= j < SessionsPerDay =>
               SessionFor(ranked[SlotIndex(|ranked|, i, j)], dailyHours))
  }

  /** Day `i` of the plan. */
  function MakeDay(ranked: seq<Allocation>, i: nat, startDow: int, weekdayHours: real, weekendHours: real): Day
    requires 0 <= startDow < 7
  {
    Day(i, DayName(DayOfWeek(startDow, i)),
        DaySessions(ranked, i, DailyHours(startDow, i, weekdayHours, weekendHours)))
  }

  /** Days `0 .. totalDays-1` of the plan, in order. */
  function ScheduleDays(ranked: seq<Allocation>, totalDays: nat, startDow: int, weekdayHours: real, weekendHours: real): seq<Day>
    requires 0 <= startDow < 7
  {
    seq(totalDays, i requires 0 <= i < totalDays => MakeDay(ranked, i, startDow, weekdayHours, weekendHours))
  }

  function Min(a: int, b: int): int
  {
    if a <= b then a else b
  }

  /** The days cut into consecutive weeks of seven; the last takes the rest. */
  function ChunkWeeks(days: seq<Day>): seq<seq<Day>>
  {
    var count := (|days| + 6) / 7;
    seq(count, w requires 0 <= w < count => days[7 * w .. Min(7 * w + 7, |days|)])
  }

  /** The weeks joined back together. */
  function Flatten(weeks: seq<seq<Day>>): seq<Day>
  {
    if weeks == [] then [] else weeks[0] + Flatten(weeks[1..])
  }

  /** Total session hours of a day. */
  function SessionHours(sessions: seq<Session>): real
  {
    if sessions == [] then 0.0 else sessions[0].hours + SessionHours(sessions[1..])
  }

  /** Total session hours of a sequence of days. */
  function ScheduledHours(days: seq<Day>): real
  {
    if days == [] then 0.0 else ScheduledHours(days[..|days| - 1]) + SessionHours(days[|days| - 1].sessions)
  }

  // ----- the rotation -----

  /** With at least one subject every day has exactly three sessions, slot
      `j` of day `i` going to ranked subject `(3i + j) mod n`; with none,
      every day is empty. */
  lemma RotationShape(ranked: seq<Allocation>, i: nat, dailyHours: real)
    ensures |ranked| == 0 ==> DaySessions(ranked, i, dailyHours) == []
    ensures |ranked| > 0 ==> |DaySessions(ranked, i, dailyHours)| == SessionsPerDay
    ensures |ranked| > 0 ==> forall j :: 0 <= j < SessionsPerDay ==>
      DaySessions(ranked, i, dailyHours)[j].subject == ranked[(i * SessionsPerDay + j) % |ranked|].subject.name
  {
  }

  /** The sessions of a day with at least one subject share out exactly the
      day's budget. */
  lemma DayHoursAddUp(ranked: seq<Allocation>, i: nat, dailyHours: real)
    requires |ranked| > 0
    ensures SessionHours(DaySessions(ranked, i, dailyHours)) == dailyHours
  {
    var s := DaySessions(ranked, i, dailyHours);
    assert s[1..][1..][1..] == [];
    assert SessionHours(s[1..][1..]) == s[2].hours;
    assert SessionHours(s[1..]) == s[1].hours + s[2].hours;
    assert SessionHours(s) == s[0].hours + s[1].hours + s[2].hours;
    assert s[0].hours * 3.0 == dailyHours && s[1].hours * 3.0 == dailyHours && s[2].hours * 3.0 == dailyHours;
  }

  lemma MulAtLeast(m: int, n: int)
    requires m >= 1 && n > 0
    ensures m * n >= n
  {
    assert m * n == (m - 1) * n + n;
  }

  lemma MulSmall(m: int, n: int)
    requires n > 0 && -n < m * n < n
    ensures m == 0
  {
    if m >= 1 {
      MulAtLeast(m, n);
    } else if m <= -1 {
      MulAtLeast(-m, n);
    }
  }

  /** Euclidean division has one quotient and one remainder. */
  lemma DivModUnique(q: int, n: int, a: int, k: int)
    requires n > 0 && q == a * n + k && 0 <= k < n
    ensures q % n == k
  {
    var a2, k2 := q / n, q % n;
    assert q == a2 * n + k2;
    assert (a - a2) * n == k2 - k;
    MulSmall(a - a2, n);
  }

  /** Position `q` of the flattened (day, slot) sequence is slot `q % 3` of
      day `q / 3`, and it picks ranked subject `q mod n`. */
  lemma SlotOfPosition(n: nat, q: nat)
    requires n > 0
    ensures SlotIndex(n, q / SessionsPerDay, q % SessionsPerDay) == q % n
  {
    assert (q / SessionsPerDay) * SessionsPerDay + q % SessionsPerDay == q;
  }

  /** Any `n` consecutive positions include one that picks subject `k`. */
  lemma WindowHits(n: nat, p: nat, k: nat) returns (q: nat)
    requires 0 < n && k < n
    ensures p <= q < p + n && q % n == k
  {
    var d, r := p / n, p % n;
    assert p == d * n + r;
    if r <= k {
      q := p + (k - r);
      DivModUnique(q, n, d, k);
    } else {
      q := p + (n - r) + k;
      assert (d + 1) * n == d * n + n;
      DivModUnique(q, n, d + 1, k);
    }
  }

  /** No remainder repeats within `n` consecutive positions. */
  lemma WindowNoRepeat(n: nat, q1: nat, q2: nat)
    requires 0 < n && q1 <= q2 < q1 + n && q1 % n == q2 % n
    ensures q1 == q2
  {
    var d1, d2, r := q1 / n, q2 / n, q1 % n;
    assert q1 == d1 * n + r;
    assert q2 == d2 * n + r;
    assert (d2 - d1) * n == q2 - q1;
    MulSmall(d2 - d1, n);
  }

  /** Coverage: any `n` consecutive flattened (day, slot) positions include
      one naming ranked subject `k`... */
  lemma RotationHitsWindow(n: nat, p: nat, k: nat) returns (q: nat)
    requires 0 < n && k < n
    ensures p <= q < p + n && SlotIndex(n, q / SessionsPerDay, q % SessionsPerDay) == k
  {
    q := WindowHits(n, p, k);
    SlotOfPosition(n, q);
  }

  /** ... and no two of them name the same subject. */
  lemma RotationNoRepeat(n: nat, p: nat, q1: nat, q2: nat)
    requires n > 0 && p <= q1 < p + n && p <= q2 < p + n
    requires SlotIndex(n, q1 / SessionsPerDay, q1 % SessionsPerDay) == SlotIndex(n, q2 / SessionsPerDay, q2 % SessionsPerDay)
    ensures q1 == q2
  {
    SlotOfPosition(n, q1);
    SlotOfPosition(n, q2);
    if q1 <= q2 {
      WindowNoRepeat(n, q1, q2);
    } else {
      WindowNoRepeat(n, q2, q1);
    }
  }

  /** Any `ceil(n / 3)` consecutive days give every ranked subject a slot. */
  lemma RotationCoversDays(n: nat, d: nat, k: nat) returns (i: nat, j: nat)
    requires 0 < n && k < n
    ensures d <= i < d + (n + SessionsPerDay - 1) / SessionsPerDay
    ensures j < SessionsPerDay && SlotIndex(n, i, j) == k
  {
    var q := WindowHits(n, SessionsPerDay * d, k);
    SlotOfPosition(n, q);
    i, j := q / SessionsPerDay, q % SessionsPerDay;
    assert SessionsPerDay * d <= q < SessionsPerDay * d + n;
  }

  // ----- the week grouping -----

  /** Every week but the last has seven days, the last has one to seven,
      and there are `ceil(|days| / 7)` of them. */
  lemma ChunkShape(days: seq<Day>)
    ensures |ChunkWeeks(days)| == (|days| + 6) / 7
    ensures forall w :: 0 <= w < |ChunkWeeks(days)| - 1 ==> |ChunkWeeks(days)[w]| == 7
    ensures |days| > 0 ==> 1 <= |ChunkWeeks(days)[|ChunkWeeks(days)| - 1]| <= 7
  {
    var c := ChunkWeeks(days);
    forall w | 0 <= w < |c| - 1 ensures |c[w]| == 7 {
      assert 7 * w + 7 <= |days|;
    }
  }

  lemma {:induction false} ChunkTail(days: seq<Day>)
    requires |days| > 7
    ensures ChunkWeeks(days) == [days[..7]] + ChunkWeeks(days[7..])
  {
    var c, t := ChunkWeeks(days), ChunkWeeks(days[7..]);
    assert |c| == |t| + 1;
    forall w | 0 <= w < |t| ensures c[w + 1] == t[w] {
      assert days[7..][7 * w .. Min(7 * w + 7, |days| - 7)] == days[7 * (w + 1) .. Min(7 * (w + 1) + 7, |days|)];
    }
  }

  /** Joining the weeks gives back the days, in order. */
  lemma {:induction false} ChunkFlatten(days: seq<Day>)
    ensures Flatten(ChunkWeeks(days)) == days
    decreases |days|
  {
    if |days| == 0 {
    } else if |days| <= 7 {
      assert (|days| + 6) / 7 == 1;
      assert days[0 .. Min(7, |days|)] == days;
      assert ChunkWeeks(days) == [days];
      assert Flatten([days]) == days + Flatten([]);
    } else {
      ChunkTail(days);
      ChunkFlatten(days[7..]);
      assert ([days[..7]] + ChunkWeeks(days[7..]))[1..] == ChunkWeeks(days[7..]);
      assert days == days[..7] + days[7..];
    }
  }

  /** With at least one subject, the session hours of the whole schedule
      add up to the available hours of the horizon. */
  lemma {:induction false} ScheduleHoursAddUp(ranked: seq<Allocation>, totalDays: nat, startDow: int, weekdayHours: real, weekendHours: real)
    requires 0 <= startDow < 7 && |ranked| > 0
    ensures ScheduledHours(ScheduleDays(ranked, totalDays, startDow, weekdayHours, weekendHours))
         == AvailableHours(startDow, totalDays, weekdayHours, weekendHours)
  {
    if totalDays > 0 {
      var days := ScheduleDays(ranked, totalDays, startDow, weekdayHours, weekendHours);
      ScheduleHoursAddUp(ranked, totalDays - 1, startDow, weekdayHours, weekendHours);
      assert days[..totalDays - 1] == ScheduleDays(ranked, totalDays - 1, startDow, weekdayHours, weekendHours);
      DayHoursAddUp(ranked, totalDays - 1, DailyHours(startDow, totalDays - 1, weekdayHours, weekendHours));
    }
  }

  /** The calendar of `totalDays` days: `ceil(totalDays / 7)` weeks, each
      of seven days but the last (one to seven), holding days
      `0 .. totalDays - 1` in order. */
  lemma CalendarShape(ranked: seq<Allocation>, totalDays: nat, startDow: int, weekdayHours: real, weekendHours: real)
    requires 0 <= startDow < 7 && totalDays >= 1
    ensures var weeks := ChunkWeeks(ScheduleDays(ranked, totalDays, startDow, weekdayHours, weekendHours));
      && |weeks| == WeekCount(totalDays)
      && (forall w :: 0 <= w < |weeks| - 1 ==> |weeks[w]| == 7)
      && 1 <= |weeks[|weeks| - 1]| <= 7
      && |Flatten(weeks)| == totalDays
      && (forall i :: 0 <= i < totalDays ==> Flatten(weeks)[i] == MakeDay(ranked, i, startDow, weekdayHours, weekendHours))
  {
    var days := ScheduleDays(ranked, totalDays, startDow, weekdayHours, weekendHours);
    ChunkShape(days);
    ChunkFlatten(days);
  }

  /** Within any `ceil(n / 3)` consecutive days of the calendar, ranked
      subject `k` has a session of its kind. */
  lemma CalendarCoverage(ranked: seq<Allocation>, totalDays: nat, startDow: int, weekdayHours: real, weekendHours: real, k: nat, d: nat)
    returns (i: nat, j: nat)
    requires 0 <= startDow < 7 && k < |ranked|
    requires d + (|ranked| + SessionsPerDay - 1) / SessionsPerDay <= totalDays
    ensures var days := Flatten(ChunkWeeks(ScheduleDays(ranked, totalDays, startDow, weekdayHours, weekendHours)));
      && d <= i < d + (|ranked| + SessionsPerDay - 1) / SessionsPerDay
      && i < |days| && j < |days[i].sessions|
      && days[i].sessions[j] == SessionFor(ranked[k], DailyHours(startDow, i, weekdayHours, weekendHours))
  {
    var days := ScheduleDays(ranked, totalDays, startDow, weekdayHours, weekendHours);
    ChunkFlatten(days);
    i, j := RotationCoversDays(|ranked|, d, k);
    assert days[i] == MakeDay(ranked, i, startDow, weekdayHours, weekendHours);
  }

  // ----- the loops -----

  /** The slot loop of one day: the rotation, skipping every slot when the
      ranked list is empty (the lookup is then undefined). */
  method FillSessions(ranked: seq<Allocation>, i: nat, dailyHours: real) returns (sessions: seq<Session>)
    ensures sessions == DaySessions(ranked, i, dailyHours)
  {
    var subjectsCount := |ranked|;
    sessions := [];
    for j := 0 to SessionsPerDay
      invariant subjectsCount == 0 ==> sessions == []
      invariant subjectsCount > 0 ==> sessions == DaySessions(ranked, i, dailyHours)[..j]
    {
      if subjectsCount == 0 {
        continue;
      }
      var subjectIndex := (i * SessionsPerDay + j) % subjectsCount;
      var subj := ranked[subjectIndex];
      var sessionDuration := dailyHours / SessionsPerDay as real;
      var session := Session(subj.subject.name, sessionDuration, SessionTypeOf(subj.subject.confidence));
      assert session == DaySessions(ranked, i, dailyHours)[j] by {
        assert subjectIndex == SlotIndex(subjectsCount, i, j);
      }
      sessions := sessions + [session];
    }
  }

  /** One iteration of the day loop: the weekday, the budget, a freshly
      ranked copy of the allocations and the day's sessions. */
  method BuildDay(allocations: seq<Allocation>, i: nat, startDow: int, weekdayHours: real, weekendHours: real)
    returns (day: Day)
    requires 0 <= startDow < 7
    ensures day == MakeDay(SortByScore(allocations), i, startDow, weekdayHours, weekendHours)
  {
    var dayOfWeek := (startDow + i) % 7;
    var isWeekend := dayOfWeek == 0 || dayOfWeek == 6;
    var dailyHours := if isWeekend then weekendHours else weekdayHours;
    var sortedAllocations := SortedCopy(allocations);
    var sessions := FillSessions(sortedAllocations, i, dailyHours);
    day := Day(i, DayName(dayOfWeek), sessions);
  }

  /** Closing the week that starts at day `7k` after day `i` yields week `k`
      of the grouping, and closing it after the last day yields the last week. */
  lemma CloseWeek(days: seq<Day>, k: nat, i: nat)
    requires 7 * k <= i < |days| && i < 7 * k + 7
    requires i + 1 == 7 * k + 7 || i + 1 == |days|
    ensures k < |ChunkWeeks(days)| && ChunkWeeks(days)[k] == days[7 * k .. i + 1]
    ensures i + 1 == |days| ==> |ChunkWeeks(days)| == k + 1
  {
    assert k < (|days| + 6) / 7;
    assert Min(7 * k + 7, |days|) == i + 1;
  }

  /** The day loop: builds each day and closes a week when it holds seven
      days or the last day has been added. */
  method BuildWeeks(allocations: seq<Allocation>, totalDays: nat, startDow: int, weekdayHours: real, weekendHours: real)
    returns (weeksData: seq<seq<Day>>)
    requires 0 <= startDow < 7
    ensures weeksData == ChunkWeeks(ScheduleDays(SortByScore(allocations), totalDays, startDow, weekdayHours, weekendHours))
  {
    ghost var days := ScheduleDays(SortByScore(allocations), totalDays, startDow, weekdayHours, weekendHours);
    ghost var weeks := ChunkWeeks(days);
    weeksData := [];
    var currentWeek: seq<Day> := [];
    var i := 0;
    while i < totalDays
      invariant 0 <= i <= totalDays
      invariant |weeksData| <= |weeks|
      invariant weeksData == weeks[..|weeksData|]
      invariant i < totalDays ==> 7 * |weeksData| + |currentWeek| == i && |currentWeek| < 7
      invariant i < totalDays ==> currentWeek == days[7 * |weeksData| .. i]
      invariant i == totalDays ==> |weeksData| == |weeks|
    {
      var day := BuildDay(allocations, i, startDow, weekdayHours, weekendHours);
      ghost var k := |weeksData|;
      assert currentWeek + [day] == days[7 * k .. i + 1];
      currentWeek := currentWeek + [day];
      if |currentWeek| == 7 || i == totalDays - 1 {
        CloseWeek(days, k, i);
        weeksData := weeksData + [currentWeek];
        currentWeek := [];
      }
      i := i + 1;
    }
  }
}

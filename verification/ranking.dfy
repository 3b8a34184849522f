/** Ranking of allocations by descending score. The planner uses the
    comparator `(a, b) => b.score - a.score` with JavaScript's stable sort,
    so equal scores keep their input order. The order is specified here by a
    stable insertion sort on sequences (SortByScore); the in-place method
    sorts an array to exactly that order, and StableSortUnique shows that
    any stable descending sort gives the same sequence. */
module Ranking {
  import opened Scoring

  /** Scores never increase from left to right. */
  predicate NonIncreasing(s: seq<Allocation>)
  {
    forall i, j :: 0 <= i < j < |s| ==> s[i].score >= s[j].score
  }

  /** The subsequence of the allocations whose score is exactly `v`, in order.
      Equal-score elements are the only ones a comparator cannot tell apart,
      so "stable" means this subsequence is the same before and after sorting. */
  function WithScore(s: seq<Allocation>, v: real): seq<Allocation>
  {
    if s == [] then []
    else (if s[0].score == v then [s[0]] else []) + WithScore(s[1..], v)
  }

  /** Everything in a score class has that score and comes from the sequence. */
  lemma {:induction false} WithScoreMembers(s: seq<Allocation>, v: real, x: Allocation)
    requires x in WithScore(s, v)
    ensures x in s && x.score == v
  {
    if s[0].score == v && x == s[0] {
    } else {
      assert x in WithScore(s[1..], v);
      WithScoreMembers(s[1..], v, x);
    }
  }

  /** Inserts `x` ahead of the first element whose score does not exceed its own. */
  function Insert(x: Allocation, s: seq<Allocation>): (r: seq<Allocation>)
    ensures |r| == |s| + 1
  {
    if s == [] || x.score >= s[0].score then [x] + s
    else [s[0]] + Insert(x, s[1..])
  }

  /** Inserting adds exactly the one element. */
  lemma {:induction false} InsertMultiset(x: Allocation, s: seq<Allocation>)
    ensures multiset(Insert(x, s)) == multiset(s) + multiset{x}
  {
    if s != [] && x.score < s[0].score {
      InsertMultiset(x, s[1..]);
      assert s == [s[0]] + s[1..];
    }
  }

  /** Allocations in descending score order, ties in input order. */
  function SortByScore(s: seq<Allocation>): (r: seq<Allocation>)
    ensures |r| == |s|
    ensures multiset(r) == multiset(s)
    ensures NonIncreasing(r)
    ensures forall v :: WithScore(r, v) == WithScore(s, v)
  {
    if s == [] then []
    else
      var rest := SortByScore(s[1..]);
      InsertStep(s, rest);
      Insert(s[0], rest)
  }

  /** One step of SortByScore: inserting the head into the sorted tail. */
  lemma InsertStep(s: seq<Allocation>, rest: seq<Allocation>)
    requires s != [] && NonIncreasing(rest)
    requires multiset(rest) == multiset(s[1..])
    requires forall v :: WithScore(rest, v) == WithScore(s[1..], v)
    ensures NonIncreasing(Insert(s[0], rest))
    ensures multiset(Insert(s[0], rest)) == multiset(s)
    ensures forall v :: WithScore(Insert(s[0], rest), v) == WithScore(s, v)
  {
    assert s == [s[0]] + s[1..];
    InsertMultiset(s[0], rest);
    InsertKeepsOrder(s[0], rest);
    forall v ensures WithScore(Insert(s[0], rest), v) == WithScore(s, v) {
      InsertWithScore(s[0], rest, v);
    }
  }

  lemma {:induction false} InsertKeepsOrder(x: Allocation, s: seq<Allocation>)
    requires NonIncreasing(s)
    ensures NonIncreasing(Insert(x, s))
  {
    if s != [] && x.score < s[0].score {
      InsertKeepsOrder(x, s[1..]);
      InsertMultiset(x, s[1..]);
      var r := Insert(x, s);
      assert r == [s[0]] + Insert(x, s[1..]);
      forall k | 0 < k < |r| ensures s[0].score >= r[k].score {
        assert r[k] in multiset(Insert(x, s[1..]));
        assert r[k] in multiset(s[1..]) + multiset{x};
        if r[k] != x {
          assert r[k] in s[1..];
        }
      }
    }
  }

  lemma {:induction false} WithScoreAppend(a: seq<Allocation>, b: seq<Allocation>, v: real)
    ensures WithScore(a + b, v) == WithScore(a, v) + WithScore(b, v)
  {
    if a == [] {
      assert a + b == b;
    } else {
      var h := if a[0].score == v then [a[0]] else [];
      assert (a + b)[0] == a[0] && (a + b)[1..] == a[1..] + b;
      calc {
        WithScore(a + b, v);
        h + WithScore(a[1..] + b, v);
        { WithScoreAppend(a[1..], b, v); }
        h + (WithScore(a[1..], v) + WithScore(b, v));
        (h + WithScore(a[1..], v)) + WithScore(b, v);
        WithScore(a, v) + WithScore(b, v);
      }
    }
  }

  /** Inserting `x` adds it to its own score class at the front and leaves
      every other class alone: `x` goes after strictly higher scores only. */
  lemma {:induction false} InsertWithScore(x: Allocation, s: seq<Allocation>, v: real)
    ensures WithScore(Insert(x, s), v) == (if x.score == v then [x] else []) + WithScore(s, v)
  {
    if s == [] || x.score >= s[0].score {
      WithScoreAppend([x], s, v);
    } else {
      InsertWithScore(x, s[1..], v);
      WithScoreAppend([s[0]], Insert(x, s[1..]), v);
    }
  }

  lemma HeadClass(s: seq<Allocation>)
    requires s != []
    ensures WithScore(s, s[0].score) != [] && WithScore(s, s[0].score)[0] == s[0]
  {
  }

  /** Two sequences sorted by descending score with the same equal-score
      subsequences are the same sequence: a stable sort has exactly one result. */
  lemma {:induction false} StableSortUnique(r1: seq<Allocation>, r2: seq<Allocation>)
    requires NonIncreasing(r1) && NonIncreasing(r2)
    requires forall v :: WithScore(r1, v) == WithScore(r2, v)
    ensures r1 == r2
    decreases |r1|
  {
    if r1 != [] {
      HeadClass(r1);
    }
    if r2 != [] {
      HeadClass(r2);
    }
    if r1 == [] && r2 == [] {
    } else if r1 == [] || r2 == [] {
      assert false;
    } else {
      var m1, m2 := r1[0].score, r2[0].score;
      assert r1[0] in WithScore(r1, m1);
      assert r2[0] in WithScore(r2, m2);
      WithScoreMembers(r2, m1, r1[0]);
      WithScoreMembers(r1, m2, r2[0]);
      assert m1 == m2 by {
        var k1 :| 0 <= k1 < |r2| && r2[k1] == r1[0];
        var k2 :| 0 <= k2 < |r1| && r1[k2] == r2[0];
        assert k1 == 0 || m2 >= r2[k1].score;
        assert k2 == 0 || m1 >= r1[k2].score;
      }
      assert r1[0] == r2[0] by {
        assert WithScore(r1, m1)[0] == r1[0];
        assert WithScore(r2, m1)[0] == r2[0];
      }
      forall v ensures WithScore(r1[1..], v) == WithScore(r2[1..], v) {
        var h1 := if r1[0].score == v then [r1[0]] else [];
        assert WithScore(r1, v) == h1 + WithScore(r1[1..], v);
        assert WithScore(r2, v) == h1 + WithScore(r2[1..], v);
        assert WithScore(r1[1..], v) == (h1 + WithScore(r1[1..], v))[|h1|..];
        assert WithScore(r2[1..], v) == (h1 + WithScore(r2[1..], v))[|h1|..];
      }
      StableSortUnique(r1[1..], r2[1..]);
    }
  }

  /** Any descending order that keeps ties in input order is SortByScore's. */
  lemma StableSortIsSortByScore(s: seq<Allocation>, r: seq<Allocation>)
    requires NonIncreasing(r)
    requires forall v :: WithScore(r, v) == WithScore(s, v)
    ensures r == SortByScore(s)
  {
    StableSortUnique(r, SortByScore(s));
  }

  /** Reordering leaves the sum of the allocated hours unchanged. */
  lemma {:induction false} SortKeepsHours(s: seq<Allocation>)
    ensures SumTotalHours(SortByScore(s)) == SumTotalHours(s)
  {
    if s != [] {
      SortKeepsHours(s[1..]);
      InsertAddsHours(s[0], SortByScore(s[1..]));
    }
  }

  lemma {:induction false} InsertAddsHours(x: Allocation, s: seq<Allocation>)
    ensures SumTotalHours(Insert(x, s)) == x.totalHours + SumTotalHours(s)
  {
    if s != [] && x.score < s[0].score {
      InsertAddsHours(x, s[1..]);
      assert Insert(x, s)[1..] == Insert(x, s[1..]);
    } else {
      assert ([x] + s)[1..] == s;
    }
  }

  /** Moves `a[i - 1]` right past every higher-scored element of the
      already sorted suffix `a[i..]`: one insertion step. */
  method SiftIn(a: array<Allocation>, i: nat)
    requires 0 < i <= a.Length
    modifies a
    ensures a[..i - 1] == old(a[..i - 1])
    ensures a[i - 1..] == Insert(old(a[i - 1]), old(a[i..]))
  {
    ghost var before := a[..];
    var key := a[i - 1];
    var j := ShiftPast(a, i, key);
    a[j] := key;
    SamePrefix(before, a[..], i - 1);
    SiftResult(before, a[..], i - 1, j, key);
  }

  /** The prefix the scan never reaches is left as it was. */
  lemma SamePrefix(before: seq<Allocation>, after: seq<Allocation>, h: nat)
    requires h <= |before| && h <= |after|
    requires forall k :: 0 <= k < h ==> after[k] == before[k]
    ensures after[..h] == before[..h]
  {
  }

  /** What the scan and the final write leave from `h` on, stated on
      sequences: `Insert` of the key into the old tail. */
  lemma SiftResult(before: seq<Allocation>, after: seq<Allocation>, h: nat, j: nat, key: Allocation)
    requires h <= j < |before| == |after|
    requires forall k :: h <= k < j ==> after[k] == before[k + 1] && after[k].score > key.score
    requires after[j] == key
    requires forall k :: j < k < |after| ==> after[k] == before[k]
    requires j + 1 == |before| || key.score >= before[j + 1].score
    ensures after[h..] == Insert(key, before[h + 1..])
  {
    var p, m := before[h + 1..], j - h;
    ScanPassed(before, after, h, j, key, p);
    InsertAt(key, p, m);
    SpliceShape(before, after, h, j, key);
  }

  /** Everything the scan moved scores above the key. */
  lemma ScanPassed(before: seq<Allocation>, after: seq<Allocation>, h: nat, j: nat, key: Allocation, p: seq<Allocation>)
    requires h <= j < |before| == |after| && p == before[h + 1..]
    requires forall k :: h <= k < j ==> after[k] == before[k + 1] && after[k].score > key.score
    ensures forall k :: 0 <= k < j - h ==> p[k].score > key.score
  {
    forall k | 0 <= k < j - h ensures p[k].score > key.score {
      assert after[h + k] == before[h + k + 1];
    }
  }

  /** The array from `h` on is the old tail with the key put in at the gap. */
  lemma SpliceShape(before: seq<Allocation>, after: seq<Allocation>, h: nat, j: nat, key: Allocation)
    requires h <= j < |before| == |after|
    requires forall k :: h <= k < j ==> after[k] == before[k + 1]
    requires after[j] == key
    requires forall k :: j < k < |after| ==> after[k] == before[k]
    ensures after[h..] == before[h + 1..][..j - h] + [key] + before[h + 1..][j - h..]
  {
    var p, m := before[h + 1..], j - h;
    var t := p[..m] + [key] + p[m..];
    forall k | 0 <= k < |after| - h ensures after[h..][k] == t[k] {
      if k < m {
        assert after[h + k] == before[h + k + 1];
      } else if k == m {
      } else {
        assert after[h + k] == before[h + k];
      }
    }
  }

  /** The scan of one insertion step: moves every element of the sorted
      suffix `a[i..]` that scores above `key` one place left, and returns the
      index of the gap it leaves. */
  method ShiftPast(a: array<Allocation>, i: nat, key: Allocation) returns (j: nat)
    requires 0 < i <= a.Length
    modifies a
    ensures i - 1 <= j < a.Length
    ensures forall k :: 0 <= k < i - 1 ==> a[k] == old(a[k])
    ensures forall k :: i - 1 <= k < j ==> a[k] == old(a[k + 1]) && a[k].score > key.score
    ensures a[j] == old(a[j]) && forall k :: j < k < a.Length ==> a[k] == old(a[k])
    ensures j + 1 == a.Length || key.score >= a[j + 1].score
  {
    j := i - 1;
    while j + 1 < a.Length && a[j + 1].score > key.score
      invariant i - 1 <= j < a.Length
      invariant forall k :: 0 <= k < i - 1 ==> a[k] == old(a[k])
      invariant forall k :: i - 1 <= k < j ==> a[k] == old(a[k + 1]) && a[k].score > key.score
      invariant a[j] == old(a[j]) && forall k :: j < k < a.Length ==> a[k] == old(a[k])
    {
      a[j] := a[j + 1];
      j := j + 1;
    }
  }

  /** Where the scan stops, the result is Insert's. */
  lemma InsertAt(x: Allocation, p: seq<Allocation>, m: nat)
    requires m <= |p|
    requires forall k :: 0 <= k < m ==> p[k].score > x.score
    requires m == |p| || x.score >= p[m].score
    ensures Insert(x, p) == p[..m] + [x] + p[m..]
  {
    InsertPrefix(x, p, m);
    assert Insert(x, p[m..]) == [x] + p[m..];
  }

  /** Everything the scan passes over stays in front of the inserted element. */
  lemma {:induction false} InsertPrefix(x: Allocation, p: seq<Allocation>, m: nat)
    requires m <= |p|
    requires forall k :: 0 <= k < m ==> p[k].score > x.score
    ensures Insert(x, p) == p[..m] + Insert(x, p[m..])
  {
    if m == 0 {
      assert p[..0] + Insert(x, p[0..]) == Insert(x, p);
    } else {
      InsertPrefix(x, p, m - 1);
      InsertSkip(x, p, m - 1);
    }
  }

  /** One step of the scan: an element scoring above the key is passed over. */
  lemma InsertSkip(x: Allocation, p: seq<Allocation>, m: nat)
    requires m < |p| && p[m].score > x.score
    requires Insert(x, p) == p[..m] + Insert(x, p[m..])
    ensures Insert(x, p) == p[..m + 1] + Insert(x, p[m + 1..])
  {
    var t := p[m..];
    assert t[0] == p[m] && t[1..] == p[m + 1..];
    assert Insert(x, t) == [p[m]] + Insert(x, p[m + 1..]);
    calc {
      Insert(x, p);
      p[..m] + Insert(x, t);
      p[..m] + ([p[m]] + Insert(x, p[m + 1..]));
      (p[..m] + [p[m]]) + Insert(x, p[m + 1..]);
      { assert p[..m + 1] == p[..m] + [p[m]]; }
      p[..m + 1] + Insert(x, p[m + 1..]);
    }
  }

  /** Sorts the array in place, descending by score, keeping ties in order
      (insertion sort from the right end). */
  method SortInPlace(a: array<Allocation>)
    modifies a
    ensures a[..] == SortByScore(old(a[..]))
  {
    ghost var orig := a[..];
    var i := a.Length;
    while i > 0
      invariant 0 <= i <= a.Length
      invariant a[..i] == orig[..i]
      invariant a[i..] == SortByScore(orig[i..])
    {
      SiftIn(a, i);
      assert orig[i - 1..][1..] == orig[i..];
      i := i - 1;
    }
    assert a[..] == a[0..];
  }

  /** `[...allocations].sort(...)`: a sorted copy, the input left as it is. */
  method SortedCopy(allocations: seq<Allocation>) returns (ranked: seq<Allocation>)
    ensures ranked == SortByScore(allocations)
  {
    var a := new Allocation[|allocations|](k requires 0 <= k < |allocations| => allocations[k]);
    assert a[..] == allocations;
    SortInPlace(a);
    ranked := a[..];
  }
}

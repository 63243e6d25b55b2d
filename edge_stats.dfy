/**
 * The statistics the edge-metrics flush computes for one list of samples
 * (`calculateTimes` in lib/agent/metrics/edge/index.js): sort ascending and
 * pick nearest-rank elements, without interpolation.
 */
module EdgeStats {
  import opened Options

  /** Median and 95th percentile; `None` is the `undefined` of an out-of-range read. */
  datatype Times = Times(median: Option<int>, ninetyFive: Option<int>)

  ghost predicate SortedAsc(s: seq<int>) {
    forall i, j :: 0 <= i < j < |s| ==> s[i] <= s[j]
  }

  /** Putting a least element in front of an ascending sequence keeps it ascending. */
  lemma ConsSorted(h: int, t: seq<int>)
    requires SortedAsc(t)
    requires forall j :: 0 <= j < |t| ==> h <= t[j]
    ensures SortedAsc([h] + t)
  {
    var r := [h] + t;
    forall i, j | 0 <= i < j < |r| ensures r[i] <= r[j] {
      assert r[j] == t[j - 1];
      if i > 0 {
        assert r[i] == t[i - 1];
      }
    }
  }

  /** The tail of a sequence holds its elements but the head. */
  lemma MultisetTail(s: seq<int>)
    requires s != []
    ensures multiset(s[1..]) == multiset(s) - multiset{s[0]}
    ensures SortedAsc(s) ==> SortedAsc(s[1..])
  {
    assert s == [s[0]] + s[1..];
  }

  /** A bound on every element of a multiset bounds every element of the sequence. */
  lemma BoundsElements(lo: int, t: seq<int>, x: int, s: seq<int>)
    requires multiset(t) == multiset(s) + multiset{x}
    requires lo <= x && forall j :: 0 <= j < |s| ==> lo <= s[j]
    ensures forall j :: 0 <= j < |t| ==> lo <= t[j]
  {
    forall j | 0 <= j < |t| ensures lo <= t[j] {
      assert t[j] in multiset(t);
      if t[j] != x {
        assert t[j] in multiset(s);
      }
    }
  }

  /** Inserts `x` into an ascending sequence. */
  function Insert(x: int, s: seq<int>): (r: seq<int>)
    requires SortedAsc(s)
    ensures SortedAsc(r)
    ensures multiset(r) == multiset(s) + multiset{x}
  {
    if s == [] || x <= s[0] then
      ConsSorted(x, s);
      [x] + s
    else
      MultisetTail(s);
      var rest := Insert(x, s[1..]);
      BoundsElements(s[0], rest, x, s[1..]);
      ConsSorted(s[0], rest);
      assert s == [s[0]] + s[1..];
      [s[0]] + rest
  }

  /**
   * The ascending rearrangement that `items.sort((a, b) => a - b)` produces.
   * Any sorted permutation is this one (SortedPermutationUnique), so the
   * result does not depend on the sorting algorithm.
   */
  function SortAscending(s: seq<int>): (r: seq<int>)
    ensures SortedAsc(r)
    ensures multiset(r) == multiset(s)
    ensures |r| == |s|
  {
    if s == [] then []
    else
      assert s == [s[0]] + s[1..];
      Insert(s[0], SortAscending(s[1..]))
  }

  /** The first element of an ascending sequence is its least element. */
  lemma SortedHeadLeast(s: seq<int>, x: int)
    requires SortedAsc(s)
    requires x in multiset(s)
    ensures s[0] <= x
  {
    var i :| 0 <= i < |s| && s[i] == x;
  }

  /** Two ascending sequences with the same elements are equal. */
  lemma {:induction false} SortedPermutationUnique(a: seq<int>, b: seq<int>)
    requires SortedAsc(a) && SortedAsc(b)
    requires multiset(a) == multiset(b)
    ensures a == b
  {
    assert |a| == |b| by {
      assert |a| == |multiset(a)| && |b| == |multiset(b)|;
    }
    if a != [] {
      assert a[0] == b[0] by {
        assert a[0] in multiset(a) && b[0] in multiset(b);
        SortedHeadLeast(a, b[0]);
        SortedHeadLeast(b, a[0]);
      }
      assert a[1..] == b[1..] by {
        MultisetTail(a);
        MultisetTail(b);
        SortedPermutationUnique(a[1..], b[1..]);
      }
      forall i | 0 <= i < |a| ensures a[i] == b[i] {
        if i > 0 {
          assert a[i] == a[1..][i - 1] && b[i] == b[1..][i - 1];
        }
      }
    }
  }

  /**
   * `Math.round(p / q)` for a non-negative ratio: the nearest integer, with
   * halves rounded up (JavaScript rounds x to floor(x + 1/2)).
   */
  function RoundHalfUp(p: nat, q: nat): (r: nat)
    requires q > 0
    ensures 2 * q * r <= 2 * p + q < 2 * q * (r + 1)
  {
    var d := 2 * q;
    var m := 2 * p + q;
    assert m == d * (m / d) + m % d;
    m / d
  }

  /**
   * `Math.round(n / 2) - 1`: the median is the element of rank ceil(n/2),
   * so the index is one less than half of n rounded up.
   */
  function MedianIndex(n: nat): (i: int)
    ensures n == 2 * i + 1 || n == 2 * i + 2
  {
    var r := RoundHalfUp(n, 2);
    assert 4 * r <= 2 * n + 2 < 4 * (r + 1);
    r - 1
  }

  /**
   * `Math.round(n * 0.95) - 1`, with 0.95 taken as the exact ratio 95/100:
   * the rank i + 1 is the integer nearest 0.95 n, a half rounded up.
   */
  function NinetyFiveIndex(n: nat): (i: int)
    ensures 100 * (i + 1) - 50 <= 95 * n < 100 * (i + 1) + 50
  {
    var r := RoundHalfUp(95 * n, 100);
    assert 200 * r <= 190 * n + 100 < 200 * (r + 1);
    r - 1
  }

  /** For a non-empty list both indices are in range and the median's comes first. */
  lemma IndicesInRange(n: nat)
    requires n >= 1
    ensures 0 <= MedianIndex(n) <= NinetyFiveIndex(n) <= n - 1
  {
    var r := RoundHalfUp(n, 2);
    var r' := RoundHalfUp(95 * n, 100);
    assert 4 * r <= 2 * n + 2 < 4 * (r + 1);
    assert 200 * r' <= 190 * n + 100 < 200 * (r' + 1);
  }

  /** A JavaScript array read: out-of-range indices give `undefined`. */
  function At(s: seq<int>, i: int): (r: Option<int>)
    ensures r.Some? <==> 0 <= i < |s|
    ensures r.Some? ==> r.value == s[i]
  {
    if 0 <= i < |s| then Some(s[i]) else None
  }

  /** Number of elements of `s` that satisfy `p`. */
  function CountWhere(s: seq<int>, p: int -> bool): (c: nat)
    ensures c <= |s|
  {
    if s == [] then 0 else (if p(s[0]) then 1 else 0) + CountWhere(s[1..], p)
  }

  /** The tests "strictly below v" and "at most v". */
  function Below(v: int): int -> bool { x => x < v }
  function AtMost(v: int): int -> bool { x => x <= v }

  lemma {:induction false} CountWhereAppend(a: seq<int>, b: seq<int>, p: int -> bool)
    ensures CountWhere(a + b, p) == CountWhere(a, p) + CountWhere(b, p)
  {
    if a == [] {
      assert a + b == b;
    } else {
      assert (a + b)[0] == a[0];
      assert (a + b)[1..] == a[1..] + b;
      CountWhereAppend(a[1..], b, p);
    }
  }

  /** Taking the element at `k` out of a sequence removes one occurrence of it. */
  lemma MultisetRemoveAt(b: seq<int>, k: nat)
    requires k < |b|
    ensures multiset(b[..k] + b[k + 1..]) == multiset(b) - multiset{b[k]}
  {
    var front, back := b[..k], b[k + 1..];
    assert b == front + [b[k]] + back;
    assert multiset(b) == multiset(front) + multiset{b[k]} + multiset(back);
    assert multiset(front + back) == multiset(front) + multiset(back);
  }

  lemma CountSingle(v: int, p: int -> bool)
    ensures CountWhere([v], p) == if p(v) then 1 else 0
  {
    assert [v][1..] == [];
  }

  lemma SplitAt(b: seq<int>, k: nat)
    requires k < |b|
    ensures b == b[..k] + [b[k]] + b[k + 1..]
  {
  }

  /** Taking the element at `k` out of a sequence removes its contribution to a count. */
  lemma CountRemoveAt(b: seq<int>, k: nat, p: int -> bool)
    requires k < |b|
    ensures CountWhere(b, p) == CountWhere(b[..k] + b[k + 1..], p) + (if p(b[k]) then 1 else 0)
  {
    var front, back, x := b[..k], b[k + 1..], [b[k]];
    SplitAt(b, k);
    CountWhereAppend(front + x, back, p);
    CountWhereAppend(front, x, p);
    CountSingle(b[k], p);
    CountWhereAppend(front, back, p);
  }

  /** Counting depends only on the elements, not on their order. */
  lemma {:induction false} CountWherePermutation(a: seq<int>, b: seq<int>, p: int -> bool)
    requires multiset(a) == multiset(b)
    ensures CountWhere(a, p) == CountWhere(b, p)
  {
    if a == [] {
      assert |b| == |multiset(b)| == 0;
    } else {
      assert a[0] in multiset(b);
      var k :| 0 <= k < |b| && b[k] == a[0];
      MultisetRemoveAt(b, k);
      CountRemoveAt(b, k, p);
      MultisetTail(a);
      CountWherePermutation(a[1..], b[..k] + b[k + 1..], p);
    }
  }

  lemma {:induction false} CountWhereNone(s: seq<int>, p: int -> bool)
    requires forall i :: 0 <= i < |s| ==> !p(s[i])
    ensures CountWhere(s, p) == 0
  {
    if s != [] {
      CountWhereNone(s[1..], p);
    }
  }

  lemma {:induction false} CountWhereAll(s: seq<int>, p: int -> bool)
    requires forall i :: 0 <= i < |s| ==> p(s[i])
    ensures CountWhere(s, p) == |s|
  {
    if s != [] {
      CountWhereAll(s[1..], p);
    }
  }

  /** In ascending order, fewer than k + 1 elements lie below the one at index k. */
  lemma SortedRankBelow(s: seq<int>, k: nat)
    requires SortedAsc(s) && k < |s|
    ensures CountWhere(s, Below(s[k])) <= k
  {
    var p := Below(s[k]);
    var front, back := s[..k], s[k..];
    assert s == front + back;
    assert forall i :: 0 <= i < |back| ==> !p(back[i]) by {
      forall i | 0 <= i < |back| ensures !p(back[i]) {
        assert back[i] == s[k + i];
      }
    }
    CountWhereAppend(front, back, p);
    CountWhereNone(back, p);
  }

  /** In ascending order, more than k elements are at most the one at index k. */
  lemma SortedRankAtMost(s: seq<int>, k: nat)
    requires SortedAsc(s) && k < |s|
    ensures k < CountWhere(s, AtMost(s[k]))
  {
    var p := AtMost(s[k]);
    var front, back := s[..k + 1], s[k + 1..];
    assert s == front + back;
    assert forall i :: 0 <= i < |front| ==> p(front[i]) by {
      forall i | 0 <= i < |front| ensures p(front[i]) {
        assert front[i] == s[i];
      }
    }
    CountWhereAppend(front, back, p);
    CountWhereAll(front, p);
  }

  /** Nearest rank of the element at index k of the ascending order, counted on the input. */
  lemma NearestRank(items: seq<int>, k: nat)
    requires k < |items|
    ensures var v := SortAscending(items)[k];
      CountWhere(items, Below(v)) <= k < CountWhere(items, AtMost(v))
  {
    var s := SortAscending(items);
    SortedRankBelow(s, k);
    SortedRankAtMost(s, k);
    CountWherePermutation(items, s, Below(s[k]));
    CountWherePermutation(items, s, AtMost(s[k]));
  }

  /**
   * `calculateTimes`: for a non-empty list the median and the 95th percentile
   * are the input elements of nearest rank MedianIndex + 1 and
   * NinetyFiveIndex + 1 (fewer input elements lie strictly below them than
   * the index, more lie at or below), and the median does not exceed the
   * 95th percentile; an empty list gives `undefined` for both.
   */
  function CalculateTimes(items: seq<int>): (t: Times)
    ensures |items| == 0 ==> t == Times(None, None)
    ensures |items| > 0 ==> t.median.Some? && t.ninetyFive.Some?
    ensures |items| > 0 ==> t.median.value in items && t.ninetyFive.value in items
    ensures |items| > 0 ==> t.median.value <= t.ninetyFive.value
    ensures |items| > 0 ==>
      var m := t.median.value;
      CountWhere(items, Below(m)) <= MedianIndex(|items|) < CountWhere(items, AtMost(m))
    ensures |items| > 0 ==>
      var q := t.ninetyFive.value;
      CountWhere(items, Below(q)) <= NinetyFiveIndex(|items|) < CountWhere(items, AtMost(q))
  {
    var sorted := SortAscending(items);
    var n := |sorted|;
    if n == 0 then Times(None, None)
    else
      IndicesInRange(n);
      var mi, pi := MedianIndex(n), NinetyFiveIndex(n);
      NearestRank(items, mi);
      NearestRank(items, pi);
      assert sorted[mi] in multiset(sorted);
      assert sorted[pi] in multiset(sorted);
      Times(At(sorted, mi), At(sorted, pi))
  }

  /** The two statistics read off the sorted copy at the two nearest-rank indices. */
  lemma TimesOfSorted(items: seq<int>, s: seq<int>)
    requires |items| > 0 && s == SortAscending(items)
    ensures CalculateTimes(items) == Times(Some(s[MedianIndex(|s|)]), Some(s[NinetyFiveIndex(|s|)]))
  {
    IndicesInRange(|s|);
  }

  /** Three samples sort to their ascending arrangement. */
  lemma SortThree(items: seq<int>, lo: int, mid: int, hi: int)
    requires lo <= mid <= hi
    requires multiset(items) == multiset{lo, mid, hi}
    ensures SortAscending(items) == [lo, mid, hi]
  {
    SortedPermutationUnique(SortAscending(items), [lo, mid, hi]);
  }

  /** Three samples: the middle one is the median and the largest the 95th percentile. */
  lemma ThreeSamples(items: seq<int>, lo: int, mid: int, hi: int)
    requires lo <= mid <= hi
    requires multiset(items) == multiset{lo, mid, hi}
    ensures CalculateTimes(items) == Times(Some(mid), Some(hi))
  {
    SortThree(items, lo, mid, hi);
    TimesOfSorted(items, [lo, mid, hi]);
    assert MedianIndex(3) == 1 && NinetyFiveIndex(3) == 2;
  }

  /** `[10, 20, 3]` gives median 10 and 95th percentile 20, as the edge test expects. */
  lemma ResponseTimeExample()
    ensures CalculateTimes([10, 20, 3]) == Times(Some(10), Some(20))
  {
    ThreeSamples([10, 20, 3], 3, 10, 20);
  }

  /** `[30, 20, 1]` gives 20 and 30. */
  lemma IncomingDelayExample()
    ensures CalculateTimes([30, 20, 1]) == Times(Some(20), Some(30))
  {
    ThreeSamples([30, 20, 1], 1, 20, 30);
  }

  /** `[40, 60, 3]` gives 40 and 60. */
  lemma OutgoingDelayExample()
    ensures CalculateTimes([40, 60, 3]) == Times(Some(40), Some(60))
  {
    ThreeSamples([40, 60, 3], 3, 40, 60);
  }

  /** A single sample is both the median and the 95th percentile. */
  lemma SingleSample(v: int)
    ensures CalculateTimes([v]) == Times(Some(v), Some(v))
  {
    SortedPermutationUnique(SortAscending([v]), [v]);
    assert MedianIndex(1) == 0 && NinetyFiveIndex(1) == 0;
  }
}

/** The drill statistics' percentile (src/fleetpulse_project/reliability.py), over real numbers. */
module Percentile {
  import opened Wrappers

  datatype PercentileError = NoValues | OutOfRange

  // ---------- sorted(values) ----------

  predicate Sorted(s: seq<real>) {
    forall i, j :: 0 <= i <= j < |s| ==> s[i] <= s[j]
  }

  lemma AppendSorted(front: seq<real>, x: real)
    requires Sorted(front) && forall y :: y in multiset(front) ==> y <= x
    ensures Sorted(front + [x])
  {
    forall i | 0 <= i < |front| ensures front[i] <= x {
      assert front[i] in multiset(front);
    }
  }

  function InsertInOrder(s: seq<real>, x: real): (r: seq<real>)
    requires Sorted(s)
    ensures Sorted(r) && multiset(r) == multiset(s) + multiset{x}
  {
    if s == [] then [x]
    else
      var k := |s| - 1;
      if s[k] <= x then s + [x]
      else
        var front := InsertInOrder(s[..k], x);
        assert s == s[..k] + [s[k]];
        assert forall y :: y in multiset(front) ==> y == x || y in s[..k];
        AppendSorted(front, s[k]);
        front + [s[k]]
  }

  function SortedCopy(s: seq<real>): (r: seq<real>)
    ensures Sorted(r) && multiset(r) == multiset(s) && |r| == |s|
  {
    if s == [] then []
    else
      var k := |s| - 1;
      assert s == s[..k] + [s[k]];
      var r := InsertInOrder(SortedCopy(s[..k]), s[k]);
      assert |multiset(r)| == |multiset(s)|;
      r
  }

  // ---------- the percentile ----------

  function Ceil(x: real): (r: int)
    ensures x <= r as real < x + 1.0
  {
    -((-x).Floor)
  }

  /** `math.ceil(percentile / 100 * n)`, before any claim about where it lies. */
  function Rank(percentile: real, n: nat): (r: int) {
    Ceil(percentile / 100.0 * n as real)
  }

  lemma RankInRange(percentile: real, n: nat)
    requires n > 0 && 0.0 < percentile <= 100.0
    ensures 1 <= Rank(percentile, n) <= n
  {
    var x := percentile / 100.0;
    assert 0.0 < x <= 1.0;
    assert 0.0 < x * n as real <= n as real;
  }

  function NearestRankPercentile(values: seq<real>, percentile: real): (r: Result<real, PercentileError>) {
    if values == [] then Failure(NoValues)
    else if !(0.0 < percentile <= 100.0) then Failure(OutOfRange)
    else
      RankInRange(percentile, |values|);
      Success(SortedCopy(values)[Rank(percentile, |values|) - 1])
  }

  // ---------- what it is for ----------

  /** How many of the values are at most `v`. */
  function AtMost(s: seq<real>, v: real): (r: nat)
    ensures r <= |s|
  {
    if s == [] then 0 else AtMost(s[..|s| - 1], v) + (if s[|s| - 1] <= v then 1 else 0)
  }

  /** At least `percentile` percent of the values are at most `v`. */
  predicate Covers(s: seq<real>, percentile: real, v: real) {
    AtMost(s, v) as real * 100.0 >= percentile * |s| as real
  }

  /** `v` is the least of the values that covers `percentile` percent of them. */
  predicate IsPercentile(s: seq<real>, percentile: real, v: real) {
    && v in s
    && Covers(s, percentile, v)
    && (forall u :: u in s && Covers(s, percentile, u) ==> v <= u)
  }

  lemma {:induction false} AtMostAppend(a: seq<real>, b: seq<real>, v: real)
    ensures AtMost(a + b, v) == AtMost(a, v) + AtMost(b, v)
  {
    if b == [] {
      assert a + b == a;
    } else {
      var k := |b| - 1;
      assert (a + b)[..|a + b| - 1] == a + b[..k];
      AtMostAppend(a, b[..k], v);
    }
  }

  lemma {:induction false} AtMostPermuted(a: seq<real>, b: seq<real>, v: real)
    requires multiset(a) == multiset(b)
    ensures AtMost(a, v) == AtMost(b, v)
    decreases |a|
  {
    if a == [] {
      assert |multiset(b)| == 0;
    } else {
      var k := |a| - 1;
      assert a == a[..k] + [a[k]];
      assert a[k] in multiset(b);
      var j :| 0 <= j < |b| && b[j] == a[k];
      var rest := b[..j] + b[j + 1..];
      assert b == b[..j] + [b[j]] + b[j + 1..];
      assert multiset(rest) == multiset(b) - multiset{a[k]} == multiset(a[..k]);
      AtMostPermuted(a[..k], rest, v);
      AtMostAppend(b[..j], b[j + 1..], v);
      AtMostAppend(b[..j] + [b[j]], b[j + 1..], v);
      AtMostAppend(b[..j], [b[j]], v);
      assert AtMost([b[j]], v) == if b[j] <= v then 1 else 0;
    }
  }

  /** In a sorted list the k-th value is at most `v` exactly when k of the values are. */
  lemma {:induction false} CountByRank(s: seq<real>, v: real, k: nat)
    requires Sorted(s) && 1 <= k <= |s|
    ensures s[k - 1] <= v <==> k <= AtMost(s, v)
  {
    var front := s[..|s| - 1];
    if k <= |front| {
      CountByRank(front, v, k);
    } else if front != [] {
      CountByRank(front, v, |front|);
    }
  }

  lemma CoversByRank(s: seq<real>, percentile: real, v: real)
    requires s != [] && 0.0 < percentile <= 100.0
    ensures Covers(s, percentile, v) <==> Rank(percentile, |s|) <= AtMost(s, v)
  {
    var x := percentile / 100.0 * |s| as real;
    assert x * 100.0 == percentile * |s| as real;
  }

  lemma RankMonotone(p: real, q: real, n: nat)
    requires p <= q
    ensures Rank(p, n) <= Rank(q, n)
  {
    assert p / 100.0 * n as real <= q / 100.0 * n as real;
  }

  /** The value at the rank is one of the values, and it separates those that cover from those that do not. */
  lemma RankSeparates(values: seq<real>, percentile: real, ordered: seq<real>)
    requires values != [] && 0.0 < percentile <= 100.0
    requires Sorted(ordered) && multiset(ordered) == multiset(values) && |ordered| == |values|
    ensures 1 <= Rank(percentile, |values|) <= |values|
    ensures ordered[Rank(percentile, |values|) - 1] in values
    ensures forall u :: Covers(values, percentile, u) <==> ordered[Rank(percentile, |values|) - 1] <= u
  {
    RankInRange(percentile, |values|);
    var k := Rank(percentile, |values|);
    assert ordered[k - 1] in multiset(values);
    forall u ensures Covers(values, percentile, u) <==> ordered[k - 1] <= u {
      CoversByRank(values, percentile, u);
      AtMostPermuted(values, ordered, u);
      CountByRank(ordered, u, k);
    }
  }

  /** The result is the nearest-rank percentile, and every list with a percentile in range has one. */
  lemma PercentileExact(values: seq<real>, percentile: real, v: real)
    ensures NearestRankPercentile(values, percentile) == Success(v)
       <==> values != [] && 0.0 < percentile <= 100.0 && IsPercentile(values, percentile, v)
  {
    if values != [] && 0.0 < percentile <= 100.0 {
      RankSeparates(values, percentile, SortedCopy(values));
    }
  }

  lemma OrderIndependent(a: seq<real>, b: seq<real>, percentile: real)
    requires multiset(a) == multiset(b)
    ensures NearestRankPercentile(a, percentile) == NearestRankPercentile(b, percentile)
  {
    assert |a| == |multiset(a)| == |multiset(b)| == |b|;
    if a != [] && 0.0 < percentile <= 100.0 {
      RankSeparates(a, percentile, SortedCopy(a));
      RankSeparates(a, percentile, SortedCopy(b));
      var k := Rank(percentile, |a|);
      var x, y := SortedCopy(a)[k - 1], SortedCopy(b)[k - 1];
      assert Covers(a, percentile, x) && Covers(a, percentile, y);
    }
  }

  /** A higher percentile never gives a smaller value. */
  lemma PercentileMonotone(values: seq<real>, p: real, q: real)
    requires values != [] && 0.0 < p <= q <= 100.0
    ensures NearestRankPercentile(values, p).Success? && NearestRankPercentile(values, q).Success?
    ensures NearestRankPercentile(values, p).value <= NearestRankPercentile(values, q).value
  {
    RankInRange(p, |values|);
    RankInRange(q, |values|);
    RankMonotone(p, q, |values|);
  }
}

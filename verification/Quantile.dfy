/**
 Quantiles of a histogram by linear interpolation over its cumulative buckets
 (`_quantile_interp` in src/oumigo/service/worker/metrics.py). Numbers are reals; the
 rounding to six places is left out.
*/
module Quantiles {
  import opened Prelude

  /** A bucket's upper edge. */
  datatype Edge = Finite(x: real) | Infinite

  datatype Bucket = Bucket(bound: Edge, count: real)

  predicate AtMost(a: Edge, b: Edge) { b.Infinite? || (a.Finite? && a.x <= b.x) }

  /** What the sorting of the buckets gives; labels like "1" and "1.0", or two spellings of
      infinity, make equal edges. */
  ghost predicate Sorted(pts: seq<Bucket>) {
    forall i, j | 0 <= i < j < |pts| :: AtMost(pts[i].bound, pts[j].bound)
  }

  /** The edge and count before bucket `i`. */
  function Prev(pts: seq<Bucket>, i: nat): (p: Bucket)
    requires i <= |pts|
  {
    if i == 0 then Bucket(Finite(0.0), 0.0) else pts[i - 1]
  }

  /** What crossing the rank in bucket `i` gives. */
  function At(pts: seq<Bucket>, rank: real, i: nat): Option<Edge>
    requires Sorted(pts) && i < |pts|
  {
    var p, b := Prev(pts, i), pts[i];
    if b.bound.Infinite? then (if p.count > 0.0 then Some(p.bound) else None)
    else if b.count - p.count <= 0.0 then Some(b.bound)
    else Some(Finite(Interpolated(p.bound.x, b.bound.x, p.count, b.count, rank)))
  }

  function Interpolated(lo: real, hi: real, before: real, upTo: real, rank: real): real
    requires upTo - before > 0.0
  {
    lo + (hi - lo) * (rank - before) / (upTo - before)
  }

  /** The first bucket from `i` on whose cumulative count reaches the rank. */
  function Crossing(pts: seq<Bucket>, rank: real, i: nat): (c: nat)
    requires i <= |pts|
    ensures i <= c <= |pts|
    ensures c < |pts| ==> pts[c].count >= rank
    ensures forall k | i <= k < c :: pts[k].count < rank
    decreases |pts| - i
  {
    if i == |pts| || pts[i].count >= rank then i else Crossing(pts, rank, i + 1)
  }

  function Quantile(pts: seq<Bucket>, total: real, q: real): Option<Edge>
    requires Sorted(pts)
  {
    if total <= 0.0 || pts == [] then None else ByRank(pts, q * total)
  }

  function ByRank(pts: seq<Bucket>, rank: real): Option<Edge>
    requires Sorted(pts) && pts != []
  {
    var c := Crossing(pts, rank, 0);
    if c < |pts| then At(pts, rank, c) else Some(pts[|pts| - 1].bound)
  }

  /** `_quantile_interp`, as its loop runs. Without samples or buckets there is no quantile; a
      rank beyond every count gives the last edge. */
  method QuantileInterp(pts: seq<Bucket>, total: real, q: real) returns (r: Option<Edge>)
    requires Sorted(pts)
    ensures r == Quantile(pts, total, q)
    ensures total <= 0.0 || pts == [] ==> r.None?
    ensures total > 0.0 && pts != [] && (forall p | p in pts :: p.count < q * total) ==> r == Some(pts[|pts| - 1].bound)
  {
    if total <= 0.0 || pts == [] {
      return None;
    }
    var rank := q * total;
    var prev := Bucket(Finite(0.0), 0.0);
    for i := 0 to |pts|
      invariant prev == Prev(pts, i)
      invariant Crossing(pts, rank, 0) == Crossing(pts, rank, i)
    {
      var b := pts[i];
      if b.count >= rank {
        if b.bound.Infinite? {
          return if prev.count > 0.0 then Some(prev.bound) else None;
        }
        var inBucket := b.count - prev.count;
        if inBucket <= 0.0 {
          return Some(b.bound);
        }
        return Some(Finite(Interpolated(prev.bound.x, b.bound.x, prev.count, b.count, rank)));
      }
      prev := b;
    }
    return Some(pts[|pts| - 1].bound);
  }

  // ---------------------------------------------------------------- on real histograms

  /** Cumulative buckets as a scrape reports them, with one infinite edge at most. */
  ghost predicate Cumulative(pts: seq<Bucket>, total: real) {
    && Sorted(pts) && pts != []
    && (forall i | 0 <= i < |pts| - 1 :: pts[i].bound.Finite?)
    && (forall i | 0 <= i < |pts| :: pts[i].bound.Finite? ==> pts[i].bound.x >= 0.0)
    && (forall i, j | 0 <= i < j < |pts| :: pts[i].count <= pts[j].count)
    && pts[|pts| - 1].count >= total > 0.0
  }

  lemma Proportion(d: real, a: real, b: real)
    requires 0.0 <= a <= b && b > 0.0 && d >= 0.0
    ensures 0.0 <= d * a / b <= d
  {
    var f := a / b;
    assert 0.0 <= f <= 1.0;
    assert d * a / b == d * f;
    assert 0.0 <= d * f;
    assert d * f <= d * 1.0;
  }

  lemma InterpolationIsBetween(lo: real, hi: real, before: real, upTo: real, rank: real)
    requires lo <= hi && before <= rank <= upTo && before < upTo
    ensures lo <= Interpolated(lo, hi, before, upTo, rank) <= hi
  {
    Proportion(hi - lo, rank - before, upTo - before);
  }

  lemma InterpolationIsMonotone(lo: real, hi: real, before: real, upTo: real, r1: real, r2: real)
    requires lo <= hi && before < upTo && r1 <= r2
    ensures Interpolated(lo, hi, before, upTo, r1) <= Interpolated(lo, hi, before, upTo, r2)
  {
    var d, w := hi - lo, upTo - before;
    assert d * (r1 - before) <= d * (r2 - before);
    assert d * (r1 - before) / w <= d * (r2 - before) / w;
  }

  lemma Ranks(total: real, q1: real, q2: real) returns (k1: real, k2: real)
    requires total > 0.0 && 0.0 < q1 <= q2 <= 1.0
    ensures k1 == q1 * total && k2 == q2 * total && 0.0 < k1 <= k2 <= total
  {
    k1, k2 := q1 * total, q2 * total;
    assert k2 <= 1.0 * total;
  }

  /** `x` lies between the edges in the proportion in which the rank lies between the counts. */
  ghost predicate Divides(p: Bucket, b: Bucket, rank: real, x: real)
    requires p.bound.Finite? && b.bound.Finite?
  {
    && p.bound.x <= x <= b.bound.x
    && (x - p.bound.x) * (b.count - p.count) == (b.bound.x - p.bound.x) * (rank - p.count)
  }

  lemma InterpolationDivides(p: Bucket, b: Bucket, rank: real)
    requires p.bound.Finite? && b.bound.Finite? && p.bound.x <= b.bound.x && p.count <= rank <= b.count && p.count < b.count
    ensures Divides(p, b, rank, Interpolated(p.bound.x, b.bound.x, p.count, b.count, rank))
  {
    InterpolationIsBetween(p.bound.x, b.bound.x, p.count, b.count, rank);
    var d, w := (b.bound.x - p.bound.x) * (rank - p.count), b.count - p.count;
    assert d / w * w == d;
  }

  /** Where the quantile of a rank lies: the rank always crosses a bucket, whose own count
      is then positive, and the result divides the bucket as the rank divides its count; past
      the last finite edge it is that edge, or nothing when no sample has one. */
  ghost predicate InCrossedBucket(pts: seq<Bucket>, rank: real)
    requires Sorted(pts) && pts != []
  {
    var c := Crossing(pts, rank, 0);
    && c < |pts| && pts[c].count - Prev(pts, c).count > 0.0
    && var r := ByRank(pts, rank);
      if pts[c].bound.Finite?
      then r.Some? && r.value.Finite? && Divides(Prev(pts, c), pts[c], rank, r.value.x)
      else c == |pts| - 1 && r == if Prev(pts, c).count > 0.0 then Some(Prev(pts, c).bound) else None
  }

  lemma RankIsInCrossedBucket(pts: seq<Bucket>, total: real, rank: real)
    requires Cumulative(pts, total) && 0.0 < rank <= total
    ensures InCrossedBucket(pts, rank)
  {
    var c := Crossing(pts, rank, 0);
    assert c < |pts|;
    var p, b := Prev(pts, c), pts[c];
    assert p.count < rank <= b.count;
    if b.bound.Finite? {
      InterpolationDivides(p, b, rank);
    }
  }

  /** So the branch for a bucket that adds nothing is never taken. */
  lemma QuantileInCrossedBucket(pts: seq<Bucket>, total: real, q: real)
    requires Cumulative(pts, total) && 0.0 < q <= 1.0
    ensures Quantile(pts, total, q) == ByRank(pts, q * total) && InCrossedBucket(pts, q * total)
  {
    var k, _ := Ranks(total, q, q);
    RankIsInCrossedBucket(pts, total, k);
  }

  lemma {:induction false} CrossingGrows(pts: seq<Bucket>, r1: real, r2: real, i: nat)
    requires i <= |pts| && r1 <= r2
    ensures Crossing(pts, r1, i) <= Crossing(pts, r2, i)
    decreases |pts| - i
  {
    if i < |pts| && pts[i].count < r1 {
      CrossingGrows(pts, r1, r2, i + 1);
    }
  }

  lemma EdgesGrow(pts: seq<Bucket>, total: real, i: nat, j: nat)
    requires Cumulative(pts, total) && i < j <= |pts| && pts[i].bound.Finite?
    ensures Prev(pts, j).bound.Finite? ==> pts[i].bound.x <= Prev(pts, j).bound.x
  {
  }

  lemma RanksAreOrdered(pts: seq<Bucket>, total: real, k1: real, k2: real)
    requires Cumulative(pts, total) && 0.0 < k1 <= k2 <= total
    ensures Ordered(ByRank(pts, k1), ByRank(pts, k2))
  {
    RankIsInCrossedBucket(pts, total, k1);
    RankIsInCrossedBucket(pts, total, k2);
    CrossingGrows(pts, k1, k2, 0);
    var c1, c2 := Crossing(pts, k1, 0), Crossing(pts, k2, 0);
    if c1 < c2 {
      EdgesGrow(pts, total, c1, c2);
      assert pts[c1].count > 0.0 && Prev(pts, c2).count > 0.0;
    } else if pts[c1].bound.Finite? {
      var p, b := Prev(pts, c1), pts[c1];
      InterpolationIsMonotone(p.bound.x, b.bound.x, p.count, b.count, k1, k2);
    }
  }

  ghost predicate Ordered(r1: Option<Edge>, r2: Option<Edge>) {
    (r1.Some? <==> r2.Some?)
    && (r1.Some? ==> r1.value.Finite? && r2.value.Finite? && r1.value.x <= r2.value.x)
  }

  lemma QuantileIsByRank(pts: seq<Bucket>, total: real, q: real, k: real)
    requires Cumulative(pts, total) && k == q * total
    ensures Quantile(pts, total, q) == ByRank(pts, k)
  {
  }

  /** A smaller quantile is present exactly when a larger one is, and never exceeds it. */
  lemma QuantilesAreOrdered(pts: seq<Bucket>, total: real, q1: real, q2: real)
    requires Cumulative(pts, total) && 0.0 < q1 <= q2 <= 1.0
    ensures Ordered(Quantile(pts, total, q1), Quantile(pts, total, q2))
  {
    var k1, k2 := Ranks(total, q1, q2);
    RanksAreOrdered(pts, total, k1, k2);
    QuantileIsByRank(pts, total, q1, k1);
    QuantileIsByRank(pts, total, q2, k2);
  }
}

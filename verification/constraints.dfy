/**
 The constraint applicator (dashboard.py, lines 37-40 and 45-47): slider
 bounds, clipping of the growth factor and of the contribution, and the
 derived maximum sales.
 */
module Constraints {
  import opened Segments

  function Min(a: real, b: real): real { if a <= b then a else b }
  function Max(a: real, b: real): real { if a >= b then a else b }

  /**
   `np.clip(a, lo, hi)` on a pandas Series, which defers to `Series.clip`:
   scalar bounds are first put in order, then `a` is moved to the nearest
   end of the interval when it lies outside.
   */
  function Clip(a: real, lo: real, hi: real): (r: real)
    ensures lo <= hi ==> lo <= r <= hi
    ensures hi < lo ==> hi <= r <= lo
    ensures lo <= a <= hi ==> r == a
    ensures a < lo && lo <= hi ==> r == lo
    ensures hi < a && lo <= hi ==> r == hi
  {
    Min(Max(a, Min(lo, hi)), Max(lo, hi))
  }

  /** Swapping the bounds does not change the result. */
  lemma ClipSymmetric(a: real, lo: real, hi: real)
    ensures Clip(a, lo, hi) == Clip(a, hi, lo)
  {
  }

  /** Clipping twice into the same interval is clipping once. */
  lemma ClipIdempotent(a: real, lo: real, hi: real)
    requires lo <= hi
    ensures Clip(Clip(a, lo, hi), lo, hi) == Clip(a, lo, hi)
  {
  }

  /** Clipping preserves order. */
  lemma ClipMonotone(a: real, b: real, lo: real, hi: real)
    requires a <= b
    ensures Clip(a, lo, hi) <= Clip(b, lo, hi)
  {
  }

  /** The four bounds read from the sidebar sliders, as fractions. */
  datatype Bounds = Bounds(
    trendMin: real,
    trendMax: real,
    contributionMin: real,
    contributionMax: real)

  predicate Ordered(b: Bounds)
  {
    b.trendMin <= b.trendMax && b.contributionMin <= b.contributionMax
  }

  /**
   The sliders return whole percentages within their ranges
   (trend min -5..0, trend max 0..10, contribution min 1..10,
   contribution max 10..50), each divided by 100.
   */
  function SliderBounds(trendMinPct: int, trendMaxPct: int,
                        contributionMinPct: int, contributionMaxPct: int): (b: Bounds)
    requires -5 <= trendMinPct <= 0 && 0 <= trendMaxPct <= 10
    requires 1 <= contributionMinPct <= 10 && 10 <= contributionMaxPct <= 50
    ensures Ordered(b)
    ensures -0.05 <= b.trendMin <= 0.0 <= b.trendMax <= 0.10
    ensures 0.01 <= b.contributionMin <= 0.10 <= b.contributionMax <= 0.50
    ensures b.trendMin * 100.0 == trendMinPct as real
    ensures b.trendMax * 100.0 == trendMaxPct as real
    ensures b.contributionMin * 100.0 == contributionMinPct as real
    ensures b.contributionMax * 100.0 == contributionMaxPct as real
  {
    Bounds(trendMinPct as real / 100.0, trendMaxPct as real / 100.0,
           contributionMinPct as real / 100.0, contributionMaxPct as real / 100.0)
  }

  /** The slider defaults: -2%, 5%, 5%, 30%. */
  function DefaultBounds(): (b: Bounds)
    ensures b == Bounds(-0.02, 0.05, 0.05, 0.30)
  {
    SliderBounds(-2, 5, 5, 30)
  }

  /** A row with its three derived columns. */
  datatype Constrained = Constrained(
    row: Segment,
    maxGrowthFactor: real,
    maxContribution: real,
    maxSales: real)

  /** Lines 45-47 for one row. */
  function ConstrainRow(s: Segment, b: Bounds): (r: Constrained)
    ensures r.row == s
    ensures r.maxGrowthFactor == Clip(1.0 + s.trend, 1.0 + b.trendMin, 1.0 + b.trendMax)
    ensures r.maxContribution == Clip(s.contribution, b.contributionMin, b.contributionMax)
    ensures Ordered(b) ==> 1.0 + b.trendMin <= r.maxGrowthFactor <= 1.0 + b.trendMax
    ensures Ordered(b) ==> b.contributionMin <= r.maxContribution <= b.contributionMax
    ensures b.trendMin <= s.trend <= b.trendMax ==> r.maxGrowthFactor == 1.0 + s.trend
    ensures b.contributionMin <= s.contribution <= b.contributionMax ==>
              r.maxContribution == s.contribution
    ensures r.maxSales == s.initialSales as real * r.maxGrowthFactor
  {
    var g := Clip(1.0 + s.trend, 1.0 + b.trendMin, 1.0 + b.trendMax);
    Constrained(s, g, Clip(s.contribution, b.contributionMin, b.contributionMax),
                s.initialSales as real * g)
  }

  /** For non-negative sales, maximum sales lie between the sales grown at the two trend bounds. */
  lemma MaxSalesBounds(s: Segment, b: Bounds)
    requires Ordered(b)
    requires s.initialSales >= 0
    ensures s.initialSales as real * (1.0 + b.trendMin) <= ConstrainRow(s, b).maxSales
    ensures ConstrainRow(s, b).maxSales <= s.initialSales as real * (1.0 + b.trendMax)
  {
    var r := ConstrainRow(s, b);
    var x := s.initialSales as real;
    var g := r.maxGrowthFactor;
    assert r.maxSales == x * g;
    assert 1.0 + b.trendMin <= g <= 1.0 + b.trendMax;
    ScaleMonotone(x, 1.0 + b.trendMin, g);
    ScaleMonotone(x, g, 1.0 + b.trendMax);
  }

  lemma ScaleMonotone(x: real, a: real, c: real)
    requires x >= 0.0 && a <= c
    ensures x * a <= x * c
  {
    var d := c - a;
    assert x * d >= 0.0;
    assert x * c == x * a + x * d;
  }

  /** Lines 45-47 over the whole table. */
  function ApplyConstraints(t: Table, b: Bounds): (r: seq<Constrained>)
    ensures |r| == |t|
    ensures forall i :: 0 <= i < |t| ==> r[i] == ConstrainRow(t[i], b)
  {
    seq(|t|, i requires 0 <= i < |t| => ConstrainRow(t[i], b))
  }

  /** The base columns of a constrained table. */
  function BaseRows(rows: seq<Constrained>): (t: Table)
    ensures |t| == |rows|
  {
    seq(|rows|, i requires 0 <= i < |rows| => rows[i].row)
  }

  /**
   Applying constraints changes neither the row count nor any base column,
   every derived column is within its bounds, and reapplying the same
   bounds to the result yields the same derived columns.
   */
  lemma ApplyConstraintsProperties(t: Table, b: Bounds)
    requires Ordered(b)
    ensures BaseRows(ApplyConstraints(t, b)) == t
    ensures ApplyConstraints(BaseRows(ApplyConstraints(t, b)), b) == ApplyConstraints(t, b)
    ensures forall i :: 0 <= i < |t| ==>
              && 1.0 + b.trendMin <= ApplyConstraints(t, b)[i].maxGrowthFactor <= 1.0 + b.trendMax
              && b.contributionMin <= ApplyConstraints(t, b)[i].maxContribution <= b.contributionMax
  {
    var r := ApplyConstraints(t, b);
    assert BaseRows(r) == t;
  }
}

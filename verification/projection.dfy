/**
 The five-year projection (dashboard.py, lines 64-65): each segment's
 initial sales compounded by its raw, unclipped trend.
 */
module Projection {
  import opened Segments

  /** `x ** n` for a natural exponent. */
  function Pow(x: real, n: nat): real
  {
    if n == 0 then 1.0 else x * Pow(x, n - 1)
  }

  lemma {:induction false} PowNonNegative(x: real, n: nat)
    requires x >= 0.0
    ensures Pow(x, n) >= 0.0
  {
    if n > 0 {
      PowNonNegative(x, n - 1);
      assert x * Pow(x, n - 1) >= 0.0;
    }
  }

  /** Powers add their exponents. */
  lemma {:induction false} PowAdd(x: real, a: nat, b: nat)
    ensures Pow(x, a + b) == Pow(x, a) * Pow(x, b)
    decreases a
  {
    if a > 0 {
      PowAdd(x, a - 1, b);
      assert Pow(x, a + b) == x * Pow(x, (a - 1) + b);
    }
  }

  /** The projection years. */
  const Years: seq<nat> := [1, 2, 3, 4, 5]

  /** `Initial Sales * (1 + Trend) ** year`. */
  function Projected(s: Segment, year: nat): real
  {
    s.initialSales as real * Pow(1.0 + s.trend, year)
  }

  /**
   Year zero would be the initial sales, and each year is the previous one
   grown by the raw trend.
   */
  lemma ProjectionRecurrence(s: Segment, year: nat)
    ensures Projected(s, 0) == s.initialSales as real
    ensures Projected(s, year + 1) == Projected(s, year) * (1.0 + s.trend)
  {
    var x := s.initialSales as real;
    var g := 1.0 + s.trend;
    assert Pow(g, year + 1) == g * Pow(g, year);
    assert x * (g * Pow(g, year)) == (x * Pow(g, year)) * g;
  }

  /** With a non-negative trend and non-negative sales the projection never falls. */
  lemma ProjectionNonDecreasing(s: Segment, year: nat)
    requires s.trend >= 0.0 && s.initialSales >= 0
    ensures Projected(s, year) <= Projected(s, year + 1)
  {
    ProjectionRecurrence(s, year);
    var p := Projected(s, year);
    PowNonNegative(1.0 + s.trend, year);
    assert p >= 0.0;
    assert p * (1.0 + s.trend) - p == p * s.trend;
  }

  /** Compounding over `a + b` years is compounding over `b` years from year `a`. */
  lemma ProjectionCompounds(s: Segment, a: nat, b: nat)
    ensures Projected(s, a + b) == Projected(s, a) * Pow(1.0 + s.trend, b)
  {
    PowAdd(1.0 + s.trend, a, b);
  }

  /**
   One row of the projection table, computed by repeated multiplication by
   the growth factor.
   */
  method ProjectRow(s: Segment) returns (row: seq<real>)
    ensures |row| == |Years|
    ensures forall j :: 0 <= j < |Years| ==> row[j] == Projected(s, Years[j])
    ensures row[0] == s.initialSales as real * (1.0 + s.trend)
    ensures forall j :: 0 < j < |row| ==> row[j] == row[j - 1] * (1.0 + s.trend)
    ensures s.trend >= 0.0 && s.initialSales >= 0 ==>
              forall j :: 0 < j < |row| ==> row[j - 1] <= row[j]
  {
    var growth := 1.0 + s.trend;
    var value := s.initialSales as real;
    row := [];
    var y := 0;
    while y < |Years|
      invariant 0 <= y <= |Years|
      invariant |row| == y
      invariant value == Projected(s, y)
      invariant forall j :: 0 <= j < y ==> row[j] == Projected(s, j + 1)
    {
      ProjectionRecurrence(s, y);
      value := value * growth;
      row := row + [value];
      y := y + 1;
    }
    forall j | 0 < j < |row|
      ensures row[j] == row[j - 1] * growth
      ensures s.trend >= 0.0 && s.initialSales >= 0 ==> row[j - 1] <= row[j]
    {
      ProjectionRecurrence(s, j);
      if s.trend >= 0.0 && s.initialSales >= 0 {
        ProjectionNonDecreasing(s, j);
      }
    }
    assert Pow(growth, 1) == growth * 1.0;
  }

  /** Lines 64-65 for the whole table: one row of five yearly values per segment. */
  method Project(t: Table) returns (p: seq<seq<real>>)
    ensures |p| == |t|
    ensures forall i :: 0 <= i < |t| ==> |p[i]| == |Years|
    ensures forall i, j :: 0 <= i < |t| && 0 <= j < |Years| ==> p[i][j] == Projected(t[i], Years[j])
  {
    p := [];
    var i := 0;
    while i < |t|
      invariant 0 <= i <= |t|
      invariant |p| == i
      invariant forall m :: 0 <= m < i ==> |p[m]| == |Years|
      invariant forall m, j :: 0 <= m < i && 0 <= j < |Years| ==> p[m][j] == Projected(t[m], Years[j])
    {
      var row := ProjectRow(t[i]);
      p := p + [row];
      i := i + 1;
    }
  }
}

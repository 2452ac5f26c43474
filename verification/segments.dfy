/**
 The base table of the dashboard: one record per synthetic business
 segment, with its four categorical labels and its numeric metrics.
 Floating-point columns are exact reals; the sales column is an integer.
 */
module Segments {

  /** A conventional optional value, used for results numpy would turn into NaN. */
  datatype Option<+T> = None | Some(value: T)

  /** One row of the segment table. `margin` is carried but never consumed. */
  datatype Segment = Segment(
    portfolio: string,
    geography: string,
    category: string,
    brand: string,
    name: string,
    initialSales: int,
    margin: real,
    trend: real,
    contribution: real)

  type Table = seq<Segment>

  /** Sum of a column of reals, peeling the last element. */
  function Sum(s: seq<real>): real
  {
    if |s| == 0 then 0.0 else Sum(s[..|s| - 1]) + s[|s| - 1]
  }

  /** Sum of the `initialSales` column, peeling the last row. */
  function TotalSales(t: Table): int
  {
    if |t| == 0 then 0 else TotalSales(t[..|t| - 1]) + t[|t| - 1].initialSales
  }

  /** The `contribution` column of a table. */
  function Contributions(t: Table): (c: seq<real>)
    ensures |c| == |t|
  {
    seq(|t|, i requires 0 <= i < |t| => t[i].contribution)
  }

  predicate AllPositive(s: seq<real>)
  {
    forall i :: 0 <= i < |s| ==> s[i] > 0.0
  }

  predicate AllNonNegative(s: seq<real>)
  {
    forall i :: 0 <= i < |s| ==> s[i] >= 0.0
  }

  predicate NonNegativeSales(t: Table)
  {
    forall i :: 0 <= i < |t| ==> t[i].initialSales >= 0
  }

  /** A column of non-negative reals has a non-negative sum, and each entry is at most that sum. */
  lemma {:induction false} ElementAtMostSum(s: seq<real>, i: int)
    requires AllNonNegative(s)
    requires 0 <= i < |s|
    ensures 0.0 <= s[i] <= Sum(s)
    ensures Sum(s) >= 0.0
    decreases |s|
  {
    var n := |s| - 1;
    assert AllNonNegative(s[..n]);
    if n > 0 {
      SumNonNegative(s[..n]);
    }
    if i < n {
      ElementAtMostSum(s[..n], i);
      assert s[..n][i] == s[i];
    }
  }

  lemma {:induction false} SumNonNegative(s: seq<real>)
    requires AllNonNegative(s)
    ensures Sum(s) >= 0.0
    decreases |s|
  {
    if |s| > 0 {
      assert AllNonNegative(s[..|s| - 1]);
      SumNonNegative(s[..|s| - 1]);
    }
  }

  /** A nonempty column of positive reals has a positive sum. */
  lemma {:induction false} SumPositive(s: seq<real>)
    requires |s| > 0
    requires AllPositive(s)
    ensures Sum(s) > 0.0
  {
    assert AllNonNegative(s[..|s| - 1]);
    SumNonNegative(s[..|s| - 1]);
  }
}

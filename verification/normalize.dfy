/**
 Contribution normalisation and assembly of the base table
 (dashboard.py, lines 20-33). The random draws are parameters.
 */
module Normalize {
  import opened Segments

  /** Element-wise division of a column by a scalar, as numpy's `/=` does. */
  function DivideAll(s: seq<real>, d: real): (r: seq<real>)
    requires d != 0.0
    ensures |r| == |s|
    ensures forall i :: 0 <= i < |s| ==> r[i] * d == s[i]
  {
    seq(|s|, i requires 0 <= i < |s| => s[i] / d)
  }

  /** Dividing every element by `d` divides the sum by `d`. */
  lemma {:induction false} SumDivideAll(s: seq<real>, d: real)
    requires d != 0.0
    ensures Sum(DivideAll(s, d)) == Sum(s) / d
    decreases |s|
  {
    if |s| > 0 {
      var n := |s| - 1;
      var q := DivideAll(s, d);
      assert q[..n] == DivideAll(s[..n], d);
      SumDivideAll(s[..n], d);
      assert Sum(q) == Sum(s[..n]) / d + s[n] / d;
    }
  }

  /**
   `contribution /= contribution.sum()`. An empty column stays empty; a
   nonempty column whose sum is zero yields non-finite values (None).
   */
  function Normalized(cs: seq<real>): (r: Option<seq<real>>)
    ensures r.Some? <==> (|cs| == 0 || Sum(cs) != 0.0)
    ensures r.Some? ==> |r.value| == |cs|
    ensures r.Some? ==> forall i :: 0 <= i < |cs| ==> r.value[i] * Sum(cs) == cs[i]
    ensures r.Some? && |cs| > 0 ==> Sum(r.value) == 1.0
    ensures |cs| > 0 && AllPositive(cs) ==>
              r.Some? && forall i :: 0 <= i < |cs| ==> 0.0 < r.value[i] <= 1.0
  {
    if |cs| == 0 then Some([])
    else if Sum(cs) == 0.0 then
      PositiveColumnHasPositiveSum(cs);
      None
    else
      NormalizedFacts(cs);
      Some(DivideAll(cs, Sum(cs)))
  }

  lemma PositiveColumnHasPositiveSum(cs: seq<real>)
    requires |cs| > 0
    ensures AllPositive(cs) ==> Sum(cs) > 0.0
  {
    if AllPositive(cs) {
      SumPositive(cs);
    }
  }

  /** The normalised column sums to one, and positive inputs become shares in (0, 1]. */
  lemma NormalizedFacts(cs: seq<real>)
    requires |cs| > 0 && Sum(cs) != 0.0
    ensures Sum(DivideAll(cs, Sum(cs))) == 1.0
    ensures AllPositive(cs) ==>
              forall i :: 0 <= i < |cs| ==> 0.0 < DivideAll(cs, Sum(cs))[i] <= 1.0
  {
    SumDivideAll(cs, Sum(cs));
    assert Sum(cs) / Sum(cs) == 1.0;
    if AllPositive(cs) {
      forall i | 0 <= i < |cs|
        ensures 0.0 < DivideAll(cs, Sum(cs))[i] <= 1.0
      {
        PositiveShare(cs, i);
      }
    }
  }

  lemma PositiveShare(cs: seq<real>, i: int)
    requires AllPositive(cs)
    requires 0 <= i < |cs|
    ensures Sum(cs) > 0.0
    ensures 0.0 < DivideAll(cs, Sum(cs))[i] <= 1.0
  {
    var total := Sum(cs);
    SumPositive(cs);
    assert AllNonNegative(cs);
    ElementAtMostSum(cs, i);
    ShareOfTotal(cs[i], total);
  }

  /** A positive part of a positive whole is a share in (0, 1]. */
  lemma ShareOfTotal(part: real, total: real)
    requires 0.0 < part <= total
    ensures 0.0 < part / total <= 1.0
  {
  }

  /** Normalisation keeps the ratio between any two contributions. */
  lemma NormalizedKeepsRatios(cs: seq<real>, i: int, j: int)
    requires Normalized(cs).Some?
    requires 0 <= i < |cs| && 0 <= j < |cs|
    requires cs[j] != 0.0
    ensures Normalized(cs).value[j] != 0.0
    ensures Normalized(cs).value[i] / Normalized(cs).value[j] == cs[i] / cs[j]
  {
    var total := Sum(cs);
    var q := Normalized(cs).value;
    var a, b := cs[i], cs[j];
    assert q[i] * total == a && q[j] * total == b;
    assert q[j] != 0.0;
    assert q[i] * b == q[j] * a by {
      calc {
        q[i] * b;
        q[i] * (q[j] * total);
        q[j] * (q[i] * total);
        q[j] * a;
      }
    }
    CrossRatio(q[i], q[j], a, b);
  }

  /** Equal cross products give equal ratios. */
  lemma CrossRatio(x: real, y: real, a: real, b: real)
    requires y != 0.0 && b != 0.0
    requires x * b == y * a
    ensures x / y == a / b
  {
    assert x / y == (x * b) / (y * b);
    assert a / b == (y * a) / (y * b);
  }

  /**
   The DataFrame built at lines 23-33 from the sampled columns, with the
   contribution column normalised. All columns have the same length.
   */
  function BuildTable(
    portfolio: seq<string>, geography: seq<string>, category: seq<string>,
    brand: seq<string>, names: seq<string>, sales: seq<int>,
    margin: seq<real>, trend: seq<real>, raw: seq<real>): (r: Option<Table>)
    requires |portfolio| == |names| && |geography| == |names| && |category| == |names|
    requires |brand| == |names| && |sales| == |names| && |margin| == |names|
    requires |trend| == |names| && |raw| == |names|
    ensures r.Some? <==> (|raw| == 0 || Sum(raw) != 0.0)
    ensures r.Some? ==> |r.value| == |names|
    ensures r.Some? ==> forall i :: 0 <= i < |names| ==>
              && r.value[i].portfolio == portfolio[i]
              && r.value[i].geography == geography[i]
              && r.value[i].category == category[i]
              && r.value[i].brand == brand[i]
              && r.value[i].name == names[i]
              && r.value[i].initialSales == sales[i]
              && r.value[i].margin == margin[i]
              && r.value[i].trend == trend[i]
              && r.value[i].contribution * Sum(raw) == raw[i]
    ensures r.Some? && |names| > 0 ==> Sum(Contributions(r.value)) == 1.0
  {
    match Normalized(raw)
    case None => None
    case Some(c) =>
      var t := seq(|names|, i requires 0 <= i < |names| =>
        Segment(portfolio[i], geography[i], category[i], brand[i], names[i],
                sales[i], margin[i], trend[i], c[i]));
      assert Contributions(t) == c;
      Some(t)
  }
}

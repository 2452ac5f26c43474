/**
 The aggregator (dashboard.py, lines 50-53): `groupby(key)["Initial Sales"]
 .transform("sum")` for each of the four hierarchy levels. The transform
 attaches to every row the total sales of the rows sharing its key.
 */
module Rollup {
  import opened Segments

  /** The grouping levels of the hierarchy. */
  datatype Level = Brand | Category | Geography | Portfolio

  /** The key projection a level groups by. */
  function KeyOf(l: Level, s: Segment): string
  {
    match l
    case Brand => s.brand
    case Category => s.category
    case Geography => s.geography
    case Portfolio => s.portfolio
  }

  /** Reference definition: the total sales of the rows whose key at level `l` is `k`. */
  function GroupTotal(t: Table, l: Level, k: string): int
  {
    if |t| == 0 then 0
    else
      var last := t[|t| - 1];
      GroupTotal(t[..|t| - 1], l, k) + (if KeyOf(l, last) == k then last.initialSales else 0)
  }

  /** Extending a prefix by one row adds that row's sales to its own group only. */
  lemma GroupTotalOfPrefix(t: Table, l: Level, k: string, i: int)
    requires 0 <= i < |t|
    ensures GroupTotal(t[..i + 1], l, k)
         == GroupTotal(t[..i], l, k) + (if KeyOf(l, t[i]) == k then t[i].initialSales else 0)
  {
    assert t[..i + 1][..i] == t[..i];
  }

  /** `totals` holds, for every key, the group total of `t` (absent keys total zero). */
  ghost predicate TotalsAgree(t: Table, l: Level, totals: map<string, int>)
  {
    forall k :: GroupTotal(t, l, k) == (if k in totals then totals[k] else 0)
  }

  /** Adding row `i` to its key's running total keeps the totals in agreement. */
  lemma TotalsAgreeStep(t: Table, l: Level, totals: map<string, int>, i: int)
    requires 0 <= i < |t|
    requires TotalsAgree(t[..i], l, totals)
    ensures
      var k := KeyOf(l, t[i]);
      TotalsAgree(t[..i + 1], l,
        totals[k := (if k in totals then totals[k] else 0) + t[i].initialSales])
  {
    forall k' {
      GroupTotalOfPrefix(t, l, k', i);
    }
  }

  /** First pass of the transform: one running total per key, in a hash map. */
  method AccumulateTotals(t: Table, l: Level) returns (totals: map<string, int>)
    ensures forall k :: GroupTotal(t, l, k) == (if k in totals then totals[k] else 0)
    ensures forall j :: 0 <= j < |t| ==> KeyOf(l, t[j]) in totals
  {
    totals := map[];
    var i := 0;
    while i < |t|
      invariant 0 <= i <= |t|
      invariant TotalsAgree(t[..i], l, totals)
      invariant forall j :: 0 <= j < i ==> KeyOf(l, t[j]) in totals
    {
      var k := KeyOf(l, t[i]);
      var before := if k in totals then totals[k] else 0;
      TotalsAgreeStep(t, l, totals, i);
      totals := totals[k := before + t[i].initialSales];
      i := i + 1;
    }
    assert t[..|t|] == t;
  }

  /**
   The transform: accumulate one total per key, then broadcast each row's
   group total back onto the row.
   */
  method TransformSum(t: Table, l: Level) returns (r: seq<int>)
    ensures |r| == |t|
    ensures forall i :: 0 <= i < |t| ==> r[i] == GroupTotal(t, l, KeyOf(l, t[i]))
    ensures forall i, j :: 0 <= i < |t| && 0 <= j < |t| && KeyOf(l, t[i]) == KeyOf(l, t[j]) ==>
              r[i] == r[j]
  {
    var totals := AccumulateTotals(t, l);
    r := [];
    var i := 0;
    while i < |t|
      invariant 0 <= i <= |t|
      invariant |r| == i
      invariant forall j :: 0 <= j < i ==> r[j] == GroupTotal(t, l, KeyOf(l, t[j]))
    {
      r := r + [totals[KeyOf(l, t[i])]];
      i := i + 1;
    }
  }

  /** The four rollup columns attached to the table. */
  datatype Rollups = Rollups(
    brandSales: seq<int>,
    categorySales: seq<int>,
    geographySales: seq<int>,
    portfolioSales: seq<int>)

  function Column(r: Rollups, l: Level): seq<int>
  {
    match l
    case Brand => r.brandSales
    case Category => r.categorySales
    case Geography => r.geographySales
    case Portfolio => r.portfolioSales
  }

  /** `c` is the transform-sum column of `t` at level `l`. */
  predicate IsRollupColumn(t: Table, l: Level, c: seq<int>)
  {
    && |c| == |t|
    && forall i :: 0 <= i < |t| ==> c[i] == GroupTotal(t, l, KeyOf(l, t[i]))
  }

  /** Lines 50-53: the transform instantiated at each level. */
  method ComputeRollups(t: Table) returns (r: Rollups)
    ensures IsRollupColumn(t, Brand, r.brandSales)
    ensures IsRollupColumn(t, Category, r.categorySales)
    ensures IsRollupColumn(t, Geography, r.geographySales)
    ensures IsRollupColumn(t, Portfolio, r.portfolioSales)
  {
    var b := TransformSum(t, Brand);
    var c := TransformSum(t, Category);
    var g := TransformSum(t, Geography);
    var p := TransformSum(t, Portfolio);
    r := Rollups(b, c, g, p);
  }

  /** With non-negative sales, a group total is non-negative and at most the table total. */
  lemma {:induction false} GroupTotalAtMostTotal(t: Table, l: Level, k: string)
    requires NonNegativeSales(t)
    ensures 0 <= GroupTotal(t, l, k) <= TotalSales(t)
    decreases |t|
  {
    if |t| > 0 {
      assert NonNegativeSales(t[..|t| - 1]);
      GroupTotalAtMostTotal(t[..|t| - 1], l, k);
    }
  }

  /** With non-negative sales, a row's group total is at least its own sales. */
  lemma {:induction false} OwnSalesWithinGroup(t: Table, l: Level, i: int)
    requires NonNegativeSales(t)
    requires 0 <= i < |t|
    ensures t[i].initialSales <= GroupTotal(t, l, KeyOf(l, t[i]))
    decreases |t|
  {
    var n := |t| - 1;
    assert NonNegativeSales(t[..n]);
    if i == n {
      GroupTotalAtMostTotal(t[..n], l, KeyOf(l, t[i]));
    } else {
      assert t[..n][i] == t[i];
      OwnSalesWithinGroup(t[..n], l, i);
    }
  }

  predicate Distinct(ks: seq<string>)
  {
    forall i, j :: 0 <= i < j < |ks| ==> ks[i] != ks[j]
  }

  /** The distinct keys of a table at one level, in order of first appearance. */
  function Groups(t: Table, l: Level): (ks: seq<string>)
    ensures Distinct(ks)
    ensures forall i :: 0 <= i < |t| ==> KeyOf(l, t[i]) in ks
    ensures forall k :: k in ks ==> exists i :: 0 <= i < |t| && KeyOf(l, t[i]) == k
  {
    if |t| == 0 then []
    else
      var n := |t| - 1;
      var ks := Groups(t[..n], l);
      assert forall i :: 0 <= i < n ==> t[..n][i] == t[i];
      if KeyOf(l, t[n]) in ks then ks else ks + [KeyOf(l, t[n])]
  }

  /** Sum of the group totals of the keys `ks`. */
  function SumOverGroups(t: Table, l: Level, ks: seq<string>): int
  {
    if |ks| == 0 then 0
    else SumOverGroups(t, l, ks[..|ks| - 1]) + GroupTotal(t, l, ks[|ks| - 1])
  }

  /** Adding one row to a table adds its sales to the sum exactly when its key is among `ks`. */
  lemma {:induction false} SumOverGroupsStep(t: Table, l: Level, ks: seq<string>)
    requires |t| > 0
    requires Distinct(ks)
    ensures SumOverGroups(t, l, ks)
         == SumOverGroups(t[..|t| - 1], l, ks)
            + (if KeyOf(l, t[|t| - 1]) in ks then t[|t| - 1].initialSales else 0)
    decreases |ks|
  {
    if |ks| > 0 {
      var m := |ks| - 1;
      var kl := KeyOf(l, t[|t| - 1]);
      assert Distinct(ks[..m]);
      SumOverGroupsStep(t, l, ks[..m]);
      assert kl in ks <==> kl in ks[..m] || ks[m] == kl;
      if ks[m] == kl {
        assert kl !in ks[..m];
      }
    }
  }

  /** The group totals over distinct keys covering the table add up to the table total. */
  lemma {:induction false} GroupTotalsPartitionTotal(t: Table, l: Level, ks: seq<string>)
    requires Distinct(ks)
    requires forall i :: 0 <= i < |t| ==> KeyOf(l, t[i]) in ks
    ensures SumOverGroups(t, l, ks) == TotalSales(t)
    decreases |t|
  {
    if |t| == 0 {
      ZeroTableGroups(t, l, ks);
    } else {
      var n := |t| - 1;
      assert forall i :: 0 <= i < n ==> t[..n][i] == t[i];
      GroupTotalsPartitionTotal(t[..n], l, ks);
      SumOverGroupsStep(t, l, ks);
    }
  }

  lemma {:induction false} ZeroTableGroups(t: Table, l: Level, ks: seq<string>)
    requires |t| == 0
    ensures SumOverGroups(t, l, ks) == 0
    decreases |ks|
  {
    if |ks| > 0 {
      ZeroTableGroups(t, l, ks[..|ks| - 1]);
    }
  }

  /** Summing each group's total once reproduces the grand total of the table. */
  lemma GroupsAddUpToTotal(t: Table, l: Level)
    ensures SumOverGroups(t, l, Groups(t, l)) == TotalSales(t)
  {
    GroupTotalsPartitionTotal(t, l, Groups(t, l));
  }
}

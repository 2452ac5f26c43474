/**
 The whole recomputation the dashboard performs on every slider change
 (dashboard.py, lines 45-65), and the facts that relate its parts: the
 clipped growth factor against the raw-trend projection, and the slider
 defaults against the ranges the base table is sampled from.
 */
module Dashboard {
  import opened Segments
  import opened Normalize
  import opened Constraints
  import opened Rollup
  import opened Projection

  /** Everything derived from the base table and the bounds. */
  datatype View = View(
    rows: seq<Constrained>,
    rollups: Rollups,
    projection: seq<seq<real>>)

  /** Lines 45-65: recompute every derived column from the base table and the bounds. */
  method Recompute(t: Table, b: Bounds) returns (v: View)
    ensures v.rows == ApplyConstraints(t, b)
    ensures BaseRows(v.rows) == t
    ensures forall l: Level :: IsRollupColumn(t, l, Column(v.rollups, l))
    ensures |v.projection| == |t|
    ensures forall i, j :: 0 <= i < |t| && 0 <= j < |Years| ==>
              |v.projection[i]| == |Years| && v.projection[i][j] == Projected(t[i], Years[j])
  {
    var rows := ApplyConstraints(t, b);
    assert BaseRows(rows) == t;
    var rollups := ComputeRollups(t);
    var projection := Project(t);
    v := View(rows, rollups, projection);
  }

  /**
   The year-1 projection uses the raw trend, so it agrees with the maximum
   sales exactly when the sales are zero or the trend is already within
   its bounds.
   */
  lemma Year1MatchesMaxSalesIffUnclipped(s: Segment, b: Bounds)
    requires Ordered(b)
    ensures Projected(s, 1) == ConstrainRow(s, b).maxSales
        <==> (s.initialSales == 0 || b.trendMin <= s.trend <= b.trendMax)
  {
    var x := s.initialSales as real;
    var raw := 1.0 + s.trend;
    var g := ConstrainRow(s, b).maxGrowthFactor;
    var p := Projected(s, 1);
    var m := ConstrainRow(s, b).maxSales;
    assert Pow(raw, 1) == raw;
    assert p == x * raw;
    assert m == x * g;
    assert g == raw <==> b.trendMin <= s.trend <= b.trendMax;
    if x != 0.0 && g != raw {
      assert p - m == x * (raw - g);
      ProductNonZero(x, raw - g);
    }
  }

  lemma ProductNonZero(x: real, y: real)
    requires x != 0.0 && y != 0.0
    ensures x * y != 0.0
  {
  }

  /** The ranges the base table is sampled from (lines 15-17). */
  predicate Generated(t: Table)
  {
    forall i :: 0 <= i < |t| ==>
      && 1_000_000 <= t[i].initialSales < 15_000_000
      && 0.05 <= t[i].margin < 0.30
      && -0.02 <= t[i].trend < 0.05
  }

  /**
   With the slider defaults, which equal the sampling range of the trend,
   no growth factor is clipped: each is 1 + Trend, and the maximum sales
   equal the year-1 projection.
   */
  lemma DefaultsLeaveGeneratedTrendUnclipped(t: Table)
    requires Generated(t)
    ensures forall i :: 0 <= i < |t| ==>
              && ApplyConstraints(t, DefaultBounds())[i].maxGrowthFactor == 1.0 + t[i].trend
              && ApplyConstraints(t, DefaultBounds())[i].maxSales == Projected(t[i], 1)
  {
    forall i | 0 <= i < |t|
      ensures ApplyConstraints(t, DefaultBounds())[i].maxSales == Projected(t[i], 1)
    {
      Year1MatchesMaxSalesIffUnclipped(t[i], DefaultBounds());
    }
  }

  /**
   The contribution column is normalised after sampling, so the default
   contribution bounds do clip it: eight draws from [0.05, 0.30) whose
   first normalised share falls below 5%.
   */
  lemma DefaultsMayClipNormalizedContribution()
    ensures var raw := [0.05, 0.29, 0.29, 0.29, 0.29, 0.29, 0.29, 0.29];
            && Normalized(raw).Some?
            && Normalized(raw).value[0] < DefaultBounds().contributionMin
            && Clip(Normalized(raw).value[0], DefaultBounds().contributionMin,
                    DefaultBounds().contributionMax) != Normalized(raw).value[0]
  {
    var raw := [0.05, 0.29, 0.29, 0.29, 0.29, 0.29, 0.29, 0.29];
    assert raw[..1][..0] == [];
    assert Sum(raw[..1]) == 0.05;
    assert raw[..2][..1] == raw[..1];
    assert Sum(raw[..2]) == 0.34;
    assert raw[..3][..2] == raw[..2];
    assert Sum(raw[..3]) == 0.63;
    assert raw[..4][..3] == raw[..3];
    assert Sum(raw[..4]) == 0.92;
    assert raw[..5][..4] == raw[..4];
    assert Sum(raw[..5]) == 1.21;
    assert raw[..6][..5] == raw[..5];
    assert Sum(raw[..6]) == 1.50;
    assert raw[..7][..6] == raw[..6];
    assert Sum(raw[..7]) == 1.79;
    assert raw[..8][..7] == raw[..7];
    assert Sum(raw[..8]) == 2.08;
    assert raw[..8] == raw;
    assert Sum(raw) == 2.08;
    var q := Normalized(raw).value;
    assert q[0] * 2.08 == 0.05;
  }
}

# ACME business-optimisation dashboard: a Dafny model of its computation

The dashboard builds a table of business segments. Each segment has a
portfolio, geography, category and brand label, integer initial sales, a
margin, a trend and a contribution. The dashboard then:

- normalises the contribution column so that it sums to one;
- clips `1 + Trend` and `Contribution` into ranges set by sidebar sliders;
- derives `Max Sales = Initial Sales × Max Growth Factor`;
- attaches to every row the total initial sales of its brand, category,
  geography and portfolio (a group-by transform sum);
- projects every segment's sales over five years, compounding the raw
  (unclipped) trend.

This project models that computation as pure functions and methods over an
immutable table, and proves its bounds, sum identities, per-group
consistency and recurrences.

Modules, one per stage of `dashboard.py`:

- `Segments` (`segments.dfy`): the `Segment` record, the table, and column sums.
- `Normalize` (`normalize.dfy`): contribution normalisation and assembly of the
  base table from the sampled columns.
- `Constraints` (`constraints.dfy`): `np.clip` on a Series, slider bounds, the three derived
  columns.
- `Rollup` (`rollup.dfy`): the group-by transform sum, generic over a level of the
  hierarchy and instantiated for all four.
- `Projection` (`projection.dfy`): `pow` on reals and the five-year projection.
- `Dashboard` (`dashboard.dfy`): the full recomputation, and lemmas relating the
  stages to each other and to the slider defaults.

Floating-point columns are exact `real`s and `Initial Sales` is an `int`.

Two consequences of `dashboard.py` are proved about the slider defaults (-2%, 5%, 5%, 30%):

- Trends are sampled from [-0.02, 0.05), the same range as the default trend bounds. So no growth factor is clipped, and `Max Sales` equals the year-1 projection (`Dashboard.DefaultsLeaveGeneratedTrendUnclipped`).
- Contributions are sampled from [0.05, 0.30) and only then normalised (lines 18-21). So a normalised share can fall outside the default contribution bounds, and `Max Contribution` then differs from `Contribution` (line 46; `Dashboard.DefaultsMayClipNormalizedContribution`).

## Model

| member | source | states |
|---|---|---|
| Normalize.Normalized | dashboard.py:20-21 | Normalising succeeds exactly when the column is empty or its sum is non-zero. Otherwise numpy would produce non-finite values. Each result times the original sum gives back the input. A nonempty result sums to 1. Positive inputs become shares in (0, 1]. |
| Normalize.NormalizedKeepsRatios | dashboard.py:21 | Dividing by the total keeps the ratio between any two contributions. |
| Normalize.BuildTable | dashboard.py:23-33 | The DataFrame has one row per segment name. It keeps each sampled column in place: portfolio, geography, category, brand, name, sales, margin and trend. Its contribution column is the normalised draw, and for a nonempty table that column sums to 1. |
| Constraints.Clip | dashboard.py:45-46 | With ordered bounds the result lies in `[lo, hi]`. In-range values are unchanged, values below `lo` become `lo`, and values above `hi` become `hi`. With swapped bounds the result lies in `[hi, lo]`, because `Series.clip` puts scalar bounds in order first. |
| Constraints.ClipSymmetric | dashboard.py:45-46 | Swapping the two bounds never changes the clipped value. |
| Constraints.ClipIdempotent | dashboard.py:45-46 | Clipping a clipped value into the same interval changes nothing. |
| Constraints.ClipMonotone | dashboard.py:45-46 | Clipping preserves order. |
| Constraints.SliderBounds | dashboard.py:37-40 | Integer slider percentages divided by 100 always give ordered bounds, with `trend_min ≤ 0 ≤ trend_max` and `contribution_min ≤ 0.10 ≤ contribution_max`. |
| Constraints.DefaultBounds | dashboard.py:37-40 | The default slider positions give the bounds -0.02, 0.05, 0.05 and 0.30. |
| Constraints.ConstrainRow | dashboard.py:45-47 | The base row is kept. The growth factor is `1+Trend` clipped into `[1+trend_min, 1+trend_max]`, and the contribution is clipped into `[contribution_min, contribution_max]`. Out-of-range values therefore go to the nearest bound, as `Clip` states. With ordered bounds the growth factor lies in `[1+trend_min, 1+trend_max]` and the contribution in `[contribution_min, contribution_max]`. In-range values are unchanged. `Max Sales` is exactly `Initial Sales × Max Growth Factor`. |
| Constraints.MaxSalesBounds | dashboard.py:47 | For non-negative sales, `Initial Sales×(1+trend_min) ≤ Max Sales ≤ Initial Sales×(1+trend_max)`. |
| Constraints.ApplyConstraintsProperties | dashboard.py:45-47 | `ApplyConstraints` is lines 45-47 over the whole table, one `ConstrainRow` per row. The base columns come through unchanged. Reapplying the same bounds to the result gives identical derived columns. Every derived column is within its bounds. |
| Rollup.AccumulateTotals | dashboard.py:50-53 | The first pass of the transform finishes with a map that holds every row's key. Each key maps to its group total, and a key that is absent has a group total of zero. |
| Rollup.TransformSum | dashboard.py:50-53 | The output has one value per row. Each row's value is the total `Initial Sales` of all rows sharing its key. Rows with equal keys get equal values. |
| Rollup.ComputeRollups | dashboard.py:50-53 | Each of the Brand, Category, Geography and Portfolio columns has the table's length. Each carries the group total of its row's key at that level. |
| Rollup.GroupTotalAtMostTotal | dashboard.py:50-53 | With non-negative sales, a group total lies between 0 and the table total. |
| Rollup.OwnSalesWithinGroup | dashboard.py:50-53 | With non-negative sales, a row's group total is at least its own initial sales. |
| Rollup.Groups | dashboard.py:50-53 | The groups at a level are distinct keys. They cover every row's key and contain no key absent from the table. |
| Rollup.GroupTotalsPartitionTotal | dashboard.py:50-53 | Over any distinct list of keys covering the table, the group totals add up to the grand total of `Initial Sales`. |
| Rollup.GroupsAddUpToTotal | dashboard.py:50-53 | Summing each group's total once reproduces the grand total. |
| Projection.ProjectionRecurrence | dashboard.py:64-65 | Year 0 would be the initial sales. Each later year is the previous year times `1 + Trend`. |
| Projection.ProjectionNonDecreasing | dashboard.py:64-65 | With `Trend ≥ 0` and non-negative sales, the projection never decreases from one year to the next. |
| Projection.ProjectionCompounds | dashboard.py:65 | The value at year `a+b` is the value at year `a` compounded for `b` more years. |
| Projection.ProjectRow | dashboard.py:64-65 | A row has five values. The value for year y is `Projected(s, y)`, the line-65 formula `Initial Sales × (1+Trend)^y`. Year 1 is `Initial Sales × (1+Trend)`, each later year is the previous one times `1+Trend`, and the row is non-decreasing when `Trend ≥ 0`. |
| Projection.Project | dashboard.py:64-66 | The projection has one row per segment, each of five yearly values `Initial Sales × (1+Trend)^y` for y = 1..5. |
| Dashboard.Recompute | dashboard.py:45-65 | One recomputation keeps the base rows. It yields the constrained rows, the four rollup columns with their group totals, and the five-year projection. |
| Dashboard.Year1MatchesMaxSalesIffUnclipped | dashboard.py:45-65 | The year-1 projection equals `Max Sales` exactly when the sales are zero or the trend already lies within the bounds. In every other case the projection's use of the raw trend is visible. |
| Dashboard.DefaultsLeaveGeneratedTrendUnclipped | dashboard.py:15-47 | For trends sampled from [-0.02, 0.05), the default sliders never clip. Every growth factor is `1+Trend`, and `Max Sales` equals the year-1 projection. |
| Dashboard.DefaultsMayClipNormalizedContribution | dashboard.py:18-46 | There is a draw of eight contributions from [0.05, 0.30) whose first normalised share is below 5%. The default contribution bounds therefore do change it. |

## Left out

- Random generation and seeding (lines 13-18, 24-27): the sampled columns are parameters of `BuildTable`, and the sampling ranges are the predicate `Generated`. numpy's generator is not modelled.
- Streamlit widgets, page text, dataframe display and the line, pie and bar charts (lines 36-42, 55-83): these are presentation only. The sliders appear only through the ranges `SliderBounds` requires.
- `sales_target` and `margin_target` (lines 41-42): they are read but never used, so `Bounds` carries only the four consumed bounds.
- IEEE-754 rounding, overflow and NaN propagation: values are exact reals. The one place numpy would produce non-finite values, normalising a nonempty column that sums to zero, is the `None` result of `Normalize.Normalized`.
- The `Margin` and `Segment` name columns are carried in `Segment` but take part in no computation, as in the source.
- pandas sorts group keys in `groupby`. `Rollup.Groups` lists them in first-appearance order instead, which the transform's per-row result does not depend on.
- `Projection.ProjectRow` computes by repeated multiplication rather than numpy's element-wise `**`. Its contract equates every entry with `Initial Sales × Pow(1+Trend, y)`.

# sark plotting heuristics, modelled in Dafny

The `sark` scripts are plotting demos for matplotlib and plotly. Inside the
rendering calls they hold a few small pieces of computation. This project
models those pieces and proves what they promise:

- **Marker scaling** (`marker_scaling.dfy`, module `MarkerScaling`).
  - `scale_markers` maps an array of measurements into
    `[min_size, max_size]` in one of four modes: linear, log, sqrt or
    square.
  - `robust_scale_markers` takes absolute values, replaces zeros by 0.1,
    takes logs and min-max normalises.
  - Two inline normalisations use the fixed ranges [50, 350] and
    [100, 1100].
  - Arrays are sequences of reals. numpy's `log` and `sqrt` are function
    parameters: `IsLogLike` assumes `log(1) = 0` and a strictly increasing
    `log`; `IsSqrtLike` assumes `sqrt(0) = 0` and a strictly increasing
    `sqrt`.
  - The central property is `SizesFor`. It says:
    - there is one size per measurement;
    - the smallest measurement gets `min_size` and the largest gets
      `max_size`;
    - every size lies in the range;
    - the order of the measurements is kept.
  - Each of the log, sqrt and square modes divides by the largest
    transformed value. This is proved to be exactly min-max normalisation
    of the transformed values.
- **Subplot chunking**:
  - In `plotly_show_all_xticks.py` (`plotly_xticks.dfy`, module
    `PlotlyXticks`), a loop cuts the categories into groups of eight. The
    groups concatenate back to the list, every group except the last holds
    exactly eight, and the figure height is `300 * n_groups`.
  - In `show_all_xticks.py` (`mpl_xticks.dfy`, module `MplXticks`), a loop
    over exactly three axes takes groups of seven. These cover the list
    exactly when it has at most 21 categories.
  - Both loops are methods proved against specification functions.
- **Tier heuristics**: `create_plotly_plot` and `smart_label_display` pick
  width, tick angle and tick font size from the category count (module
  `TickLayout` holds the shared result type).
- **Clamps**:
  - the heatmap font sizes `max(lo, min(hi, k // m))` and tick angle, and
    the derived comparison sizes `size-2` and `size-4` (`font_sizes.dfy`);
  - the figure width `min(1200, max(600, n*8))` (`figure_size.dfy`).

Shared helpers:
- `Ints`: Python's `min` and `max` on two integers.
- `Slicing`: Python list slicing, and the concatenation of a list of lists.
- `Options`: an `Option` type.

## Model

| member | source | states |
|---|---|---|
| MarkerScaling.MinOf | sark/marker_scaling_examples.py:56 | `values.min()` is an element of the array and at most every element |
| MarkerScaling.MaxOf | sark/marker_scaling_examples.py:56 | `values.max()` is an element of the array and at least every element |
| MarkerScaling.Stretch | sark/marker_scaling_examples.py:56 | `x * (max_size - min_size) + min_size` sends 0 to `min_size` and 1 to `max_size`, and sends [0, 1] into the size range |
| MarkerScaling.StretchMonotone | sark/marker_scaling_examples.py:56 | placing into the size range keeps order, and keeps it strictly when `min_size < max_size` |
| MarkerScaling.NormaliseFacts | sark/marker_scaling_examples.py:56 | `(x - min) / (max - min)` sends the minimum to 0 and the maximum to 1, and stays in [0, 1] while keeping order (strictly) |
| MarkerScaling.MinMaxScale | sark/marker_scaling_examples.py:55-56 | linear mode: one size per value, minimum to `min_size`, maximum to `max_size`, all in range, order kept |
| MarkerScaling.StretchNormaliseProportional | sark/marker_scaling_examples.py:56 | the linear formula puts a size at the same proportion of the size range as its value has in [min, max] |
| MarkerScaling.MinMaxScaleProportional | sark/marker_scaling_examples.py:56 | linear mode is affine: every size lies on the straight line through (min, `min_size`) and (max, `max_size`), which tells it apart from the log, sqrt and square modes |
| MarkerScaling.ScaleTransformed | sark/marker_scaling_examples.py:57-66 | normalising any transform ordered like the values gives a valid size array for the values themselves |
| MarkerScaling.ShiftedExtremes | sark/marker_scaling_examples.py:57-66 | a shifted transform ordered like the values has minimum 0 and a positive maximum, so the division by its maximum is defined |
| MarkerScaling.LogShifted | sark/marker_scaling_examples.py:59 | `log(values - values.min() + 1)` is ordered like `values` and is 0 at the minimum, since the smallest argument is 1 |
| MarkerScaling.SqrtShifted | sark/marker_scaling_examples.py:62 | `sqrt(values - values.min())` is ordered like `values` and is 0 at the minimum |
| MarkerScaling.SquareMonotone | sark/marker_scaling_examples.py:65 | squaring is strictly increasing on non-negative reals |
| MarkerScaling.SquareShifted | sark/marker_scaling_examples.py:65 | `(values - values.min()) ** 2` is ordered like `values` and is 0 at the minimum |
| MarkerScaling.DivideByMax | sark/marker_scaling_examples.py:60-66 | `t / t.max() * (max_size - min_size) + min_size` equals min-max normalisation of `t` |
| MarkerScaling.ScaleMarkers | sark/marker_scaling_examples.py:53-66 | returns a value exactly for the four mode names, and that value is a size array for `values` in every mode; log, sqrt and square equal min-max normalisation of their transform; any other name gives `None`, on any input |
| MarkerScaling.ScaleMarkersUnknownMode | sark/marker_scaling_examples.py:55-66 | a misspelt mode gives `None` even on an empty or all-equal array |
| MarkerScaling.FixedRangeSizes | sark/marker_scaling_examples.py:26 | the inline normalisations (line 26, and line 105 with span 1000 and offset 100) are size arrays for `[offset, offset + span]`: one size per value, minimum to `offset`, maximum to `offset + span`, in range and order kept |
| MarkerScaling.NormalizedSizesFormula | sark/marker_scaling_examples.py:26 | Method 2's sizes are each value's position between the extremes times 300 plus 50 |
| MarkerScaling.BubbleSizesFormula | sark/marker_scaling_examples.py:105 | the bubble sizes are each value's position between the extremes times 1000 plus 100 |
| MarkerScaling.MarketCapsLargest | sark/marker_scaling_examples.py:102 | the largest market cap is 3000 |
| MarkerScaling.MarketCapsSmallest | sark/marker_scaling_examples.py:102 | the smallest market cap is 45 |
| MarkerScaling.FixedRangeEnds | sark/marker_scaling_examples.py:105 | the largest value gets `offset + span` and the smallest gets `offset` for any span; every size lies between them when the span is non-negative |
| MarkerScaling.BubbleSizesOfMarketCaps | sark/marker_scaling_examples.py:102-105 | on the demo market caps the 3000 bubble gets 1100, the 45 bubble gets 100, and all lie in [100, 1100] |
| MarkerScaling.Magnitudes | sark/marker_scaling_examples.py:138-141 | the substituted absolute values are positive, one per value, and equal for values of equal magnitude |
| MarkerScaling.LogOf | sark/marker_scaling_examples.py:144 | the log of positive magnitudes is ordered like them |
| MarkerScaling.RobustScaleMarkers | sark/marker_scaling_examples.py:135-147 | a size array for the substituted magnitudes: range, endpoints and order; values of equal magnitude get equal sizes |
| MarkerScaling.RobustSignSymmetric | sark/marker_scaling_examples.py:138-147 | negating every value changes no size |
| MarkerScaling.RobustZeroGetsMinSize | sark/marker_scaling_examples.py:141-147 | a zero gets `min_size` when every non-zero value has magnitude at least 0.1 |
| MarkerScaling.RobustLargestGetsMaxSize | sark/marker_scaling_examples.py:141-147 | the value of largest magnitude gets `max_size` when that magnitude is at least 0.1 or no value is zero |
| MarkerScaling.RobustZeroOutranksTinyValue | sark/marker_scaling_examples.py:141-145 | on `[0, 0.05]` the zero gets `max_size` and 0.05 gets `min_size`: the size is not monotone in the magnitude |
| Slicing.PySlice | sark/show_all_xticks.py:84 | Python's `s[start:stop]` cuts both bounds back to the length, and a start past the stop gives the empty list |
| PlotlyXticks.GroupCount | sark/plotly_show_all_xticks.py:117-118 | `(n + 7) // 8` is the ceiling of n/8: `(k-1)*8 < n <= k*8` for n > 0, and 0 for n = 0 |
| PlotlyXticks.GroupSlice | sark/plotly_show_all_xticks.py:127-130 | every group is non-empty, holds at most eight categories, and all but the last hold exactly eight, taken from `8 i` on |
| PlotlyXticks.SubplotGroups | sark/plotly_show_all_xticks.py:126-149 | the loop yields one group per subplot, the groups concatenate back to the category list, and the height is 300 per group |
| PlotlyXticks.SubplotTitleRanges | sark/plotly_show_all_xticks.py:122 | the title bounds start at `8 i + 1` and end at or past the slice end, past the list's end whenever n is not a multiple of 8, and exactly at the end when it is |
| PlotlyXticks.LastTitleOverstatesTwenty | sark/plotly_show_all_xticks.py:122 | with 20 categories the last title reads 17-24 while its slice ends at 20 |
| PlotlyXticks.CorrectedTitleRanges | sark/plotly_show_all_xticks.py:127-128 | corrected titles tile 1..n: the first starts at 1, each starts after the previous, and the last ends at n |
| PlotlyXticks.CorrectedTitlesName | sark/plotly_show_all_xticks.py:127-130 | each corrected title is the 1-based form of its subplot's slice |
| PlotlyXticks.DynamicLayout | sark/plotly_show_all_xticks.py:156-171 | the tick angle is 0 or 45, and 0 exactly when there are at most 10 categories; width and font stay within the tier values |
| PlotlyXticks.DynamicLayoutTiers | sark/plotly_show_all_xticks.py:160-171 | the three tiers hold exactly on n <= 10, 11..20 and n > 20 |
| PlotlyXticks.DynamicLayoutMonotone | sark/plotly_show_all_xticks.py:160-171 | as the count grows, width and angle never decrease and the font never grows |
| PlotlyXticks.DynamicLayoutDemos | sark/plotly_show_all_xticks.py:193-202 | the demo calls with 8, 15 and all 20 categories land in tiers 1, 2 and 2 |
| MplXticks.AxisSlice | sark/show_all_xticks.py:81-84 | axis `i` shows at most seven categories, those from `7 i` on, and none once `7 i` reaches the end of the list |
| MplXticks.AxisTitleNamesSlice | sark/show_all_xticks.py:91 | the title `start_idx+1`-`end_idx` is the 1-based form of the slice, and is backwards exactly when the slice is empty |
| MplXticks.AxisGroupsUpToSlices | sark/show_all_xticks.py:80-84 | the first `n` turns of the loop collect axis `k`'s slice at position `k` |
| MplXticks.AxisGroupsUpToShows | sark/show_all_xticks.py:80-84 | the first `n` axes together show the first `min(7 n, len)` categories, in order |
| MplXticks.AxisTitlesUpToRanges | sark/show_all_xticks.py:91 | the first `n` titles hold axis `k`'s range at position `k` |
| MplXticks.AxisGroupsCover | sark/show_all_xticks.py:76-84 | the three axes show the list in order and show all of it exactly when it has at most 21 categories |
| MplXticks.AxisTitlesName | sark/show_all_xticks.py:91 | each of the three titles names its axis's slice, and an axis is empty exactly when its title range is backwards |
| MplXticks.AxisGroups | sark/show_all_xticks.py:80-91 | the loop over the three axes produces exactly the slices and titles of the specification functions |
| MplXticks.TwentyCategoriesOnThreeAxes | sark/show_all_xticks.py:79-84 | with 20 categories the axes show 7, 7 and 6, and together every category once, in order |
| MplXticks.SmartLayout | sark/show_all_xticks.py:98-113 | the angle is 0 or 45, and 0 exactly when the count is at most `max_labels_per_line` |
| MplXticks.SmartBarHeights | sark/show_all_xticks.py:118 | `values[:n_categories]` holds `min(n, len(values))` heights, n of them exactly when there are enough values |
| MplXticks.TwentyFiveCategoriesOutrunValues | sark/show_all_xticks.py:138 | the 25-category demo gets 25 positions but only 20 heights |
| MplXticks.CorrectedBarHeights | sark/show_all_xticks.py:118 | heights come from those passed with the categories: one per category when there are enough, and an error otherwise |
| MplXticks.SmartLayoutTiers | sark/show_all_xticks.py:98-113 | with the default 8, the three tiers hold exactly on n <= 8, 9..15 and n > 15 |
| MplXticks.SmartLayoutIgnoresRotation | sark/show_all_xticks.py:98-120 | the `rotation` argument has no effect on the layout |
| MplXticks.MiddleTierUnreachable | sark/show_all_xticks.py:102-106 | with `max_labels_per_line >= 15` the middle tier is never chosen |
| MplXticks.SmartLayoutMonotone | sark/show_all_xticks.py:102-113 | for any threshold, more categories never narrow the figure, grow the font or lower the angle |
| MplXticks.SmartLayoutDemos | sark/show_all_xticks.py:130-138 | the demo calls with 5, 12 and 25 categories land in tiers 1, 2 and 3 |
| FontSizes.ResponsiveSize | sark/plotly_fontsize_examples.py:176-178 | the clamp lies in [lo, hi], is `k // m` when that is in range, and is the nearer bound otherwise |
| FontSizes.FloorDivAntitone | sark/plotly_fontsize_examples.py:176-178 | floor division by a larger divisor never gives a larger quotient |
| FontSizes.ResponsiveSizeNonIncreasing | sark/plotly_fontsize_examples.py:176-178 | the clamp never grows as `m` grows |
| FontSizes.HeatmapFonts | sark/plotly_fontsize_examples.py:176-178 | title in [14, 24], axis in [10, 16], tick in [8, 12] |
| FontSizes.HeatmapFontsNonIncreasing | sark/plotly_fontsize_examples.py:176-178 | each of the three sizes never grows as `max(n_cols, n_rows)` grows |
| FontSizes.HeatmapTickAngle | sark/plotly_fontsize_examples.py:184 | the angle is 0 or 45, and 45 exactly when `n_cols > 8` |
| FontSizes.HeatmapDemo | sark/plotly_fontsize_examples.py:172-184 | the 12 by 8 heatmap gets title 24, axis 16, tick 12 and angle 45 |
| FontSizes.ComparisonFonts | sark/plotly_fontsize_examples.py:143-146 | the title is `size`, tick < axis < title, and the tick size is positive exactly when `size > 4` |
| FontSizes.ComparisonFontsPositive | sark/plotly_fontsize_examples.py:137-146 | for 8, 12, 16 and 20 every size is positive and they are strictly ordered |
| FigureSize.DynamicWidth | sark/plotly_size_examples.py:97 | the width lies in [600, 1200]; it is `8 n` exactly when 75 <= n <= 150, 600 for n <= 75 and 1200 for n >= 150 |
| FigureSize.DynamicWidthMonotone | sark/plotly_size_examples.py:97 | more data points never give a narrower figure |
| FigureSize.DynamicWidthDemo | sark/plotly_size_examples.py:95-97 | the demo's 100 points give width 800 |

## Left out

- Rendering is not modelled: figures, traces, axes, colour bars, annotations, `show()` and file export. They are calls into matplotlib and plotly.
- Random sample data is not modelled. Where a demo's data matters, it is a parameter or the literal list.
- Floating point is not modelled: arrays are sequences of mathematical reals, with no IEEE rounding.
- numpy's `log` and `sqrt` are parameters. The model knows only `log(1) = 0`, `sqrt(0) = 0` and that both are strictly increasing.
- MarkerScaling.ScaleMarkers: for the four mode names, requires the values to be non-empty and not all equal. numpy's `.min()` raises ValueError on an empty array, and on all-equal input numpy divides by zero and returns NaN with a warning; neither is modelled. Any other mode name gives `None` for every input.
- MarkerScaling.RobustScaleMarkers: requires the values to be non-empty (`.min()` raises ValueError at sark/marker_scaling_examples.py:145) and the substituted magnitudes not to be all equal (division by zero, NaN).
- MarkerScaling.FixedRangeSizes: requires the values to be non-empty (numpy's `.min()` at sark/marker_scaling_examples.py:26 and Python's `min` at :105 raise ValueError on an empty list) and not all equal (division by zero, NaN). Its element formula is stated for the two fixed ranges the scripts use (`NormalizedSizesFormula`, `BubbleSizesFormula`) rather than for any span.
- MarkerScaling.ScaleMarkers: the range clauses of `SizesFor` hold only when `min_size <= max_size`. For a reversed range the sizes run the other way, which is stated by the endpoint clauses alone.
- The edge-case demo array `[0, 1, 10, 100, 1000, -5, -50]` at sark/marker_scaling_examples.py:130 is covered by the general robust lemmas, not evaluated as a literal.
- FontSizes.HeatmapFonts: requires `n_cols` or `n_rows` to be positive. Otherwise Python's `//` raises ZeroDivisionError, which is not modelled.
- Titles are modelled as (first, last) integer pairs, not as formatted strings.
- Method 6 slices `categories` and `values` with the same bounds in both scripts. The model slices one list.
- The `values` used by `smart_label_display` are a parameter of `SmartBarHeights`, not the module's random array.
- sark/plotly_bold_xticks.py is not part of this model. It holds only plotly configuration calls and a label-wrapping loop for annotations.
- Date axes built with pandas are not part of this model.
- Colour maps, font families and other presentation constants are not modelled.

## Findings

| source | as written | input that shows it | evidently intended | confidence | as-written member | corrected member |
|---|---|---|---|---|---|---|
| sark/plotly_show_all_xticks.py:122 | the subplot title's upper bound is `(i+1)*group_size` for every group, including the last | 20 categories: the last title reads "Categories 17-24" but the subplot shows categories 17 to 20 | the upper bound is `min((i+1)*group_size, len(categories))`, the slice end of line 128 | not executed | PlotlyXticks.LastTitleOverstatesTwenty | PlotlyXticks.CorrectedTitleRanges |
| sark/show_all_xticks.py:118 | `smart_label_display` takes its bar heights `values[:n_categories]` from the module's 20 values instead of heights passed with the categories | the demo call with 25 categories (line 138): 25 positions but only 20 heights, a shape mismatch in `bar` | heights passed along with the categories, one per category, with too few reported as an error | not executed | MplXticks.TwentyFiveCategoriesOutrunValues | MplXticks.CorrectedBarHeights |

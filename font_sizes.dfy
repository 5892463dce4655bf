/**
 * sark/plotly_fontsize_examples.py: the responsive heatmap font sizes and
 * tick angle of Method 6, and the derived axis-title and tick sizes of the
 * font size comparison in Method 5.
 */
module FontSizes {
  import opened Ints

  /** Title, axis-title and tick-label font sizes. */
  datatype FontSet = FontSet(title: int, axis: int, tick: int)

  /** `max(lo, min(hi, budget // m))`; `//` on non-negative integers is
      Dafny's `/`. The result is `budget // m` when that lies in [lo, hi] and
      the nearer bound otherwise. */
  function ResponsiveSize(lo: int, hi: int, budget: nat, m: nat): (r: int)
    requires 0 < m && lo <= hi
    ensures lo <= r <= hi
    ensures lo <= budget / m <= hi ==> r == budget / m
    ensures budget / m < lo ==> r == lo
    ensures hi < budget / m ==> r == hi
  {
    Max(lo, Min(hi, budget / m))
  }

  lemma MulMonotone(a: int, b: int, c: nat)
    requires a <= b
    ensures a * c <= b * c
  {
    assert b * c - a * c == (b - a) * c;
  }

  /** Floor division by a larger divisor never gives a larger quotient. */
  lemma FloorDivAntitone(budget: nat, m1: nat, m2: nat)
    requires 0 < m1 <= m2
    ensures budget / m2 <= budget / m1
  {
    var q1, q2 := budget / m1, budget / m2;
    assert budget < (q1 + 1) * m1;
    assert q2 * m2 <= budget;
    MulMonotone(m1, m2, q2);
    assert q2 * m1 == m1 * q2 && q2 * m2 == m2 * q2;
    if q1 + 1 <= q2 {
      MulMonotone(q1 + 1, q2, m1);
      assert false;
    }
  }

  /** A larger grid never gets a larger font. */
  lemma ResponsiveSizeNonIncreasing(lo: int, hi: int, budget: nat, m1: nat, m2: nat)
    requires 0 < m1 <= m2 && lo <= hi
    ensures ResponsiveSize(lo, hi, budget, m2) <= ResponsiveSize(lo, hi, budget, m1)
  {
    FloorDivAntitone(budget, m1, m2);
  }

  /** The heatmap's `title_font`, `axis_font` and `tick_font` for an
      `n_rows` by `n_cols` grid. `max(n_cols, n_rows)` must be positive,
      or `//` divides by zero. */
  function HeatmapFonts(nCols: nat, nRows: nat): (f: FontSet)
    requires nCols > 0 || nRows > 0
    ensures 14 <= f.title <= 24 && 10 <= f.axis <= 16 && 8 <= f.tick <= 12
  {
    var m := Max(nCols, nRows);
    FontSet(ResponsiveSize(14, 24, 300, m), ResponsiveSize(10, 16, 200, m), ResponsiveSize(8, 12, 150, m))
  }

  /** Each of the three sizes is non-increasing in the larger dimension. */
  lemma HeatmapFontsNonIncreasing(nCols1: nat, nRows1: nat, nCols2: nat, nRows2: nat)
    requires nCols1 > 0 || nRows1 > 0
    requires Max(nCols1, nRows1) <= Max(nCols2, nRows2)
    ensures HeatmapFonts(nCols2, nRows2).title <= HeatmapFonts(nCols1, nRows1).title
    ensures HeatmapFonts(nCols2, nRows2).axis <= HeatmapFonts(nCols1, nRows1).axis
    ensures HeatmapFonts(nCols2, nRows2).tick <= HeatmapFonts(nCols1, nRows1).tick
  {
    var m1, m2 := Max(nCols1, nRows1), Max(nCols2, nRows2);
    ResponsiveSizeNonIncreasing(14, 24, 300, m1, m2);
    ResponsiveSizeNonIncreasing(10, 16, 200, m1, m2);
    ResponsiveSizeNonIncreasing(8, 12, 150, m1, m2);
  }

  /** `45 if n_cols > 8 else 0`. */
  function HeatmapTickAngle(nCols: nat): (a: int)
    ensures a == 0 || a == 45
    ensures a == 45 <==> nCols > 8
  {
    if nCols > 8 then 45 else 0
  }

  /** The demo's 12-column, 8-row heatmap: title 24, axis 16, tick 12, and
      the tick labels rotated by 45 degrees. */
  lemma HeatmapDemo()
    ensures HeatmapFonts(12, 8) == FontSet(24, 16, 12)
    ensures HeatmapTickAngle(12) == 45
  {
  }

  /** The comparison figure for `size`: title `size`, axis titles `size-2`
      and tick labels `size-4`. */
  function ComparisonFonts(size: int): (f: FontSet)
    ensures f.title == size
    ensures f.tick < f.axis < f.title
    ensures f.tick > 0 <==> size > 4
  {
    FontSet(size, size - 2, size - 4)
  }

  /** `font_sizes = [8, 12, 16, 20]`. */
  const ComparisonSizes: seq<int> := [8, 12, 16, 20]

  /** Every size in the comparison gives positive, strictly ordered fonts. */
  lemma ComparisonFontsPositive()
    ensures forall s :: s in ComparisonSizes ==>
      0 < ComparisonFonts(s).tick < ComparisonFonts(s).axis < ComparisonFonts(s).title
  {
  }
}

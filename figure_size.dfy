/**
 * sark/plotly_size_examples.py, Method 7: the figure width grows with the
 * number of data points, eight pixels per point, clamped to [600, 1200].
 */
module FigureSize {
  import opened Ints

  /** `min(1200, max(600, data_length * 8))`. */
  function DynamicWidth(dataLength: nat): (w: int)
    ensures 600 <= w <= 1200
    ensures w == dataLength * 8 <==> 75 <= dataLength <= 150
    ensures dataLength <= 75 ==> w == 600
    ensures dataLength >= 150 ==> w == 1200
  {
    Min(1200, Max(600, dataLength * 8))
  }

  /** More data points never give a narrower figure. */
  lemma DynamicWidthMonotone(a: nat, b: nat)
    requires a <= b
    ensures DynamicWidth(a) <= DynamicWidth(b)
  {
  }

  /** The demo's `np.linspace(0, 10, 100)` has 100 points: width 800. */
  lemma DynamicWidthDemo()
    ensures DynamicWidth(100) == 800
  {
  }
}

/**
 * Value-to-marker-size scaling: `scale_markers` with its four modes,
 * `robust_scale_markers`, and the two inline min-max normalisations of
 * sark/marker_scaling_examples.py.
 *
 * numpy arrays are sequences of reals. numpy's `log` and `sqrt` are passed in
 * as function values; the model only assumes what `IsLogLike` and
 * `IsSqrtLike` say about them.
 */
module MarkerScaling {
  import opened Options

  /** numpy's `a.min()` on a non-empty array. */
  function MinOf(s: seq<real>): (m: real)
    requires |s| > 0
    ensures m in s
    ensures forall i :: 0 <= i < |s| ==> m <= s[i]
  {
    if |s| == 1 then s[0]
    else
      var rest := MinOf(s[1..]);
      if s[0] <= rest then s[0] else rest
  }

  /** numpy's `a.max()` on a non-empty array. */
  function MaxOf(s: seq<real>): (m: real)
    requires |s| > 0
    ensures m in s
    ensures forall i :: 0 <= i < |s| ==> s[i] <= m
  {
    if |s| == 1 then s[0]
    else
      var rest := MaxOf(s[1..]);
      if s[0] >= rest then s[0] else rest
  }

  function Abs(x: real): (r: real)
    ensures r >= 0.0 && (r == x || r == -x)
  {
    if x < 0.0 then -x else x
  }

  /** What the model assumes of numpy's natural logarithm: log(1) = 0 and
      strictly increasing on the positive reals. */
  ghost predicate IsLogLike(log: real -> real)
  {
    log(1.0) == 0.0 && forall x, y :: 0.0 < x < y ==> log(x) < log(y)
  }

  /** What the model assumes of numpy's square root: sqrt(0) = 0 and
      strictly increasing on the non-negative reals. */
  ghost predicate IsSqrtLike(sqrt: real -> real)
  {
    sqrt(0.0) == 0.0 && forall x, y :: 0.0 <= x < y ==> sqrt(x) < sqrt(y)
  }

  /** `a` and `b` have the same length and are ordered alike, pair by pair. */
  ghost predicate SameOrder(a: seq<real>, b: seq<real>)
  {
    |a| == |b| &&
    forall i, j :: 0 <= i < |a| && 0 <= j < |a| ==> (a[i] <= a[j] <==> b[i] <= b[j])
  }

  /** `r` is a marker-size array for the measurements `keys`: one size per
      measurement, the smallest measurement gets `minSize`, the largest gets
      `maxSize`, every size lies in the range, and the order of the
      measurements is kept (strictly, when the range is not a single point). */
  ghost predicate SizesFor(r: seq<real>, keys: seq<real>, minSize: real, maxSize: real)
    requires |keys| > 0
  {
    && |r| == |keys|
    && (forall i :: 0 <= i < |r| && keys[i] == MinOf(keys) ==> r[i] == minSize)
    && (forall i :: 0 <= i < |r| && keys[i] == MaxOf(keys) ==> r[i] == maxSize)
    && (minSize <= maxSize ==> forall i :: 0 <= i < |r| ==> minSize <= r[i] <= maxSize)
    && (minSize <= maxSize ==>
          forall i, j :: 0 <= i < |r| && 0 <= j < |r| && keys[i] <= keys[j] ==> r[i] <= r[j])
    && (minSize < maxSize ==>
          forall i, j :: 0 <= i < |r| && 0 <= j < |r| && keys[i] < keys[j] ==> r[i] < r[j])
  }

  lemma MulNonneg(a: real, b: real)
    requires a >= 0.0 && b >= 0.0
    ensures a * b >= 0.0
  {
  }

  lemma MulPos(a: real, b: real)
    requires a > 0.0 && b > 0.0
    ensures a * b > 0.0
  {
  }

  lemma DivNonneg(a: real, d: real)
    requires a >= 0.0 && d > 0.0
    ensures a / d >= 0.0
  {
  }

  lemma DivPos(a: real, d: real)
    requires a > 0.0 && d > 0.0
    ensures a / d > 0.0
  {
  }

  lemma DivSub(a: real, b: real, d: real)
    requires d > 0.0
    ensures b / d - a / d == (b - a) / d
  {
  }

  lemma MulDiff(s: real, t: real, d: real)
    ensures t * d - s * d == (t - s) * d
  {
  }

  lemma ScaledFraction(t: real, d: real)
    ensures 0.0 <= t <= 1.0 && d >= 0.0 ==> 0.0 <= t * d <= d
  {
    if 0.0 <= t <= 1.0 && d >= 0.0 {
      MulNonneg(t, d);
      MulNonneg(1.0 - t, d);
      MulDiff(t, 1.0, d);
    }
  }

  /** `normalized * (max_size - min_size) + min_size`: places a value of
      [0, 1] in the size range. */
  function Stretch(t: real, minSize: real, maxSize: real): (r: real)
    ensures t == 0.0 ==> r == minSize
    ensures t == 1.0 ==> r == maxSize
    ensures 0.0 <= t <= 1.0 && minSize <= maxSize ==> minSize <= r <= maxSize
  {
    ScaledFraction(t, maxSize - minSize);
    t * (maxSize - minSize) + minSize
  }

  lemma StretchMonotone(s: real, t: real, minSize: real, maxSize: real)
    requires s <= t
    ensures minSize <= maxSize ==> Stretch(s, minSize, maxSize) <= Stretch(t, minSize, maxSize)
    ensures s < t && minSize < maxSize ==> Stretch(s, minSize, maxSize) < Stretch(t, minSize, maxSize)
  {
    var d := maxSize - minSize;
    assert Stretch(s, minSize, maxSize) == s * d + minSize;
    assert Stretch(t, minSize, maxSize) == t * d + minSize;
    MulDiff(s, t, d);
    if d >= 0.0 {
      MulNonneg(t - s, d);
    }
    if s < t && d > 0.0 {
      MulPos(t - s, d);
    }
  }

  lemma NormaliseBounds(x: real, y: real, lo: real, hi: real)
    requires lo <= x <= y <= hi && lo < hi
    ensures 0.0 <= (x - lo) / (hi - lo) <= (y - lo) / (hi - lo) <= 1.0
    ensures x < y ==> (x - lo) / (hi - lo) < (y - lo) / (hi - lo)
  {
    var d := hi - lo;
    DivNonneg(x - lo, d);
    DivSub(x - lo, y - lo, d);
    DivNonneg(y - x, d);
    if x < y {
      DivPos(y - x, d);
    }
    DivSub(y - lo, d, d);
    DivNonneg(hi - y, d);
    assert d / d == 1.0;
  }

  /** `(x - lo) / (hi - lo)`: the position of `x` between `lo` and `hi`. */
  function Normalise(x: real, lo: real, hi: real): real
    requires lo < hi
  {
    (x - lo) / (hi - lo)
  }

  lemma NormaliseFacts(x: real, y: real, lo: real, hi: real)
    requires lo <= x <= y <= hi && lo < hi
    ensures 0.0 <= Normalise(x, lo, hi) <= Normalise(y, lo, hi) <= 1.0
    ensures x < y ==> Normalise(x, lo, hi) < Normalise(y, lo, hi)
    ensures Normalise(lo, lo, hi) == 0.0 && Normalise(hi, lo, hi) == 1.0
  {
    NormaliseBounds(x, y, lo, hi);
    assert (hi - lo) / (hi - lo) == 1.0;
  }

  /** The element-wise formula of min-max normalisation gives a size array. */
  lemma MinMaxScaleSizes(t: seq<real>, minSize: real, maxSize: real, r: seq<real>)
    requires |t| > 0 && MinOf(t) < MaxOf(t) && |r| == |t|
    requires forall i :: 0 <= i < |t| ==> r[i] == Stretch(Normalise(t[i], MinOf(t), MaxOf(t)), minSize, maxSize)
    ensures SizesFor(r, t, minSize, maxSize)
  {
    var lo, hi := MinOf(t), MaxOf(t);
    forall i, j | 0 <= i < |t| && 0 <= j < |t| && t[i] <= t[j]
      ensures minSize <= maxSize ==> minSize <= r[i] <= r[j] <= maxSize
      ensures t[i] < t[j] && minSize < maxSize ==> r[i] < r[j]
    {
      NormaliseFacts(t[i], t[j], lo, hi);
      StretchMonotone(Normalise(t[i], lo, hi), Normalise(t[j], lo, hi), minSize, maxSize);
    }
    forall i | 0 <= i < |t|
      ensures minSize <= maxSize ==> minSize <= r[i] <= maxSize
      ensures t[i] == lo ==> r[i] == minSize
      ensures t[i] == hi ==> r[i] == maxSize
    {
      NormaliseFacts(t[i], t[i], lo, hi);
    }
  }

  /** Min-max normalisation into [minSize, maxSize]: the `linear` mode of
      `scale_markers` and the last two steps of `robust_scale_markers`. */
  function MinMaxScale(t: seq<real>, minSize: real, maxSize: real): (r: seq<real>)
    requires |t| > 0 && MinOf(t) < MaxOf(t)
    ensures SizesFor(r, t, minSize, maxSize)
  {
    var lo := MinOf(t);
    var hi := MaxOf(t);
    var r := seq(|t|, i requires 0 <= i < |t| => Stretch(Normalise(t[i], lo, hi), minSize, maxSize));
    MinMaxScaleSizes(t, minSize, maxSize, r);
    r
  }

  lemma MinMaxScaleAt(t: seq<real>, minSize: real, maxSize: real, i: nat)
    requires |t| > 0 && MinOf(t) < MaxOf(t) && i < |t|
    ensures MinMaxScale(t, minSize, maxSize)[i] == Stretch(Normalise(t[i], MinOf(t), MaxOf(t)), minSize, maxSize)
  {
  }

  /** `r` sits in [a, b] at the same proportion as `x` sits in [lo, hi]:
      the two points lie on one straight line through (lo, a) and (hi, b). */
  ghost predicate Proportional(r: real, x: real, lo: real, hi: real, a: real, b: real)
  {
    (r - a) * (hi - lo) == (x - lo) * (b - a)
  }

  lemma StretchNormaliseProportional(x: real, lo: real, hi: real, a: real, b: real)
    requires lo < hi
    ensures Proportional(Stretch(Normalise(x, lo, hi), a, b), x, lo, hi, a, b)
  {
    var d, s := hi - lo, b - a;
    var n := Normalise(x, lo, hi);
    assert n * d == x - lo;
    assert Stretch(n, a, b) - a == n * s;
    assert (n * s) * d == (n * d) * s;
  }

  /** The linear mode is affine in the value: every size lies on the straight
      line through (min, `minSize`) and (max, `maxSize`). */
  lemma MinMaxScaleProportional(t: seq<real>, minSize: real, maxSize: real)
    requires |t| > 0 && MinOf(t) < MaxOf(t)
    ensures forall i :: 0 <= i < |t| ==>
      Proportional(MinMaxScale(t, minSize, maxSize)[i], t[i], MinOf(t), MaxOf(t), minSize, maxSize)
  {
    forall i | 0 <= i < |t|
      ensures Proportional(MinMaxScale(t, minSize, maxSize)[i], t[i], MinOf(t), MaxOf(t), minSize, maxSize)
    {
      MinMaxScaleAt(t, minSize, maxSize, i);
      StretchNormaliseProportional(t[i], MinOf(t), MaxOf(t), minSize, maxSize);
    }
  }

  /** An element is the minimum exactly when it is at most every element. */
  lemma {:induction false} OrderedAlikeExtremes(a: seq<real>, b: seq<real>)
    requires |a| > 0 && SameOrder(a, b)
    ensures forall i :: 0 <= i < |a| ==> (a[i] == MinOf(a) <==> b[i] == MinOf(b))
    ensures forall i :: 0 <= i < |a| ==> (a[i] == MaxOf(a) <==> b[i] == MaxOf(b))
    ensures MinOf(a) < MaxOf(a) <==> MinOf(b) < MaxOf(b)
  {
    var pa :| 0 <= pa < |a| && a[pa] == MinOf(a);
    var qa :| 0 <= qa < |a| && a[qa] == MaxOf(a);
    var pb :| 0 <= pb < |b| && b[pb] == MinOf(b);
    var qb :| 0 <= qb < |b| && b[qb] == MaxOf(b);
    forall i | 0 <= i < |a|
      ensures a[i] == MinOf(a) <==> b[i] == MinOf(b)
      ensures a[i] == MaxOf(a) <==> b[i] == MaxOf(b)
    {
      assert a[i] <= a[pb] <==> b[i] <= b[pb];
      assert a[i] <= a[pa] <==> b[i] <= b[pa];
      assert a[qb] <= a[i] <==> b[qb] <= b[i];
      assert a[qa] <= a[i] <==> b[qa] <= b[i];
    }
    assert a[qa] <= a[pa] <==> b[qa] <= b[pa];
    assert b[qb] <= b[pb] <==> a[qb] <= a[pb];
  }

  /** Size arrays carry over between measurements that are ordered alike. */
  lemma SizesForOrderedAlike(r: seq<real>, t: seq<real>, keys: seq<real>, minSize: real, maxSize: real)
    requires |t| > 0 && SameOrder(t, keys) && SizesFor(r, t, minSize, maxSize)
    ensures SizesFor(r, keys, minSize, maxSize)
  {
    OrderedAlikeExtremes(t, keys);
    forall i, j | 0 <= i < |r| && 0 <= j < |r| && keys[i] < keys[j]
      ensures t[i] < t[j]
    {
      assert !(keys[j] <= keys[i]);
    }
  }

  /** Min-max normalisation of a transform `t` of the measurements that is
      ordered like them. It is defined whenever the measurements are not all
      equal, and is a size array for the measurements themselves. */
  function ScaleTransformed(t: seq<real>, values: seq<real>, minSize: real, maxSize: real): (r: seq<real>)
    requires |values| > 0 && MinOf(values) < MaxOf(values) && SameOrder(t, values)
    ensures |t| > 0 && MinOf(t) < MaxOf(t)
    ensures r == MinMaxScale(t, minSize, maxSize)
    ensures SizesFor(r, values, minSize, maxSize)
  {
    OrderedAlikeExtremes(t, values);
    var r := MinMaxScale(t, minSize, maxSize);
    SizesForOrderedAlike(r, t, values, minSize, maxSize);
    r
  }

  /** A transform ordered like the measurements that is 0 at the smallest
      measurement has minimum 0, and a positive maximum when the measurements
      are not all equal. */
  lemma ShiftedExtremes(t: seq<real>, values: seq<real>)
    requires |values| > 0 && SameOrder(t, values)
    requires forall i :: 0 <= i < |values| && values[i] == MinOf(values) ==> t[i] == 0.0
    ensures MinOf(t) == 0.0
    ensures MinOf(values) < MaxOf(values) ==> 0.0 < MaxOf(t)
  {
    OrderedAlikeExtremes(t, values);
    var k :| 0 <= k < |values| && values[k] == MinOf(values);
    assert t[k] == MinOf(t);
  }

  /** `log(values - values.min() + 1)`: every argument is at least 1. */
  function LogShifted(log: real -> real, values: seq<real>): (t: seq<real>)
    requires |values| > 0 && IsLogLike(log)
    ensures SameOrder(t, values)
    ensures forall i :: 0 <= i < |values| && values[i] == MinOf(values) ==> t[i] == 0.0
  {
    var lo := MinOf(values);
    var t := seq(|values|, i requires 0 <= i < |values| => log(values[i] - lo + 1.0));
    forall i, j | 0 <= i < |t| && 0 <= j < |t|
      ensures values[i] < values[j] ==> t[i] < t[j]
      ensures values[i] == values[j] ==> t[i] == t[j]
    {
      if values[i] < values[j] {
        assert 0.0 < values[i] - lo + 1.0 < values[j] - lo + 1.0;
      }
    }
    t
  }

  /** `sqrt(values - values.min())`: every argument is at least 0. */
  function SqrtShifted(sqrt: real -> real, values: seq<real>): (t: seq<real>)
    requires |values| > 0 && IsSqrtLike(sqrt)
    ensures SameOrder(t, values)
    ensures forall i :: 0 <= i < |values| && values[i] == MinOf(values) ==> t[i] == 0.0
  {
    var lo := MinOf(values);
    var t := seq(|values|, i requires 0 <= i < |values| => sqrt(values[i] - lo));
    forall i, j | 0 <= i < |t| && 0 <= j < |t|
      ensures values[i] < values[j] ==> t[i] < t[j]
      ensures values[i] == values[j] ==> t[i] == t[j]
    {
      if values[i] < values[j] {
        assert 0.0 <= values[i] - lo < values[j] - lo;
      }
    }
    t
  }

  function Square(x: real): real
  {
    x * x
  }

  lemma SquareMonotone(x: real, y: real)
    requires 0.0 <= x < y
    ensures 0.0 <= Square(x) < Square(y)
  {
    assert y * y - x * x == (y - x) * (y + x);
    MulPos(y - x, y + x);
    MulNonneg(x, x);
  }

  /** `(values - values.min()) ** 2`: squares of non-negative differences. */
  function SquareShifted(values: seq<real>): (t: seq<real>)
    requires |values| > 0
    ensures SameOrder(t, values)
    ensures forall i :: 0 <= i < |values| && values[i] == MinOf(values) ==> t[i] == 0.0
  {
    var lo := MinOf(values);
    var t := seq(|values|, i requires 0 <= i < |values| => Square(values[i] - lo));
    forall i, j | 0 <= i < |t| && 0 <= j < |t|
      ensures values[i] < values[j] ==> t[i] < t[j]
      ensures values[i] == values[j] ==> t[i] == t[j]
    {
      if values[i] < values[j] {
        SquareMonotone(values[i] - lo, values[j] - lo);
      }
    }
    t
  }

  /** Dividing by the largest transformed value, as the `log`, `sqrt` and
      `square` modes do. The transforms are 0 at the smallest measurement, so
      this is exactly min-max normalisation of the transformed values. */
  function DivideByMax(t: seq<real>, values: seq<real>, minSize: real, maxSize: real): (r: seq<real>)
    requires |values| > 0 && MinOf(values) < MaxOf(values) && SameOrder(t, values)
    requires forall i :: 0 <= i < |values| && values[i] == MinOf(values) ==> t[i] == 0.0
    ensures r == ScaleTransformed(t, values, minSize, maxSize)
  {
    ShiftedExtremes(t, values);
    var top := MaxOf(t);
    var r := seq(|t|, i requires 0 <= i < |t| => Stretch(t[i] / top, minSize, maxSize));
    var scaled := MinMaxScale(t, minSize, maxSize);
    forall i | 0 <= i < |t| ensures r[i] == scaled[i] {
      DividedAt(t, minSize, maxSize, i);
    }
    assert r == scaled;
    r
  }

  lemma DividedAt(t: seq<real>, minSize: real, maxSize: real, i: nat)
    requires |t| > 0 && MinOf(t) == 0.0 && 0.0 < MaxOf(t) && i < |t|
    ensures Stretch(t[i] / MaxOf(t), minSize, maxSize) == MinMaxScale(t, minSize, maxSize)[i]
  {
    MinMaxScaleAt(t, minSize, maxSize, i);
    assert t[i] / MaxOf(t) == Normalise(t[i], MinOf(t), MaxOf(t));
  }

  /** `scale_markers(values, min_size, max_size, scaling)`: `None` when
      `scaling` names none of the four modes (the Python function falls off
      its `if`/`elif` chain and returns None, whatever `values` holds). For
      the four modes the precondition excludes the empty and the all-equal
      input, on which numpy raises or divides by zero. */
  function ScaleMarkers(log: real -> real, sqrt: real -> real, values: seq<real>,
                        minSize: real := 20.0, maxSize: real := 500.0,
                        scaling: string := "linear"): (r: Option<seq<real>>)
    requires IsLogLike(log) && IsSqrtLike(sqrt)
    requires scaling in {"linear", "log", "sqrt", "square"} ==> |values| > 0 && MinOf(values) < MaxOf(values)
    ensures r.Some? <==> scaling in {"linear", "log", "sqrt", "square"}
    ensures r.Some? ==> SizesFor(r.value, values, minSize, maxSize)
    ensures scaling == "linear" ==> r == Some(MinMaxScale(values, minSize, maxSize))
    ensures scaling == "log" ==> r == Some(ScaleTransformed(LogShifted(log, values), values, minSize, maxSize))
    ensures scaling == "sqrt" ==> r == Some(ScaleTransformed(SqrtShifted(sqrt, values), values, minSize, maxSize))
    ensures scaling == "square" ==> r == Some(ScaleTransformed(SquareShifted(values), values, minSize, maxSize))
  {
    if scaling == "linear" then
      Some(MinMaxScale(values, minSize, maxSize))
    else if scaling == "log" then
      Some(DivideByMax(LogShifted(log, values), values, minSize, maxSize))
    else if scaling == "sqrt" then
      Some(DivideByMax(SqrtShifted(sqrt, values), values, minSize, maxSize))
    else if scaling == "square" then
      Some(DivideByMax(SquareShifted(values), values, minSize, maxSize))
    else
      None
  }

  /** A misspelt mode gives `None` even on an empty array. */
  lemma ScaleMarkersUnknownMode(log: real -> real, sqrt: real -> real)
    requires IsLogLike(log) && IsSqrtLike(sqrt)
    ensures ScaleMarkers(log, sqrt, [], scaling := "cubic") == None
    ensures ScaleMarkers(log, sqrt, [5.0, 5.0], scaling := "Linear") == None
  {
  }

  /** The inline normalisations `(v - v.min()) / (v.max() - v.min()) * span + offset`
      (span 300, offset 50 for Method 2; span 1000, offset 100 for the bubble
      chart) are the linear mode with the range [offset, offset + span]. */
  function FixedRangeSizes(values: seq<real>, span: real, offset: real): (r: seq<real>)
    requires |values| > 0 && MinOf(values) < MaxOf(values)
    ensures SizesFor(r, values, offset, offset + span)
  {
    MinMaxScale(values, offset, offset + span)
  }

  /** Method 2's `normalized_sizes = normalized * 300 + 50`: element `i`
      is its value's position between the extremes, times 300, plus 50. */
  lemma NormalizedSizesFormula(values: seq<real>, i: nat)
    requires |values| > 0 && MinOf(values) < MaxOf(values) && i < |values|
    ensures FixedRangeSizes(values, 300.0, 50.0)[i]
         == Normalise(values[i], MinOf(values), MaxOf(values)) * 300.0 + 50.0
  {
    MinMaxScaleAt(values, 50.0, 350.0, i);
  }

  /** The bubble chart's `bubble_sizes = ... * 1000 + 100`: element `i` is
      its value's position between the extremes, times 1000, plus 100. */
  lemma BubbleSizesFormula(values: seq<real>, i: nat)
    requires |values| > 0 && MinOf(values) < MaxOf(values) && i < |values|
    ensures FixedRangeSizes(values, 1000.0, 100.0)[i]
         == Normalise(values[i], MinOf(values), MaxOf(values)) * 1000.0 + 100.0
  {
    MinMaxScaleAt(values, 100.0, 1100.0, i);
  }

  /** The bubble chart's market caps, in billions. */
  const MarketCaps: seq<real> := [3000.0, 1800.0, 2500.0, 1700.0, 800.0, 900.0, 200.0, 45.0]

  /** An element at most every other element is the minimum. */
  lemma MinOfIs(s: seq<real>, k: nat)
    requires k < |s| && forall i :: 0 <= i < |s| ==> s[k] <= s[i]
    ensures MinOf(s) == s[k]
  {
  }

  /** An element at least every other element is the maximum. */
  lemma MaxOfIs(s: seq<real>, k: nat)
    requires k < |s| && forall i :: 0 <= i < |s| ==> s[i] <= s[k]
    ensures MaxOf(s) == s[k]
  {
  }

  lemma MarketCapsLargest()
    ensures MaxOf(MarketCaps) == 3000.0
  {
    MaxOfIs(MarketCaps, 0);
  }

  lemma MarketCapsSmallest()
    ensures MinOf(MarketCaps) == 45.0
  {
    MinOfIs(MarketCaps, 7);
  }

  lemma FixedRangeEnds(values: seq<real>, span: real, offset: real, top: nat, bottom: nat)
    requires |values| > 0 && MinOf(values) < MaxOf(values)
    requires top < |values| && values[top] == MaxOf(values)
    requires bottom < |values| && values[bottom] == MinOf(values)
    ensures FixedRangeSizes(values, span, offset)[top] == offset + span
    ensures FixedRangeSizes(values, span, offset)[bottom] == offset
    ensures span >= 0.0 ==> forall i :: 0 <= i < |values| ==>
      offset <= FixedRangeSizes(values, span, offset)[i] <= offset + span
  {
    assert SizesFor(FixedRangeSizes(values, span, offset), values, offset, offset + span);
  }

  /** On the bubble chart's market caps the largest (3000) gets size 1100,
      the smallest (45) gets size 100, and every size lies in [100, 1100]. */
  lemma BubbleSizesOfMarketCaps()
    ensures MinOf(MarketCaps) == 45.0 && MaxOf(MarketCaps) == 3000.0
    ensures FixedRangeSizes(MarketCaps, 1000.0, 100.0)[0] == 1100.0
    ensures FixedRangeSizes(MarketCaps, 1000.0, 100.0)[7] == 100.0
    ensures forall i :: 0 <= i < |MarketCaps| ==> 100.0 <= FixedRangeSizes(MarketCaps, 1000.0, 100.0)[i] <= 1100.0
  {
    MarketCapsLargest();
    MarketCapsSmallest();
    FixedRangeEnds(MarketCaps, 1000.0, 100.0, 0, 7);
  }

  /** `np.where(np.abs(values) == 0, 0.1, np.abs(values))`. */
  function Magnitudes(values: seq<real>): (m: seq<real>)
    ensures |m| == |values|
    ensures forall i :: 0 <= i < |m| ==> m[i] > 0.0
    ensures forall i, j :: 0 <= i < |m| && 0 <= j < |m| && Abs(values[i]) == Abs(values[j]) ==> m[i] == m[j]
  {
    seq(|values|, i requires 0 <= i < |values| => if Abs(values[i]) == 0.0 then 0.1 else Abs(values[i]))
  }

  /** `np.log(a)` on an array of positive reals. */
  function LogOf(log: real -> real, a: seq<real>): (t: seq<real>)
    requires IsLogLike(log)
    requires forall i :: 0 <= i < |a| ==> a[i] > 0.0
    ensures SameOrder(t, a)
    ensures forall i, j :: 0 <= i < |a| && 0 <= j < |a| && a[i] == a[j] ==> t[i] == t[j]
  {
    var t := seq(|a|, i requires 0 <= i < |a| => log(a[i]));
    forall i, j | 0 <= i < |a| && 0 <= j < |a|
      ensures a[i] < a[j] ==> t[i] < t[j]
    {
    }
    t
  }

  /** `robust_scale_markers(values, min_size, max_size)`: log of the
      magnitudes, min-max normalised. The precondition excludes magnitudes
      that are all equal, on which the normalisation divides by zero. */
  function RobustScaleMarkers(log: real -> real, values: seq<real>,
                              minSize: real := 20.0, maxSize: real := 500.0): (r: seq<real>)
    requires IsLogLike(log)
    requires |values| > 0 && MinOf(Magnitudes(values)) < MaxOf(Magnitudes(values))
    ensures SizesFor(r, Magnitudes(values), minSize, maxSize)
    ensures forall i, j :: 0 <= i < |r| && 0 <= j < |r| && Abs(values[i]) == Abs(values[j]) ==> r[i] == r[j]
  {
    var m := Magnitudes(values);
    var logScaled := LogOf(log, m);
    ScaleTransformed(logScaled, m, minSize, maxSize)
  }

  function Negated(values: seq<real>): (r: seq<real>)
    ensures |r| == |values| && forall i :: 0 <= i < |r| ==> r[i] + values[i] == 0.0
  {
    seq(|values|, i requires 0 <= i < |values| => -values[i])
  }

  /** Sign symmetry: flipping the sign of every measurement changes no size. */
  lemma RobustSignSymmetric(log: real -> real, values: seq<real>, minSize: real, maxSize: real)
    requires IsLogLike(log)
    requires |values| > 0 && MinOf(Magnitudes(values)) < MaxOf(Magnitudes(values))
    ensures Magnitudes(Negated(values)) == Magnitudes(values)
    ensures RobustScaleMarkers(log, Negated(values), minSize, maxSize)
         == RobustScaleMarkers(log, values, minSize, maxSize)
  {
    var n := Negated(values);
    assert forall i :: 0 <= i < |values| ==> Abs(n[i]) == Abs(values[i]);
    assert Magnitudes(n) == Magnitudes(values);
  }

  /** A zero measurement is treated as magnitude 0.1, so it gets `minSize`
      whenever every non-zero measurement has magnitude at least 0.1. */
  lemma RobustZeroGetsMinSize(log: real -> real, values: seq<real>, minSize: real, maxSize: real, k: nat)
    requires IsLogLike(log)
    requires |values| > 0 && MinOf(Magnitudes(values)) < MaxOf(Magnitudes(values))
    requires k < |values| && values[k] == 0.0
    requires forall j :: 0 <= j < |values| && values[j] != 0.0 ==> Abs(values[j]) >= 0.1
    ensures RobustScaleMarkers(log, values, minSize, maxSize)[k] == minSize
  {
    var m := Magnitudes(values);
    forall j | 0 <= j < |m| ensures m[k] <= m[j] {
      if values[j] != 0.0 {
        assert m[j] == Abs(values[j]);
      }
    }
    assert m[k] == MinOf(m);
  }

  /** The measurement of largest magnitude gets `maxSize`, provided that
      magnitude is at least the 0.1 that stands in for zeros, or there is no
      zero to stand in for. */
  lemma RobustLargestGetsMaxSize(log: real -> real, values: seq<real>, minSize: real, maxSize: real, k: nat)
    requires IsLogLike(log)
    requires |values| > 0 && MinOf(Magnitudes(values)) < MaxOf(Magnitudes(values))
    requires k < |values| && (Abs(values[k]) >= 0.1 || forall j :: 0 <= j < |values| ==> values[j] != 0.0)
    requires forall j :: 0 <= j < |values| ==> Abs(values[j]) <= Abs(values[k])
    ensures RobustScaleMarkers(log, values, minSize, maxSize)[k] == maxSize
  {
    var m := Magnitudes(values);
    forall j | 0 <= j < |m| ensures m[j] <= m[k] {
      if values[j] != 0.0 {
        assert m[j] == Abs(values[j]);
      }
    }
    assert m[k] == MaxOf(m);
  }

  /** The substitution of 0.1 for zero is not order-preserving in the
      magnitude: a zero outranks a measurement of magnitude below 0.1. */
  lemma RobustZeroOutranksTinyValue(log: real -> real, minSize: real, maxSize: real)
    requires IsLogLike(log)
    ensures MinOf(Magnitudes([0.0, 0.05])) < MaxOf(Magnitudes([0.0, 0.05]))
    ensures RobustScaleMarkers(log, [0.0, 0.05], minSize, maxSize) == [maxSize, minSize]
  {
    var m := Magnitudes([0.0, 0.05]);
    assert m == [0.1, 0.05];
    assert MinOf(m) == 0.05 && MaxOf(m) == 0.1;
  }
}

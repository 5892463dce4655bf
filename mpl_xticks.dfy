/**
 * sark/show_all_xticks.py: Method 6 spreads the categories over exactly
 * three subplot axes of `group_size` = 7 bars each, and
 * `smart_label_display` (Method 7) picks figure width (inches), tick
 * rotation and tick font size from the category count.
 *
 * Method 6 slices `categories` and `values` with the same bounds, so the
 * model slices one list.
 */
module MplXticks {
  import opened Ints
  import opened Slicing
  import opened TickLayout
  import opened Options

  /** `plt.subplots(3, 1)`: the number of axes Method 6 iterates over. */
  const AxisCount: nat := 3

  /** `group_size` of Method 6. */
  const GroupSize: nat := 7

  /** `categories[start_idx:end_idx]` for axis `i`. The start can lie past
      the end of the list, and Python then gives an empty slice. */
  function AxisSlice<T>(categories: seq<T>, i: nat): (g: seq<T>)
    ensures |g| <= GroupSize
    ensures i * GroupSize < |categories| ==> |g| == Min((i + 1) * GroupSize, |categories|) - i * GroupSize
    ensures |categories| <= i * GroupSize ==> g == []
    ensures forall k :: 0 <= k < |g| ==> i * GroupSize + k < |categories| && g[k] == categories[i * GroupSize + k]
  {
    PySlice(categories, i * GroupSize, Min((i + 1) * GroupSize, |categories|))
  }

  /** The loop's `categories[start_idx:end_idx]` is axis `i`'s slice. */
  lemma AxisSliceBounds<T>(categories: seq<T>, i: nat)
    ensures PySlice(categories, i * GroupSize, Min((i + 1) * GroupSize, |categories|)) == AxisSlice(categories, i)
  {
  }

  /** The title range `(start_idx + 1, end_idx)` of axis `i`. */
  function AxisTitleRange(n: nat, i: nat): (int, int)
  {
    (i * GroupSize + 1, Min((i + 1) * GroupSize, n))
  }

  /** A title range names its axis's slice in 1-based form, and is
      backwards exactly when the slice is empty. */
  lemma AxisTitleNamesSlice<T>(categories: seq<T>, i: nat)
    ensures var r := AxisTitleRange(|categories|, i);
      (AxisSlice(categories, i) == [] <==> r.1 < r.0) &&
      (AxisSlice(categories, i) != [] ==>
         1 <= r.0 <= r.1 <= |categories| && AxisSlice(categories, i) == categories[r.0 - 1 .. r.1])
  {
  }

  lemma TitlesNameGroups<T>(categories: seq<T>, groups: seq<seq<T>>, titles: seq<(int, int)>)
    requires |groups| == AxisCount && |titles| == AxisCount
    requires forall i :: 0 <= i < AxisCount ==> groups[i] == AxisSlice(categories, i)
    requires forall i :: 0 <= i < AxisCount ==> titles[i] == AxisTitleRange(|categories|, i)
    ensures forall i :: 0 <= i < AxisCount ==> (groups[i] == [] <==> titles[i].1 < titles[i].0)
    ensures forall i :: 0 <= i < AxisCount && groups[i] != [] ==>
      1 <= titles[i].0 <= titles[i].1 <= |categories| &&
      groups[i] == categories[titles[i].0 - 1 .. titles[i].1]
  {
    forall i | 0 <= i < AxisCount
      ensures groups[i] == [] <==> titles[i].1 < titles[i].0
      ensures groups[i] != [] ==>
        1 <= titles[i].0 <= titles[i].1 <= |categories| && groups[i] == categories[titles[i].0 - 1 .. titles[i].1]
    {
      AxisTitleNamesSlice(categories, i);
    }
  }

  lemma PrefixIsWhole<T>(s: seq<T>, bound: nat)
    ensures s[..Min(bound, |s|)] == s <==> |s| <= bound
  {
    if |s| <= bound {
      assert s[..|s|] == s;
    }
  }

  /** Appending axis `i`'s slice to the categories shown by the axes before
      it gives the categories shown up to the end of axis `i`. */
  lemma PrefixGrows<T>(categories: seq<T>, i: nat)
    ensures categories[..Min(i * GroupSize, |categories|)] + AxisSlice(categories, i)
         == categories[..Min((i + 1) * GroupSize, |categories|)]
  {
    if i * GroupSize < |categories| {
      assert categories[..i * GroupSize] + AxisSlice(categories, i)
          == categories[..Min((i + 1) * GroupSize, |categories|)];
    }
  }

  /** The axes show every category exactly when there are at most 21. */
  lemma CoverageIsWhole<T>(categories: seq<T>, groups: seq<seq<T>>)
    requires Flatten(groups) == categories[..Min(AxisCount * GroupSize, |categories|)]
    ensures Flatten(groups) == categories <==> |categories| <= AxisCount * GroupSize
  {
    PrefixIsWhole(categories, AxisCount * GroupSize);
  }

  /** One turn of Method 6's loop extends the categories shown so far by
      the next axis's slice. */
  lemma AxisStep<T>(categories: seq<T>, groups: seq<seq<T>>, i: nat)
    requires Flatten(groups) == categories[..Min(i * GroupSize, |categories|)]
    ensures Flatten(groups + [AxisSlice(categories, i)]) == categories[..Min((i + 1) * GroupSize, |categories|)]
  {
    FlattenAppend(groups, AxisSlice(categories, i));
    PrefixGrows(categories, i);
  }

  /** The slices of the first `n` axes, in order. */
  function AxisGroupsUpTo<T>(categories: seq<T>, n: nat): seq<seq<T>>
  {
    if n == 0 then [] else AxisGroupsUpTo(categories, n - 1) + [AxisSlice(categories, n - 1)]
  }

  /** The title ranges of the first `n` axes, in order. */
  function AxisTitlesUpTo(len: nat, n: nat): seq<(int, int)>
  {
    if n == 0 then [] else AxisTitlesUpTo(len, n - 1) + [AxisTitleRange(len, n - 1)]
  }

  /** The first `n` axes hold axis `k`'s slice at position `k`. */
  lemma {:induction false} AxisGroupsUpToSlices<T>(categories: seq<T>, n: nat)
    ensures |AxisGroupsUpTo(categories, n)| == n
    ensures forall k :: 0 <= k < n ==> AxisGroupsUpTo(categories, n)[k] == AxisSlice(categories, k)
  {
    if n > 0 {
      AxisGroupsUpToSlices(categories, n - 1);
    }
  }

  /** The first `n` axes together show the first `min(7 n, len(categories))`
      categories, in order. */
  lemma {:induction false} AxisGroupsUpToShows<T>(categories: seq<T>, n: nat)
    ensures Flatten(AxisGroupsUpTo(categories, n)) == categories[..Min(n * GroupSize, |categories|)]
  {
    if n > 0 {
      AxisGroupsUpToShows(categories, n - 1);
      AxisStep(categories, AxisGroupsUpTo(categories, n - 1), n - 1);
    }
  }

  /** The first `n` titles hold axis `k`'s title range at position `k`. */
  lemma {:induction false} AxisTitlesUpToRanges(len: nat, n: nat)
    ensures |AxisTitlesUpTo(len, n)| == n
    ensures forall k :: 0 <= k < n ==> AxisTitlesUpTo(len, n)[k] == AxisTitleRange(len, k)
  {
    if n > 0 {
      AxisTitlesUpToRanges(len, n - 1);
    }
  }

  /** The three axes show the list in order and cover it exactly when it
      has at most 21 categories; later categories are never shown. */
  lemma AxisGroupsCover<T>(categories: seq<T>)
    ensures var groups := AxisGroupsUpTo(categories, AxisCount);
      |groups| == AxisCount &&
      (forall i :: 0 <= i < AxisCount ==> groups[i] == AxisSlice(categories, i)) &&
      Flatten(groups) == categories[..Min(AxisCount * GroupSize, |categories|)] &&
      (Flatten(groups) == categories <==> |categories| <= AxisCount * GroupSize)
  {
    AxisGroupsUpToSlices(categories, AxisCount);
    AxisGroupsUpToShows(categories, AxisCount);
    CoverageIsWhole(categories, AxisGroupsUpTo(categories, AxisCount));
  }

  /** Each axis's title names its slice in 1-based form, and an axis is
      empty exactly when its title range is backwards. */
  lemma AxisTitlesName<T>(categories: seq<T>)
    ensures var groups, titles := AxisGroupsUpTo(categories, AxisCount), AxisTitlesUpTo(|categories|, AxisCount);
      |groups| == AxisCount && |titles| == AxisCount &&
      (forall i :: 0 <= i < AxisCount ==> (groups[i] == [] <==> titles[i].1 < titles[i].0)) &&
      (forall i :: 0 <= i < AxisCount && groups[i] != [] ==>
        1 <= titles[i].0 <= titles[i].1 <= |categories| &&
        groups[i] == categories[titles[i].0 - 1 .. titles[i].1])
  {
    AxisGroupsUpToSlices(categories, AxisCount);
    AxisTitlesUpToRanges(|categories|, AxisCount);
    TitlesNameGroups(categories, AxisGroupsUpTo(categories, AxisCount), AxisTitlesUpTo(|categories|, AxisCount));
  }

  /** Method 6's loop over the three axes: the slice each axis shows and
      its title range, axis by axis (see `AxisGroupsCover` and
      `AxisTitlesName` for what they amount to). */
  method AxisGroups<T>(categories: seq<T>) returns (groups: seq<seq<T>>, titles: seq<(int, int)>)
    ensures groups == AxisGroupsUpTo(categories, AxisCount)
    ensures titles == AxisTitlesUpTo(|categories|, AxisCount)
  {
    groups := [];
    titles := [];
    for i := 0 to AxisCount
      invariant groups == AxisGroupsUpTo(categories, i)
      invariant titles == AxisTitlesUpTo(|categories|, i)
    {
      var startIdx := i * GroupSize;
      var endIdx := Min((i + 1) * GroupSize, |categories|);
      AxisSliceBounds(categories, i);
      var subset := PySlice(categories, startIdx, endIdx);
      groups := groups + [subset];
      titles := titles + [(startIdx + 1, endIdx)];
    }
  }

  /** The demo's 20 categories: the three axes show 7, 7 and 6 of them and
      together show every one, in order. */
  lemma TwentyCategoriesOnThreeAxes<T>(categories: seq<T>)
    requires |categories| == 20
    ensures |AxisSlice(categories, 0)| == 7 && |AxisSlice(categories, 1)| == 7
    ensures |AxisSlice(categories, 2)| == 6
    ensures AxisSlice(categories, 0) + AxisSlice(categories, 1) + AxisSlice(categories, 2) == categories
  {
    assert categories[..7] + categories[7..14] + categories[14..] == categories;
  }

  /** `smart_label_display(categories, max_labels_per_line, rotation)`'s
      layout for `n_categories` categories. The `rotation` argument is never
      read: the angle applied is always 0 or 45. */
  function SmartLayout(nCategories: nat, maxLabelsPerLine: int := 8, rotation: int := 45): (l: LabelLayout)
    ensures l.tickAngle == 0 || l.tickAngle == 45
    ensures l.tickAngle == 0 <==> nCategories <= maxLabelsPerLine
    ensures 10 <= l.width <= 16 && 8 <= l.fontSize <= 12
  {
    if nCategories <= maxLabelsPerLine then LabelLayout(10, 0, 12)
    else if nCategories <= 15 then LabelLayout(12, 45, 10)
    else LabelLayout(16, 45, 8)
  }

  /** The bar heights `values[:n_categories]` that `smart_label_display`
      passes to `bar`. They come from the module's own `values`, not from the
      caller, so there are fewer heights than positions once `n_categories`
      exceeds the number of values. */
  function SmartBarHeights<T>(values: seq<T>, nCategories: nat): (h: seq<T>)
    ensures |h| == Min(nCategories, |values|)
    ensures |h| == nCategories <==> nCategories <= |values|
    ensures forall k :: 0 <= k < |h| ==> h[k] == values[k]
  {
    PySlice(values, 0, nCategories)
  }

  /** The demo's 25-category call against the module's 20 values: 25
      positions but only 20 heights. */
  lemma TwentyFiveCategoriesOutrunValues<T>(values: seq<T>)
    requires |values| == 20
    ensures |SmartBarHeights(values, 25)| == 20
    ensures |SmartBarHeights(values, 25)| < 25
  {
  }

  /** The evidently intended heights: taken from the heights the caller
      passes along with the categories, not from the module's `values`, one
      per category. Too few heights is reported as an error (`None`). */
  function CorrectedBarHeights<T>(values: seq<T>, nCategories: nat): (h: Option<seq<T>>)
    ensures h.Some? <==> nCategories <= |values|
    ensures h.Some? ==> |h.value| == nCategories
    ensures h.Some? ==> forall k :: 0 <= k < nCategories ==> h.value[k] == values[k]
  {
    if nCategories <= |values| then Some(values[..nCategories]) else None
  }

  /** The three tiers with the default `max_labels_per_line = 8`. */
  lemma SmartLayoutTiers(nCategories: nat)
    ensures SmartLayout(nCategories) == LabelLayout(10, 0, 12) <==> nCategories <= 8
    ensures SmartLayout(nCategories) == LabelLayout(12, 45, 10) <==> 9 <= nCategories <= 15
    ensures SmartLayout(nCategories) == LabelLayout(16, 45, 8) <==> nCategories > 15
  {
  }

  /** The layout does not depend on the `rotation` argument. */
  lemma SmartLayoutIgnoresRotation(nCategories: nat, maxLabelsPerLine: int, r1: int, r2: int)
    ensures SmartLayout(nCategories, maxLabelsPerLine, r1) == SmartLayout(nCategories, maxLabelsPerLine, r2)
  {
  }

  /** With `max_labels_per_line >= 15` the first test shadows the second, so
      the middle tier is never chosen. */
  lemma MiddleTierUnreachable(nCategories: nat, maxLabelsPerLine: int)
    requires maxLabelsPerLine >= 15
    ensures SmartLayout(nCategories, maxLabelsPerLine) != LabelLayout(12, 45, 10)
  {
  }

  /** For every `max_labels_per_line`, more categories never give a
      narrower figure, a larger font or a smaller rotation. */
  lemma SmartLayoutMonotone(a: nat, b: nat, maxLabelsPerLine: int)
    requires a <= b
    ensures SmartLayout(a, maxLabelsPerLine).width <= SmartLayout(b, maxLabelsPerLine).width
    ensures SmartLayout(b, maxLabelsPerLine).fontSize <= SmartLayout(a, maxLabelsPerLine).fontSize
    ensures SmartLayout(a, maxLabelsPerLine).tickAngle <= SmartLayout(b, maxLabelsPerLine).tickAngle
  {
  }

  /** The demo calls with 5, 12 and 25 categories fall in tiers 1, 2 and 3. */
  lemma SmartLayoutDemos()
    ensures SmartLayout(5) == LabelLayout(10, 0, 12)
    ensures SmartLayout(12) == LabelLayout(12, 45, 10)
    ensures SmartLayout(25) == LabelLayout(16, 45, 8)
  {
  }
}

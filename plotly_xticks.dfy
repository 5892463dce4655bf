/**
 * sark/plotly_show_all_xticks.py: Method 6 splits the categories into
 * subplots of `group_size` bars each, and `create_plotly_plot` (Method 7)
 * picks width, tick angle and tick font size from the category count.
 *
 * Method 6 slices `categories` and `values` with the same bounds, so the
 * model slices one list.
 */
module PlotlyXticks {
  import opened Ints
  import opened Slicing
  import opened TickLayout

  /** `group_size` of Method 6. */
  const GroupSize: nat := 8

  /** `n_groups = (len(categories) + group_size - 1) // group_size`: the
      ceiling of n / 8, so the groups hold all n categories and the last one
      is not empty. */
  function GroupCount(n: nat): (k: nat)
    ensures n == 0 ==> k == 0
    ensures n > 0 ==> (k - 1) * GroupSize < n <= k * GroupSize
  {
    (n + GroupSize - 1) / GroupSize
  }

  /** `categories[start_idx:end_idx]` for group `i` of Method 6. */
  function GroupSlice<T>(categories: seq<T>, i: nat): (g: seq<T>)
    requires i < GroupCount(|categories|)
    ensures 0 < |g| <= GroupSize && i * GroupSize + |g| <= |categories|
    ensures i + 1 < GroupCount(|categories|) ==> |g| == GroupSize
    ensures forall k :: 0 <= k < |g| ==> g[k] == categories[i * GroupSize + k]
  {
    categories[i * GroupSize .. Min((i + 1) * GroupSize, |categories|)]
  }

  /** Method 6's loop, one subplot row per group, followed by the figure
      height `300 * n_groups`. The groups are the category list cut, in
      order, into pieces of eight with a shorter non-empty last piece. */
  method SubplotGroups<T>(categories: seq<T>) returns (groups: seq<seq<T>>, height: nat)
    ensures |groups| == GroupCount(|categories|)
    ensures forall i :: 0 <= i < |groups| ==> groups[i] == GroupSlice(categories, i)
    ensures Flatten(groups) == categories
    ensures height == 300 * |groups|
  {
    var nGroups := GroupCount(|categories|);
    groups := [];
    for i := 0 to nGroups
      invariant |groups| == i
      invariant forall k :: 0 <= k < i ==> groups[k] == GroupSlice(categories, k)
      invariant Flatten(groups) == categories[..Min(i * GroupSize, |categories|)]
    {
      var startIdx := i * GroupSize;
      var endIdx := Min((i + 1) * GroupSize, |categories|);
      var subset := categories[startIdx..endIdx];
      FlattenAppend(groups, subset);
      assert categories[..startIdx] + subset == categories[..endIdx];
      groups := groups + [subset];
    }
    height := 300 * nGroups;
  }

  /** The subplot titles `f'Categories {i*group_size+1}-{(i+1)*group_size}'`
      as (first, last) pairs, as written: the upper bound is always a
      multiple of eight, so the last title ends at the real end exactly when
      eight divides the count, and past it otherwise. */
  function SubplotTitleRanges(n: nat): (r: seq<(int, int)>)
    ensures |r| == GroupCount(n)
    ensures forall i :: 0 <= i < |r| ==> r[i].0 == i * GroupSize + 1
    ensures forall i :: 0 <= i < |r| ==> r[i].1 >= Min((i + 1) * GroupSize, n)
    ensures n % GroupSize != 0 ==> r[|r| - 1].1 > n
    ensures n > 0 && n % GroupSize == 0 ==> r[|r| - 1].1 == n
  {
    seq(GroupCount(n), i => (i * GroupSize + 1, (i + 1) * GroupSize))
  }

  /** With the demo's 20 categories the last title reads 17-24 while the
      last subplot shows categories 17 to 20. */
  lemma LastTitleOverstatesTwenty()
    ensures GroupCount(20) == 3
    ensures SubplotTitleRanges(20)[2] == (17, 24)
    ensures Min(3 * GroupSize, 20) == 20
  {
  }

  /** The titles the code evidently means: the 1-based bounds of each
      slice. They tile 1..n: the first starts at 1, each starts right after
      the previous one ends, and the last ends at n. */
  function CorrectedTitleRanges(n: nat): (r: seq<(int, int)>)
    ensures |r| == GroupCount(n)
    ensures forall i :: 0 <= i < |r| ==> r[i].0 - 1 == i * GroupSize && r[i].0 <= r[i].1 <= n
    ensures forall i :: 0 <= i < |r| - 1 ==> r[i + 1].0 == r[i].1 + 1
    ensures |r| > 0 ==> r[0].0 == 1 && r[|r| - 1].1 == n
  {
    seq(GroupCount(n), i => (i * GroupSize + 1, Min((i + 1) * GroupSize, n)))
  }

  /** Each corrected title names exactly the categories its subplot shows. */
  lemma CorrectedTitlesName<T>(categories: seq<T>, i: nat)
    requires i < GroupCount(|categories|)
    ensures var r := CorrectedTitleRanges(|categories|)[i];
      1 <= r.0 <= r.1 <= |categories| && GroupSlice(categories, i) == categories[r.0 - 1 .. r.1]
  {
  }

  /** `create_plotly_plot`'s layout for `n_cats` categories. */
  function DynamicLayout(nCats: nat): (l: LabelLayout)
    ensures l.tickAngle == 0 || l.tickAngle == 45
    ensures l.tickAngle == 0 <==> nCats <= 10
    ensures 600 <= l.width <= 1200 && 8 <= l.fontSize <= 12
  {
    if nCats <= 10 then LabelLayout(600, 0, 12)
    else if nCats <= 20 then LabelLayout(900, 45, 10)
    else LabelLayout(1200, 45, 8)
  }

  /** The three tiers and their thresholds. */
  lemma DynamicLayoutTiers(nCats: nat)
    ensures DynamicLayout(nCats) == LabelLayout(600, 0, 12) <==> nCats <= 10
    ensures DynamicLayout(nCats) == LabelLayout(900, 45, 10) <==> 11 <= nCats <= 20
    ensures DynamicLayout(nCats) == LabelLayout(1200, 45, 8) <==> nCats > 20
  {
  }

  /** More categories never give a narrower figure, a larger font or a
      smaller rotation. */
  lemma DynamicLayoutMonotone(a: nat, b: nat)
    requires a <= b
    ensures DynamicLayout(a).width <= DynamicLayout(b).width
    ensures DynamicLayout(b).fontSize <= DynamicLayout(a).fontSize
    ensures DynamicLayout(a).tickAngle <= DynamicLayout(b).tickAngle
  {
  }

  /** The three demo calls: 8 and 15 categories, and all 20, which lands in
      the middle tier rather than the 1200-pixel one. */
  lemma DynamicLayoutDemos()
    ensures DynamicLayout(8) == LabelLayout(600, 0, 12)
    ensures DynamicLayout(15) == LabelLayout(900, 45, 10)
    ensures DynamicLayout(20) == LabelLayout(900, 45, 10)
  {
  }
}

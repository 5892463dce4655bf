/** Python list slicing and the concatenation of a list of slices. */
module Slicing {

  /** The concatenation of `groups`, in order. */
  function Flatten<T>(groups: seq<seq<T>>): seq<T>
  {
    if groups == [] then [] else Flatten(groups[..|groups| - 1]) + groups[|groups| - 1]
  }

  lemma FlattenAppend<T>(groups: seq<seq<T>>, g: seq<T>)
    ensures Flatten(groups + [g]) == Flatten(groups) + g
  {
    assert (groups + [g])[..|groups|] == groups;
  }

  /** Python's `s[start:stop]` for non-negative bounds: both bounds are cut
      back to `|s|`, and a start past the stop gives the empty list. */
  function PySlice<T>(s: seq<T>, start: nat, stop: nat): (r: seq<T>)
    ensures start <= stop <= |s| ==> r == s[start..stop]
    ensures |s| <= start || stop <= start ==> r == []
    ensures start <= |s| <= stop ==> r == s[start..]
  {
    if start >= |s| || stop <= start then []
    else if stop >= |s| then s[start..]
    else s[start..stop]
  }
}

/** The membership-toggle rule shared by the filter chips, the metric toggles
    and the checklist: `xs.includes(v) ? xs.filter(x => x !== v) : [...xs, v]`. */
module ToggleList {

  import opened Seqs

  function Toggle<T(==)>(xs: seq<T>, v: T): (r: seq<T>)
    ensures v in r <==> v !in xs
    ensures v !in xs ==> r == xs + [v]
    ensures v in xs ==> IsSubsequence(r, xs) && |r| == |xs| - Count(xs, v)
  {
    if v in xs then
      var r := Filter(x => x != v, xs);
      FilterIsSubsequence(x => x != v, xs);
      FilterCount(xs, v);
      FilterMember(x => x != v, xs, v);
      r
    else xs + [v]
  }

  /** Every other value keeps its membership. */
  lemma ToggleOthers<T(!new)>(xs: seq<T>, v: T, y: T)
    requires y != v
    ensures y in Toggle(xs, v) <==> y in xs
  {
    FilterMembers(x => x != v, xs);
  }

  /** Removing every occurrence of `v` shortens the list by `Count(xs, v)`. */
  lemma {:induction false} FilterCount<T>(xs: seq<T>, v: T)
    ensures |Filter(x => x != v, xs)| == |xs| - Count(xs, v)
  {
    if xs != [] {
      FilterCount(xs[1..], v);
    }
  }

  /** Toggling an absent value on and off again restores the list exactly. */
  lemma ToggleTwice<T>(xs: seq<T>, v: T)
    requires v !in xs
    ensures Toggle(Toggle(xs, v), v) == xs
  {
    var p := x => x != v;
    FilterConcat(p, xs, [v]);
    FilterAll(p, xs);
    assert Filter(p, [v]) == [] by {
      assert [v][1..] == [];
    }
  }

  /** A duplicate-free list stays duplicate-free under toggling. */
  lemma ToggleKeepsNoDuplicates<T(!new)>(xs: seq<T>, v: T)
    requires NoDuplicates(xs)
    ensures NoDuplicates(Toggle(xs, v))
  {
    if v in xs {
      FilterKeepsNoDuplicates(x => x != v, xs);
    }
  }
}

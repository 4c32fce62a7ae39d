/** A stable comparison sort, as `Array.prototype.sort(compareFn)` performs
    it: negative `cmp(a, b)` puts `a` first, positive puts `b` first, zero keeps
    the input order. Written as insertion sort, functionally and in place. */
module Sorting {

  import opened Seqs

  /** Every earlier element compares at most equal to every later one. */
  predicate SortedBy<T>(cmp: (T, T) -> int, s: seq<T>)
  {
    forall i, j :: 0 <= i < j < |s| ==> cmp(s[i], s[j]) <= 0
  }

  /** Stable insertion of `x` into `t`: `x` moves left past exactly the
      trailing elements that compare greater than it. */
  function InsertSorted<T>(cmp: (T, T) -> int, t: seq<T>, x: T): (r: seq<T>)
    ensures |r| == |t| + 1
  {
    if t == [] then [x]
    else if cmp(t[|t| - 1], x) > 0 then InsertSorted(cmp, t[..|t| - 1], x) + [t[|t| - 1]]
    else t + [x]
  }

  function InsertionSort<T>(cmp: (T, T) -> int, s: seq<T>): (r: seq<T>)
    ensures |r| == |s|
  {
    if s == [] then [] else InsertSorted(cmp, InsertionSort(cmp, s[..|s| - 1]), s[|s| - 1])
  }

  lemma {:induction false} InsertSortedPermutation<T>(cmp: (T, T) -> int, t: seq<T>, x: T)
    ensures multiset(InsertSorted(cmp, t, x)) == multiset(t) + multiset{x}
  {
    if t != [] && cmp(t[|t| - 1], x) > 0 {
      InsertSortedPermutation(cmp, t[..|t| - 1], x);
      assert t == t[..|t| - 1] + [t[|t| - 1]];
    }
  }

  /** The output is a rearrangement of the input. */
  lemma {:induction false} InsertionSortPermutation<T>(cmp: (T, T) -> int, s: seq<T>)
    ensures multiset(InsertionSort(cmp, s)) == multiset(s)
  {
    if s != [] {
      InsertionSortPermutation(cmp, s[..|s| - 1]);
      InsertSortedPermutation(cmp, InsertionSort(cmp, s[..|s| - 1]), s[|s| - 1]);
      assert s == s[..|s| - 1] + [s[|s| - 1]];
    }
  }

  lemma SortedAppend<T>(cmp: (T, T) -> int, t: seq<T>, x: T)
    requires SortedBy(cmp, t)
    requires forall i :: 0 <= i < |t| ==> cmp(t[i], x) <= 0
    ensures SortedBy(cmp, t + [x])
  {
    var r := t + [x];
    forall i, j | 0 <= i < j < |r| ensures cmp(r[i], r[j]) <= 0 {
      if j < |t| {
        assert r[i] == t[i] && r[j] == t[j];
      }
    }
  }

  /** Dropping the last element of a sorted sequence leaves it sorted, and
      every remaining element compares at most equal to the dropped one. */
  lemma SortedDropLast<T>(cmp: (T, T) -> int, t: seq<T>)
    requires SortedBy(cmp, t) && t != []
    ensures SortedBy(cmp, t[..|t| - 1])
    ensures forall i :: 0 <= i < |t| - 1 ==> cmp(t[i], t[|t| - 1]) <= 0
  {
    var t0 := t[..|t| - 1];
    forall i, j | 0 <= i < j < |t0| ensures cmp(t0[i], t0[j]) <= 0 {
      assert t0[i] == t[i] && t0[j] == t[j];
    }
  }

  /** Inserting an element below a bound into elements below it keeps every
      element below it. */
  lemma InsertSortedBelow<T>(cmp: (T, T) -> int, t: seq<T>, x: T, bound: T)
    requires forall i :: 0 <= i < |t| ==> cmp(t[i], bound) <= 0
    requires cmp(x, bound) <= 0
    ensures forall i :: 0 <= i < |InsertSorted(cmp, t, x)| ==> cmp(InsertSorted(cmp, t, x)[i], bound) <= 0
  {
    var u := InsertSorted(cmp, t, x);
    InsertSortedPermutation(cmp, t, x);
    forall i | 0 <= i < |u| ensures cmp(u[i], bound) <= 0 {
      assert u[i] in multiset(u);
      if u[i] != x {
        assert u[i] in t;
      }
    }
  }

  lemma {:induction false} InsertSortedKeepsSorted<T>(cmp: (T, T) -> int, t: seq<T>, x: T)
    requires forall a, b :: cmp(a, b) == -cmp(b, a)
    requires forall a, b, c :: cmp(a, b) <= 0 && cmp(b, c) <= 0 ==> cmp(a, c) <= 0
    requires SortedBy(cmp, t)
    ensures SortedBy(cmp, InsertSorted(cmp, t, x))
  {
    if t != [] {
      var n := |t|;
      var t0, last := t[..n - 1], t[n - 1];
      SortedDropLast(cmp, t);
      if cmp(last, x) > 0 {
        InsertSortedKeepsSorted(cmp, t0, x);
        InsertSortedBelow(cmp, t0, x, last);
        SortedAppend(cmp, InsertSorted(cmp, t0, x), last);
      } else {
        forall i | 0 <= i < n ensures cmp(t[i], x) <= 0 {
          if i < n - 1 {
            assert cmp(t[i], last) <= 0;
          }
        }
        SortedAppend(cmp, t, x);
      }
    }
  }

  /** For an antisymmetric, transitive comparator the output is sorted. */
  lemma {:induction false} InsertionSortSorted<T>(cmp: (T, T) -> int, s: seq<T>)
    requires forall a, b :: cmp(a, b) == -cmp(b, a)
    requires forall a, b, c :: cmp(a, b) <= 0 && cmp(b, c) <= 0 ==> cmp(a, c) <= 0
    ensures SortedBy(cmp, InsertionSort(cmp, s))
  {
    if s != [] {
      InsertionSortSorted(cmp, s[..|s| - 1]);
      InsertSortedKeepsSorted(cmp, InsertionSort(cmp, s[..|s| - 1]), s[|s| - 1]);
    }
  }

  /** The elements of `s` that compare equal to `z`, in their order in `s`. */
  function TiedWith<T>(cmp: (T, T) -> int, s: seq<T>, z: T): seq<T>
  {
    Filter(y => cmp(y, z) == 0, s)
  }

  lemma TiedWithConcat<T>(cmp: (T, T) -> int, a: seq<T>, b: seq<T>, z: T)
    ensures TiedWith(cmp, a + b, z) == TiedWith(cmp, a, z) + TiedWith(cmp, b, z)
  {
    FilterConcat(y => cmp(y, z) == 0, a, b);
  }

  lemma TiedWithSingle<T>(cmp: (T, T) -> int, x: T, z: T)
    ensures TiedWith(cmp, [x], z) == if cmp(x, z) == 0 then [x] else []
  {
    assert [x][1..] == [];
  }

  lemma {:induction false} InsertSortedStable<T>(cmp: (T, T) -> int, t: seq<T>, x: T, z: T)
    requires forall a, b :: cmp(a, b) == -cmp(b, a)
    requires forall a, b, c :: cmp(a, b) <= 0 && cmp(b, c) <= 0 ==> cmp(a, c) <= 0
    ensures TiedWith(cmp, InsertSorted(cmp, t, x), z) == TiedWith(cmp, t, z) + TiedWith(cmp, [x], z)
  {
    if t == [] {
      assert [x] == [] + [x];
      TiedWithConcat(cmp, [], [x], z);
    } else {
      var n := |t|;
      var t0, last := t[..n - 1], t[n - 1];
      assert t == t0 + [last];
      TiedWithConcat(cmp, t0, [last], z);
      if cmp(last, x) > 0 {
        var u := InsertSorted(cmp, t0, x);
        InsertSortedStable(cmp, t0, x, z);
        TiedWithConcat(cmp, u, [last], z);
        TiedWithSingle(cmp, x, z);
        TiedWithSingle(cmp, last, z);
        if cmp(x, z) == 0 && cmp(last, z) == 0 {
          assert false;
        }
      } else {
        TiedWithConcat(cmp, t, [x], z);
      }
    }
  }

  /** Stability: for every `z`, the elements tied with `z` keep their input
      order. */
  lemma {:induction false} InsertionSortStable<T>(cmp: (T, T) -> int, s: seq<T>, z: T)
    requires forall a, b :: cmp(a, b) == -cmp(b, a)
    requires forall a, b, c :: cmp(a, b) <= 0 && cmp(b, c) <= 0 ==> cmp(a, c) <= 0
    ensures TiedWith(cmp, InsertionSort(cmp, s), z) == TiedWith(cmp, s, z)
  {
    if s != [] {
      var s0, x := s[..|s| - 1], s[|s| - 1];
      InsertionSortStable(cmp, s0, z);
      InsertSortedStable(cmp, InsertionSort(cmp, s0), x, z);
      assert s == s0 + [x];
      TiedWithConcat(cmp, s0, [x], z);
    }
  }

  lemma InsertSortedPrefixShift<T>(cmp: (T, T) -> int, t: seq<T>, j: int, x: T)
    requires 0 < j <= |t| && cmp(t[j - 1], x) > 0
    ensures InsertSorted(cmp, t[..j], x) == InsertSorted(cmp, t[..j - 1], x) + [t[j - 1]]
  {
    assert t[..j][..j - 1] == t[..j - 1];
  }

  lemma InsertSortedPrefixStop<T>(cmp: (T, T) -> int, t: seq<T>, j: int, x: T)
    requires 0 <= j <= |t|
    requires j == 0 || cmp(t[j - 1], x) <= 0
    ensures InsertSorted(cmp, t[..j], x) == t[..j] + [x]
  {
    if j > 0 {
      assert t[..j][..j - 1] == t[..j - 1];
    }
  }

  /** A shift step of `InsertAt`: the hole at `j` moves to `j - 1`. */
  lemma ShiftHole<T>(t: seq<T>, j: int, h: T, rest: seq<T>)
    requires 0 < j <= |t|
    ensures (t[..j] + [h] + (t[j..] + rest))[j := t[j - 1]]
         == t[..j - 1] + [t[j - 1]] + (t[j - 1..] + rest)
  {
    assert t[..j] == t[..j - 1] + [t[j - 1]];
    assert t[j - 1..] == [t[j - 1]] + t[j..];
  }

  lemma FillHole<T>(t: seq<T>, j: int, h: T, rest: seq<T>, x: T)
    requires 0 <= j <= |t|
    ensures (t[..j] + [h] + (t[j..] + rest))[j := x] == (t[..j] + [x] + t[j..]) + rest
  {
  }

  lemma InsertSortedShifted<T>(cmp: (T, T) -> int, t: seq<T>, j: int, x: T)
    requires 0 < j <= |t| && cmp(t[j - 1], x) > 0
    requires InsertSorted(cmp, t, x) == InsertSorted(cmp, t[..j], x) + t[j..]
    ensures InsertSorted(cmp, t, x) == InsertSorted(cmp, t[..j - 1], x) + t[j - 1..]
  {
    var u := InsertSorted(cmp, t[..j - 1], x);
    InsertSortedPrefixShift(cmp, t, j, x);
    DropCons(t, j - 1, u);
  }

  lemma DropCons<T>(t: seq<T>, k: int, u: seq<T>)
    requires 0 <= k < |t|
    ensures (u + [t[k]]) + t[k + 1..] == u + t[k..]
  {
    assert t[k..] == [t[k]] + t[k + 1..];
  }

  /** Moves `a[i]` left past the elements of `a[..i]` that compare greater. */
  method InsertAt<T>(a: array<T>, i: int, cmp: (T, T) -> int)
    requires 0 <= i < a.Length
    modifies a
    ensures a[..i + 1] == InsertSorted(cmp, old(a[..i]), old(a[i]))
    ensures a[i + 1..] == old(a[i + 1..])
  {
    var x := a[i];
    ghost var t := a[..i];
    ghost var rest := a[i + 1..];
    assert t[..i] == t && t[i..] == [];
    assert a[..] == t[..i] + [a[i]] + (t[i..] + rest);
    var j := i;
    while j > 0 && cmp(a[j - 1], x) > 0
      invariant 0 <= j <= i
      invariant a[..] == t[..j] + [a[j]] + (t[j..] + rest)
      invariant InsertSorted(cmp, t, x) == InsertSorted(cmp, t[..j], x) + t[j..]
    {
      InsertSortedShifted(cmp, t, j, x);
      ShiftHole(t, j, a[j], rest);
      a[j] := a[j - 1];
      j := j - 1;
    }
    FillHole(t, j, a[j], rest, x);
    a[j] := x;
    InsertSortedPrefixStop(cmp, t, j, x);
  }

  /** Sorts `a` in place; the result is `InsertionSort` of the old contents. */
  method SortInPlace<T>(a: array<T>, cmp: (T, T) -> int)
    modifies a
    ensures a[..] == InsertionSort(cmp, old(a[..]))
  {
    ghost var input := a[..];
    var i := 0;
    while i < a.Length
      invariant 0 <= i <= a.Length
      invariant a[..i] == InsertionSort(cmp, input[..i])
      invariant a[i..] == input[i..]
    {
      InsertAt(a, i, cmp);
      assert input[..i + 1][..i] == input[..i];
      assert a[i + 1..] == input[i + 1..];
      i := i + 1;
    }
    assert input[..a.Length] == input;
  }
}

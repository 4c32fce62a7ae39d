/** Sequence operations behind the dashboard's list code: `Array.prototype.filter`,
    order-preserving subsequences, de-duplication in first-appearance order
    (`Array.from(new Set(...))`), occurrence counts and the last-n window of
    `slice(-n)`, and the first match of `Array.prototype.find`. */
module Seqs {

  import opened Wrappers

  /** The elements of `s` that satisfy `p`, in their original order. */
  function Filter<T>(p: T -> bool, s: seq<T>): (r: seq<T>)
    ensures |r| <= |s|
  {
    if s == [] then [] else (if p(s[0]) then [s[0]] else []) + Filter(p, s[1..])
  }

  /** One unfolding step of `Filter` on a non-empty sequence. */
  lemma FilterCons<T>(p: T -> bool, x: T, s: seq<T>)
    ensures Filter(p, [x] + s) == (if p(x) then [x] else []) + Filter(p, s)
  {
    assert ([x] + s)[1..] == s;
  }

  /** `x` is kept exactly when it occurs in `s` and passes `p`. */
  lemma {:induction false} FilterMember<T>(p: T -> bool, s: seq<T>, x: T)
    ensures x in Filter(p, s) <==> x in s && p(x)
  {
    if s != [] {
      FilterMember(p, s[1..], x);
      assert s == [s[0]] + s[1..];
    }
  }

  /** An element is kept exactly when it occurs and passes the predicate. */
  lemma {:induction false} FilterMembers<T(!new)>(p: T -> bool, s: seq<T>)
    ensures forall x :: x in Filter(p, s) <==> x in s && p(x)
  {
    if s != [] {
      FilterMembers(p, s[1..]);
      assert s == [s[0]] + s[1..];
    }
  }

  /** `a` is obtained from `b` by dropping elements: every element of `b` is
      either skipped or matched, in order. */
  predicate IsSubsequence<T(==)>(a: seq<T>, b: seq<T>)
  {
    a == [] ||
    (b != [] && (IsSubsequence(a, b[1..]) || (a[0] == b[0] && IsSubsequence(a[1..], b[1..]))))
  }

  lemma {:induction false} FilterIsSubsequence<T>(p: T -> bool, s: seq<T>)
    ensures IsSubsequence(Filter(p, s), s)
  {
    if s != [] {
      FilterIsSubsequence(p, s[1..]);
      if p(s[0]) {
        assert Filter(p, s) == [s[0]] + Filter(p, s[1..]);
        assert Filter(p, s)[1..] == Filter(p, s[1..]);
      } else {
        assert Filter(p, s) == Filter(p, s[1..]);
      }
    }
  }

  lemma {:induction false} FilterConcat<T>(p: T -> bool, a: seq<T>, b: seq<T>)
    ensures Filter(p, a + b) == Filter(p, a) + Filter(p, b)
  {
    if a == [] {
      assert a + b == b;
    } else {
      var head := if p(a[0]) then [a[0]] else [];
      FilterConcat(p, a[1..], b);
      assert (a + b)[0] == a[0];
      assert (a + b)[1..] == a[1..] + b;
      assert Filter(p, a + b) == head + Filter(p, a[1..] + b);
      assert Filter(p, a) == head + Filter(p, a[1..]);
    }
  }

  /** Filtering keeps the whole sequence exactly when every element passes. */
  lemma {:induction false} FilterAll<T>(p: T -> bool, s: seq<T>)
    ensures Filter(p, s) == s <==> forall x :: x in s ==> p(x)
  {
    if s != [] {
      FilterAll(p, s[1..]);
      if !p(s[0]) {
        assert |Filter(p, s)| < |s|;
      }
    }
  }

  /** Nothing is dropped exactly when every element passes. */
  lemma {:induction false} FilterKeepsLength<T>(p: T -> bool, s: seq<T>)
    ensures |Filter(p, s)| == |s| <==> forall i :: 0 <= i < |s| ==> p(s[i])
  {
    if s != [] {
      FilterKeepsLength(p, s[1..]);
      assert forall i :: 1 <= i < |s| ==> s[i] == s[1..][i - 1];
    }
  }

  /** Filtering twice with the same predicate changes nothing. */
  lemma FilterIdempotent<T(!new)>(p: T -> bool, s: seq<T>)
    ensures Filter(p, Filter(p, s)) == Filter(p, s)
  {
    FilterMembers(p, s);
    forall x | x in Filter(p, s) ensures p(x) {
      assert x in s && p(x);
    }
    FilterAll(p, Filter(p, s));
  }

  /** Predicates that agree on the elements of `s` keep the same elements. */
  lemma {:induction false} FilterExt<T>(p: T -> bool, q: T -> bool, s: seq<T>)
    requires forall i :: 0 <= i < |s| ==> p(s[i]) == q(s[i])
    ensures Filter(p, s) == Filter(q, s)
  {
    if s != [] {
      FilterExt(p, q, s[1..]);
    }
  }

  /** A weaker predicate keeps at least as many elements. */
  lemma {:induction false} FilterMonotone<T>(p: T -> bool, q: T -> bool, s: seq<T>)
    requires forall i :: 0 <= i < |s| ==> p(s[i]) ==> q(s[i])
    ensures |Filter(p, s)| <= |Filter(q, s)|
  {
    if s != [] {
      FilterMonotone(p, q, s[1..]);
    }
  }

  /** Every element is kept either by `p` or by its complement `q`. */
  lemma {:induction false} FilterPartition<T>(p: T -> bool, q: T -> bool, s: seq<T>)
    requires forall i :: 0 <= i < |s| ==> q(s[i]) == !p(s[i])
    ensures |Filter(p, s)| + |Filter(q, s)| == |s|
  {
    if s != [] {
      FilterPartition(p, q, s[1..]);
    }
  }

  /** `selected.some(x => tags.includes(x))`. */
  predicate SharesAny<T(==)>(selected: seq<T>, tags: seq<T>)
  {
    exists i :: 0 <= i < |selected| && selected[i] in tags
  }

  lemma SharesAnyMembers<T>(selected: seq<T>, tags: seq<T>, x: T)
    requires x in selected && x in tags
    ensures SharesAny(selected, tags)
  {
    var i :| 0 <= i < |selected| && selected[i] == x;
  }

  predicate NoDuplicates<T(==)>(s: seq<T>)
  {
    forall i, j :: 0 <= i < j < |s| ==> s[i] != s[j]
  }

  lemma {:induction false} FilterKeepsNoDuplicates<T(!new)>(p: T -> bool, s: seq<T>)
    requires NoDuplicates(s)
    ensures NoDuplicates(Filter(p, s))
  {
    if s != [] {
      assert NoDuplicates(s[1..]) by {
        forall i, j | 0 <= i < j < |s[1..]| ensures s[1..][i] != s[1..][j] {
          assert s[1..][i] == s[i + 1] && s[1..][j] == s[j + 1];
        }
      }
      FilterKeepsNoDuplicates(p, s[1..]);
      FilterMembers(p, s[1..]);
      assert s[0] !in s[1..] by {
        forall k | 0 <= k < |s[1..]| ensures s[1..][k] != s[0] {
          assert s[1..][k] == s[k + 1];
        }
      }
    }
  }

  /** How many times `x` occurs in `s`. */
  function Count<T(==)>(s: seq<T>, x: T): (n: nat)
    ensures n <= |s|
    ensures n == 0 <==> x !in s
  {
    if s == [] then 0 else (if s[0] == x then 1 else 0) + Count(s[1..], x)
  }

  /** In a duplicate-free sequence a present element occurs once. */
  lemma {:induction false} CountNoDuplicates<T>(s: seq<T>, x: T)
    requires NoDuplicates(s) && x in s
    ensures Count(s, x) == 1
  {
    if s[0] != x {
      assert NoDuplicates(s[1..]) by {
        forall i, j | 0 <= i < j < |s[1..]| ensures s[1..][i] != s[1..][j] {
          assert s[1..][i] == s[i + 1] && s[1..][j] == s[j + 1];
        }
      }
      CountNoDuplicates(s[1..], x);
    } else {
      assert x !in s[1..] by {
        forall k | 0 <= k < |s[1..]| ensures s[1..][k] != x {
          assert s[1..][k] == s[k + 1];
        }
      }
    }
  }

  lemma {:induction false} CountConcat<T>(a: seq<T>, b: seq<T>, x: T)
    ensures Count(a + b, x) == Count(a, x) + Count(b, x)
  {
    if a == [] {
      assert a + b == b;
    } else {
      assert (a + b)[1..] == a[1..] + b;
      CountConcat(a[1..], b, x);
    }
  }

  /** Appending one element adds it to the distinct list exactly when it is new. */
  lemma DistinctSnoc<T>(s: seq<T>, x: T)
    ensures Distinct(s + [x]) == if x in s then Distinct(s) else Distinct(s) + [x]
  {
    assert (s + [x])[..|s + [x]| - 1] == s;
    DistinctMembers(s);
  }

  /** Every later element of `d` first occurs in `s` after the earlier ones:
      any occurrence of `d[j]` in `s` is preceded by an occurrence of `d[i]`. */
  ghost predicate InFirstAppearanceOrder<T>(d: seq<T>, s: seq<T>)
  {
    forall i, j, k :: 0 <= i < j < |d| && 0 <= k < |s| && s[k] == d[j] ==> d[i] in s[..k]
  }

  /** The distinct elements of `s`, each once, in the order of first appearance:
      the value of `Array.from(new Set(s))`. */
  function Distinct<T(==)>(s: seq<T>): (r: seq<T>)
    ensures forall i :: 0 <= i < |r| ==> r[i] in s
    ensures forall i :: 0 <= i < |s| ==> s[i] in r
    ensures NoDuplicates(r)
    ensures |r| <= |s|
  {
    if s == [] then []
    else
      var d := Distinct(s[..|s| - 1]);
      assert forall i :: 0 <= i < |d| ==> d[i] in s by {
        assert s == s[..|s| - 1] + [s[|s| - 1]];
      }
      assert forall i :: 0 <= i < |s| - 1 ==> s[i] in d by {
        forall i | 0 <= i < |s| - 1 ensures s[i] in d {
          assert s[..|s| - 1][i] == s[i];
        }
      }
      if s[|s| - 1] in d then d else d + [s[|s| - 1]]
  }

  /** `Distinct(s)` holds exactly the elements of `s`. */
  lemma DistinctMembers<T>(s: seq<T>)
    ensures forall x :: x in Distinct(s) <==> x in s
  {
    var d := Distinct(s);
    forall x ensures x in d <==> x in s {
      if x in d {
        var i :| 0 <= i < |d| && d[i] == x;
      }
      if x in s {
        var i :| 0 <= i < |s| && s[i] == x;
      }
    }
  }

  lemma {:induction false} DistinctInFirstAppearanceOrder<T>(s: seq<T>)
    ensures InFirstAppearanceOrder(Distinct(s), s)
  {
    if s != [] {
      var s0, y := s[..|s| - 1], s[|s| - 1];
      var d0, d := Distinct(s0), Distinct(s);
      DistinctInFirstAppearanceOrder(s0);
      forall i, j, k | 0 <= i < j < |d| && 0 <= k < |s| && s[k] == d[j]
        ensures d[i] in s[..k]
      {
        if k < |s0| {
          assert s[..k] == s0[..k];
          assert s0[k] == s[k];
          assert d[j] in d0;
        } else if y in d0 {
          assert d == d0;
          var k0 :| 0 <= k0 < |s0| && s0[k0] == y;
          assert d0[i] in s0[..k0];
          assert s0[..k0] <= s[..k];
        } else {
          assert d[i] == d0[i] && d0[i] in s0;
          assert s[..k] == s0;
        }
      }
    }
  }

  /** `s.map(f)`. */
  function Map<T, U>(f: T -> U, s: seq<T>): (r: seq<U>)
    ensures |r| == |s| && forall i :: 0 <= i < |r| ==> r[i] == f(s[i])
  {
    seq(|s|, i requires 0 <= i < |s| => f(s[i]))
  }

  /** `Array.from(new Set(s.map(f)))`: the option lists built from one field
      are duplicate-free, hold exactly the values of that field, and list
      them in the order they first appear. */
  lemma DistinctOfMap<T, U>(f: T -> U, s: seq<T>)
    ensures NoDuplicates(Distinct(Map(f, s)))
    ensures forall c :: c in Distinct(Map(f, s)) <==> exists i :: 0 <= i < |s| && f(s[i]) == c
    ensures InFirstAppearanceOrder(Distinct(Map(f, s)), Map(f, s))
  {
    var l := Map(f, s);
    DistinctMembers(l);
    DistinctInFirstAppearanceOrder(l);
    forall c ensures c in l <==> exists i :: 0 <= i < |s| && f(s[i]) == c {
      if c in l {
        var i :| 0 <= i < |l| && l[i] == c;
      }
    }
  }

  /** `Array.prototype.find`: the first element satisfying `p`, if any. */
  function Find<T>(p: T -> bool, s: seq<T>): (r: Option<T>)
    ensures r.None? <==> forall i :: 0 <= i < |s| ==> !p(s[i])
    ensures r.Some? ==> exists k :: 0 <= k < |s| && s[k] == r.value && p(s[k]) &&
                                    forall i :: 0 <= i < k ==> !p(s[i])
  {
    if s == [] then None
    else if p(s[0]) then Some(s[0])
    else
      var r := Find(p, s[1..]);
      assert r.Some? ==> var k :| 0 <= k < |s[1..]| && s[1..][k] == r.value && p(s[1..][k]) &&
                            forall i :: 0 <= i < k ==> !p(s[1..][i]);
                          s[k + 1] == r.value && forall i :: 0 <= i < k + 1 ==> !p(s[i]);
      r
  }

  /** The element found is the one at the first index that satisfies `p`. */
  lemma FindFirst<T>(p: T -> bool, s: seq<T>, k: int)
    requires 0 <= k < |s| && p(s[k])
    requires forall i :: 0 <= i < k ==> !p(s[i])
    ensures Find(p, s) == Some(s[k])
  {
    var r := Find(p, s);
    var j :| 0 <= j < |s| && s[j] == r.value && p(s[j]) && forall i :: 0 <= i < j ==> !p(s[i]);
    assert j == k;
  }

  /** `slice(-n)` of JavaScript: the last `n` elements, except that `slice(-0)`
      is `slice(0)`, the whole array. */
  function LastN<T>(s: seq<T>, n: nat): (r: seq<T>)
    ensures n == 0 || n >= |s| ==> r == s
    ensures 0 < n <= |s| ==> |r| == n
    ensures r == s[|s| - |r|..]
  {
    if n == 0 || n >= |s| then s else s[|s| - n..]
  }
}

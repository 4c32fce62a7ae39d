/** String operations the dashboard takes from the JavaScript runtime, restricted
    to what the model needs: ASCII `toLowerCase`, `includes`, `trim`, `split`
    on one character, `replace` of one character everywhere, and `localeCompare`
    read as plain lexicographic order of code points. */
module Text {

  import opened Seqs

  function LowerChar(c: char): (r: char)
    ensures 'A' <= c <= 'Z' ==> 'a' <= r <= 'z' && r as int == c as int + 32
    ensures !('A' <= c <= 'Z') ==> r == c
  {
    if 'A' <= c <= 'Z' then (c as int + 32) as char else c
  }

  /** `toLowerCase` on ASCII letters; every other character is kept. */
  function Lower(s: string): (r: string)
    ensures |r| == |s|
    ensures forall i :: 0 <= i < |s| ==> r[i] == LowerChar(s[i])
  {
    seq(|s|, i requires 0 <= i < |s| => LowerChar(s[i]))
  }

  lemma LowerIdempotent(s: string)
    ensures Lower(Lower(s)) == Lower(s)
  {
  }

  /** `q` occurs in `s` starting at position `i`. */
  predicate OccursAt(s: string, q: string, i: int)
  {
    0 <= i && i + |q| <= |s| && s[i..i + |q|] == q
  }

  /** `s.includes(q)`: `q` occurs in `s` as a contiguous block. */
  predicate Contains(s: string, q: string)
  {
    exists i :: 0 <= i <= |s| - |q| && OccursAt(s, q, i)
  }

  /** The empty query occurs in every string. */
  lemma ContainsEmpty(s: string)
    ensures Contains(s, "")
  {
    assert OccursAt(s, "", 0);
  }

  /** A string occurs in itself, so a record is always found by its own field. */
  lemma ContainsSelf(s: string)
    ensures Contains(s, s)
  {
    assert OccursAt(s, s, 0);
  }

  /** The characters `trim` removes: the WhiteSpace and LineTerminator code
      points of ECMAScript (tab, vertical tab, form feed, the byte-order mark,
      the space separators of Unicode category Zs, line feed, carriage return,
      and the line and paragraph separators). */
  predicate IsWhitespace(c: char)
  {
    c == '\t' || c == '\U{000B}' || c == '\U{000C}' || c == '\U{FEFF}' ||
    c == ' ' || c == '\U{00A0}' || c == '\U{1680}' || '\U{2000}' <= c <= '\U{200A}' ||
    c == '\U{202F}' || c == '\U{205F}' || c == '\U{3000}' ||
    c == '\n' || c == '\r' || c == '\U{2028}' || c == '\U{2029}'
  }

  predicate AllWhitespace(s: string)
  {
    forall i :: 0 <= i < |s| ==> IsWhitespace(s[i])
  }

  function TrimStart(s: string): (r: string)
    ensures |r| <= |s|
    ensures r == s[|s| - |r|..]
    ensures AllWhitespace(s[..|s| - |r|])
    ensures r == [] || !IsWhitespace(r[0])
  {
    if s != [] && IsWhitespace(s[0]) then
      var r := TrimStart(s[1..]);
      assert s[..|s| - |r|] == [s[0]] + s[1..][..|s[1..]| - |r|];
      r
    else s
  }

  function TrimEnd(s: string): (r: string)
    ensures |r| <= |s|
    ensures r == s[..|r|]
    ensures AllWhitespace(s[|r|..])
    ensures r == [] || !IsWhitespace(r[|r| - 1])
  {
    if s != [] && IsWhitespace(s[|s| - 1]) then
      var r := TrimEnd(s[..|s| - 1]);
      assert s[|r|..] == s[..|s| - 1][|r|..] + [s[|s| - 1]];
      r
    else s
  }

  /** `s.trim()`: the block of `s` left when the white space at both ends is
      cut off, and nothing inside it. */
  function Trim(s: string): (r: string)
    ensures r == [] || (!IsWhitespace(r[0]) && !IsWhitespace(r[|r| - 1]))
    ensures exists i, j ::
              0 <= i <= j <= |s| && r == s[i..j] && AllWhitespace(s[..i]) && AllWhitespace(s[j..])
    ensures Contains(s, r)
  {
    var t := TrimStart(s);
    var r := TrimEnd(t);
    var i := |s| - |t|;
    assert r == s[i..i + |r|];
    assert s[i + |r|..] == t[|r|..];
    assert OccursAt(s, r, i);
    r
  }

  lemma TrimStartEmpty(s: string)
    ensures TrimStart(s) == [] <==> AllWhitespace(s)
  {
    var r := TrimStart(s);
    if r == [] {
      assert s[..|s|] == s;
    } else {
      assert r[0] == s[|s| - |r|];
    }
  }

  lemma TrimEndEmpty(s: string)
    ensures TrimEnd(s) == [] <==> AllWhitespace(s)
  {
    var r := TrimEnd(s);
    if r == [] {
      assert s[0..] == s;
    } else {
      assert r[|r| - 1] == s[|r| - 1];
    }
  }

  /** Trimming leaves nothing exactly when the string is all white space. */
  lemma TrimEmpty(s: string)
    ensures Trim(s) == [] <==> AllWhitespace(s)
  {
    var t := TrimStart(s);
    TrimStartEmpty(s);
    TrimEndEmpty(t);
    assert Trim(s) == TrimEnd(t);
  }

  /** `s.replace(/from/g, to)` for a single character. */
  function ReplaceChar(s: string, from: char, to: char): (r: string)
    ensures |r| == |s|
    ensures forall i :: 0 <= i < |s| ==> r[i] == if s[i] == from then to else s[i]
  {
    seq(|s|, i requires 0 <= i < |s| => if s[i] == from then to else s[i])
  }

  /** `s.split(sep)` for a single-character separator; always at least one part. */
  function Split(s: string, sep: char): (parts: seq<string>)
    ensures |parts| >= 1
  {
    if s == [] then [""]
    else if s[0] == sep then [""] + Split(s[1..], sep)
    else
      var rest := Split(s[1..], sep);
      [[s[0]] + rest[0]] + rest[1..]
  }

  /** `parts.join(sep)`. */
  function Join(parts: seq<string>, sep: char): string
    requires |parts| >= 1
  {
    if |parts| == 1 then parts[0] else parts[0] + [sep] + Join(parts[1..], sep)
  }

  /** Splitting cuts exactly at the separators: joining the parts again gives
      the string back, no part contains the separator, and there is one part
      more than there are separators. */
  lemma {:induction false} SplitJoin(s: string, sep: char)
    ensures Join(Split(s, sep), sep) == s
    ensures forall k :: 0 <= k < |Split(s, sep)| ==> sep !in Split(s, sep)[k]
    ensures |Split(s, sep)| == Count(s, sep) + 1
  {
    if s != [] {
      SplitJoin(s[1..], sep);
      var rest := Split(s[1..], sep);
      if s[0] == sep {
        assert Split(s, sep)[1..] == rest;
      } else {
        var parts := Split(s, sep);
        assert parts[0] == [s[0]] + rest[0];
        assert parts[1..] == rest[1..];
        if |rest| > 1 {
          assert Join(rest, sep) == rest[0] + [sep] + Join(rest[1..], sep);
        }
        forall k | 0 <= k < |parts| ensures sep !in parts[k] {
          if k > 0 { assert parts[k] == rest[k]; }
        }
      }
    }
  }

  /** `a.localeCompare(b)` read as lexicographic comparison of code points:
      negative, zero or positive. */
  function LexCompare(a: string, b: string): (r: int)
    ensures -1 <= r <= 1
  {
    if a == [] && b == [] then 0
    else if a == [] then -1
    else if b == [] then 1
    else if a[0] < b[0] then -1
    else if a[0] > b[0] then 1
    else LexCompare(a[1..], b[1..])
  }

  lemma {:induction false} LexCompareAntisymmetric(a: string, b: string)
    ensures LexCompare(a, b) == -LexCompare(b, a)
  {
    if a != [] && b != [] && a[0] == b[0] {
      LexCompareAntisymmetric(a[1..], b[1..]);
    }
  }

  lemma {:induction false} LexCompareZero(a: string, b: string)
    ensures LexCompare(a, b) == 0 <==> a == b
  {
    if a != [] && b != [] && a[0] == b[0] {
      LexCompareZero(a[1..], b[1..]);
      assert a == [a[0]] + a[1..] && b == [b[0]] + b[1..];
    }
  }

  lemma {:induction false} LexCompareTransitive(a: string, b: string, c: string)
    requires LexCompare(a, b) <= 0 && LexCompare(b, c) <= 0
    ensures LexCompare(a, c) <= 0
  {
    if a != [] && b != [] && c != [] && a[0] == b[0] && b[0] == c[0] {
      LexCompareTransitive(a[1..], b[1..], c[1..]);
    }
  }
}

/**
 * String primitives with the meaning Python gives them: whitespace as `str.isspace` and the
 * regular-expression class `\s` see it, `strip()`, `str.join`, and code-point order for `<`.
 */
module Text {

  /** The characters Python counts as whitespace (`str.isspace`, `\s` in a `str` pattern). */
  predicate IsSpace(c: char)
  {
    c == ' ' || c == '\t' || c == '\n' || c == '\U{000B}' || c == '\U{000C}' || c == '\r'
    || ('\U{001C}' <= c <= '\U{001F}') || c == '\U{0085}' || c == '\U{00A0}' || c == '\U{1680}'
    || ('\U{2000}' <= c <= '\U{200A}') || c == '\U{2028}' || c == '\U{2029}'
    || c == '\U{202F}' || c == '\U{205F}' || c == '\U{3000}'
  }

  /** `s.lstrip()`: drops the leading whitespace and nothing else. */
  function TrimStart(s: string): (r: string)
    ensures |r| <= |s| && r == s[|s| - |r|..]
    ensures forall k :: 0 <= k < |s| - |r| ==> IsSpace(s[k])
    ensures r != [] ==> !IsSpace(r[0])
  {
    if s != [] && IsSpace(s[0]) then TrimStart(s[1..]) else s
  }

  /** `s.rstrip()`: drops the trailing whitespace and nothing else. */
  function TrimEnd(s: string): (r: string)
    ensures |r| <= |s| && r == s[..|r|]
    ensures forall k :: |r| <= k < |s| ==> IsSpace(s[k])
    ensures r != [] ==> !IsSpace(r[|r| - 1])
  {
    if s != [] && IsSpace(s[|s| - 1]) then TrimEnd(s[..|s| - 1]) else s
  }

  /** r is s[i..] cut to |r| characters, and everything cut off around it is whitespace. */
  predicate SpaceBounded(s: string, r: string, i: int)
  {
    0 <= i <= |s| - |r| && r == s[i..i + |r|]
    && (forall k :: 0 <= k < i ==> IsSpace(s[k]))
    && (forall k :: i + |r| <= k < |s| ==> IsSpace(s[k]))
  }

  /** `s.strip()`: a slice of s whose ends are not whitespace, all that is cut off being whitespace. */
  function Trim(s: string): (r: string)
    ensures exists i :: SpaceBounded(s, r, i)
    ensures r != [] ==> !IsSpace(r[0]) && !IsSpace(r[|r| - 1])
  {
    var t := TrimStart(s);
    var r := TrimEnd(t);
    TrimBounded(s, t, r);
    r
  }

  /** A whitespace-free middle cut from the front and then from the back is a whitespace-bounded slice. */
  lemma {:induction false} TrimBounded(s: string, t: string, r: string)
    requires |t| <= |s| && t == s[|s| - |t|..] && forall k :: 0 <= k < |s| - |t| ==> IsSpace(s[k])
    requires |r| <= |t| && r == t[..|r|] && forall k :: |r| <= k < |t| ==> IsSpace(t[k])
    requires (t != [] ==> !IsSpace(t[0])) && (r != [] ==> !IsSpace(r[|r| - 1]))
    ensures exists i :: SpaceBounded(s, r, i)
    ensures r != [] ==> !IsSpace(r[0]) && !IsSpace(r[|r| - 1])
  {
    assert r != [] ==> r[0] == t[0];
    var i := |s| - |t|;
    forall k | 0 <= k < |r|
      ensures r[k] == s[i + k]
    {
      assert r[k] == t[k];
    }
    assert r == s[i..i + |r|];
    forall k | i + |r| <= k < |s|
      ensures IsSpace(s[k])
    {
      assert s[k] == t[k - i];
    }
    assert SpaceBounded(s, r, i);
  }

  /** p occurs in s starting at index i. */
  predicate Occurs(s: string, p: string, i: int)
  {
    0 <= i && i + |p| <= |s| && s[i..i + |p|] == p
  }

  /** `p in s` for strings. */
  predicate ContainsSub(s: string, p: string)
  {
    exists i | 0 <= i <= |s| :: Occurs(s, p, i)
  }

  /** `s.endswith(p)`; `s.startswith(p)` is Dafny's prefix test `p <= s`. */
  predicate HasSuffix(s: string, p: string)
  {
    |p| <= |s| && s[|s| - |p|..] == p
  }

  /** Python's `a <= b` on strings: code-point lexicographic order, a proper prefix first. */
  predicate LexLe(a: string, b: string)
  {
    if a == [] then true
    else if b == [] then false
    else if a[0] != b[0] then a[0] < b[0]
    else LexLe(a[1..], b[1..])
  }

  lemma {:induction false} LexLeReflexive(a: string)
    ensures LexLe(a, a)
  {
    if a != [] { LexLeReflexive(a[1..]); }
  }

  lemma {:induction false} LexLeTotal(a: string, b: string)
    ensures LexLe(a, b) || LexLe(b, a)
  {
    if a != [] && b != [] && a[0] == b[0] { LexLeTotal(a[1..], b[1..]); }
  }

  lemma {:induction false} LexLeTransitive(a: string, b: string, c: string)
    requires LexLe(a, b) && LexLe(b, c)
    ensures LexLe(a, c)
  {
    if a != [] && b != [] && c != [] && a[0] == b[0] && b[0] == c[0] {
      LexLeTransitive(a[1..], b[1..], c[1..]);
    }
  }

  lemma {:induction false} LexLeAntisymmetric(a: string, b: string)
    requires LexLe(a, b) && LexLe(b, a)
    ensures a == b
  {
    if a != [] && b != [] {
      LexLeAntisymmetric(a[1..], b[1..]);
      assert a == [a[0]] + a[1..] && b == [b[0]] + b[1..];
    }
  }

  /** `sep.join(items)`. */
  function Join(sep: string, items: seq<string>): string
  {
    if items == [] then ""
    else if |items| == 1 then items[0]
    else Join(sep, items[..|items| - 1]) + sep + items[|items| - 1]
  }

  /** The summed length of the items. */
  function TotalLength(items: seq<string>): nat
  {
    if items == [] then 0 else TotalLength(items[..|items| - 1]) + |items[|items| - 1]|
  }

  /** Where items[i] starts inside `Join(sep, items)`. */
  function ItemOffset(sep: string, items: seq<string>, i: nat): nat
    requires i <= |items|
  {
    TotalLength(items[..i]) + |sep| * i
  }

  lemma {:induction false} JoinLength(sep: string, items: seq<string>)
    requires items != []
    ensures |Join(sep, items)| == TotalLength(items) + |sep| * (|items| - 1)
  {
    var n := |items| - 1;
    if n > 0 {
      var front := items[..n];
      JoinLength(sep, front);
      assert Join(sep, items) == Join(sep, front) + sep + items[n];
      assert TotalLength(items) == TotalLength(front) + |items[n]|;
      assert |sep| * n == |sep| * (n - 1) + |sep|;
    }
  }

  /** Text found in a prefix is still found, at the same place, once more text follows. */
  lemma {:induction false} OccursInLonger(s: string, rest: string, p: string, i: int)
    requires Occurs(s, p, i)
    ensures Occurs(s + rest, p, i)
  {
    assert (s + rest)[i..i + |p|] == s[i..i + |p|];
  }

  /** Every item appears in the joined text, at its offset, unchanged. */
  lemma {:induction false} JoinItemAt(sep: string, items: seq<string>, i: nat)
    requires i < |items|
    ensures Occurs(Join(sep, items), items[i], ItemOffset(sep, items, i))
  {
    var n := |items| - 1;
    if n > 0 {
      var front := items[..n];
      var j := Join(sep, front);
      assert Join(sep, items) == j + sep + items[n];
      JoinLength(sep, front);
      if i == n {
        assert front == items[..i];
        assert |sep| * n == |sep| * (n - 1) + |sep|;
        assert ItemOffset(sep, items, i) == |j| + |sep|;
        assert (j + sep + items[n])[|j| + |sep|..] == items[n];
      } else {
        JoinItemAt(sep, front, i);
        assert front[..i] == items[..i];
        assert ItemOffset(sep, front, i) == ItemOffset(sep, items, i);
        assert front[i] == items[i];
        OccursInLonger(j, sep + items[n], items[i], ItemOffset(sep, items, i));
        assert j + (sep + items[n]) == j + sep + items[n];
      }
    }
  }
}

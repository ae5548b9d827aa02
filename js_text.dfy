/** The few JavaScript string operations the server relies on, with the
    semantics the ECMAScript standard gives them. */
module JsText {
  import opened Wrappers

  /** The code points `String.prototype.trim` removes: the WhiteSpace and
      LineTerminator productions of ECMAScript (space separators included). */
  predicate IsWhitespace(c: char) {
    c == ' ' || c == '\t' || c == '\n' || c == '\r' || c == '\U{000B}' || c == '\U{000C}'
    || c == '\U{00A0}' || c == '\U{1680}' || ('\U{2000}' <= c <= '\U{200A}')
    || c == '\U{2028}' || c == '\U{2029}' || c == '\U{202F}' || c == '\U{205F}'
    || c == '\U{3000}' || c == '\U{FEFF}'
  }

  /** `s.startsWith(prefix)` */
  predicate StartsWith(s: string, prefix: string) {
    |prefix| <= |s| && s[..|prefix|] == prefix
  }

  /** A value is truthy when it is a defined, non-empty string. */
  predicate Truthy(o: Option<string>) {
    o.Some? && o.value != ""
  }

  /** Template-literal interpolation `${x}`: an undefined value prints as "undefined". */
  function Str(o: Option<string>): string {
    if o.Some? then o.value else "undefined"
  }

  /** `x || fallback` for a possibly undefined string `x`. */
  function OrElse(o: Option<string>, fallback: string): string {
    if Truthy(o) then o.value else fallback
  }

  /** Leading whitespace removed (`trimStart`). */
  function TrimStart(s: string): (r: string)
    ensures |r| <= |s| && r == s[|s| - |r|..]
    ensures r == [] || !IsWhitespace(r[0])
    ensures forall k :: 0 <= k < |s| - |r| ==> IsWhitespace(s[k])
  {
    if s != [] && IsWhitespace(s[0]) then TrimStart(s[1..]) else s
  }

  /** Trailing whitespace removed (`trimEnd`). */
  function TrimEnd(s: string): (r: string)
    ensures |r| <= |s| && r == s[..|r|]
    ensures r == [] || !IsWhitespace(r[|r| - 1])
    ensures forall k :: |r| <= k < |s| ==> IsWhitespace(s[k])
  {
    if s != [] && IsWhitespace(s[|s| - 1]) then TrimEnd(s[..|s| - 1]) else s
  }

  /** `s.trim()`: whitespace removed at both ends. */
  function Trim(s: string): (r: string)
    ensures |r| <= |s|
    ensures r == [] || (!IsWhitespace(r[0]) && !IsWhitespace(r[|r| - 1]))
  {
    TrimEnd(TrimStart(s))
  }

  /** `r` is the slice `s[i..j]` and only whitespace lies outside it. */
  predicate WhitespaceAround(s: string, r: string, i: int, j: int) {
    0 <= i <= j <= |s| && r == s[i..j]
    && (forall k :: 0 <= k < i ==> IsWhitespace(s[k]))
    && (forall k :: j <= k < |s| ==> IsWhitespace(s[k]))
  }

  /** The trim is the infix of `s` that remains once the whitespace on both
      sides of it is removed. */
  lemma TrimIsInfix(s: string)
    ensures exists i, j :: WhitespaceAround(s, Trim(s), i, j)
  {
    var t := TrimStart(s);
    var r := TrimEnd(t);
    var i := |s| - |t|;
    var j := i + |r|;
    assert r == s[i..j] by {
      assert t == s[i..];
    }
    assert forall k :: j <= k < |s| ==> IsWhitespace(s[k]) by {
      forall k | j <= k < |s| ensures IsWhitespace(s[k]) {
        assert s[k] == t[k - i];
      }
    }
    assert WhitespaceAround(s, Trim(s), i, j);
  }

  /** A string made of whitespace only trims to the empty string. */
  lemma {:induction false} TrimAllWhitespace(s: string)
    requires forall k :: 0 <= k < |s| ==> IsWhitespace(s[k])
    ensures Trim(s) == ""
  {
    if s != [] {
      TrimAllWhitespace(s[1..]);
      assert TrimStart(s) == TrimStart(s[1..]);
    }
  }

  /** Trimming keeps a prefix that neither starts nor ends with whitespace. */
  lemma TrimKeepsPrefix(s: string, p: string)
    requires p != [] && StartsWith(s, p)
    requires !IsWhitespace(p[0]) && !IsWhitespace(p[|p| - 1])
    ensures StartsWith(Trim(s), p)
  {
    assert s[0] == p[0];
    assert TrimStart(s) == s;
    var r := TrimEnd(s);
    var last := |p| - 1;
    assert s[last] == p[last];
    assert |p| <= |r|;
    assert r[..|p|] == s[..|p|];
  }

  /** A string that neither starts nor ends with whitespace is its own trim. */
  lemma TrimUnchanged(s: string)
    requires s != [] && !IsWhitespace(s[0]) && !IsWhitespace(s[|s| - 1])
    ensures Trim(s) == s
  {
    assert TrimStart(s) == s;
  }

  /** `pat` occurs in `s` starting at index `k`. */
  predicate OccursAt(s: string, pat: string, k: int) {
    0 <= k && k + |pat| <= |s| && s[k..k + |pat|] == pat
  }

  /** `s.indexOf(pat, from)`, or None for -1. */
  function IndexFrom(s: string, pat: string, from: nat): (r: Option<nat>)
    ensures r.Some? ==> from <= r.value && OccursAt(s, pat, r.value)
    ensures r.Some? ==> forall j :: from <= j < r.value ==> !OccursAt(s, pat, j)
    ensures r.None? ==> forall j :: from <= j ==> !OccursAt(s, pat, j)
    decreases |s| - from
  {
    if from + |pat| > |s| then None
    else if s[from..from + |pat|] == pat then Some(from)
    else IndexFrom(s, pat, from + 1)
  }

  /** The leftmost occurrence of `pat` in `s` (`s.indexOf(pat)`). */
  function IndexOf(s: string, pat: string): (r: Option<nat>)
    ensures r.Some? ==> OccursAt(s, pat, r.value)
    ensures r.Some? ==> forall j :: 0 <= j < r.value ==> !OccursAt(s, pat, j)
    ensures r.None? <==> forall j :: !OccursAt(s, pat, j)
  {
    IndexFrom(s, pat, 0)
  }

  /** `s.replace(/pat/g, '')` for a literal, non-empty pattern: occurrences are
      found left to right without overlap and deleted. */
  function RemoveAll(s: string, pat: string): (r: string)
    requires pat != []
    ensures |r| <= |s|
    decreases |s|
  {
    if |s| < |pat| then s
    else if s[..|pat|] == pat then RemoveAll(s[|pat|..], pat)
    else [s[0]] + RemoveAll(s[1..], pat)
  }

  /** A string that does not contain the pattern's first character is left as it is. */
  lemma {:induction false} RemoveAllAbsent(s: string, pat: string)
    requires pat != []
    requires forall k :: 0 <= k < |s| ==> s[k] != pat[0]
    ensures RemoveAll(s, pat) == s
  {
    if |s| >= |pat| {
      assert s[..|pat|][0] == s[0];
      RemoveAllAbsent(s[1..], pat);
      assert [s[0]] + s[1..] == s;
    }
  }

  /** An occurrence of `outer` carries every infix of it along. */
  lemma OccursInside(s: string, outer: string, inner: string, offset: nat, k: nat)
    requires OccursAt(s, outer, k)
    requires offset + |inner| <= |outer| && outer[offset..offset + |inner|] == inner
    ensures OccursAt(s, inner, k + offset)
  {
    forall i | 0 <= i < |inner| ensures s[k + offset + i] == inner[i] {
      assert s[k + offset + i] == s[k..k + |outer|][offset + i];
      assert inner[i] == outer[offset..offset + |inner|][i];
    }
    assert s[k + offset..k + offset + |inner|] == inner;
  }

  /** The index of the first `c` in `s` (`s.indexOf(c)` for one character). */
  function CharIndex(s: string, c: char): (r: Option<nat>)
    ensures r.None? <==> c !in s
    ensures r.Some? ==> r.value < |s| && s[r.value] == c && c !in s[..r.value]
  {
    if s == [] then None
    else if s[0] == c then Some(0)
    else
      var r := CharIndex(s[1..], c);
      if r.None? then None
      else
        assert s[..r.value + 1] == [s[0]] + s[1..][..r.value];
        Some(r.value + 1)
  }

  /** `field` is the text that follows the separator at `i`, the first one
      in `s`, up to the next separator or the end of `s`. */
  predicate SecondFieldAt(s: string, sep: char, i: int, field: string) {
    0 <= i < |s| && s[i] == sep && sep !in s[..i]
    && i + 1 + |field| <= |s| && field == s[i + 1..i + 1 + |field|]
    && (i + 1 + |field| == |s| || s[i + 1 + |field|] == sep)
  }

  /** `s.split(sep)[1]`: the text between the first and the second separator
      (or the end), undefined when the separator does not occur. */
  function SecondField(s: string, sep: char): (r: Option<string>)
    ensures r.None? <==> sep !in s
    ensures r.Some? ==> sep !in r.value
    ensures r.Some? ==> exists i :: SecondFieldAt(s, sep, i, r.value)
  {
    match CharIndex(s, sep)
    case None => None
    case Some(i) =>
      var rest := s[i + 1..];
      match CharIndex(rest, sep)
      case None =>
        assert SecondFieldAt(s, sep, i, rest);
        Some(rest)
      case Some(j) =>
        assert rest[..j] == s[i + 1..i + 1 + j];
        assert SecondFieldAt(s, sep, i, rest[..j]);
        Some(rest[..j])
  }
}

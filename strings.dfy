/**
 * The string helpers the service uses from Go's strings and unicode packages:
 * the first field of strings.Split, unicode.IsSpace and strings.TrimSpace.
 * A string is a sequence of Unicode scalar values (Go's runes).
 */
module Strings {

  /** unicode.IsSpace: the Latin-1 spaces plus the other White_Space code points. */
  predicate IsSpace(c: char) {
    || c == '\t' || c == '\n' || c == '\U{0B}' || c == '\U{0C}' || c == '\r' || c == ' '
    || c == '\U{85}' || c == '\U{A0}' || c == '\U{1680}'
    || ('\U{2000}' <= c <= '\U{200A}')
    || c == '\U{2028}' || c == '\U{2029}' || c == '\U{202F}' || c == '\U{205F}' || c == '\U{3000}'
  }

  predicate AllSpace(s: string) {
    forall i :: 0 <= i < |s| ==> IsSpace(s[i])
  }

  /** Neither end of s is a space. */
  predicate Trimmed(s: string) {
    s == [] || (!IsSpace(s[0]) && !IsSpace(s[|s| - 1]))
  }

  /**
   * strings.Split(s, sep)[0] for a one-character separator: everything before
   * the first sep, or all of s when sep does not occur.
   */
  function Before(s: string, sep: char): (r: string)
    ensures sep !in r
    ensures |r| <= |s| && r == s[..|r|]
    ensures |r| < |s| ==> s[|r|] == sep
  {
    if s == [] || s[0] == sep then []
    else [s[0]] + Before(s[1..], sep)
  }

  /** Whatever follows the first separator never changes the first field. */
  lemma BeforeFirstSeparator(a: string, sep: char, rest: string)
    requires sep !in a
    ensures Before(a + [sep] + rest, sep) == a
  {
    var s := a + [sep] + rest;
    var r := Before(s, sep);
    assert s[|a|] == sep;
    assert forall i :: 0 <= i < |a| ==> s[i] == a[i];
  }

  function TrimLeft(s: string): (r: string)
    ensures |r| <= |s| && r == s[|s| - |r|..]
    ensures AllSpace(s[..|s| - |r|])
    ensures r == [] || !IsSpace(r[0])
  {
    if s != [] && IsSpace(s[0]) then TrimLeft(s[1..]) else s
  }

  function TrimRight(s: string): (r: string)
    ensures |r| <= |s| && r == s[..|r|]
    ensures AllSpace(s[|r|..])
    ensures r == [] || !IsSpace(r[|r| - 1])
  {
    if s != [] && IsSpace(s[|s| - 1]) then TrimRight(s[..|s| - 1]) else s
  }

  /** strings.TrimSpace: drop leading and trailing white space. */
  function TrimSpace(s: string): (r: string)
    ensures Trimmed(r)
    ensures |r| <= |s|
  {
    var left := TrimLeft(s);
    var r := TrimRight(left);
    assert r != [] ==> r[0] == left[0];
    r
  }

  lemma {:induction false} TrimLeftSpaces(p: string, m: string)
    requires AllSpace(p)
    requires m == [] || !IsSpace(m[0])
    ensures TrimLeft(p + m) == m
  {
    if p != [] {
      assert (p + m)[1..] == p[1..] + m;
      TrimLeftSpaces(p[1..], m);
    }
  }

  lemma {:induction false} TrimRightSpaces(m: string, q: string)
    requires AllSpace(q)
    requires m == [] || !IsSpace(m[|m| - 1])
    ensures TrimRight(m + q) == m
  {
    if q != [] {
      assert (m + q)[..|m + q| - 1] == m + q[..|q| - 1];
      TrimRightSpaces(m, q[..|q| - 1]);
    }
  }

  /**
   * TrimSpace is characterised by its result: whenever s is white space,
   * then a string with no space at either end, then white space, the middle
   * part is what TrimSpace returns.
   */
  lemma TrimSpaceExact(p: string, m: string, q: string)
    requires AllSpace(p) && AllSpace(q) && Trimmed(m)
    ensures TrimSpace(p + m + q) == m
  {
    if m == [] {
      assert p + m + q == p + q;
      assert AllSpace(p + q);
      TrimLeftSpaces(p + q, []);
      assert p + q + [] == p + q;
    } else {
      assert p + m + q == p + (m + q);
      TrimLeftSpaces(p, m + q);
      TrimRightSpaces(m, q);
    }
  }

  /** Trimming twice is trimming once. */
  lemma TrimSpaceIdempotent(s: string)
    ensures TrimSpace(TrimSpace(s)) == TrimSpace(s)
  {
    var t := TrimSpace(s);
    assert [] + t + [] == t;
    TrimSpaceExact([], t, []);
  }
}

/**
 * The parts of Python's `str` that the bot relies on: `startswith`, `isspace`
 * and `strip` with no argument.
 */
module PyStr {

  /** `s.startswith(prefix)`. */
  predicate StartsWith(s: string, prefix: string)
  {
    |prefix| <= |s| && s[..|prefix|] == prefix
  }

  /** `c.isspace()`: the characters Python's `str.strip()` removes by default. */
  predicate IsSpace(c: char)
  {
    || c == ' ' || c == '\t' || c == '\n' || c == '\r'
    || c == '\U{000B}' || c == '\U{000C}'
    || ('\U{001C}' <= c <= '\U{001F}')
    || c == '\U{0085}' || c == '\U{00A0}' || c == '\U{1680}'
    || ('\U{2000}' <= c <= '\U{200A}')
    || c == '\U{2028}' || c == '\U{2029}' || c == '\U{202F}' || c == '\U{205F}'
    || c == '\U{3000}'
  }

  ghost predicate AllSpace(t: string)
  {
    forall k :: 0 <= k < |t| ==> IsSpace(t[k])
  }

  /** `r` is `s` with a run of whitespace cut off each end. */
  ghost predicate IsTrimOf(r: string, s: string)
  {
    exists i, j :: 0 <= i <= j <= |s| && r == s[i..j] && AllSpace(s[..i]) && AllSpace(s[j..])
  }

  /** `s.lstrip()`. */
  function StripLeft(s: string): (r: string)
    ensures |r| <= |s| && r == s[|s| - |r|..]
    ensures AllSpace(s[..|s| - |r|])
    ensures r != [] ==> !IsSpace(r[0])
  {
    if s != [] && IsSpace(s[0]) then StripLeft(s[1..]) else s
  }

  /** `s.rstrip()`. */
  function StripRight(s: string): (r: string)
    ensures |r| <= |s| && r == s[..|r|]
    ensures AllSpace(s[|r|..])
    ensures r != [] ==> !IsSpace(r[|r| - 1])
  {
    if s != [] && IsSpace(s[|s| - 1]) then StripRight(s[..|s| - 1]) else s
  }

  /** `s.strip()`: `s` without its leading and trailing whitespace. */
  function Strip(s: string): (r: string)
    ensures r != [] ==> !IsSpace(r[0]) && !IsSpace(r[|r| - 1])
  {
    StripRight(StripLeft(s))
  }

  /** What `strip` cuts off each end is whitespace only, and what it keeps is one piece of the original. */
  lemma StripIsTrim(s: string)
    ensures IsTrimOf(Strip(s), s)
  {
    var l := StripLeft(s);
    var r := StripRight(l);
    var i, j := |s| - |l|, |s| - |l| + |r|;
    assert r == s[i..j] by { assert l == s[i..]; }
    assert AllSpace(s[j..]) by { assert s[j..] == l[|r|..]; }
    assert 0 <= i <= j <= |s| && r == s[i..j] && AllSpace(s[..i]) && AllSpace(s[j..]);
  }

  /** A prefix that neither starts nor ends with whitespace survives `strip`. */
  lemma StripKeepsPrefix(s: string, p: string)
    requires StartsWith(s, p) && p != []
    requires !IsSpace(p[0]) && !IsSpace(p[|p| - 1])
    ensures StartsWith(Strip(s), p)
  {
  }

  /** A string that neither starts nor ends with whitespace is its own strip. */
  lemma StripOfTrimmed(s: string)
    requires s != [] && !IsSpace(s[0]) && !IsSpace(s[|s| - 1])
    ensures Strip(s) == s
  {
    StripKeepsPrefix(s, s);
  }

  /** Stripping twice is stripping once. */
  lemma StripIdempotent(s: string)
    ensures Strip(Strip(s)) == Strip(s)
  {
  }

  /** `strip` leaves nothing that is not whitespace behind: all of `s` is cut off exactly when it is all whitespace. */
  lemma StripEmptyIffAllSpace(s: string)
    ensures Strip(s) == [] <==> AllSpace(s)
  {
    var l := StripLeft(s);
    if !AllSpace(s) {
      var k :| 0 <= k < |s| && !IsSpace(s[k]);
      assert l[k - (|s| - |l|)] == s[k];
    }
  }
}

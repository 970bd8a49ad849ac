/**
 * The two pieces of JavaScript string behaviour that the contact pipeline
 * relies on: the white-space class `\s` of a regular expression and
 * `String.prototype.trim`. ECMAScript gives both the same character set,
 * WhiteSpace together with LineTerminator, so it is defined once here.
 */
module JsStrings {

  /** A character of ECMAScript's WhiteSpace or LineTerminator productions:
      TAB, LF, VT, FF, CR, SPACE, NO-BREAK SPACE, the other space separators
      of Unicode category Zs, LINE SEPARATOR, PARAGRAPH SEPARATOR and the
      byte-order mark ZWNBSP. */
  predicate IsSpace(c: char)
    ensures IsSpace(c) ==> c != '@' && c != '.'
    // Every white-space character lies in the Basic Multilingual Plane,
    // so a UTF-16 surrogate pair never matches `\s` nor is removed by
    // `trim`: reading the string as code points instead of UTF-16 code
    // units does not change either test.
    ensures IsSpace(c) ==> c <= '\U{FEFF}'
  {
    c == '\t' || c == '\n' || c == '\U{000B}' || c == '\U{000C}' || c == '\r' ||
    c == ' ' || c == '\U{00A0}' || c == '\U{1680}' ||
    ('\U{2000}' <= c <= '\U{200A}') ||
    c == '\U{2028}' || c == '\U{2029}' || c == '\U{202F}' || c == '\U{205F}' ||
    c == '\U{3000}' || c == '\U{FEFF}'
  }

  /** No character of `s` is white space. */
  predicate NoSpace(s: string) {
    forall k | 0 <= k < |s| :: !IsSpace(s[k])
  }

  /** Every character of `s` is white space (vacuously so for ""). */
  predicate AllSpace(s: string) {
    forall k | 0 <= k < |s| :: IsSpace(s[k])
  }

  /** `s` with its leading white space removed. */
  function TrimStart(s: string): (r: string)
    ensures |r| <= |s| && r == s[|s| - |r|..]
    ensures AllSpace(s[..|s| - |r|])
    ensures r == [] || !IsSpace(r[0])
  {
    if s != [] && IsSpace(s[0]) then
      var r := TrimStart(s[1..]);
      assert s[..|s| - |r|] == [s[0]] + s[1..][..|s[1..]| - |r|];
      r
    else s
  }

  /** `s` with its trailing white space removed. */
  function TrimEnd(s: string): (r: string)
    ensures |r| <= |s| && r == s[..|r|]
    ensures AllSpace(s[|r|..])
    ensures r == [] || !IsSpace(r[|r| - 1])
  {
    if s != [] && IsSpace(s[|s| - 1]) then
      var r := TrimEnd(s[..|s| - 1]);
      assert s[|r|..] == s[..|s| - 1][|r|..] + [s[|s| - 1]];
      r
    else s
  }

  /** `String.prototype.trim`: both ends stripped of white space. */
  function Trim(s: string): (r: string)
    ensures |r| <= |s|
    ensures r == [] || (!IsSpace(r[0]) && !IsSpace(r[|r| - 1]))
    ensures exists i | 0 <= i <= |s| - |r| ::
      r == s[i..][..|r|] && AllSpace(s[..i]) && AllSpace(s[i..][|r|..])
  {
    var t := TrimStart(s);
    var i := |s| - |t|;
    assert t == s[i..];
    TrimEnd(t)
  }

  /** JavaScript's `!s.trim()`: the trimmed string is the falsy "". Only
      a string that is itself "" or white space is blank. */
  predicate IsBlank(s: string)
    ensures s == "" ==> IsBlank(s)
    ensures IsBlank(s) && s != "" ==> IsSpace(s[0]) && IsSpace(s[|s| - 1])
  {
    Trim(s) == ""
  }

  /** A string is blank exactly when every one of its characters is white
      space; in particular "" is blank. */
  lemma BlankIffAllSpace(s: string)
    ensures IsBlank(s) <==> AllSpace(s)
  {
    var t := TrimStart(s);
    if IsBlank(s) {
      // TrimEnd(t) == "" makes all of t white space, yet t cannot start
      // with white space: so t is empty and TrimStart removed everything.
      assert AllSpace(t[0..]);
      assert t == [];
      forall k | 0 <= k < |s| ensures IsSpace(s[k]) {
        assert s[k] == s[..|s|][k];
      }
    }
  }

  /** `t` occurs in `s` as a contiguous piece. */
  ghost predicate Contains(s: string, t: string) {
    exists i | 0 <= i <= |s| :: t <= s[i..]
  }

  /** A string ending in `t` contains it. */
  lemma EndsWithContains(prefix: string, t: string)
    ensures Contains(prefix + t, t)
  {
    assert t <= (prefix + t)[|prefix|..];
  }

  /** Whatever `u` contains, `u` followed by more text still contains. */
  lemma ExtendKeepsContains(u: string, v: string)
    ensures forall t | Contains(u, t) :: Contains(u + v, t)
  {
    forall t | Contains(u, t) ensures Contains(u + v, t) {
      var i :| 0 <= i <= |u| && t <= u[i..];
      assert (u + v)[i..] == u[i..] + v;
    }
  }
}

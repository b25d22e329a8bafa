/**
 * The pieces of ECMAScript string semantics the validators rely on:
 * the character set of `\s` (also what `String.prototype.trim` removes),
 * the line terminators that `.` refuses to match, and string truthiness.
 */
module JsText {
  import opened Wrappers

  /** ECMAScript LineTerminator: the characters `.` does not match without the `s` flag. */
  predicate IsLineTerminator(c: char)
  {
    c == '\n' || c == '\r' || c == '\U{2028}' || c == '\U{2029}'
  }

  /** ECMAScript WhiteSpace or LineTerminator: the class `\s`, and what `trim` strips. */
  predicate IsSpace(c: char)
  {
    IsLineTerminator(c) ||
    c == '\t' || c == '\U{000B}' || c == '\U{000C}' || c == ' ' || c == '\U{00A0}' ||
    c == '\U{1680}' || ('\U{2000}' <= c <= '\U{200A}') || c == '\U{202F}' ||
    c == '\U{205F}' || c == '\U{3000}' || c == '\U{FEFF}'
  }

  /** A string is truthy in a condition exactly when it is not empty. */
  predicate Truthy(s: string)
  {
    s != ""
  }

  /** An optional string is truthy when it is present and not empty. */
  predicate PresentAndTruthy(s: Option<string>)
  {
    s.Some? && Truthy(s.value)
  }

  /** `s.trimStart()`: drops the leading white space. */
  function TrimStart(s: string): (r: string)
    ensures |r| <= |s| && r == s[|s| - |r|..]
    ensures r != [] ==> !IsSpace(r[0])
    ensures forall i :: 0 <= i < |s| - |r| ==> IsSpace(s[i])
  {
    if s != [] && IsSpace(s[0]) then TrimStart(s[1..]) else s
  }

  /** `s.trimEnd()`: drops the trailing white space. */
  function TrimEnd(s: string): (r: string)
    ensures |r| <= |s| && r == s[..|r|]
    ensures r != [] ==> !IsSpace(r[|r| - 1])
    ensures forall i :: |r| <= i < |s| ==> IsSpace(s[i])
  {
    if s != [] && IsSpace(s[|s| - 1]) then TrimEnd(s[..|s| - 1]) else s
  }

  /** Every character of `s` before index `i` and from index `j` on is white space. */
  predicate SpaceOutside(s: string, i: nat, j: nat)
    requires i <= j <= |s|
  {
    (forall k :: 0 <= k < i ==> IsSpace(s[k])) && (forall k :: j <= k < |s| ==> IsSpace(s[k]))
  }

  /**
   * Cutting `s` down to a suffix `t` with white space before it, then `t` down to a
   * prefix `r` with white space after it, leaves a slice of `s` with white space outside it.
   */
  lemma CutBothEnds(s: string, t: string, r: string)
    requires |t| <= |s| && t == s[|s| - |t|..]
    requires forall k :: 0 <= k < |s| - |t| ==> IsSpace(s[k])
    requires |r| <= |t| && r == t[..|r|]
    requires forall k :: |r| <= k < |t| ==> IsSpace(t[k])
    ensures r == s[|s| - |t|..|s| - |t| + |r|]
    ensures SpaceOutside(s, |s| - |t|, |s| - |t| + |r|)
  {
    var i := |s| - |t|;
    forall k | i + |r| <= k < |s| ensures IsSpace(s[k]) {
      assert s[k] == t[k - i];
    }
  }

  /**
   * `s.trim()`: the slice of `s` left once its leading and trailing white space
   * is cut off. It neither starts nor ends with white space and is empty
   * exactly when `s` is all white space (so `!s.trim()` tests for that).
   */
  function Trim(s: string): (r: string)
    ensures |r| <= |s|
    ensures r != "" ==> !IsSpace(r[0]) && !IsSpace(r[|r| - 1])
    ensures r == "" <==> forall i :: 0 <= i < |s| ==> IsSpace(s[i])
    ensures exists i, j :: 0 <= i <= j <= |s| && r == s[i..j] && SpaceOutside(s, i, j)
  {
    var t := TrimStart(s);
    var r := TrimEnd(t);
    CutBothEnds(s, t, r);
    assert r != "" ==> r[0] == s[|s| - |t|];
    r
  }

}

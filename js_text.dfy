/**
 * The pieces of JavaScript string behaviour the forms rely on:
 * `s.trim()`, whether it is the empty string, and `s.length`.
 */
module JsText {

  /**
   * The code points `String.prototype.trim` strips: the ECMAScript
   * WhiteSpace and LineTerminator characters.
   */
  predicate IsJsWhiteSpace(c: char) {
    || c == ' ' || c == '\t' || c == '\n' || c == '\r'
    || c == '\U{B}' || c == '\U{C}' || c == '\U{A0}' || c == '\U{1680}'
    || ('\U{2000}' <= c <= '\U{200A}')
    || c == '\U{2028}' || c == '\U{2029}' || c == '\U{202F}' || c == '\U{205F}'
    || c == '\U{3000}' || c == '\U{FEFF}'
  }

  /** `!s.trim()`: nothing is left once leading and trailing white space is removed. */
  predicate IsBlank(s: string) {
    forall i :: 0 <= i < |s| ==> IsJsWhiteSpace(s[i])
  }

  /** Where `s.trim()` starts, searching from `i`: the first index at or after `i` that is not white space, or `|s|`. */
  function TrimStartFrom(s: string, i: nat): (r: nat)
    requires i <= |s|
    ensures i <= r <= |s|
    ensures forall k :: i <= k < r ==> IsJsWhiteSpace(s[k])
    ensures r < |s| ==> !IsJsWhiteSpace(s[r])
    decreases |s| - i
  {
    if i < |s| && IsJsWhiteSpace(s[i]) then TrimStartFrom(s, i + 1) else i
  }

  /** Where `s.trim()` ends, searching down from `j` to `lo`: just past the last index below `j` that is not white space, or `lo`. */
  function TrimEndFrom(s: string, lo: nat, j: nat): (r: nat)
    requires lo <= j <= |s|
    ensures lo <= r <= j
    ensures forall k :: r <= k < j ==> IsJsWhiteSpace(s[k])
    ensures r > lo ==> !IsJsWhiteSpace(s[r - 1])
    decreases j
  {
    if j > lo && IsJsWhiteSpace(s[j - 1]) then TrimEndFrom(s, lo, j - 1) else j
  }

  /** `s.trim()` */
  function Trim(s: string): (r: string)
    ensures |r| <= |s|
    ensures exists i, j :: 0 <= i <= j <= |s| && r == s[i..j] && IsWhiteSpaceOutside(s, i, j)
    ensures r != [] ==> !IsJsWhiteSpace(r[0]) && !IsJsWhiteSpace(r[|r| - 1])
  {
    var i := TrimStartFrom(s, 0);
    var j := TrimEndFrom(s, i, |s|);
    assert IsWhiteSpaceOutside(s, i, j);
    s[i..j]
  }

  /** Every character of `s` before index `i` or from index `j` on is white space. */
  predicate IsWhiteSpaceOutside(s: string, i: int, j: int) {
    forall k :: 0 <= k < |s| && (k < i || j <= k) ==> IsJsWhiteSpace(s[k])
  }

  /** `!s.trim()` is `IsBlank(s)`: the trimmed string is empty exactly when every character is white space. */
  lemma BlankIffTrimsEmpty(s: string)
    ensures IsBlank(s) <==> Trim(s) == ""
  {
    var i := TrimStartFrom(s, 0);
    var j := TrimEndFrom(s, i, |s|);
    if !IsBlank(s) {
      var k :| 0 <= k < |s| && !IsJsWhiteSpace(s[k]);
      assert i <= k < j;
    }
  }

  /**
   * `s.length`: UTF-16 code units, so a code point beyond the Basic
   * Multilingual Plane counts twice.
   */
  function Utf16Length(s: string): (n: nat)
    ensures n == |s| + |Astral(s)|
    ensures |s| <= n <= 2 * |s|
    ensures (exists i :: 0 <= i < |s| && s[i] >= '\U{10000}') ==> n > |s|
  {
    if s == [] then
      assert Astral(s) == {};
      0
    else
      var init := s[..|s| - 1];
      assert forall i :: 0 <= i < |init| ==> init[i] == s[i];
      if s[|s| - 1] >= '\U{10000}' then
        assert Astral(s) == Astral(init) + {|s| - 1};
        Utf16Length(init) + 2
      else
        assert Astral(s) == Astral(init);
        Utf16Length(init) + 1
  }

  /** The positions of `s` holding a code point beyond the Basic Multilingual Plane. */
  function Astral(s: string): (a: set<int>)
    ensures forall i :: i in a <==> 0 <= i < |s| && s[i] >= '\U{10000}'
  {
    set i | 0 <= i < |s| && s[i] >= '\U{10000}'
  }
}

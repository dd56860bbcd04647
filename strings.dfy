/**
 * Blankness of strings as the tool's `isBlank` decides it: a string is blank
 * when it is null or empty after Java's `trim()`, which strips every leading
 * and trailing char whose code is at most U+0020.  A Java null string is
 * represented here by "" wherever the tool only ever tests it for blankness.
 */
module Strings {

  /** The chars that `String.trim()` removes. */
  predicate IsTrimmable(c: char) {
    c <= ' '
  }

  /** Every char of `s` is one that `trim()` removes. */
  predicate AllTrimmable(s: string) {
    forall i :: 0 <= i < |s| ==> IsTrimmable(s[i])
  }

  /** Removes leading trimmable chars; the result is a suffix of `s`. */
  function TrimStart(s: string): (r: string)
    ensures |r| <= |s| && r == s[|s| - |r|..]
    ensures forall i :: 0 <= i < |s| - |r| ==> IsTrimmable(s[i])
    ensures r != [] ==> !IsTrimmable(r[0])
  {
    if s != [] && IsTrimmable(s[0]) then TrimStart(s[1..]) else s
  }

  /** Removes trailing trimmable chars; the result is a prefix of `s`. */
  function TrimEnd(s: string): (r: string)
    ensures |r| <= |s| && r == s[..|r|]
    ensures forall i :: |r| <= i < |s| ==> IsTrimmable(s[i])
    ensures r != [] ==> !IsTrimmable(r[|r| - 1])
  {
    if s != [] && IsTrimmable(s[|s| - 1]) then TrimEnd(s[..|s| - 1]) else s
  }

  /** Java's `trim()`: strips both ends. */
  function Trim(s: string): (r: string)
    ensures |r| <= |s|
    ensures r == [] <==> AllTrimmable(s)
    ensures r != [] ==> !IsTrimmable(r[0]) && !IsTrimmable(r[|r| - 1])
    ensures exists a, b :: 0 <= a <= b <= |s| && r == s[a..b] && AllTrimmable(s[..a]) && AllTrimmable(s[b..])
  {
    var t := TrimStart(s);
    var a := |s| - |t|;
    var r := TrimEnd(t);
    assert r == s[a..a + |r|] && AllTrimmable(s[..a]) && AllTrimmable(s[a + |r|..]);
    r
  }

  /**
   * The tool's `isBlank`: null, or empty after `trim()`.  It is stated by what
   * it decides (every char is trimmable); `BlankIsTrimEmpty` ties it to `Trim`.
   */
  predicate IsBlank(s: string) {
    AllTrimmable(s)
  }

  /** `isBlank(s)` holds exactly when `s.trim().isEmpty()`. */
  lemma BlankIsTrimEmpty(s: string)
    ensures IsBlank(s) <==> Trim(s) == []
  {
  }

  /** The tool's `defaultValue`: the fallback replaces a blank value. */
  function DefaultValue(value: string, fallback: string): (r: string)
    ensures IsBlank(value) ==> r == fallback
    ensures !IsBlank(value) ==> r == value
    ensures !IsBlank(fallback) ==> !IsBlank(r)
  {
    if IsBlank(value) then fallback else value
  }
}

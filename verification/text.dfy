/**
 * The two JavaScript string operations the client relies on:
 * `String.prototype.includes` and `String.prototype.trim`.
 */
module Text {

  /** `sub` occurs in `s` starting at index `i`. */
  ghost predicate OccursAt(sub: string, s: string, i: int)
  {
    0 <= i && i + |sub| <= |s| && s[i..i + |sub|] == sub
  }

  lemma OccursAtShift(sub: string, s: string, i: int)
    requires s != [] && 0 <= i
    ensures OccursAt(sub, s[1..], i) <==> OccursAt(sub, s, i + 1)
  {
  }

  /** `s.includes(sub)`: true exactly when `sub` occurs somewhere in `s`. */
  function Includes(s: string, sub: string): (b: bool)
    ensures b <==> exists i :: OccursAt(sub, s, i)
    decreases |s|
  {
    if |sub| > |s| then
      assert forall i :: !OccursAt(sub, s, i);
      false
    else if s[..|sub|] == sub then
      assert OccursAt(sub, s, 0);
      true
    else
      assert !OccursAt(sub, s, 0);
      assert forall i | 0 <= i :: OccursAt(sub, s[1..], i) <==> OccursAt(sub, s, i + 1) by {
        forall i | 0 <= i ensures OccursAt(sub, s[1..], i) <==> OccursAt(sub, s, i + 1) {
          OccursAtShift(sub, s, i);
        }
      }
      assert forall i :: OccursAt(sub, s, i) ==> OccursAt(sub, s[1..], i - 1) by {
        forall i | OccursAt(sub, s, i) ensures OccursAt(sub, s[1..], i - 1) {
          OccursAtShift(sub, s, i - 1);
        }
      }
      Includes(s[1..], sub)
  }

  /**
   * The characters `trim` removes: the ECMAScript WhiteSpace code points
   * (tab, vertical tab, form feed, space, no-break space, byte order mark
   * and the Unicode space separators) and the LineTerminator code points.
   */
  predicate IsWhitespace(c: char)
  {
    c in {'\t', '\n', '\U{000B}', '\U{000C}', '\r', ' ', '\U{00A0}', '\U{1680}',
          '\U{2028}', '\U{2029}', '\U{202F}', '\U{205F}', '\U{3000}', '\U{FEFF}'}
    || ('\U{2000}' <= c <= '\U{200A}')
  }

  /** Every character of `s` is whitespace (this includes the empty string). */
  predicate IsBlank(s: string)
  {
    forall k :: 0 <= k < |s| ==> IsWhitespace(s[k])
  }

  /** Drops the leading whitespace of `s`. */
  function TrimStart(s: string): (r: string)
    ensures |r| <= |s| && r == s[|s| - |r|..]
    ensures IsBlank(s[..|s| - |r|])
    ensures r == [] || !IsWhitespace(r[0])
  {
    if s != [] && IsWhitespace(s[0]) then
      var r := TrimStart(s[1..]);
      assert s[..|s| - |r|] == [s[0]] + s[1..][..|s| - 1 - |r|];
      r
    else
      s
  }

  /** Drops the trailing whitespace of `s`. */
  function TrimEnd(s: string): (r: string)
    ensures |r| <= |s| && r == s[..|r|]
    ensures IsBlank(s[|r|..])
    ensures r == [] || !IsWhitespace(r[|r| - 1])
  {
    if s != [] && IsWhitespace(s[|s| - 1]) then
      var r := TrimEnd(s[..|s| - 1]);
      assert s[|r|..] == s[..|s| - 1][|r|..] + [s[|s| - 1]];
      r
    else
      s
  }

  /**
   * `s.trim()`: `s` without its leading and trailing whitespace. The result
   * is a contiguous part of `s`, everything before and after it is
   * whitespace, and it neither starts nor ends with whitespace.
   */
  function Trim(s: string): (r: string)
    ensures exists i :: OccursAt(r, s, i) && IsBlank(s[..i]) && IsBlank(s[i + |r|..])
    ensures r == [] || (!IsWhitespace(r[0]) && !IsWhitespace(r[|r| - 1]))
  {
    var t := TrimStart(s);
    var r := TrimEnd(t);
    var i := |s| - |t|;
    assert t == s[i..] && r == t[..|r|];
    assert s[i..i + |r|] == r;
    assert IsBlank(s[..i]) && IsBlank(t[|r|..]);
    assert s[i + |r|..] == t[|r|..];
    assert OccursAt(r, s, i) && IsBlank(s[..i]) && IsBlank(s[i + |r|..]);
    r
  }

  /** `s.trim()` is empty exactly when `s` consists of whitespace only. */
  lemma TrimEmptyIffBlank(s: string)
    ensures Trim(s) == [] <==> IsBlank(s)
  {
  }
}

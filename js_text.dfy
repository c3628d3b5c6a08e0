/**
 * The few JavaScript string operations the server relies on, written out on
 * `seq<char>`: `String.prototype.slice`, `toUpperCase` on the base-36 digits
 * produced by `Number.prototype.toString(36)`, and `String.prototype.trim`.
 */
module JsText {

  predicate IsBase36Digit(c: char) {
    '0' <= c <= '9' || 'a' <= c <= 'z'
  }

  predicate IsUpperBase36Digit(c: char) {
    '0' <= c <= '9' || 'A' <= c <= 'Z'
  }

  /**
   * The shape of `Math.random().toString(36)`: the random number lies in [0, 1),
   * so the text is "0" (for exactly zero) or "0." followed by base-36 digits.
   */
  predicate IsRandomBase36(s: string) {
    s == "0" || (|s| > 2 && s[..2] == "0." && forall i :: 2 <= i < |s| ==> IsBase36Digit(s[i]))
  }

  function Min(a: int, b: int): int {
    if a < b then a else b
  }

  /** `s.slice(from, to)` for non-negative bounds: bounds past the end are clamped to it. */
  function Slice(s: string, from: nat, to: nat): (r: string)
    ensures |r| == if from < Min(to, |s|) then Min(to, |s|) - from else 0
    ensures forall i :: 0 <= i < |r| ==> r[i] == s[from + i]
  {
    var hi := Min(to, |s|);
    if from < hi then s[from..hi] else ""
  }

  function UpperChar(c: char): (u: char)
    ensures IsBase36Digit(c) ==> IsUpperBase36Digit(u)
  {
    if 'a' <= c <= 'z' then (c as int - 32) as char else c
  }

  /** `s.toUpperCase()` on ASCII letters; every other character is kept. */
  function ToUpper(s: string): (r: string)
    ensures |r| == |s|
    ensures forall i :: 0 <= i < |s| ==> r[i] == UpperChar(s[i])
  {
    seq(|s|, i requires 0 <= i < |s| => UpperChar(s[i]))
  }

  /**
   * The first `width` digits of a random base-36 rendering, upper-cased: the
   * expression `Math.random().toString(36).slice(2, 2 + width).toUpperCase()`.
   */
  function RandomCode(rendered: string, width: nat): (r: string)
    requires IsRandomBase36(rendered)
    ensures |r| <= width
    ensures rendered == "0" ==> r == ""
    ensures rendered != "0" ==> |r| == Min(width, |rendered| - 2) && (width > 0 ==> r != "")
    ensures forall i :: 0 <= i < |r| ==> IsUpperBase36Digit(r[i])
  {
    ToUpper(Slice(rendered, 2, 2 + width))
  }

  /** The characters `String.prototype.trim` removes: ECMAScript WhiteSpace and LineTerminator. */
  predicate IsJsWhitespace(c: char) {
    || c == '\t' || c == '\n' || c == '\U{B}' || c == '\U{C}' || c == '\r' || c == ' '
    || c == '\U{A0}' || c == '\U{1680}' || ('\U{2000}' <= c <= '\U{200A}')
    || c == '\U{2028}' || c == '\U{2029}' || c == '\U{202F}' || c == '\U{205F}'
    || c == '\U{3000}' || c == '\U{FEFF}'
  }

  /** `s.trimStart()`: a suffix of `s`, everything cut off is whitespace, and it does not start with whitespace. */
  function TrimStart(s: string): (r: string)
    ensures |r| <= |s| && r == s[|s| - |r|..]
    ensures forall i :: 0 <= i < |s| - |r| ==> IsJsWhitespace(s[i])
    ensures r == [] || !IsJsWhitespace(r[0])
  {
    if s != [] && IsJsWhitespace(s[0]) then TrimStart(s[1..]) else s
  }

  /** `s.trimEnd()`: a prefix of `s`, everything cut off is whitespace, and it does not end with whitespace. */
  function TrimEnd(s: string): (r: string)
    ensures |r| <= |s| && r == s[..|r|]
    ensures forall i :: |r| <= i < |s| ==> IsJsWhitespace(s[i])
    ensures r == [] || !IsJsWhitespace(r[|r| - 1])
  {
    if s != [] && IsJsWhitespace(s[|s| - 1]) then TrimEnd(s[..|s| - 1]) else s
  }

  predicate IsTrimmed(s: string) {
    s == [] || (!IsJsWhitespace(s[0]) && !IsJsWhitespace(s[|s| - 1]))
  }

  /** `s.trim()`: the middle of `s` between leading and trailing whitespace. */
  function Trim(s: string): (r: string)
    ensures IsTrimmed(r)
  {
    TrimEnd(TrimStart(s))
  }

  /** The bounds of `Trim(s)` inside `s`: everything before `lo` and from `hi` on is whitespace. */
  lemma {:induction false} TrimBounds(s: string) returns (lo: nat, hi: nat)
    ensures lo <= hi <= |s| && Trim(s) == s[lo..hi]
    ensures forall i :: 0 <= i < lo ==> IsJsWhitespace(s[i])
    ensures forall i :: hi <= i < |s| ==> IsJsWhitespace(s[i])
  {
    var t := TrimStart(s);
    var r := TrimEnd(t);
    lo := |s| - |t|;
    hi := lo + |r|;
    PrefixOfSuffix(s, lo, |r|);
    forall i | hi <= i < |s|
      ensures IsJsWhitespace(s[i])
    {
      assert s[i] == t[i - lo];
    }
  }

  lemma PrefixOfSuffix(s: string, lo: nat, n: nat)
    requires lo + n <= |s|
    ensures s[lo..][..n] == s[lo..lo + n]
  {
  }

  /** Trimming cuts whitespace off the ends only: the result is a slice of `s` with whitespace around it. */
  lemma TrimIsMiddle(s: string)
    ensures exists lo, hi :: 0 <= lo <= hi <= |s| && Trim(s) == s[lo..hi]
                             && (forall i :: 0 <= i < lo ==> IsJsWhitespace(s[i]))
                             && (forall i :: hi <= i < |s| ==> IsJsWhitespace(s[i]))
  {
    var lo, hi := TrimBounds(s);
  }

  /** A text without whitespace at either end is its own trim, so trimming is idempotent. */
  lemma {:induction false} TrimIdempotent(s: string)
    ensures IsTrimmed(s) ==> Trim(s) == s
    ensures Trim(Trim(s)) == Trim(s)
  {
    var t := Trim(s);
    assert TrimStart(t) == t;
    assert TrimEnd(t) == t;
    if IsTrimmed(s) {
      assert TrimStart(s) == s;
      assert TrimEnd(s) == s;
    }
  }
}

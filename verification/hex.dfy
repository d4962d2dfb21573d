/**
 * The three JavaScript built-ins the colour code relies on, restricted to the
 * inputs it gives them: `parseInt(s, 16)` on a string of hexadecimal digits,
 * `Number.prototype.toString(16)` on a non-negative integer, and
 * `String.prototype.padStart` with a one-character filler. Also the
 * character and colour-string predicates shared by the palette and the
 * inverse-colour code.
 */
module Hex {

  /** A character the class `[0-9A-Fa-f]` accepts. */
  predicate IsHexDigit(c: char) {
    '0' <= c <= '9' || 'A' <= c <= 'F' || 'a' <= c <= 'f'
  }

  predicate IsLowerHexDigit(c: char) {
    '0' <= c <= '9' || 'a' <= c <= 'f'
  }

  predicate IsUpperHexDigit(c: char) {
    '0' <= c <= '9' || 'A' <= c <= 'F'
  }

  predicate AllHexDigits(s: string) {
    forall k :: 0 <= k < |s| ==> IsHexDigit(s[k])
  }

  /** `#` followed by exactly six hexadecimal digits, and nothing else. */
  predicate IsHexColor(s: string) {
    |s| == 7 && s[0] == '#' && forall k :: 1 <= k < 7 ==> IsHexDigit(s[k])
  }

  predicate IsLowerHexColor(s: string) {
    |s| == 7 && s[0] == '#' && forall k :: 1 <= k < 7 ==> IsLowerHexDigit(s[k])
  }

  predicate IsUpperHexColor(s: string) {
    |s| == 7 && s[0] == '#' && forall k :: 1 <= k < 7 ==> IsUpperHexDigit(s[k])
  }

  /** The value of one hexadecimal digit, either case. */
  function DigitValue(c: char): (v: nat)
    requires IsHexDigit(c)
    ensures v < 16
    ensures IsLowerHexDigit(c) || IsUpperHexDigit(c)
  {
    if c <= '9' then (c - '0') as nat
    else if c <= 'F' then (c - 'A') as nat + 10
    else (c - 'a') as nat + 10
  }

  /** The digit `toString(16)` writes for a value below 16: always lower case. */
  function DigitChar(v: nat): (c: char)
    requires v < 16
    ensures IsLowerHexDigit(c) && DigitValue(c) == v
  {
    if v < 10 then ('0' as int + v) as char else ('a' as int + v - 10) as char
  }

  /** How many whole sixteens `v` holds: its value divided by 16, rounded down. */
  function Sixteens(v: nat): (h: nat)
    ensures 16 * h <= v < 16 * h + 16
    decreases v
  {
    if v < 16 then 0 else 1 + Sixteens(v - 16)
  }

  /** Lower-cases the letters `A`-`F` and leaves every other character alone. */
  function FoldDigit(c: char): char {
    if 'A' <= c <= 'F' then (c as int - 'A' as int + 'a' as int) as char else c
  }

  function FoldCase(s: string): string {
    seq(|s|, k requires 0 <= k < |s| => FoldDigit(s[k]))
  }

  /** Two digits read as a base-16 number, the first one high. */
  function PairValue(high: char, low: char): (v: nat)
    requires IsHexDigit(high) && IsHexDigit(low)
    ensures v < 256
  {
    16 * DigitValue(high) + DigitValue(low)
  }

  /** Writing a digit's value back gives the digit itself, in lower case. */
  lemma DigitCharOfValue(c: char)
    requires IsHexDigit(c)
    ensures DigitChar(DigitValue(c)) == FoldDigit(c)
    ensures IsHexDigit(FoldDigit(c)) && DigitValue(FoldDigit(c)) == DigitValue(c)
  {
  }

  /** `16^k`, the bound on a `k`-digit hexadecimal number; a helper for `ParseHex`. */
  function Pow16(k: nat): (p: nat)
    ensures p >= 1
  {
    if k == 0 then 1 else 16 * Pow16(k - 1)
  }

  /**
   * `parseInt(s, 16)` for a non-empty string of hexadecimal digits: the
   * digits read most significant first, in either case.
   */
  function ParseHex(s: string): (v: nat)
    requires |s| > 0 && AllHexDigits(s)
    ensures v < Pow16(|s|)
    decreases |s|
  {
    if |s| == 1 then DigitValue(s[0])
    else
      var high := ParseHex(s[..|s| - 1]);
      assert 16 * high + 16 <= 16 * Pow16(|s| - 1);
      16 * high + DigitValue(s[|s| - 1])
  }

  /** A two-digit string is worth sixteen times its first digit plus its second. */
  lemma ParseHexPair(s: string)
    requires |s| == 2 && AllHexDigits(s)
    ensures ParseHex(s) == PairValue(s[0], s[1])
  {
    assert s[..1] == [s[0]];
  }

  /**
   * `n.toString(16)` for a non-negative integer: lower-case digits, no
   * leading zero (except for `0` itself), and `parseInt` reads it back.
   */
  function ToRadix16(n: nat): (s: string)
    ensures |s| > 0 && forall k :: 0 <= k < |s| ==> IsLowerHexDigit(s[k])
    ensures AllHexDigits(s) && ParseHex(s) == n
    ensures |s| > 1 ==> s[0] != '0'
    ensures |s| == 1 <==> n < 16
    ensures n < 256 ==> |s| <= 2
    decreases n
  {
    if n < 16 then [DigitChar(n)]
    else
      var high := ToRadix16(n / 16);
      var s := high + [DigitChar(n % 16)];
      assert s[..|s| - 1] == high;
      s
  }

  /**
   * `s.padStart(width, fill)`: a string shorter than `width` gets copies of
   * `fill` in front until it is `width` long; a longer one is left as it is.
   */
  function PadStart(s: string, width: nat, fill: char): (r: string)
    ensures |r| == if |s| < width then width else |s|
    ensures forall k :: 0 <= k < |r| - |s| ==> r[k] == fill
    ensures forall k :: 0 <= k < |s| ==> r[|r| - |s| + k] == s[k]
    decreases width - |s|
  {
    if |s| >= width then s
    else
      var longer := [fill] + s;
      var r := PadStart(longer, width, fill);
      assert r[|r| - |longer|] == longer[0];
      assert forall k :: 0 <= k < |s| ==> longer[k + 1] == s[k];
      r
  }

  /**
   * Padding `v.toString(16)` to two digits with `'0'` yields the
   * high nibble's digit then the low nibble's, for every byte value.
   */
  lemma PaddedByte(v: nat)
    requires v < 256
    ensures PadStart(ToRadix16(v), 2, '0') == [DigitChar(v / 16), DigitChar(v % 16)]
  {
    if v < 16 {
      PaddedDigit(v);
    } else {
      assert ToRadix16(v) == ToRadix16(v / 16) + [DigitChar(v % 16)];
      assert ToRadix16(v / 16) == [DigitChar(v / 16)];
    }
  }

  /** A single digit is padded with one `'0'`. */
  lemma PaddedDigit(v: nat)
    requires v < 16
    ensures PadStart(ToRadix16(v), 2, '0') == [DigitChar(0), DigitChar(v)]
  {
    var r := PadStart(ToRadix16(v), 2, '0');
    assert r[1] == DigitChar(v);
  }

}

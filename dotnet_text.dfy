/** The parts of .NET's character and string semantics that the validators depend on:
    Char.IsWhiteSpace, string.IsNullOrWhiteSpace, the regex class \d, and the decimal
    rendering of an int by string.Format. */
module DotNetText {

  /** Char.IsWhiteSpace: the Unicode categories Zs, Zl and Zp, plus U+0009..U+000D and U+0085. */
  predicate IsWhiteSpace(c: char) {
    var n := c as int;
    || 0x0009 <= n <= 0x000D
    || n == 0x0020 || n == 0x0085 || n == 0x00A0 || n == 0x1680
    || 0x2000 <= n <= 0x200A
    || n == 0x2028 || n == 0x2029 || n == 0x202F || n == 0x205F || n == 0x3000
  }

  /** string.IsNullOrWhiteSpace for a non-null string: every character is white space
      (so the empty string counts as blank). */
  predicate IsBlank(s: string) {
    forall i :: 0 <= i < |s| ==> IsWhiteSpace(s[i])
  }

  /** The code point of digit zero of every run of ten characters of Unicode category Nd
      (decimal digit) in the Basic Multilingual Plane, as of Unicode 15. The .NET regex
      engine matches UTF-16 code units, so \d never matches a supplementary-plane digit. */
  const DecimalDigitZeros: seq<int> := [
    0x0030, 0x0660, 0x06F0, 0x07C0, 0x0966, 0x09E6, 0x0A66, 0x0AE6, 0x0B66, 0x0BE6,
    0x0C66, 0x0CE6, 0x0D66, 0x0DE6, 0x0E50, 0x0ED0, 0x0F20, 0x1040, 0x1090, 0x17E0,
    0x1810, 0x1946, 0x19D0, 0x1A80, 0x1A90, 0x1B50, 0x1BB0, 0x1C40, 0x1C50, 0xA620,
    0xA8D0, 0xA900, 0xA9D0, 0xA9F0, 0xAA50, 0xABF0, 0xFF10
  ]

  /** The regex class \d without RegexOptions.ECMAScript: any Unicode decimal digit. */
  predicate IsDecimalDigit(c: char) {
    exists i :: 0 <= i < |DecimalDigitZeros| && DecimalDigitZeros[i] <= c as int <= DecimalDigitZeros[i] + 9
  }

  /** The characters '0'..'9'. */
  function DigitChar(d: nat): (c: char)
    requires d < 10
    ensures IsDecimalDigit(c) && c as int == '0' as int + d
  {
    assert DecimalDigitZeros[0] == 0x30;
    ['0', '1', '2', '3', '4', '5', '6', '7', '8', '9'][d]
  }

  /** The decimal digits of a natural number, most significant first, without leading zeros. */
  function NatToString(n: nat): (s: string)
    ensures |s| >= 1
    ensures forall i :: 0 <= i < |s| ==> '0' <= s[i] <= '9'
    ensures (s[0] == '0') <==> n == 0
    decreases n
  {
    if n < 10 then [DigitChar(n)] else NatToString(n / 10) + [DigitChar(n % 10)]
  }

  /** The invariant-culture rendering of an int, as "{0}" in string.Format produces it. */
  function IntToString(n: int): string {
    if n < 0 then "-" + NatToString(-n) else NatToString(n)
  }

  /** The numeric value of a string of ASCII digits. */
  function DigitsValue(s: string): int
    requires forall i :: 0 <= i < |s| ==> '0' <= s[i] <= '9'
  {
    if s == [] then 0 else 10 * DigitsValue(s[..|s| - 1]) + (s[|s| - 1] as int - '0' as int)
  }

  /** Reading back what NatToString wrote gives the number: the rendering loses nothing. */
  lemma {:induction false} NatToStringRoundTrip(n: nat)
    ensures DigitsValue(NatToString(n)) == n
    decreases n
  {
    var s := NatToString(n);
    if n >= 10 {
      NatToStringRoundTrip(n / 10);
      assert s[..|s| - 1] == NatToString(n / 10);
    }
  }
}

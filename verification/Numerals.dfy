/**
 Texts that look like numbers, and texts that are: digits as the standard library classifies them
 (Unicode 15.0), and the conversion of a text to an integer, which takes decimal digits only.
 */
module Numerals {
  import opened Base

  /** The zero of every block of ten decimal digits, ASCII first. */
  const DECIMAL_ZEROS: seq<int> := [0x30] + [
    0x660, 0x6F0, 0x7C0, 0x966, 0x9E6, 0xA66, 0xAE6, 0xB66, 0xBE6, 0xC66, 0xCE6, 0xD66, 0xDE6, 0xE50,
    0xED0, 0xF20, 0x1040, 0x1090, 0x17E0, 0x1810, 0x1946, 0x19D0, 0x1A80, 0x1A90, 0x1B50, 0x1BB0, 0x1C40,
    0x1C50, 0xA620, 0xA8D0, 0xA900, 0xA9D0, 0xA9F0, 0xAA50, 0xABF0, 0xFF10, 0x104A0, 0x10D30, 0x11066, 0x110F0,
    0x11136, 0x111D0, 0x112F0, 0x11450, 0x114D0, 0x11650, 0x116C0, 0x11730, 0x118E0, 0x11950, 0x11C50, 0x11D50,
    0x11DA0, 0x11F50, 0x16A60, 0x16AC0, 0x16B50, 0x1D7CE, 0x1D7D8, 0x1D7E2, 0x1D7EC, 0x1D7F6, 0x1E140, 0x1E2F0,
    0x1E4F0, 0x1E950, 0x1FBF0]

  /** Digits that are no decimal digits, such as superscripts: from each first bound to before the second. */
  const OTHER_DIGITS: seq<(int, int)> := [
    (0xB2, 0xB4), (0xB9, 0xBA), (0x1369, 0x1372), (0x19DA, 0x19DB), (0x2070, 0x2071), (0x2074, 0x207A),
    (0x2080, 0x208A), (0x2460, 0x2469), (0x2474, 0x247D), (0x2488, 0x2491), (0x24EA, 0x24EB), (0x24F5, 0x24FE),
    (0x24FF, 0x2500), (0x2776, 0x277F), (0x2780, 0x2789), (0x278A, 0x2793), (0x10A40, 0x10A44),
    (0x10E60, 0x10E69), (0x11052, 0x1105B), (0x1F100, 0x1F10B)]

  /** The longest run of digits that is converted. */
  const MAX_DIGITS := 4300

  function ZeroOf(zeros: seq<int>, c: char): Option<int> {
    if zeros == [] then None
    else if zeros[0] <= c as int < zeros[0] + 10 then Some(zeros[0])
    else ZeroOf(zeros[1..], c)
  }

  predicate InRanges(ranges: seq<(int, int)>, c: char) {
    ranges != [] && (ranges[0].0 <= c as int < ranges[0].1 || InRanges(ranges[1..], c))
  }

  predicate IsDecimal(c: char) {
    c >= '0' && ZeroOf(DECIMAL_ZEROS, c).Some?
  }

  predicate IsDigit(c: char) {
    IsDecimal(c) || InRanges(OTHER_DIGITS, c)
  }

  predicate AllDigits(text: string) {
    forall i :: 0 <= i < |text| ==> IsDigit(text[i])
  }

  predicate AllDecimal(text: string) {
    forall i :: 0 <= i < |text| ==> IsDecimal(text[i])
  }

  function WithoutDashes(text: string): string {
    if text != "" && text[0] == '-' then WithoutDashes(text[1..]) else text
  }

  /** The guard: digits once all leading dashes are gone. */
  predicate LooksNumeric(text: string) {
    WithoutDashes(text) != "" && AllDigits(WithoutDashes(text))
  }

  function Unsigned(text: string): string {
    if text != "" && text[0] == '-' then text[1..] else text
  }

  /** What the conversion takes of such a text: one dash at most, decimal digits, and not too many. */
  predicate Convertible(text: string) {
    1 <= |Unsigned(text)| <= MAX_DIGITS && AllDecimal(Unsigned(text))
  }

  function DigitValue(c: char): int
    requires IsDecimal(c)
  {
    c as int - ZeroOf(DECIMAL_ZEROS, c).value
  }

  function NumberOf(digits: string): int
    requires AllDecimal(digits)
  {
    if digits == "" then 0
    else 10 * NumberOf(digits[..|digits| - 1]) + DigitValue(digits[|digits| - 1])
  }

  /** The integer a text that looks numeric stands for; None is the exception of the conversion. */
  function ToInt(text: string): Option<int> {
    if !Convertible(text) then None
    else if text[0] == '-' then Some(-NumberOf(text[1..]))
    else Some(NumberOf(text))
  }

  lemma FiveIsDecimal()
    ensures IsDecimal('5') && !IsDecimal('-')
  {
    assert DECIMAL_ZEROS[0] == 0x30;
  }

  /** Two dashes pass the guard and fail the conversion. */
  lemma TwoDashes()
    ensures LooksNumeric("--5") && !Convertible("--5")
  {
    FiveIsDecimal();
    assert "--5"[1..] == "-5" && "-5"[1..] == "5";
    assert WithoutDashes("-5") == WithoutDashes("5") == "5";
    assert Unsigned("--5") == "-5" && "-5"[0] == '-';
  }

  /** A text that is converted looks numeric, so the guard loses none. */
  lemma ConvertibleLooksNumeric(text: string)
    requires Convertible(text)
    ensures LooksNumeric(text)
  {
    var digits := Unsigned(text);
    FiveIsDecimal();
    assert digits[0] != '-';
    assert WithoutDashes(digits) == digits;
  }

  lemma UnsignedReads(digits: string)
    requires AllDecimal(digits) && 1 <= |digits| <= MAX_DIGITS && digits[0] != '-'
    ensures ToInt(digits) == Some(NumberOf(digits))
  {
    assert Unsigned(digits) == digits;
  }

  /** A dash in front changes the sign. */
  lemma SignedReads(text: string)
    requires 2 <= |text| <= MAX_DIGITS + 1 && text[0] == '-' && AllDecimal(text[1..])
    ensures ToInt(text) == Some(-NumberOf(text[1..]))
  {
    assert Unsigned(text) == text[1..];
  }
}

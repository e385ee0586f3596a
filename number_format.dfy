/**
 * The text of a frequency as the tuner's `-f` argument: megahertz with exactly
 * one fractional digit, "." as the decimal separator and no grouping separator
 * (band frequencies stay below 1000 MHz, where grouping would begin), rounded
 * to the nearest tenth with ties to even (Foundation's default rounding rule).
 * `ParseMegahertz` reads that text back; the two form a round trip.
 */
module NumberFormat {
  import opened Wrappers

  /** Hertz in one tenth of a megahertz, the resolution of the `-f` argument. */
  const HertzPerTenth := 100_000

  predicate IsDigit(c: char) {
    '0' <= c <= '9'
  }

  predicate AllDigits(s: string) {
    forall i :: 0 <= i < |s| ==> IsDigit(s[i])
  }

  function DigitChar(d: nat): (c: char)
    requires d < 10
    ensures IsDigit(c)
  {
    ('0' as int + d) as char
  }

  function DigitValue(c: char): (d: nat)
    requires IsDigit(c)
    ensures d < 10 && DigitChar(d) == c
  {
    c as int - '0' as int
  }

  /** The decimal digits of `n`, with no sign, no grouping and no leading zero. */
  function Decimal(n: nat): (s: string)
    ensures |s| >= 1 && AllDigits(s)
    ensures |s| > 1 ==> s[0] != '0'
  {
    if n < 10 then [DigitChar(n)] else Decimal(n / 10) + [DigitChar(n % 10)]
  }

  /** The number a string of decimal digits denotes. */
  function DigitsValue(s: string): nat
    requires AllDigits(s)
  {
    if s == [] then 0 else 10 * DigitsValue(s[..|s| - 1]) + DigitValue(s[|s| - 1])
  }

  lemma {:induction false} DecimalRoundTrip(n: nat)
    ensures DigitsValue(Decimal(n)) == n
  {
    if n >= 10 {
      DecimalRoundTrip(n / 10);
      var s := Decimal(n);
      assert s[..|s| - 1] == Decimal(n / 10);
      assert DigitValue(s[|s| - 1]) == n % 10;
    }
  }

  /** `hz` in tenths of a megahertz, rounded to nearest, ties to even. */
  function RoundedTenths(hz: int): (t: int)
    ensures 2 * Abs(hz - t * HertzPerTenth) <= HertzPerTenth
    ensures 2 * Abs(hz - t * HertzPerTenth) == HertzPerTenth ==> t % 2 == 0
    ensures hz % HertzPerTenth == 0 ==> t * HertzPerTenth == hz
  {
    var q, r := hz / HertzPerTenth, hz % HertzPerTenth;
    if 2 * r < HertzPerTenth then q
    else if 2 * r > HertzPerTenth then q + 1
    else if q % 2 == 0 then q
    else q + 1
  }

  /** `hz` formatted in megahertz with one fractional digit, e.g. 88_500_000 as "88.5". */
  function FormatMegahertz(hz: int): (s: string)
    ensures |s| >= 3 && s[|s| - 2] == '.' && IsDigit(s[|s| - 1])
    ensures s[0] == '-' <==> RoundedTenths(hz) < 0
    ensures var whole := s[(if s[0] == '-' then 1 else 0)..|s| - 2];
      |whole| >= 1 && AllDigits(whole) && (|whole| > 1 ==> whole[0] != '0')
  {
    var t := RoundedTenths(hz);
    var m := Abs(t);
    var digits := Decimal(m / 10);
    var sign: string := if t < 0 then "-" else "";
    FormatShape(sign, digits, DigitChar(m % 10));
    sign + digits + "." + [DigitChar(m % 10)]
  }

  /** The pieces of the formatted text: sign, whole megahertz, point, tenths digit. */
  lemma FormatShape(sign: string, digits: string, tenth: char)
    requires sign == "" || sign == "-"
    requires |digits| >= 1 && AllDigits(digits) && IsDigit(tenth)
    ensures var s := sign + digits + "." + [tenth];
      |s| >= 3 && s[|s| - 2] == '.' && s[|s| - 1] == tenth &&
      (s[0] == '-' <==> sign == "-") &&
      s[(if s[0] == '-' then 1 else 0)..|s| - 2] == digits
  {
    var s := sign + digits + "." + [tenth];
    if sign == "" { assert s[0] == digits[0]; }
  }

  /** Reads text of the form [-]digits.digit back as hertz; None for anything else. */
  function ParseMegahertz(s: string): Option<int>
  {
    if |s| < 3 || s[|s| - 2] != '.' || !IsDigit(s[|s| - 1]) then None
    else
      var negative := s[0] == '-';
      var whole := s[(if negative then 1 else 0)..|s| - 2];
      if whole == [] || !AllDigits(whole) then None
      else
        var tenths := 10 * DigitsValue(whole) + DigitValue(s[|s| - 1]);
        Some((if negative then -tenths else tenths) * HertzPerTenth)
  }

  /** Parsing the formatted text gives back the frequency rounded to a tenth of a megahertz. */
  lemma {:induction false} FormatParseRoundTrip(hz: int)
    ensures ParseMegahertz(FormatMegahertz(hz)) == Some(RoundedTenths(hz) * HertzPerTenth)
  {
    var t := RoundedTenths(hz);
    var m := Abs(t);
    var sign: string := if t < 0 then "-" else "";
    var digits := Decimal(m / 10);
    var s := FormatMegahertz(hz);
    assert s == sign + digits + "." + [DigitChar(m % 10)];
    assert s[|s| - 2] == '.';
    assert s[|s| - 1] == DigitChar(m % 10);
    assert s[0] == '-' <==> t < 0 by {
      if t >= 0 { assert s[0] == digits[0]; }
    }
    assert s[(if t < 0 then 1 else 0)..|s| - 2] == digits;
    DecimalRoundTrip(m / 10);
  }

  /** On the 100 kHz grid the text is exact and determines the frequency. */
  lemma FormatExactOnGrid(hz: int, other: int)
    requires hz % HertzPerTenth == 0 && other % HertzPerTenth == 0
    ensures ParseMegahertz(FormatMegahertz(hz)) == Some(hz)
    ensures FormatMegahertz(hz) == FormatMegahertz(other) ==> hz == other
  {
    FormatParseRoundTrip(hz);
    FormatParseRoundTrip(other);
  }
}

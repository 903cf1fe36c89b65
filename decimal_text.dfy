/**
 * Base-10 text of integers, as strconv.Itoa produces it for the ID column of
 * the CSV export: an optional '-' followed by the decimal digits of the
 * magnitude, with no padding and no leading zero. The parser `ParseDecimal` is the
 * partner used to state that the rendering loses nothing.
 */
module DecimalText {

  datatype Option<T> = None | Some(value: T)

  predicate IsDigit(c: char) {
    '0' <= c <= '9'
  }

  predicate AllDigits(s: string) {
    forall i :: 0 <= i < |s| ==> IsDigit(s[i])
  }

  function DigitChar(d: nat): (c: char)
    requires d < 10
    ensures IsDigit(c)
  {
    ('0' as int + d) as char
  }

  function DigitValue(c: char): (d: nat)
    requires IsDigit(c)
    ensures d < 10 && DigitChar(d) == c
  {
    c as int - '0' as int
  }

  /** Decimal digits of a natural number, most significant first. */
  function NatText(n: nat): (r: string)
    ensures |r| >= 1 && AllDigits(r)
    ensures r[0] == '0' <==> n == 0
    ensures n == 0 ==> r == "0"
  {
    if n < 10 then [DigitChar(n)] else NatText(n / 10) + [DigitChar(n % 10)]
  }

  /**
   * strconv.Itoa: the base-10 text of any int, unpadded — a leading '0'
   * only for zero itself, and for a negative number a '-' sign followed by
   * the digits of its magnitude.
   */
  function Itoa(n: int): (r: string)
    ensures |r| >= 1
    ensures r[0] == '0' <==> n == 0
    ensures n >= 0 ==> AllDigits(r)
    ensures n < 0 ==> |r| >= 2 && r[0] == '-' && AllDigits(r[1..]) && r[1] != '0'
  {
    if n < 0 then "-" + NatText(-n) else NatText(n)
  }

  /** The value of a string of decimal digits (most significant first). */
  function DigitsValue(s: string): nat
    requires AllDigits(s)
  {
    if s == [] then 0 else DigitsValue(s[..|s| - 1]) * 10 + DigitValue(s[|s| - 1])
  }

  /**
   * Reads back an optional '-' followed by at least one digit: the partner
   * of `Itoa` used to state that its rendering loses nothing.
   */
  function ParseDecimal(s: string): Option<int>
  {
    if |s| >= 2 && s[0] == '-' && AllDigits(s[1..]) then
      var magnitude: int := DigitsValue(s[1..]);
      Some(-magnitude)
    else if |s| >= 1 && AllDigits(s) then Some(DigitsValue(s) as int)
    else None
  }

  lemma {:induction false} NatTextValue(n: nat)
    ensures DigitsValue(NatText(n)) == n
  {
    if n >= 10 {
      var r := NatText(n);
      assert r[..|r| - 1] == NatText(n / 10);
      NatTextValue(n / 10);
    }
  }

  /** Reading back the text strconv.Itoa produces gives the same integer. */
  lemma ItoaRoundTrip(n: int)
    ensures ParseDecimal(Itoa(n)) == Some(n)
  {
    if n < 0 {
      var digits := NatText(-n);
      var r := "-" + digits;
      assert r[1..] == digits;
      NatTextValue(-n);
      assert ParseDecimal(r) == Some(-(DigitsValue(digits) as int));
    } else {
      var digits := NatText(n);
      NatTextValue(n);
      assert !(|digits| >= 2 && digits[0] == '-');
      assert ParseDecimal(digits) == Some(DigitsValue(digits) as int);
    }
  }

  /** Distinct integers have distinct renderings. */
  lemma ItoaInjective(a: int, b: int)
    ensures Itoa(a) == Itoa(b) ==> a == b
  {
    ItoaRoundTrip(a);
    ItoaRoundTrip(b);
  }
}

/**
 Decimal rendering of integers, as Python's `str` renders an `int`: an
 optional minus sign followed by decimal digits with no leading zero
 (zero itself is "0", and there is no "-0"). `ParseInt` reads an optional
 minus sign followed by ASCII digits, leading zeros and "-0" included;
 restricted to canonical text it is the inverse of `IntToDecimal`, and
 together the two are a bijection between the integers and the canonical
 decimal strings.
 */
module Decimal {
  import opened KAst

  predicate IsDigit(c: char) { '0' <= c <= '9' }

  predicate AllDigits(s: string)
  {
    forall i :: 0 <= i < |s| ==> IsDigit(s[i])
  }

  function DigitValue(c: char): (d: nat)
    requires IsDigit(c)
  {
    c as int - '0' as int
  }

  function DigitChar(d: nat): (c: char)
    requires d < 10
    ensures IsDigit(c) && DigitValue(c) == d
  {
    ('0' as int + d) as char
  }

  /** The value of a string of decimal digits, most significant first. */
  function DigitsValue(s: string): (n: nat)
    requires AllDigits(s)
  {
    if s == [] then 0 else 10 * DigitsValue(s[..|s| - 1]) + DigitValue(s[|s| - 1])
  }

  /** A non-empty digit string whose first digit is not 0, unless it is "0". */
  predicate NoLeadingZero(s: string)
  {
    |s| > 0 && AllDigits(s) && (s[0] == '0' ==> |s| == 1)
  }

  /** The text Python's `str` produces for some `int`. */
  predicate CanonicalDecimal(s: string)
  {
    || NoLeadingZero(s)
    || (|s| >= 2 && s[0] == '-' && NoLeadingZero(s[1..]) && s[1..] != "0")
  }

  function NatToDecimal(n: nat): (s: string)
  {
    if n < 10 then [DigitChar(n)] else NatToDecimal(n / 10) + [DigitChar(n % 10)]
  }

  /**
   Reads an optional minus sign followed by one or more ASCII digits as an
   integer; leading zeros and "-0" are accepted, anything else is None.
   */
  function ParseInt(s: string): (r: Option<int>)
  {
    if |s| >= 2 && s[0] == '-' && AllDigits(s[1..]) then Some(-(DigitsValue(s[1..]) as int))
    else if |s| > 0 && AllDigits(s) then Some(DigitsValue(s))
    else None
  }

  /** Renders an integer as decimal text. */
  function IntToDecimal(v: int): (s: string)
    ensures CanonicalDecimal(s)
    ensures ParseInt(s) == Some(v)
  {
    if v < 0 then
      NatToDecimalSound(-v);
      var digits := NatToDecimal(-v);
      assert ("-" + digits)[1..] == digits;
      "-" + digits
    else
      NatToDecimalSound(v);
      NatToDecimal(v)
  }

  lemma {:induction false} NatToDecimalSound(n: nat)
    ensures NoLeadingZero(NatToDecimal(n))
    ensures DigitsValue(NatToDecimal(n)) == n
  {
    if n >= 10 {
      NatToDecimalSound(n / 10);
      var s := NatToDecimal(n);
      assert s[..|s| - 1] == NatToDecimal(n / 10);
    }
  }

  lemma {:induction false} LeadingDigitPositive(s: string)
    requires |s| > 0 && AllDigits(s) && s[0] != '0'
    ensures DigitsValue(s) > 0
  {
    if |s| > 1 {
      LeadingDigitPositive(s[..|s| - 1]);
    }
  }

  /** Every digit string without a leading zero is the rendering of its value. */
  lemma {:induction false} NatToDecimalComplete(s: string)
    requires NoLeadingZero(s)
    ensures NatToDecimal(DigitsValue(s)) == s
  {
    if |s| > 1 {
      var init := s[..|s| - 1];
      LeadingDigitPositive(init);
      NatToDecimalComplete(init);
      NatToDecimalAppend(DigitsValue(init), DigitValue(s[|s| - 1]));
      assert s == init + [s[|s| - 1]];
    }
  }

  /** Appending a digit to a positive number's rendering renders ten times it plus the digit. */
  lemma NatToDecimalAppend(a: nat, d: nat)
    requires a > 0 && d < 10
    ensures NatToDecimal(10 * a + d) == NatToDecimal(a) + [DigitChar(d)]
  {
    var n := 10 * a + d;
    assert n / 10 == a && n % 10 == d;
  }

  /** Canonical decimal text parses, and rendering the result gives the same text back. */
  lemma DecimalRoundTrip(s: string)
    requires CanonicalDecimal(s)
    ensures ParseInt(s).Some? && IntToDecimal(ParseInt(s).value) == s
  {
    if NoLeadingZero(s) {
      NatToDecimalComplete(s);
    } else {
      var digits := s[1..];
      NatToDecimalComplete(digits);
      LeadingDigitPositive(digits);
      assert s == "-" + digits;
    }
  }

  /** Distinct integers render as distinct text. */
  lemma IntToDecimalInjective(v: int, w: int)
    requires IntToDecimal(v) == IntToDecimal(w)
    ensures v == w
  {
  }
}

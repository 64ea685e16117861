/**
 * Decimal text of integers and of amounts held as integer cents.
 *
 * The helper's `format` is PHP's `number_format($n, 2, '.', '')`. Amounts are
 * modelled as whole cents, so `Format` renders cents as "[-]D.DD".
 * `ParseAmount` is PHP's reading of a numeric string, for the spellings
 * "[-]D" and "[-]D.DD", and reads back both `Format` and the decimal text of
 * integers; these round trips are what let loose `==` be stated as a numeric
 * comparison.
 */
module Decimal {
  import opened Wrappers

  predicate IsDigit(c: char) { '0' <= c <= '9' }

  predicate AllDigits(s: string) { forall i :: 0 <= i < |s| ==> IsDigit(s[i]) }

  function DigitChar(d: nat): (c: char)
    requires d < 10
    ensures IsDigit(c) && DigitValue(c) == d
  {
    ('0' as int + d) as char
  }

  function DigitValue(c: char): nat
    requires IsDigit(c)
  {
    c as int - '0' as int
  }

  /** Decimal text of a natural number, most significant digit first, no leading zeros. */
  function NatString(n: nat): (s: string)
    ensures |s| >= 1 && AllDigits(s)
    ensures n < 10 <==> |s| == 1
    ensures n >= 10 ==> s[0] != '0'
  {
    if n < 10 then [DigitChar(n)] else NatString(n / 10) + [DigitChar(n % 10)]
  }

  /** The value of a string of digits. */
  function ParseNat(s: string): nat
    requires AllDigits(s)
  {
    if |s| == 0 then 0 else ParseNat(s[..|s| - 1]) * 10 + DigitValue(s[|s| - 1])
  }

  lemma {:induction false} ParseNatString(n: nat)
    ensures ParseNat(NatString(n)) == n
  {
    if n >= 10 {
      var s := NatString(n);
      assert s[..|s| - 1] == NatString(n / 10);
      ParseNatString(n / 10);
    }
  }

  /** PHP's conversion of an integer to a string. */
  function IntString(n: int): (s: string)
    ensures |s| >= 1
    ensures forall i :: 0 <= i < |s| ==> IsDigit(s[i]) || s[i] == '-'
  {
    if n < 0 then "-" + NatString(-n) else NatString(n)
  }

  /** The unsigned part of `Format`: whole units, '.', then exactly two digits of cents. */
  function UnsignedAmount(m: nat): (s: string)
    ensures |s| >= 4 && s[|s| - 3] == '.'
    ensures forall i :: 0 <= i < |s| && i != |s| - 3 ==> IsDigit(s[i])
    ensures |s| > 4 ==> s[0] != '0'
  {
    NatString(m / 100) + "." + [DigitChar(m % 100 / 10), DigitChar(m % 100 % 10)]
  }

  /** `number_format` with two decimals, '.' as separator and no thousands separator, on cents. */
  function Format(cents: int): (s: string)
    ensures |s| >= 4 && s[|s| - 3] == '.'
    ensures s[0] == '-' <==> cents < 0
    ensures forall i :: 0 <= i < |s| && i != |s| - 3 && !(i == 0 && cents < 0) ==> IsDigit(s[i])
    ensures var first := if cents < 0 then 1 else 0; |s| - first > 4 ==> s[first] != '0'
  {
    if cents < 0 then "-" + UnsignedAmount(-cents) else UnsignedAmount(cents)
  }

  /** Reads "D" or "D.DD" (one or more integer digits, then none or exactly two decimals) as cents. */
  function ParseUnsigned(s: string): (r: Option<nat>)
  {
    var k := |s|;
    if k >= 1 && AllDigits(s) then
      Some(ParseNat(s) * 100)
    else if k >= 4 && s[k - 3] == '.' && AllDigits(s[..k - 3]) && IsDigit(s[k - 2]) && IsDigit(s[k - 1]) then
      Some(ParseNat(s[..k - 3]) * 100 + DigitValue(s[k - 2]) * 10 + DigitValue(s[k - 1]))
    else
      None
  }

  /** Reads "[-]D" or "[-]D.DD" as cents. */
  function ParseAmount(s: string): (r: Option<int>)
  {
    if |s| > 0 && s[0] == '-' then
      match ParseUnsigned(s[1..])
      case None => None
      case Some(m) => Some(-(m as int))
    else
      ParseUnsigned(s)
  }

  lemma {:induction false} CentsDigits(m: nat)
    ensures (m / 100) * 100 + (m % 100 / 10) * 10 + m % 100 % 10 == m
  {
    var r := m % 100;
    assert m == (m / 100) * 100 + r;
    assert r == (r / 10) * 10 + r % 10;
  }

  /** Digits, '.', and two more digits read back as the amount they spell. */
  lemma {:induction false} ParseUnsignedParts(digits: string, tens: nat, ones: nat)
    requires |digits| >= 1 && AllDigits(digits) && tens < 10 && ones < 10
    ensures ParseUnsigned(digits + "." + [DigitChar(tens), DigitChar(ones)]) ==
      Some(ParseNat(digits) * 100 + tens * 10 + ones)
  {
    var body := digits + "." + [DigitChar(tens), DigitChar(ones)];
    var k := |body|;
    assert !IsDigit(body[k - 3]);
    assert body[..k - 3] == digits;
    assert body[k - 3] == '.' && body[k - 2] == DigitChar(tens) && body[k - 1] == DigitChar(ones);
    assert AllDigits(body[..k - 3]);
    assert ParseNat(body[..k - 3]) == ParseNat(digits);
  }

  /** The unsigned text, alone or behind a minus sign, reads back as its amount. */
  lemma {:induction false} UnsignedAmountRoundTrip(m: nat)
    ensures ParseAmount(UnsignedAmount(m)) == Some(m)
    ensures ParseAmount("-" + UnsignedAmount(m)) == Some(-(m as int))
  {
    ParseUnsignedParts(NatString(m / 100), m % 100 / 10, m % 100 % 10);
    ParseNatString(m / 100);
    CentsDigits(m);
    var body := UnsignedAmount(m);
    assert ("-" + body)[1..] == body;
  }

  /** Reading back what `Format` renders gives the amount it was given. */
  lemma {:induction false} FormatRoundTrip(cents: int)
    ensures ParseAmount(Format(cents)) == Some(cents)
  {
    if cents < 0 {
      var m: nat := -cents;
      assert Format(cents) == "-" + UnsignedAmount(m);
      UnsignedAmountRoundTrip(m);
    } else {
      var m: nat := cents;
      assert Format(cents) == UnsignedAmount(m);
      UnsignedAmountRoundTrip(m);
    }
  }

  /** The decimal text of an integer reads back as that many whole units. */
  lemma {:induction false} IntStringRoundTrip(n: int)
    ensures ParseAmount(IntString(n)) == Some(n * 100)
  {
    if n < 0 {
      var t := NatString(-n);
      ParseNatString(-n);
      assert ("-" + t)[1..] == t;
      assert IntString(n) == "-" + t;
    } else {
      ParseNatString(n);
    }
  }

  /** A leading zero does not change the value of a string of digits. */
  lemma {:induction false} ParseNatLeadingZero(s: string)
    requires AllDigits(s)
    ensures AllDigits("0" + s) && ParseNat("0" + s) == ParseNat(s)
    decreases |s|
  {
    if |s| > 0 {
      var z := "0" + s;
      assert z[..|z| - 1] == "0" + s[..|s| - 1];
      assert z[|z| - 1] == s[|s| - 1];
      ParseNatLeadingZero(s[..|s| - 1]);
    }
  }

  /** A leading zero does not change what an unsigned numeric string reads as: "080" reads as "80" does. */
  lemma {:induction false} LeadingZeroIgnored(s: string)
    requires ParseUnsigned(s).Some?
    ensures ParseAmount("0" + s) == ParseAmount(s)
  {
    var z := "0" + s;
    var k := |s|;
    if k >= 1 && AllDigits(s) {
      ParseNatLeadingZero(s);
    } else {
      assert z[|z| - 3] == s[k - 3] && z[|z| - 2] == s[k - 2] && z[|z| - 1] == s[k - 1];
      assert z[..|z| - 3] == "0" + s[..k - 3];
      ParseNatLeadingZero(s[..k - 3]);
      assert !AllDigits(z) by { assert z[|z| - 3] == '.'; }
    }
  }

  /** Two amounts with the same two-decimal text are the same amount. */
  lemma {:induction false} FormatInjective(a: int, b: int)
    ensures Format(a) == Format(b) ==> a == b
  {
    FormatRoundTrip(a);
    FormatRoundTrip(b);
  }
}

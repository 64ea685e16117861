/**
 * The PHP associative array `$data` that both core files pass around, and
 * the parts of PHP's value semantics they rely on: `isset`, `empty`, a missing
 * key reading as `null`, and loose `==` between a value and a literal.
 */
module Fields {
  import opened Wrappers
  import Decimal

  /** A value stored in `$data`: `null`, a string, an integer, or a float amount held as cents. */
  datatype Value = Null | Str(s: string) | Int(n: int) | Money(cents: int)

  /** The keys of the notification record that the core reads or writes. */
  datatype Key =
    | CRITERION_SECRET
    | IDENTIFICATION_TRANSACTIONID
    | PROCESSING_RESULT
    | PROCESSING_STATUS_CODE
    | PROCESSING_RETURN
    | PROCESSING_RETURN_CODE
    | PAYMENT_CODE
    | IDENTIFICATION_UNIQUEID
    | IDENTIFICATION_SHORTID
    | IDENTIFICATION_SHOPPERID
    | CRITERION_GUEST
    | TRANSACTION_MODE
    | PRESENTATION_CURRENCY
    | PRESENTATION_AMOUNT
    | ACCOUNT_BRAND
    | PAYMENT_METHODE
    | PAYMENT_TYPE
    | SOURCE
    | CONNECTOR_ACCOUNT_HOLDER
    | CONNECTOR_ACCOUNT_IBAN
    | CONNECTOR_ACCOUNT_BIC
    | ORDER_ID

  type Data = map<Key, Value>

  /** `$data[$key]`: a missing key reads as `null` (where Magento's error handler would raise instead). */
  function Lookup(data: Data, key: Key): Value
  {
    if key in data then data[key] else Null
  }

  /** `isset($data[$key])`: present and not `null`. */
  predicate IsSet(data: Data, key: Key)
  {
    key in data && data[key] != Null
  }

  /** `empty($v)`: `null`, "", "0", 0 and 0.0 are empty. */
  predicate IsEmpty(v: Value)
  {
    match v
    case Null => true
    case Str(s) => s == "" || s == "0"
    case Int(n) => n == 0
    case Money(c) => c == 0
  }

  /** String conversion of a value, as `preg_split` applies to its subject. */
  function AsText(v: Value): string
  {
    match v
    case Null => ""
    case Str(s) => s
    case Int(n) => Decimal.IntString(n)
    case Money(c) => Decimal.Format(c)
  }

  /**
   * The numeric value (in cents) PHP uses when a value meets a numeric string in
   * a loose comparison; `None` for values that do not read as an amount.
   */
  function AmountOf(v: Value): Option<int>
  {
    match v
    case Null => None
    case Str(s) => Decimal.ParseAmount(s)
    case Int(n) => Some(n * 100)
    case Money(c) => Some(c)
  }

  /**
   * `$v == $lit` for a string literal `$lit`: two strings that both read as
   * numbers compare as numbers, a number compares with a numeric string by
   * value (and is never equal to any other string), and `null` equals only "".
   */
  predicate LooseEq(v: Value, lit: string)
  {
    match v
    case Null => lit == ""
    case Str(s) => s == lit || (Decimal.ParseAmount(s).Some? && Decimal.ParseAmount(s) == Decimal.ParseAmount(lit))
    case Int(n) => Decimal.ParseAmount(lit) == Some(n * 100)
    case Money(c) => Decimal.ParseAmount(lit) == Some(c)
  }

  /** `$v == $n` for an integer literal `$n`. */
  predicate LooseEqInt(v: Value, n: int)
  {
    match v
    case Null => n == 0
    case Str(s) => Decimal.ParseAmount(s) == Some(n * 100)
    case Int(m) => m == n
    case Money(c) => c == n * 100
  }

  /** A code made of capital letters, such as "ACK", "PA" or "DB". */
  predicate IsLetterCode(lit: string)
  {
    lit != "" && forall i :: 0 <= i < |lit| ==> 'A' <= lit[i] <= 'Z'
  }

  /** A letter code does not read as a number. */
  lemma {:induction false} LetterCodeNotNumeric(lit: string)
    requires IsLetterCode(lit)
    ensures Decimal.ParseAmount(lit).None?
  {
    assert 'A' <= lit[0] <= 'Z';
    assert !Decimal.AllDigits(lit) by { assert !Decimal.IsDigit(lit[0]); }
    if |lit| >= 4 {
      assert 'A' <= lit[|lit| - 3] <= 'Z';
    }
  }

  /** For a letter code, loose `==` is exact string equality: no number or `null` equals it. */
  lemma {:induction false} LooseEqLetterCode(v: Value, lit: string)
    requires IsLetterCode(lit)
    ensures LooseEq(v, lit) <==> v == Str(lit)
  {
    LetterCodeNotNumeric(lit);
  }

  /** An integer and its decimal text are loosely equal, whichever side the text is on. */
  lemma {:induction false} LooseEqIntString(n: int)
    ensures LooseEq(Int(n), Decimal.IntString(n))
    ensures LooseEqInt(Str(Decimal.IntString(n)), n)
  {
    Decimal.IntStringRoundTrip(n);
  }

  /** Numeric strings compare by value: "080" equals "80" and "0978" equals "978", but "ACK" is only "ACK". */
  lemma {:induction false} NumericStringsExample()
    ensures LooseEq(Str("080"), "80") && LooseEq(Str("0978"), "978")
    ensures LooseEqInt(Str("080"), 80) && LooseEq(Int(80), "080")
    ensures !LooseEq(Str("0ACK"), "ACK")
  {
    assert Decimal.AllDigits("80") && Decimal.AllDigits("978");
    assert Decimal.ParseNat("80") == 80 by { assert "80"[..1] == "8" && "8"[..0] == ""; }
    assert Decimal.ParseUnsigned("978").Some?;
    assert "080" == "0" + "80" && "0978" == "0" + "978";
    Decimal.LeadingZeroIgnored("80");
    Decimal.LeadingZeroIgnored("978");
    LooseEqLetterCode(Str("0ACK"), "ACK");
  }
}

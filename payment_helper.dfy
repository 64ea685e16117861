/**
 * The Heidelpay payment helper: splitting of payment codes, the classifying
 * predicates over the notification `$data`, and `mapStatus`, which picks the
 * one transition the order's payment method is asked to perform.
 */
module PaymentHelper {
  import opened Wrappers
  import opened Fields
  import Decimal

  // ---------------------------------------------------------------- payment codes

  /** `preg_split('/\./', $code)`: every piece between dots, empty pieces included. */
  function SplitPaymentCode(code: string): (pieces: seq<string>)
    ensures |pieces| >= 1
    decreases |code|
  {
    if |code| == 0 then [""]
    else
      var rest := SplitPaymentCode(code[1..]);
      if code[0] == '.' then [""] + rest else [[code[0]] + rest[0]] + rest[1..]
  }

  /** No piece of a split code holds a dot. */
  lemma {:induction false} SplitPaymentCodeDotless(code: string)
    ensures forall i :: 0 <= i < |SplitPaymentCode(code)| ==> '.' !in SplitPaymentCode(code)[i]
    decreases |code|
  {
    if |code| > 0 {
      SplitPaymentCodeDotless(code[1..]);
      var rest := SplitPaymentCode(code[1..]);
      if code[0] != '.' {
        assert '.' !in [code[0]] + rest[0];
      }
    }
  }

  /** A code has a second piece exactly when it holds a dot. */
  lemma {:induction false} SplitHasSecondPiece(code: string)
    ensures |SplitPaymentCode(code)| >= 2 <==> '.' in code
    decreases |code|
  {
    if |code| > 0 {
      SplitHasSecondPiece(code[1..]);
      assert code == [code[0]] + code[1..];
    }
  }

  /** The pieces joined again with '.' between them. */
  function Join(pieces: seq<string>): string
    requires |pieces| >= 1
  {
    if |pieces| == 1 then pieces[0] else pieces[0] + "." + Join(pieces[1..])
  }

  /** Joining the pieces of a code gives back the code. */
  lemma {:induction false} JoinSplitPaymentCode(code: string)
    ensures Join(SplitPaymentCode(code)) == code
  {
    if |code| > 0 {
      var rest := SplitPaymentCode(code[1..]);
      JoinSplitPaymentCode(code[1..]);
      if code[0] == '.' {
        assert ([""] + rest)[1..] == rest;
      } else if |rest| > 1 {
        var pieces := [[code[0]] + rest[0]] + rest[1..];
        assert pieces[1..] == rest[1..];
        assert code == [code[0]] + code[1..];
      } else {
        assert code == [code[0]] + code[1..];
      }
    }
  }

  /** A prefix without dots sticks to the first piece of what follows it. */
  lemma {:induction false} SplitDotlessPrefix(a: string, t: string)
    requires '.' !in a
    ensures SplitPaymentCode(a + t) == [a + SplitPaymentCode(t)[0]] + SplitPaymentCode(t)[1..]
    decreases |a|
  {
    if a == "" {
      var pieces := SplitPaymentCode(t);
      assert a + t == t && a + pieces[0] == pieces[0];
      assert [pieces[0]] + pieces[1..] == pieces;
    } else {
      var s0, s1 := SplitPaymentCode(t)[0], SplitPaymentCode(t)[1..];
      assert (a + t)[0] == a[0] && (a + t)[1..] == a[1..] + t;
      SplitDotlessPrefix(a[1..], t);
      var rest := SplitPaymentCode(a[1..] + t);
      assert rest[0] == a[1..] + s0 && rest[1..] == s1;
      assert [a[0]] + (a[1..] + s0) == a + s0;
    }
  }

  /** Splitting pieces that hold no dot, once joined, gives back the pieces. */
  lemma {:induction false} SplitJoin(pieces: seq<string>)
    requires |pieces| >= 1
    requires forall i :: 0 <= i < |pieces| ==> '.' !in pieces[i]
    ensures SplitPaymentCode(Join(pieces)) == pieces
  {
    if |pieces| == 1 {
      SplitDotlessPrefix(pieces[0], "");
      assert pieces[0] + "" == pieces[0];
    } else {
      var tail := Join(pieces[1..]);
      SplitJoin(pieces[1..]);
      var dotted := "." + tail;
      assert dotted[1..] == tail;
      assert SplitPaymentCode(dotted) == [""] + pieces[1..];
      assert Join(pieces) == pieces[0] + dotted;
      SplitDotlessPrefix(pieces[0], dotted);
      assert pieces[0] + "" == pieces[0];
    }
  }

  lemma {:induction false} SplitPaymentCodeExample()
    ensures SplitPaymentCode("CC.DB") == ["CC", "DB"]
  {
    SplitJoin(["CC", "DB"]);
    assert Join(["CC", "DB"]) == "CC.DB";
  }

  /** `$pieces[$i]`: a missing piece reads as `null`. */
  function Component(pieces: seq<string>, i: nat): Value
  {
    if i < |pieces| then Str(pieces[i]) else Null
  }

  /** The second piece of `$data['PAYMENT_CODE']`, the transaction type. */
  function PaymentTypeOf(data: Data): Value
  {
    Component(SplitPaymentCode(AsText(Lookup(data, PAYMENT_CODE))), 1)
  }

  // ---------------------------------------------------------------- orders

  const STATE_CANCELED := "canceled"
  const STATE_CLOSED := "closed"
  const STATE_COMPLETE := "complete"

  /** What the helper and the response controller see of a Magento order; amounts in cents. */
  datatype Order = Order(status: string, grandTotal: int, currencyCode: string, incrementId: string)

  /** The states in which `mapStatus` leaves an order alone. */
  const TERMINAL_STATES: set<string> := {STATE_CANCELED, STATE_CLOSED, STATE_COMPLETE}

  /** The order is canceled, closed or complete. */
  function IsTerminal(status: string): (r: bool)
    ensures r <==> status in TERMINAL_STATES
  {
    status == STATE_CANCELED || status == STATE_CLOSED || status == STATE_COMPLETE
  }

  // ---------------------------------------------------------------- classification

  const PROCESSING_TYPES: set<string> := {"CP", "DB", "FI", "RC"}
  const RECEIPT_METHODS: set<string> := {"DD", "PP", "IV", "OT", "PC", "MP", "HP"}
  const REFUNDABLE_TYPES: set<string> := {"DB", "CP", "RC"}
  /** A status code the processor uses for a payment still waiting, even though acknowledged. */
  const STATUS_WAITING := 80

  /** `isProcessing`: a capturing type, acknowledged, and not the waiting status. */
  function IsProcessing(paymentType: Value, data: Data): (r: bool)
    ensures !IsSet(data, PROCESSING_RESULT) && !IsSet(data, PROCESSING_STATUS_CODE) ==> !r
    ensures IsSet(data, PROCESSING_RESULT) || IsSet(data, PROCESSING_STATUS_CODE) ==>
      (r <==> (paymentType.Str? && paymentType.s in PROCESSING_TYPES)
              && Lookup(data, PROCESSING_RESULT) == Str("ACK")
              && !LooseEqInt(Lookup(data, PROCESSING_STATUS_CODE), STATUS_WAITING))
  {
    LooseEqLetterCode(paymentType, "CP");
    LooseEqLetterCode(paymentType, "DB");
    LooseEqLetterCode(paymentType, "FI");
    LooseEqLetterCode(paymentType, "RC");
    LooseEqLetterCode(Lookup(data, PROCESSING_RESULT), "ACK");
    if !IsSet(data, PROCESSING_RESULT) && !IsSet(data, PROCESSING_STATUS_CODE) then false
    else
      (LooseEq(paymentType, "CP") || LooseEq(paymentType, "DB") || LooseEq(paymentType, "FI") || LooseEq(paymentType, "RC"))
      && LooseEq(Lookup(data, PROCESSING_RESULT), "ACK")
      && !LooseEqInt(Lookup(data, PROCESSING_STATUS_CODE), STATUS_WAITING)
  }

  lemma {:induction false} IsProcessingExamples()
    ensures IsProcessing(Str("DB"), map[PROCESSING_RESULT := Str("ACK"), PROCESSING_STATUS_CODE := Int(20)])
    ensures !IsProcessing(Str("DB"), map[PROCESSING_RESULT := Str("ACK"), PROCESSING_STATUS_CODE := Int(80)])
    ensures !IsProcessing(Str("DB"), map[PROCESSING_RESULT := Str("NOK"), PROCESSING_STATUS_CODE := Int(20)])
    ensures !IsProcessing(Str("DB"), map[])
  {
  }

  /** `isPreAuthorization`: the second piece of the payment code is "PA". */
  function IsPreAuthorization(data: Data): (r: bool)
    ensures !IsSet(data, PAYMENT_CODE) ==> !r
    ensures IsSet(data, PAYMENT_CODE) ==> (r <==> PaymentTypeOf(data) == Str("PA"))
  {
    LooseEqLetterCode(PaymentTypeOf(data), "PA");
    if !IsSet(data, PAYMENT_CODE) then false
    else LooseEq(Component(SplitPaymentCode(AsText(data[PAYMENT_CODE])), 1), "PA")
  }

  /** For a code built from dotless pieces, pre-authorisation is decided by the second piece alone. */
  lemma {:induction false} PreAuthorizationOfPieces(data: Data, pieces: seq<string>)
    requires |pieces| >= 1
    requires forall i :: 0 <= i < |pieces| ==> '.' !in pieces[i]
    ensures IsPreAuthorization(data[PAYMENT_CODE := Str(Join(pieces))]) <==> |pieces| >= 2 && pieces[1] == "PA"
  {
    var d := data[PAYMENT_CODE := Str(Join(pieces))];
    assert IsSet(d, PAYMENT_CODE) && AsText(Lookup(d, PAYMENT_CODE)) == Join(pieces);
    SplitJoin(pieces);
    assert PaymentTypeOf(d) == Component(pieces, 1);
  }

  /** `isReceiptAble`: a receipt, for one of the methods paid by transfer or debit. */
  function IsReceiptAble(paymentMethod: string, paymentType: string): (r: bool)
    ensures r <==> paymentType == "RC" && paymentMethod in RECEIPT_METHODS
  {
    if paymentType != "RC" then false
    else match paymentMethod
      case "DD" => true
      case "PP" => true
      case "IV" => true
      case "OT" => true
      case "PC" => true
      case "MP" => true
      case "HP" => true
      case _ => false
  }

  /** `isRefundable`: a debit, a capture or a receipt. */
  function IsRefundable(paymentType: string): (r: bool)
    ensures r <==> paymentType in REFUNDABLE_TYPES
  {
    paymentType == "DB" || paymentType == "CP" || paymentType == "RC"
  }

  /**
   * `isMatchingAmount`: the order's grand total, formatted with two decimals,
   * equals the presented amount under PHP's numeric comparison.
   */
  function IsMatchingAmount(order: Order, data: Data): (r: bool)
    ensures r <==> IsSet(data, PRESENTATION_AMOUNT) && AmountOf(data[PRESENTATION_AMOUNT]) == Some(order.grandTotal)
  {
    Decimal.FormatRoundTrip(order.grandTotal);
    if !IsSet(data, PRESENTATION_AMOUNT) then false
    else LooseEq(data[PRESENTATION_AMOUNT], Decimal.Format(order.grandTotal))
  }

  /**
   * `isMatchingCurrency`: the order's currency code loosely equals the presented
   * currency. An alphabetic code such as "EUR" matches only that exact string;
   * a numeric code such as "978" matches whatever reads as the same number.
   */
  function IsMatchingCurrency(order: Order, data: Data): (r: bool)
    ensures !IsSet(data, PRESENTATION_CURRENCY) ==> !r
    ensures IsSet(data, PRESENTATION_CURRENCY) && Decimal.ParseAmount(order.currencyCode).None? ==>
      (r <==> data[PRESENTATION_CURRENCY] == Str(order.currencyCode))
    ensures IsSet(data, PRESENTATION_CURRENCY) && Decimal.ParseAmount(order.currencyCode).Some? ==>
      (r <==> AmountOf(data[PRESENTATION_CURRENCY]) == Decimal.ParseAmount(order.currencyCode))
  {
    if !IsSet(data, PRESENTATION_CURRENCY) then false
    else LooseEq(data[PRESENTATION_CURRENCY], order.currencyCode)
  }

  /** "EUR" matches only "EUR"; the numeric code "978" also matches "0978". */
  lemma {:induction false} IsMatchingCurrencyExamples()
    ensures var order := Order("processing", 1000, "EUR", "1");
      IsMatchingCurrency(order, map[PRESENTATION_CURRENCY := Str("EUR")])
      && !IsMatchingCurrency(order, map[PRESENTATION_CURRENCY := Str("eur")])
    ensures IsMatchingCurrency(Order("processing", 1000, "978", "1"), map[PRESENTATION_CURRENCY := Str("0978")])
  {
    assert Decimal.ParseUnsigned("978").Some? by { assert Decimal.AllDigits("978"); }
    assert "0978" == "0" + "978";
    Decimal.LeadingZeroIgnored("978");
    LooseEqLetterCode(Str("eur"), "EUR");
  }

  // ---------------------------------------------------------------- mapStatus

  /** The transition `mapStatus` asks of the order's payment method, if any. */
  datatype Transition =
    | Unchanged
    | Cancelled(message: Value)
    | Processing(data: Data)
    | Pending(data: Data, message: Value)

  /** The message handed to the cancel and pending transitions. */
  function TransitionMessage(data: Data, message: Value): (m: Value)
    ensures IsEmpty(message) ==> m == Lookup(data, PROCESSING_RETURN)
    ensures !IsEmpty(message) ==> m == message
  {
    if !IsEmpty(message) then message else Lookup(data, PROCESSING_RETURN)
  }

  /** `mapStatus($data, $order, $message)`; `Null` stands for the default `$message = false`. */
  function MapStatus(data: Data, order: Order, message: Value): (t: Transition)
    ensures IsTerminal(order.status) <==> t == Unchanged
    ensures t.Cancelled? <==> !IsTerminal(order.status) && Lookup(data, PROCESSING_RESULT) == Str("NOK")
    ensures t.Processing? <==>
      !IsTerminal(order.status) && Lookup(data, PROCESSING_RESULT) != Str("NOK")
      && IsProcessing(PaymentTypeOf(data), data)
    ensures (t.Processing? || t.Pending?) ==> t.data == data
    ensures (t.Cancelled? || t.Pending?) ==>
      t.message == (if IsEmpty(message) then Lookup(data, PROCESSING_RETURN) else message)
  {
    LooseEqLetterCode(Lookup(data, PROCESSING_RESULT), "NOK");
    var paymentCode := SplitPaymentCode(AsText(Lookup(data, PAYMENT_CODE)));
    var msg := TransitionMessage(data, message);
    if IsTerminal(order.status) then Unchanged
    else if LooseEq(Lookup(data, PROCESSING_RESULT), "NOK") then Cancelled(msg)
    else if IsProcessing(Component(paymentCode, 1), data) then Processing(data)
    else Pending(data, msg)
  }

  /**
   * On an acknowledged notification for an open order, `mapStatus` marks the
   * order processing exactly for the capturing types outside the waiting status,
   * and pending otherwise; it never cancels.
   */
  lemma {:induction false} MapStatusOnAck(data: Data, order: Order, message: Value)
    requires Lookup(data, PROCESSING_RESULT) == Str("ACK")
    requires !IsTerminal(order.status)
    ensures MapStatus(data, order, message).Processing? || MapStatus(data, order, message).Pending?
    ensures MapStatus(data, order, message).Processing? <==>
      (PaymentTypeOf(data).Str? && PaymentTypeOf(data).s in PROCESSING_TYPES)
      && !LooseEqInt(Lookup(data, PROCESSING_STATUS_CODE), STATUS_WAITING)
  {
  }
}

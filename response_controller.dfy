/**
 * The payment-notification endpoint (`hgw/index/response`).
 *
 * The processor posts the notification; `Execute` checks the integrity hash,
 * normalises the posted fields into `$data`, on an acknowledged payment turns
 * the quote into an order and lets `mapStatus` move it, answers with the
 * redirect URL and writes one transaction-log record. Everything the
 * controller reaches outside itself is a parameter in `Env`, and what it does
 * to the outside world is returned as a trace of effects, in order.
 */
module ResponseController {
  import opened Wrappers
  import opened Fields
  import Decimal
  import PaymentHelper

  /** The posted form fields, by name; a field that was not posted reads as `null`. */
  type Post = map<Key, string>

  /** Magento's customer group for shoppers who are not logged in. */
  const NOT_LOGGED_IN_ID := 0

  /** What the controller touches of a Magento quote. */
  datatype Quote = Quote(
    customerId: Option<int>,
    customerEmail: string,
    customerIsGuest: bool,
    customerGroupId: int,
    billingEmail: string)

  /** The collaborators of the controller, none of which it can see into. */
  datatype Env = Env(
    hash: string -> string,                         // the encryptor's getHash
    keys: string,                                   // the encryptor's exportKeys()
    toInt: string -> int,                           // PHP's (int) cast of a string
    toCents: string -> int,                         // floatval of a string, in cents
    loadQuote: int -> Quote,                        // loading a quote by id
    submit: Quote -> Option<PaymentHelper.Order>,   // cart management's submit; None when it throws or returns null
    redirectUrl: string)                            // the URL of hgw/index/redirect

  /** The columns of the transaction-log model set by the controller. */
  datatype Column =
    | PaymentMethodeColumn
    | PaymentTypeColumn
    | TransactionIdColumn
    | UniqueIdColumn
    | ShortIdColumn
    | StatusCodeColumn
    | ResultColumn
    | ReturnColumn
    | ReturnCodeColumn
    | SourceColumn

  const LOG_COLUMNS: set<Column> :=
    {PaymentMethodeColumn, PaymentTypeColumn, TransactionIdColumn, UniqueIdColumn, ShortIdColumn,
     StatusCodeColumn, ResultColumn, ReturnColumn, ReturnCodeColumn, SourceColumn}

  /** The field of `$data` each column is copied from. */
  function LoggedKey(column: Column): Key
  {
    match column
    case PaymentMethodeColumn => PAYMENT_METHODE
    case PaymentTypeColumn => PAYMENT_TYPE
    case TransactionIdColumn => IDENTIFICATION_TRANSACTIONID
    case UniqueIdColumn => IDENTIFICATION_UNIQUEID
    case ShortIdColumn => IDENTIFICATION_SHORTID
    case StatusCodeColumn => PROCESSING_STATUS_CODE
    case ResultColumn => PROCESSING_RESULT
    case ReturnColumn => PROCESSING_RETURN
    case ReturnCodeColumn => PROCESSING_RETURN_CODE
    case SourceColumn => SOURCE
  }

  /** What the controller does to the outside world, in the order it does it. */
  datatype Effect =
    | EmitRedirect(url: string)
    | LoadQuote(id: int)
    | Submit(quote: Quote)
    | MapStatus(transition: PaymentHelper.Transition)
    | SaveOrder(order: PaymentHelper.Order)
    | SaveLog(record: map<Column, Value>, payload: Data)
    | Fault   // an uncaught error or exception ends the request here

  /** The effects that reach the quote or the order. */
  predicate TouchesOrder(e: Effect)
  {
    e.LoadQuote? || e.Submit? || e.MapStatus? || e.SaveOrder?
  }

  // ---------------------------------------------------------------- the request

  /** `$Request->getPost($key)`. */
  function Posted(post: Post, key: Key): Value
  {
    if key in post then Str(post[key]) else Null
  }

  /** The field was posted with exactly this text. */
  predicate PostedIs(post: Post, key: Key, lit: string)
  {
    key in post && post[key] == lit
  }

  /** The text of a posted field, empty when it was not posted. */
  function PostedText(post: Post, key: Key): string
  {
    if key in post then post[key] else ""
  }

  /**
   * A posted value is loosely equal to a non-empty literal that does not read
   * as a number exactly when that literal was posted. (A numeric literal such
   * as "80" is also matched by "080".)
   */
  lemma {:induction false} PostedLooseEq(post: Post, key: Key, lit: string)
    requires lit != "" && Decimal.ParseAmount(lit).None?
    ensures LooseEq(Posted(post, key), lit) <==> PostedIs(post, key, lit)
  {
  }

  /** `(int)` of a posted value. */
  function CastInt(env: Env, v: Value): int
  {
    if v.Str? then env.toInt(v.s) else 0
  }

  /** `floatval` of a posted value, in cents. */
  function CastCents(env: Env, v: Value): int
  {
    if v.Str? then env.toCents(v.s) else 0
  }

  // ---------------------------------------------------------------- the gate

  /** The hash the processor must have sent: of the posted transaction id followed by the key material. */
  function ReferenceHash(post: Post, env: Env): (h: string)
    ensures IDENTIFICATION_TRANSACTIONID in post ==> h == env.hash(post[IDENTIFICATION_TRANSACTIONID] + env.keys)
    ensures IDENTIFICATION_TRANSACTIONID !in post ==> h == env.hash(env.keys)
  {
    assert "" + env.keys == env.keys;
    env.hash(AsText(Posted(post, IDENTIFICATION_TRANSACTIONID)) + env.keys)
  }

  /** The integrity gate is passed: both fields are non-empty and the secret is the reference hash. */
  function HashValid(post: Post, env: Env): (r: bool)
    ensures r <==>
      && IDENTIFICATION_TRANSACTIONID in post && post[IDENTIFICATION_TRANSACTIONID] !in {"", "0"}
      && CRITERION_SECRET in post && post[CRITERION_SECRET] !in {"", "0"}
      && post[CRITERION_SECRET] == env.hash(post[IDENTIFICATION_TRANSACTIONID] + env.keys)
  {
    && !IsEmpty(Posted(post, IDENTIFICATION_TRANSACTIONID))
    && !IsEmpty(Posted(post, CRITERION_SECRET))
    && Posted(post, CRITERION_SECRET) == Str(ReferenceHash(post, env))
  }

  // ---------------------------------------------------------------- normalisation

  /** The notification carries the prepayment account fields. */
  predicate CarriesAccount(post: Post)
  {
    PostedIs(post, PAYMENT_CODE, "PP.PA")
  }

  const BASE_KEYS: set<Key> :=
    {CRITERION_SECRET, IDENTIFICATION_TRANSACTIONID, PROCESSING_RESULT, PROCESSING_STATUS_CODE,
     PROCESSING_RETURN, PROCESSING_RETURN_CODE, PAYMENT_CODE, IDENTIFICATION_UNIQUEID,
     IDENTIFICATION_SHORTID, IDENTIFICATION_SHOPPERID, CRITERION_GUEST, TRANSACTION_MODE,
     PRESENTATION_CURRENCY, PRESENTATION_AMOUNT, ACCOUNT_BRAND, PAYMENT_METHODE, PAYMENT_TYPE, SOURCE}

  const ACCOUNT_KEYS: set<Key> := {CONNECTOR_ACCOUNT_HOLDER, CONNECTOR_ACCOUNT_IBAN, CONNECTOR_ACCOUNT_BIC}

  /** The keys `$data` holds once the gate is passed. */
  function NormalisedKeys(post: Post): set<Key>
  {
    BASE_KEYS + if CarriesAccount(post) then ACCOUNT_KEYS else {}
  }

  /**
   * The posted payment code has a second piece. Without one, reading
   * `$PaymentCode[1]` is an undefined offset, which Magento's error handler
   * turns into an exception that nothing in the controller catches.
   */
  predicate HasPaymentType(post: Post)
  {
    '.' in PostedText(post, PAYMENT_CODE)
  }

  /** The pieces of the posted payment code. */
  function PostedPieces(post: Post): seq<string>
  {
    PaymentHelper.SplitPaymentCode(PostedText(post, PAYMENT_CODE))
  }

  /**
   * The normalisation rules, key by key: result and mode fail closed, the
   * three numeric fields are cast, the amount is read as a number, method and
   * type are the pieces of the payment code, the source is fixed, and every
   * other field is kept as posted.
   */
  function NormalisedField(post: Post, env: Env, key: Key): Value
  {
    match key
    case IDENTIFICATION_TRANSACTIONID | PROCESSING_STATUS_CODE | IDENTIFICATION_SHOPPERID =>
      Int(CastInt(env, Posted(post, key)))
    case PROCESSING_RESULT =>
      if PostedIs(post, PROCESSING_RESULT, "ACK") then Str("ACK") else Str("NOK")
    case TRANSACTION_MODE =>
      if PostedIs(post, TRANSACTION_MODE, "LIVE") then Str("LIVE") else Str("CONNECTOR_TEST")
    case PRESENTATION_AMOUNT => Money(CastCents(env, Posted(post, PRESENTATION_AMOUNT)))
    case PAYMENT_METHODE => Str(PostedPieces(post)[0])
    case PAYMENT_TYPE => PaymentHelper.Component(PostedPieces(post), 1)
    case SOURCE => Str("RESPONSE")
    case _ => Posted(post, key)
  }

  /** The fields the controller keeps exactly as posted. */
  const KEPT_KEYS: set<Key> :=
    {CRITERION_SECRET, PROCESSING_RETURN, PROCESSING_RETURN_CODE, PAYMENT_CODE, IDENTIFICATION_UNIQUEID,
     IDENTIFICATION_SHORTID, CRITERION_GUEST, PRESENTATION_CURRENCY, ACCOUNT_BRAND,
     CONNECTOR_ACCOUNT_HOLDER, CONNECTOR_ACCOUNT_IBAN, CONNECTOR_ACCOUNT_BIC}

  /** A kept field's rule is the posted value. */
  lemma {:induction false} KeptAsPosted(post: Post, env: Env, key: Key)
    requires key in KEPT_KEYS
    ensures NormalisedField(post, env, key) == Posted(post, key)
  {
  }

  /** The rules as a function on keys. */
  function Rules(post: Post, env: Env): Key -> Value
  {
    key => NormalisedField(post, env, key)
  }

  /** The map that holds `f(key)` at every key of `keys`. */
  function FieldMap(f: Key -> Value, keys: set<Key>): Data
  {
    map key | key in keys :: f(key)
  }

  /** `$data` once the gate is passed. */
  function Normalised(post: Post, env: Env): Data
  {
    FieldMap(Rules(post, env), NormalisedKeys(post))
  }

  /** Every field set for all notifications holds the value its rule gives. */
  lemma {:induction false} NormalisedAt(post: Post, env: Env, key: Key)
    requires key in BASE_KEYS
    ensures key in Normalised(post, env) && Normalised(post, env)[key] == NormalisedField(post, env, key)
  {
    assert key in NormalisedKeys(post);
  }

  /**
   * Setting the fields one after the other, in the controller's order and with
   * the transaction id first stored as posted, gives the map of the final value
   * of each field.
   */
  lemma {:induction false} SourceOrder(f: Key -> Value, postedId: Value, withAccount: bool)
    ensures
      var data := map[CRITERION_SECRET := f(CRITERION_SECRET), IDENTIFICATION_TRANSACTIONID := postedId]
        [PROCESSING_RESULT := f(PROCESSING_RESULT)]
        [IDENTIFICATION_TRANSACTIONID := f(IDENTIFICATION_TRANSACTIONID)]
        [PROCESSING_STATUS_CODE := f(PROCESSING_STATUS_CODE)]
        [PROCESSING_RETURN := f(PROCESSING_RETURN)]
        [PROCESSING_RETURN_CODE := f(PROCESSING_RETURN_CODE)]
        [PAYMENT_CODE := f(PAYMENT_CODE)]
        [IDENTIFICATION_UNIQUEID := f(IDENTIFICATION_UNIQUEID)]
        [IDENTIFICATION_SHORTID := f(IDENTIFICATION_SHORTID)]
        [IDENTIFICATION_SHOPPERID := f(IDENTIFICATION_SHOPPERID)]
        [CRITERION_GUEST := f(CRITERION_GUEST)]
        [TRANSACTION_MODE := f(TRANSACTION_MODE)]
        [PRESENTATION_CURRENCY := f(PRESENTATION_CURRENCY)]
        [PRESENTATION_AMOUNT := f(PRESENTATION_AMOUNT)]
        [ACCOUNT_BRAND := f(ACCOUNT_BRAND)]
        [PAYMENT_METHODE := f(PAYMENT_METHODE)]
        [PAYMENT_TYPE := f(PAYMENT_TYPE)]
        [SOURCE := f(SOURCE)];
      var data := if withAccount then data
        [CONNECTOR_ACCOUNT_HOLDER := f(CONNECTOR_ACCOUNT_HOLDER)]
        [CONNECTOR_ACCOUNT_IBAN := f(CONNECTOR_ACCOUNT_IBAN)]
        [CONNECTOR_ACCOUNT_BIC := f(CONNECTOR_ACCOUNT_BIC)] else data;
      data == FieldMap(f, BASE_KEYS + if withAccount then ACCOUNT_KEYS else {})
  {
  }

  /** `SourceOrder` for the normalisation rules, starting from the gate's two fields. */
  lemma {:induction false} NormalisedInSourceOrder(post: Post, env: Env)
    ensures
      var data := map[CRITERION_SECRET := Posted(post, CRITERION_SECRET),
                      IDENTIFICATION_TRANSACTIONID := Posted(post, IDENTIFICATION_TRANSACTIONID)]
        [PROCESSING_RESULT := NormalisedField(post, env, PROCESSING_RESULT)]
        [IDENTIFICATION_TRANSACTIONID := NormalisedField(post, env, IDENTIFICATION_TRANSACTIONID)]
        [PROCESSING_STATUS_CODE := NormalisedField(post, env, PROCESSING_STATUS_CODE)]
        [PROCESSING_RETURN := NormalisedField(post, env, PROCESSING_RETURN)]
        [PROCESSING_RETURN_CODE := NormalisedField(post, env, PROCESSING_RETURN_CODE)]
        [PAYMENT_CODE := NormalisedField(post, env, PAYMENT_CODE)]
        [IDENTIFICATION_UNIQUEID := NormalisedField(post, env, IDENTIFICATION_UNIQUEID)]
        [IDENTIFICATION_SHORTID := NormalisedField(post, env, IDENTIFICATION_SHORTID)]
        [IDENTIFICATION_SHOPPERID := NormalisedField(post, env, IDENTIFICATION_SHOPPERID)]
        [CRITERION_GUEST := NormalisedField(post, env, CRITERION_GUEST)]
        [TRANSACTION_MODE := NormalisedField(post, env, TRANSACTION_MODE)]
        [PRESENTATION_CURRENCY := NormalisedField(post, env, PRESENTATION_CURRENCY)]
        [PRESENTATION_AMOUNT := NormalisedField(post, env, PRESENTATION_AMOUNT)]
        [ACCOUNT_BRAND := NormalisedField(post, env, ACCOUNT_BRAND)]
        [PAYMENT_METHODE := NormalisedField(post, env, PAYMENT_METHODE)]
        [PAYMENT_TYPE := NormalisedField(post, env, PAYMENT_TYPE)]
        [SOURCE := NormalisedField(post, env, SOURCE)];
      var data := if CarriesAccount(post) then data
        [CONNECTOR_ACCOUNT_HOLDER := NormalisedField(post, env, CONNECTOR_ACCOUNT_HOLDER)]
        [CONNECTOR_ACCOUNT_IBAN := NormalisedField(post, env, CONNECTOR_ACCOUNT_IBAN)]
        [CONNECTOR_ACCOUNT_BIC := NormalisedField(post, env, CONNECTOR_ACCOUNT_BIC)] else data;
      data == Normalised(post, env)
  {
    SourceOrder(Rules(post, env), Posted(post, IDENTIFICATION_TRANSACTIONID), CarriesAccount(post));
  }

  /** Result and mode fail closed: anything but the literal ACK (LIVE) normalises to NOK (CONNECTOR_TEST). */
  lemma {:induction false} NormalisedFailsClosed(post: Post, env: Env)
    ensures Normalised(post, env)[PROCESSING_RESULT] == Str("ACK") <==> PostedIs(post, PROCESSING_RESULT, "ACK")
    ensures Normalised(post, env)[PROCESSING_RESULT] != Str("ACK") ==> Normalised(post, env)[PROCESSING_RESULT] == Str("NOK")
    ensures Normalised(post, env)[TRANSACTION_MODE] == Str("LIVE") <==> PostedIs(post, TRANSACTION_MODE, "LIVE")
    ensures Normalised(post, env)[TRANSACTION_MODE] != Str("LIVE") ==> Normalised(post, env)[TRANSACTION_MODE] == Str("CONNECTOR_TEST")
  {
  }

  /** A code posted as `method.type` normalises to that method and that type. */
  lemma {:induction false} NormalisedPaymentCode(post: Post, env: Env, m: string, t: string)
    requires '.' !in m && '.' !in t
    requires PostedIs(post, PAYMENT_CODE, m + "." + t)
    ensures Normalised(post, env)[PAYMENT_METHODE] == Str(m)
    ensures Normalised(post, env)[PAYMENT_TYPE] == Str(t)
  {
    PaymentHelper.SplitJoin([m, t]);
    assert PaymentHelper.Join([m, t]) == m + "." + t;
  }

  /**
   * The method and type of any posted code with a dot are its first two pieces,
   * which join back to the code; a code without a dot has no second piece.
   */
  lemma {:induction false} NormalisedPieces(post: Post, env: Env)
    ensures var pieces := PostedPieces(post);
      && PaymentHelper.Join(pieces) == PostedText(post, PAYMENT_CODE)
      && (|pieces| >= 2 <==> HasPaymentType(post))
      && Normalised(post, env)[PAYMENT_METHODE] == Str(pieces[0])
      && (HasPaymentType(post) ==> Normalised(post, env)[PAYMENT_TYPE] == Str(pieces[1]))
  {
    var code := PostedText(post, PAYMENT_CODE);
    PaymentHelper.JoinSplitPaymentCode(code);
    PaymentHelper.SplitHasSecondPiece(code);
  }

  /**
   * What `mapStatus` reads of the controller's `$data` is always there: the
   * payment code with its second piece, the return message, the result and the
   * status code, whatever order id has been added.
   */
  lemma {:induction false} MapStatusReadsDefined(post: Post, env: Env, id: string)
    requires HasPaymentType(post)
    ensures var data := Normalised(post, env)[ORDER_ID := Str(id)];
      && PAYMENT_CODE in data && PROCESSING_RETURN in data
      && PROCESSING_RESULT in data && PROCESSING_STATUS_CODE in data
      && |PaymentHelper.SplitPaymentCode(AsText(data[PAYMENT_CODE]))| >= 2
  {
    var data := Normalised(post, env)[ORDER_ID := Str(id)];
    assert AsText(data[PAYMENT_CODE]) == PostedText(post, PAYMENT_CODE);
    PaymentHelper.SplitHasSecondPiece(PostedText(post, PAYMENT_CODE));
  }

  // ---------------------------------------------------------------- order and log

  /** The fields of the transaction-log model, copied from `$data`. */
  function LogFields(data: Data): (record: map<Column, Value>)
    ensures record.Keys == LOG_COLUMNS
    ensures forall column :: column in record ==> record[column] == Lookup(data, LoggedKey(column))
  {
    map column | column in LOG_COLUMNS :: Lookup(data, LoggedKey(column))
  }

  /** The quote turned into a guest quote. */
  function AsGuest(quote: Quote): (guest: Quote)
    ensures guest.customerId == None && guest.customerIsGuest && guest.customerGroupId == NOT_LOGGED_IN_ID
    ensures guest.customerEmail == quote.billingEmail && guest.billingEmail == quote.billingEmail
  {
    quote.(customerId := None, customerEmail := quote.billingEmail, customerIsGuest := true,
           customerGroupId := NOT_LOGGED_IN_ID)
  }

  /** The quote handed to submit: the loaded one, made a guest quote when the notification says so. */
  function QuoteToSubmit(data: Data, env: Env): (quote: Quote)
    requires Lookup(data, IDENTIFICATION_TRANSACTIONID).Int?
    ensures var loaded := env.loadQuote(data[IDENTIFICATION_TRANSACTIONID].n);
      && (Lookup(data, CRITERION_GUEST) == Str("true") ==>
            quote.customerId == None && quote.customerIsGuest && quote.customerGroupId == NOT_LOGGED_IN_ID
            && quote.customerEmail == loaded.billingEmail && quote.billingEmail == loaded.billingEmail)
      && (Lookup(data, CRITERION_GUEST) != Str("true") ==> quote == loaded)
  {
    var quote := env.loadQuote(data[IDENTIFICATION_TRANSACTIONID].n);
    if Lookup(data, CRITERION_GUEST) == Str("true") then AsGuest(quote) else quote
  }

  /** The end of every request past the gate: the redirect URL, then the log record. */
  function Closing(data: Data, env: Env): seq<Effect>
  {
    [EmitRedirect(env.redirectUrl), SaveLog(LogFields(data), data)]
  }

  /** What the controller does once `$data` is normalised. */
  function AfterGate(data: Data, env: Env): seq<Effect>
    requires Lookup(data, IDENTIFICATION_TRANSACTIONID).Int?
  {
    if LooseEq(Lookup(data, PROCESSING_RESULT), "ACK") then
      var quote := QuoteToSubmit(data, env);
      var opening := [LoadQuote(data[IDENTIFICATION_TRANSACTIONID].n), Submit(quote)];
      match env.submit(quote)
      case None => opening + [Fault]
      case Some(order) =>
        var final := data[ORDER_ID := Str(order.incrementId)];
        opening + [MapStatus(PaymentHelper.MapStatus(final, order, Null)), SaveOrder(order)] + Closing(final, env)
    else Closing(data, env)
  }

  /** What the controller does for a notification. */
  function Trace(post: Post, env: Env): seq<Effect>
  {
    if !HashValid(post, env) then [EmitRedirect(env.redirectUrl)]
    else if !HasPaymentType(post) then [Fault]
    else AfterGate(Normalised(post, env), env)
  }

  // ---------------------------------------------------------------- properties of the trace

  /**
   * A notification past the gate whose payment code has no type ends in the
   * error raised while normalising: no redirect URL, no order work, no log record.
   */
  lemma {:induction false} UntypedCodeFaults(post: Post, env: Env)
    requires HashValid(post, env) && !HasPaymentType(post)
    ensures Trace(post, env) == [Fault]
    ensures forall e :: e in Trace(post, env) ==> !TouchesOrder(e) && !e.SaveLog? && !e.EmitRedirect?
  {
  }

  /** A notification that fails the gate gets the redirect URL and nothing else. */
  lemma {:induction false} InvalidHashOnlyRedirects(post: Post, env: Env)
    requires !HashValid(post, env)
    ensures Trace(post, env) == [EmitRedirect(env.redirectUrl)]
    ensures forall e :: e in Trace(post, env) ==> !TouchesOrder(e) && !e.SaveLog?
  {
  }

  /**
   * The quote and the order are touched exactly when the gate is passed, the
   * payment code has a type, and the posted result is ACK.
   */
  lemma {:induction false} OrderWorkOnlyOnAck(post: Post, env: Env)
    ensures (exists e :: e in Trace(post, env) && TouchesOrder(e)) <==>
      HashValid(post, env) && HasPaymentType(post) && PostedIs(post, PROCESSING_RESULT, "ACK")
  {
    if HashValid(post, env) && HasPaymentType(post) {
      var data := Normalised(post, env);
      LooseEqLetterCode(Lookup(data, PROCESSING_RESULT), "ACK");
      if PostedIs(post, PROCESSING_RESULT, "ACK") {
        assert TouchesOrder(Trace(post, env)[0]);
      } else {
        assert Trace(post, env) == Closing(data, env);
      }
    }
  }

  /** The trace is order work ended by a fault. */
  predicate EndsInFault(trace: seq<Effect>)
  {
    |trace| >= 1 && trace[|trace| - 1] == Fault && forall i :: 0 <= i < |trace| - 1 ==> TouchesOrder(trace[i])
  }

  /** The trace is order work, then the redirect URL, then the log record. */
  predicate EndsInLog(trace: seq<Effect>, url: string)
  {
    && |trace| >= 2
    && trace[|trace| - 2] == EmitRedirect(url)
    && trace[|trace| - 1].SaveLog?
    && forall i :: 0 <= i < |trace| - 2 ==> TouchesOrder(trace[i])
  }

  /**
   * Past the gate the effects come in this order: the order work, then the
   * redirect URL, then the log record as the last effect. The request ends in
   * a fault instead exactly when the payment code has no type, or when "ACK"
   * was posted and submitting the quote failed.
   */
  lemma {:induction false} EffectOrder(post: Post, env: Env)
    requires HashValid(post, env)
    ensures var faults := !HasPaymentType(post) ||
      (PostedIs(post, PROCESSING_RESULT, "ACK") && env.submit(QuoteToSubmit(Normalised(post, env), env)).None?);
      && (faults ==> EndsInFault(Trace(post, env)))
      && (!faults ==> EndsInLog(Trace(post, env), env.redirectUrl))
  {
    if HasPaymentType(post) {
      var data := Normalised(post, env);
      NormalisedAt(post, env, PROCESSING_RESULT);
      NormalisedAt(post, env, IDENTIFICATION_TRANSACTIONID);
      LooseEqLetterCode(Lookup(data, PROCESSING_RESULT), "ACK");
      assert LooseEq(Lookup(data, PROCESSING_RESULT), "ACK") <==> PostedIs(post, PROCESSING_RESULT, "ACK");
      AfterGateEffectOrder(data, env);
    } else {
      assert Trace(post, env) == [Fault];
    }
  }

  /**
   * Past the gate exactly one transaction-log record is written, unless the
   * payment code has no type or an acknowledged payment's submit failed.
   */
  lemma {:induction false} LogWrittenPastGate(post: Post, env: Env)
    requires HashValid(post, env)
    ensures (exists e :: e in Trace(post, env) && e.SaveLog?) <==>
      HasPaymentType(post)
      && !(PostedIs(post, PROCESSING_RESULT, "ACK") && env.submit(QuoteToSubmit(Normalised(post, env), env)).None?)
    ensures forall i, j :: 0 <= i < j < |Trace(post, env)| && Trace(post, env)[i].SaveLog? ==> !Trace(post, env)[j].SaveLog?
  {
    EffectOrder(post, env);
    EndingLogs(Trace(post, env), env.redirectUrl);
  }

  /** A trace ended by a fault holds no log record; one ended by the log holds exactly one, last. */
  lemma {:induction false} EndingLogs(trace: seq<Effect>, url: string)
    ensures EndsInFault(trace) ==> forall e :: e in trace ==> !e.SaveLog?
    ensures EndsInLog(trace, url) ==> (exists e :: e in trace && e.SaveLog?)
    ensures EndsInFault(trace) || EndsInLog(trace, url) ==>
      forall i, j :: 0 <= i < j < |trace| && trace[i].SaveLog? ==> !trace[j].SaveLog?
  {
    if EndsInLog(trace, url) {
      assert trace[|trace| - 1] in trace;
    }
  }

  /**
   * The order of the effects once `$data` is normalised: a fault ends the
   * trace exactly when the result is ACK and submitting the quote failed.
   */
  lemma {:induction false} AfterGateEffectOrder(data: Data, env: Env)
    requires Lookup(data, IDENTIFICATION_TRANSACTIONID).Int?
    ensures var faults := LooseEq(Lookup(data, PROCESSING_RESULT), "ACK") && env.submit(QuoteToSubmit(data, env)).None?;
      && (faults ==> EndsInFault(AfterGate(data, env)))
      && (!faults ==> EndsInLog(AfterGate(data, env), env.redirectUrl))
  {
    var trace := AfterGate(data, env);
    if LooseEq(Lookup(data, PROCESSING_RESULT), "ACK") {
      var quote := QuoteToSubmit(data, env);
      var opening := [LoadQuote(data[IDENTIFICATION_TRANSACTIONID].n), Submit(quote)];
      match env.submit(quote)
      case None =>
        assert trace == opening + [Fault];
      case Some(order) =>
        var final := data[ORDER_ID := Str(order.incrementId)];
        var work := opening + [MapStatus(PaymentHelper.MapStatus(final, order, Null)), SaveOrder(order)];
        assert trace == work + Closing(final, env);
        assert |work| == 4 && forall i :: 0 <= i < 4 ==> TouchesOrder(work[i]);
    } else {
      assert trace == Closing(data, env);
    }
  }


  /** Past the gate, the log record is made of `$data`, with the order id once an order exists. */
  lemma {:induction false} AfterGateLog(data: Data, env: Env, record: map<Column, Value>, payload: Data)
    requires Lookup(data, IDENTIFICATION_TRANSACTIONID).Int?
    requires SaveLog(record, payload) in AfterGate(data, env)
    ensures payload == data || exists id :: payload == data[ORDER_ID := Str(id)]
    ensures record == LogFields(payload)
  {
    var quote := QuoteToSubmit(data, env);
    if LooseEq(Lookup(data, PROCESSING_RESULT), "ACK") && env.submit(quote).Some? {
      var order := env.submit(quote).value;
      var final := data[ORDER_ID := Str(order.incrementId)];
      var trace := AfterGate(data, env);
      assert trace == [LoadQuote(data[IDENTIFICATION_TRANSACTIONID].n), Submit(quote),
        MapStatus(PaymentHelper.MapStatus(final, order, Null)), SaveOrder(order)] + Closing(final, env);
      assert payload == final;
    }
  }

  /** The order id is not one of the logged fields. */
  lemma {:induction false} LogFieldsIgnoreOrderId(data: Data, v: Value)
    ensures LogFields(data[ORDER_ID := v]) == LogFields(data)
  {
    var before, after := LogFields(data), LogFields(data[ORDER_ID := v]);
    forall column | column in LOG_COLUMNS
      ensures after[column] == before[column]
    {
      assert LoggedKey(column) != ORDER_ID;
    }
  }

  /** The log record holds the normalised fields, and its payload is `$data` (with the order id once an order exists). */
  lemma {:induction false} LogRecordCopiesData(post: Post, env: Env, record: map<Column, Value>, payload: Data)
    requires SaveLog(record, payload) in Trace(post, env)
    ensures payload == Normalised(post, env) || exists id :: payload == Normalised(post, env)[ORDER_ID := Str(id)]
    ensures record == LogFields(Normalised(post, env))
  {
    var data := Normalised(post, env);
    assert HashValid(post, env);
    AfterGateLog(data, env, record, payload);
    if payload != data {
      var id :| payload == data[ORDER_ID := Str(id)];
      LogFieldsIgnoreOrderId(data, Str(id));
    }
  }

  /** The submitted quote is a guest quote of the loaded one exactly when the notification says `true`. */
  lemma {:induction false} SubmittedQuote(post: Post, env: Env, quote: Quote)
    requires Submit(quote) in Trace(post, env)
    ensures var loaded := env.loadQuote(CastInt(env, Posted(post, IDENTIFICATION_TRANSACTIONID)));
      quote == if PostedIs(post, CRITERION_GUEST, "true") then AsGuest(loaded) else loaded
    ensures PostedIs(post, CRITERION_GUEST, "true") ==>
      quote.customerId == None && quote.customerIsGuest && quote.customerGroupId == NOT_LOGGED_IN_ID
  {
    var data := Normalised(post, env);
    assert HashValid(post, env) && HasPaymentType(post);
    NormalisedAt(post, env, CRITERION_GUEST);
    KeptAsPosted(post, env, CRITERION_GUEST);
    NormalisedAt(post, env, IDENTIFICATION_TRANSACTIONID);
    AfterGateSubmit(data, env, quote);
  }

  /** Once `$data` is normalised, the only quote submitted is the one built from it. */
  lemma {:induction false} AfterGateSubmit(data: Data, env: Env, quote: Quote)
    requires Lookup(data, IDENTIFICATION_TRANSACTIONID).Int?
    requires Submit(quote) in AfterGate(data, env)
    ensures quote == QuoteToSubmit(data, env)
  {
    var trace := AfterGate(data, env);
    if LooseEq(Lookup(data, PROCESSING_RESULT), "ACK") {
      var built := QuoteToSubmit(data, env);
      var opening := [LoadQuote(data[IDENTIFICATION_TRANSACTIONID].n), Submit(built)];
      match env.submit(built)
      case None =>
        assert trace == opening + [Fault];
      case Some(order) =>
        var final := data[ORDER_ID := Str(order.incrementId)];
        assert trace == opening + [MapStatus(PaymentHelper.MapStatus(final, order, Null)), SaveOrder(order)]
          + Closing(final, env);
    }
  }

  /** Past the gate an acknowledged payment never cancels the order, and leaves a finished order alone. */
  lemma {:induction false} AfterGateNeverCancels(data: Data, env: Env, t: PaymentHelper.Transition)
    requires Lookup(data, IDENTIFICATION_TRANSACTIONID).Int?
    requires MapStatus(t) in AfterGate(data, env)
    ensures !t.Cancelled?
    ensures forall order :: env.submit(QuoteToSubmit(data, env)) == Some(order) ==>
      (t == PaymentHelper.Unchanged <==> PaymentHelper.IsTerminal(order.status))
  {
    LooseEqLetterCode(Lookup(data, PROCESSING_RESULT), "ACK");
    var quote := QuoteToSubmit(data, env);
    if LooseEq(Lookup(data, PROCESSING_RESULT), "ACK") && env.submit(quote).Some? {
      var order := env.submit(quote).value;
      var final := data[ORDER_ID := Str(order.incrementId)];
      var trace := AfterGate(data, env);
      assert trace == [LoadQuote(data[IDENTIFICATION_TRANSACTIONID].n), Submit(quote),
        MapStatus(PaymentHelper.MapStatus(final, order, Null)), SaveOrder(order)] + Closing(final, env);
      assert t == PaymentHelper.MapStatus(final, order, Null);
      assert Lookup(final, PROCESSING_RESULT) == Str("ACK");
    }
  }

  /** An acknowledged notification never cancels the order, and leaves a finished order alone. */
  lemma {:induction false} AckNeverCancels(post: Post, env: Env)
    ensures forall t :: MapStatus(t) in Trace(post, env) ==>
      && !t.Cancelled?
      && forall order :: env.submit(QuoteToSubmit(Normalised(post, env), env)) == Some(order) ==>
           (t == PaymentHelper.Unchanged <==> PaymentHelper.IsTerminal(order.status))
  {
    forall t | MapStatus(t) in Trace(post, env)
      ensures !t.Cancelled?
      ensures forall order :: env.submit(QuoteToSubmit(Normalised(post, env), env)) == Some(order) ==>
        (t == PaymentHelper.Unchanged <==> PaymentHelper.IsTerminal(order.status))
    {
      assert HashValid(post, env);
      AfterGateNeverCancels(Normalised(post, env), env, t);
    }
  }

  // ---------------------------------------------------------------- the controller

  /** The first block of `Response::execute` past the gate: result, identifiers, status and return, with the three casts. */
  method SetProcessingFields(post: Post, env: Env, data: Data) returns (data': Data)
    ensures data' == data
      [PROCESSING_RESULT := NormalisedField(post, env, PROCESSING_RESULT)]
      [IDENTIFICATION_TRANSACTIONID := NormalisedField(post, env, IDENTIFICATION_TRANSACTIONID)]
      [PROCESSING_STATUS_CODE := NormalisedField(post, env, PROCESSING_STATUS_CODE)]
      [PROCESSING_RETURN := NormalisedField(post, env, PROCESSING_RETURN)]
      [PROCESSING_RETURN_CODE := NormalisedField(post, env, PROCESSING_RETURN_CODE)]
      [PAYMENT_CODE := NormalisedField(post, env, PAYMENT_CODE)]
      [IDENTIFICATION_UNIQUEID := NormalisedField(post, env, IDENTIFICATION_UNIQUEID)]
      [IDENTIFICATION_SHORTID := NormalisedField(post, env, IDENTIFICATION_SHORTID)]
      [IDENTIFICATION_SHOPPERID := NormalisedField(post, env, IDENTIFICATION_SHOPPERID)]
      [CRITERION_GUEST := NormalisedField(post, env, CRITERION_GUEST)]
  {
    LetterCodeNotNumeric("ACK");
    PostedLooseEq(post, PROCESSING_RESULT, "ACK");
    data' := data;
    data' := data'[PROCESSING_RESULT := if LooseEq(Posted(post, PROCESSING_RESULT), "ACK") then Str("ACK") else Str("NOK")];
    data' := data'[IDENTIFICATION_TRANSACTIONID := Int(CastInt(env, Posted(post, IDENTIFICATION_TRANSACTIONID)))];
    data' := data'[PROCESSING_STATUS_CODE := Int(CastInt(env, Posted(post, PROCESSING_STATUS_CODE)))];
    data' := data'[PROCESSING_RETURN := Posted(post, PROCESSING_RETURN)];
    data' := data'[PROCESSING_RETURN_CODE := Posted(post, PROCESSING_RETURN_CODE)];
    data' := data'[PAYMENT_CODE := Posted(post, PAYMENT_CODE)];
    data' := data'[IDENTIFICATION_UNIQUEID := Posted(post, IDENTIFICATION_UNIQUEID)];
    data' := data'[IDENTIFICATION_SHORTID := Posted(post, IDENTIFICATION_SHORTID)];
    data' := data'[IDENTIFICATION_SHOPPERID := Int(CastInt(env, Posted(post, IDENTIFICATION_SHOPPERID)))];
    data' := data'[CRITERION_GUEST := Posted(post, CRITERION_GUEST)];
  }

  /** The "information" block of `Response::execute`: mode, currency, amount and brand. */
  method SetInformationFields(post: Post, env: Env, data: Data) returns (data': Data)
    ensures data' == data
      [TRANSACTION_MODE := NormalisedField(post, env, TRANSACTION_MODE)]
      [PRESENTATION_CURRENCY := NormalisedField(post, env, PRESENTATION_CURRENCY)]
      [PRESENTATION_AMOUNT := NormalisedField(post, env, PRESENTATION_AMOUNT)]
      [ACCOUNT_BRAND := NormalisedField(post, env, ACCOUNT_BRAND)]
  {
    LetterCodeNotNumeric("LIVE");
    PostedLooseEq(post, TRANSACTION_MODE, "LIVE");
    data' := data;
    data' := data'[TRANSACTION_MODE := if LooseEq(Posted(post, TRANSACTION_MODE), "LIVE") then Str("LIVE") else Str("CONNECTOR_TEST")];
    data' := data'[PRESENTATION_CURRENCY := Posted(post, PRESENTATION_CURRENCY)];
    data' := data'[PRESENTATION_AMOUNT := Money(CastCents(env, Posted(post, PRESENTATION_AMOUNT)))];
    data' := data'[ACCOUNT_BRAND := Posted(post, ACCOUNT_BRAND)];
  }

  /**
   * The split of the stored payment code into method and type, then the source.
   * A code without a second piece raises on `$PaymentCode[1]`, and the request
   * ends there: `None`.
   */
  method SetPaymentFields(post: Post, env: Env, data: Data) returns (r: Option<Data>)
    requires PAYMENT_CODE in data && data[PAYMENT_CODE] == Posted(post, PAYMENT_CODE)
    ensures r.None? <==> !HasPaymentType(post)
    ensures r.Some? ==> r.value == data
      [PAYMENT_METHODE := NormalisedField(post, env, PAYMENT_METHODE)]
      [PAYMENT_TYPE := NormalisedField(post, env, PAYMENT_TYPE)]
      [SOURCE := NormalisedField(post, env, SOURCE)]
  {
    var paymentCode := PaymentHelper.SplitPaymentCode(AsText(data[PAYMENT_CODE]));
    PaymentHelper.SplitHasSecondPiece(AsText(data[PAYMENT_CODE]));
    var data' := data;
    data' := data'[PAYMENT_METHODE := Str(paymentCode[0])];
    if |paymentCode| < 2 {
      return None;
    }
    data' := data'[PAYMENT_TYPE := Str(paymentCode[1])];
    data' := data'[SOURCE := Str("RESPONSE")];
    return Some(data');
  }

  /** The prepayment account fields, added for a PP.PA code only. */
  method SetAccountFields(post: Post, env: Env, data: Data) returns (data': Data)
    requires PAYMENT_CODE in data && data[PAYMENT_CODE] == Posted(post, PAYMENT_CODE)
    ensures data' == if CarriesAccount(post) then data
      [CONNECTOR_ACCOUNT_HOLDER := NormalisedField(post, env, CONNECTOR_ACCOUNT_HOLDER)]
      [CONNECTOR_ACCOUNT_IBAN := NormalisedField(post, env, CONNECTOR_ACCOUNT_IBAN)]
      [CONNECTOR_ACCOUNT_BIC := NormalisedField(post, env, CONNECTOR_ACCOUNT_BIC)] else data
  {
    assert Decimal.ParseAmount("PP.PA").None? by {
      assert !Decimal.IsDigit("PP.PA"[0]);
      assert "PP.PA"[..2] == "PP" && !Decimal.IsDigit("PP"[0]);
    }
    PostedLooseEq(post, PAYMENT_CODE, "PP.PA");
    data' := data;
    if LooseEq(data[PAYMENT_CODE], "PP.PA") {
      data' := data'[CONNECTOR_ACCOUNT_HOLDER := Posted(post, CONNECTOR_ACCOUNT_HOLDER)];
      data' := data'[CONNECTOR_ACCOUNT_IBAN := Posted(post, CONNECTOR_ACCOUNT_IBAN)];
      data' := data'[CONNECTOR_ACCOUNT_BIC := Posted(post, CONNECTOR_ACCOUNT_BIC)];
    }
  }

  /**
   * The part of `Response::execute` that builds `$data` once the gate is passed,
   * block by block; `None` when it raises on a payment code without a type.
   */
  method NormaliseFields(post: Post, env: Env, gateData: Data) returns (normalised: Option<Data>)
    requires gateData == map[CRITERION_SECRET := Posted(post, CRITERION_SECRET),
                             IDENTIFICATION_TRANSACTIONID := Posted(post, IDENTIFICATION_TRANSACTIONID)]
    ensures normalised == if HasPaymentType(post) then Some(Normalised(post, env)) else None
  {
    var data := SetProcessingFields(post, env, gateData);
    data := SetInformationFields(post, env, data);
    var withPayment := SetPaymentFields(post, env, data);
    if withPayment.None? {
      return None;
    }
    data := SetAccountFields(post, env, withPayment.value);
    NormalisedInSourceOrder(post, env);
    return Some(data);
  }

  /** The `setData` calls on the transaction-log model. */
  method BuildLogRecord(data: Data) returns (record: map<Column, Value>)
    ensures record == LogFields(data)
  {
    record := map[];
    record := record[PaymentMethodeColumn := Lookup(data, PAYMENT_METHODE)];
    record := record[PaymentTypeColumn := Lookup(data, PAYMENT_TYPE)];
    record := record[TransactionIdColumn := Lookup(data, IDENTIFICATION_TRANSACTIONID)];
    record := record[UniqueIdColumn := Lookup(data, IDENTIFICATION_UNIQUEID)];
    record := record[ShortIdColumn := Lookup(data, IDENTIFICATION_SHORTID)];
    record := record[StatusCodeColumn := Lookup(data, PROCESSING_STATUS_CODE)];
    record := record[ResultColumn := Lookup(data, PROCESSING_RESULT)];
    record := record[ReturnColumn := Lookup(data, PROCESSING_RETURN)];
    record := record[ReturnCodeColumn := Lookup(data, PROCESSING_RETURN_CODE)];
    record := record[SourceColumn := Lookup(data, SOURCE)];
  }

  /** Everything after the normalisation: the order work on ACK, the redirect URL, the log record. */
  method Respond(data: Data, env: Env) returns (trace: seq<Effect>)
    requires Lookup(data, IDENTIFICATION_TRANSACTIONID).Int?
    ensures trace == AfterGate(data, env)
  {
    var payload := data;
    trace := [];
    if LooseEq(Lookup(payload, PROCESSING_RESULT), "ACK") {
      var quote := env.loadQuote(payload[IDENTIFICATION_TRANSACTIONID].n);
      trace := trace + [LoadQuote(payload[IDENTIFICATION_TRANSACTIONID].n)];
      if Lookup(payload, CRITERION_GUEST) == Str("true") {
        quote := AsGuest(quote);
      }
      var submitted := env.submit(quote);
      trace := trace + [Submit(quote)];
      if submitted.None? {
        // The exception from submit is caught, then the unset $order is dereferenced.
        trace := trace + [Fault];
        return;
      }
      var order := submitted.value;
      payload := payload[ORDER_ID := Str(order.incrementId)];
      trace := trace + [MapStatus(PaymentHelper.MapStatus(payload, order, Null))];
      trace := trace + [SaveOrder(order)];
    }
    trace := trace + [EmitRedirect(env.redirectUrl)];
    var record := BuildLogRecord(payload);
    trace := trace + [SaveLog(record, payload)];
  }

  /** `Response::execute()`. */
  method Execute(post: Post, env: Env) returns (trace: seq<Effect>)
    ensures trace == Trace(post, env)
    ensures !HashValid(post, env) ==> trace == [EmitRedirect(env.redirectUrl)]
  {
    var data: Data := map[];
    data := data[CRITERION_SECRET := Posted(post, CRITERION_SECRET)];
    data := data[IDENTIFICATION_TRANSACTIONID := Posted(post, IDENTIFICATION_TRANSACTIONID)];

    var referenceHash := env.hash(AsText(data[IDENTIFICATION_TRANSACTIONID]) + env.keys);
    if IsEmpty(data[IDENTIFICATION_TRANSACTIONID]) || IsEmpty(data[CRITERION_SECRET])
       || Str(referenceHash) != data[CRITERION_SECRET]
    {
      trace := [EmitRedirect(env.redirectUrl)];
      return;
    }

    var normalised := NormaliseFields(post, env, data);
    if normalised.None? {
      trace := [Fault];
      return;
    }
    trace := Respond(normalised.value, env);
  }
}

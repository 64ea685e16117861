# Heidelpay Magento 2 gateway: the payment-notification path

The Heidelpay payment server posts the outcome of every payment to the shop's
`hgw/index/response` endpoint. This project models the two files that handle that
post and proves properties of the model:

- `Controller/Index/Response.php`, the endpoint. It does the following, in order:
  - checks an integrity hash over the transaction id.
  - normalises the posted fields into the `$data` array. Result and mode fail closed, three fields are cast to integers, the amount is read as a number, and method and type come from splitting the payment code.
  - on an acknowledged payment only: loads the quote, turns it into an order and lets `mapStatus` move that order.
  - answers with the redirect URL and writes one transaction-log record.
- `Helper/Payment.php`, the helper the controller relies on: `splitPaymentCode`, the classifying predicates (`isProcessing`, `isPreAuthorization`, `isReceiptAble`, `isRefundable`, `isMatchingAmount`, `isMatchingCurrency`), `format`, and `mapStatus`. `mapStatus` leaves a finished order alone; for any other order it asks the payment method for exactly one of three transitions (cancel, processing, pending).

The code is split into modules:

| module | file | contents |
|---|---|---|
| `Wrappers` | `wrappers.dfy` | `Option` |
| `Decimal` | `decimal.dfy` | decimal text of integers and of amounts held as whole cents; `Format` is `number_format($n, 2, '.', '')`, and `ParseAmount` is PHP's reading of a numeric string in the spellings "[-]D" and "[-]D.DD", which reads `Format` and integer text back |
| `Fields` | `fields.dfy` | the `$data` array as `map<Key, Value>`, and the PHP semantics the code relies on: `isset`, `empty`, a missing key reading as `null`, loose `==` against a literal |
| `PaymentHelper` | `payment_helper.dfy` | the helper |
| `ResponseController` | `response_controller.dfy` | the endpoint |

The controller is an imperative method, `ResponseController.Execute`. Its input is the posted form (a map from field to text). It returns the trace of effects it performs, in order: `EmitRedirect`, `LoadQuote`, `Submit`, `MapStatus(transition)`, `SaveOrder`, `SaveLog(record, payload)` and `Fault`.

Everything outside the two files is a field of an `Env` value: the encryptor's hash and key material, PHP's `(int)` and `floatval` conversions, quote loading, cart submission and the redirect URL.

`Execute` fills `$data` field by field, in the source's order, one method per block of lines. Its `ensures` ties the trace to two spec functions:
- `Normalised` states the final value of every field of `$data` by a per-key rule.
- `Trace` states the whole effect sequence.

The lemmas about `Normalised` and `Trace` state what the controller promises.

What the code does, in the cases that are easy to misread:

- **Hash comparison:** the secret is compared with the reference hash by `!==` (Controller/Index/Response.php:46). The model makes no claim about timing.
- **Test mode:** a notification that is not live is stored as `CONNECTOR_TEST` (Controller/Index/Response.php:73).
- **Payment codes:** the code stores whatever `preg_split` yields (Controller/Index/Response.php:78-81):
  - `PAYMENT_TYPE` is the second piece of any dotted code, however many pieces there are.
  - A code without a dot, or no code at all, has no second piece. Reading `$PaymentCode[1]` is then an undefined offset, an E_NOTICE on PHP 7 and a warning on PHP 8. Magento's error handler turns it into an exception, and nothing in the controller catches it. The request ends there: no redirect URL, no log record. The model ends that trace with `Fault`.
- **Failed order creation:** the exception from `submit` is caught, and the unset `$order` is then dereferenced (Controller/Index/Response.php:109-114). That is a fatal error, so the request ends with no redirect URL and no log record. The model ends that trace with `Fault`. `submit` returning null, for a quote without visible items, ends the same way.
- **Missing transaction id or secret:** this is not a separate condition. Like a wrong hash, it only gets the redirect URL.
- **Repeated ACKs:** every ACK notification submits the quote again. The controller has no "first time only" check.

## Model

| member | source | states |
|---|---|---|
| Decimal.FormatRoundTrip | Helper/Payment.php:105-108 | reading back the two-decimal text of any amount in cents gives that amount |
| Decimal.UnsignedAmountRoundTrip | Helper/Payment.php:105-108 | the unsigned "D.DD" text, with or without a leading minus sign, reads back as its amount |
| Decimal.Format | Helper/Payment.php:105-108 | the text is digits, with a '.' third from the end and exactly two decimals after it, a leading '-' iff the amount is negative, and no leading zero before a units part of two or more digits |
| Decimal.FormatInjective | Helper/Payment.php:105-108 | two amounts with the same formatted text are equal |
| Decimal.IntStringRoundTrip | Helper/Payment.php:174 | the decimal text of any integer reads back as that integer, which is what lets an integer meet a numeric string under loose `==` |
| Decimal.ParseNatLeadingZero | Helper/Payment.php:155 | a leading zero does not change the value of a digit string |
| Decimal.LeadingZeroIgnored | Helper/Payment.php:155 | a leading zero does not change what a numeric string ("D" or "D.DD") reads as |
| Fields.LetterCodeNotNumeric | Helper/Payment.php:172-173 | a capital-letter code does not read as a number |
| Fields.LooseEqIntString | Helper/Payment.php:174 | an integer and its decimal text are loosely equal, with the text on either side |
| Fields.NumericStringsExample | Helper/Payment.php:155 | two numeric strings compare by value ("080" equals "80" and "0978" equals "978"), "080" and the integer 80 are loosely equal either way round, and "0ACK" does not equal "ACK" |
| Fields.LooseEqLetterCode | Helper/Payment.php:172-173 | under PHP 8's rule, loose `==` against a capital-letter code such as "ACK" or "DB" holds exactly for that string: no number, amount or `null` equals it |
| PaymentHelper.SplitPaymentCode | Helper/Payment.php:60-63 | a split always yields at least one piece |
| PaymentHelper.SplitPaymentCodeDotless | Helper/Payment.php:60-63 | no piece of a split code contains '.' |
| PaymentHelper.JoinSplitPaymentCode | Helper/Payment.php:60-63 | joining the pieces with '.' gives back the code |
| PaymentHelper.SplitJoin | Helper/Payment.php:60-63 | splitting the '.'-join of dotless pieces gives back exactly those pieces |
| PaymentHelper.SplitHasSecondPiece | Helper/Payment.php:60-63 | a split has a second piece iff the code contains '.' |
| PaymentHelper.SplitPaymentCodeExample | Helper/Payment.php:60-63 | "CC.DB" splits into ["CC", "DB"] |
| PaymentHelper.IsProcessing | Helper/Payment.php:166-175 | false when both result and status code are unset; otherwise true iff the type is one of CP, DB, FI, RC, the result is "ACK" and the status code is not loosely equal to 80 |
| PaymentHelper.IsProcessingExamples | Helper/Payment.php:166-175 | DB/ACK/20 is processing; DB/ACK/80, DB/NOK/20 and empty data are not |
| PaymentHelper.IsPreAuthorization | Helper/Payment.php:182-195 | false without a payment code; otherwise true iff the second piece of the code is "PA", a missing piece giving false |
| PaymentHelper.PreAuthorizationOfPieces | Helper/Payment.php:182-195 | for a code joined from dotless pieces: true iff there are at least two pieces and the second is "PA" |
| PaymentHelper.IsReceiptAble | Helper/Payment.php:205-228 | true iff the type is "RC" and the method is one of DD, PP, IV, OT, PC, MP, HP |
| PaymentHelper.IsRefundable | Helper/Payment.php:237-244 | true iff the type is one of DB, CP, RC |
| PaymentHelper.IsMatchingAmount | Helper/Payment.php:132-139 | true iff the presented amount is set and reads as exactly the order's grand total |
| PaymentHelper.IsMatchingCurrency | Helper/Payment.php:149-156 | false when the currency is unset; for a currency code that does not read as a number, true iff exactly that string was presented; for a numeric code, true iff the presented value reads as the same number |
| PaymentHelper.IsMatchingCurrencyExamples | Helper/Payment.php:149-156 | "EUR" matches "EUR" but not "eur"; the numeric code "978" matches "0978" |
| PaymentHelper.IsTerminal | Helper/Payment.php:80-83 | true iff the order status is canceled, closed or complete |
| PaymentHelper.TransitionMessage | Helper/Payment.php:74 | the message given is used when it is non-empty; an empty or omitted message gives `PROCESSING_RETURN` |
| PaymentHelper.MapStatus | Helper/Payment.php:70-96 | no transition iff the order is canceled, closed or complete; otherwise exactly one: cancel iff the result is "NOK", processing iff it is not and `isProcessing` holds for the code's type, pending otherwise; processing and pending get `$data`; cancel and pending get the message, which is `PROCESSING_RETURN` when none was given |
| PaymentHelper.MapStatusOnAck | Helper/Payment.php:89-95 | for an ACK on an open order the transition is processing or pending, and processing iff the type is CP, DB, FI or RC and the status code is not 80 |
| ResponseController.PostedLooseEq | Controller/Index/Response.php:58 | a posted field is loosely equal to a non-empty literal that does not read as a number iff exactly that literal was posted |
| ResponseController.SourceOrder | Controller/Index/Response.php:38-89 | setting the fields one after another in the controller's order, with the transaction id first stored as posted and then overwritten, gives the map that holds each field's final value and only those keys |
| ResponseController.ReferenceHash | Controller/Index/Response.php:45 | the hash of the posted transaction id followed by the key material; of the key material alone when no id was posted |
| ResponseController.HashValid | Controller/Index/Response.php:46 | the gate passes iff a transaction id and a secret were posted, neither is "" or "0", and the secret is exactly the hash of the id followed by the key material |
| ResponseController.NormalisedAt | Controller/Index/Response.php:58-82 | every field `$data` holds for all notifications holds the value of its rule |
| ResponseController.KeptAsPosted | Controller/Index/Response.php:38-87 | the secret, return, return code, payment code, unique id, short id, guest flag, currency, brand and the three account fields are kept exactly as posted |
| ResponseController.NormalisedInSourceOrder | Controller/Index/Response.php:38-89 | the same, for the normalisation rules: the field-by-field assignments give `Normalised` |
| ResponseController.NormalisedFailsClosed | Controller/Index/Response.php:58-73 | result is "ACK" iff "ACK" was posted and "NOK" otherwise; mode is "LIVE" iff "LIVE" was posted and "CONNECTOR_TEST" otherwise |
| ResponseController.NormalisedPaymentCode | Controller/Index/Response.php:78-82 | a code posted as `m.t` (dotless m, t) gives method m and type t |
| ResponseController.NormalisedPieces | Controller/Index/Response.php:78-82 | for any posted code: the pieces join back to the code, the method is the first piece, there is a second piece iff the code has a '.', and then the type is that piece |
| ResponseController.MapStatusReadsDefined | Helper/Payment.php:72-91 | for a typed code, every field `mapStatus` reads of the controller's `$data` is present (it may hold `null`), and the code has the second piece it reads |
| ResponseController.SetProcessingFields | Controller/Index/Response.php:58-67 | the new `$data` is the old one with result, transaction id, status code, return, return code, payment code, unique id, short id, shopper id and guest flag set by their rules |
| ResponseController.SetInformationFields | Controller/Index/Response.php:73-76 | the new `$data` has mode, currency, amount and brand set by their rules |
| ResponseController.SetPaymentFields | Controller/Index/Response.php:78-82 | given the stored payment code: it raises (`None`) iff the code has no second piece; otherwise the new `$data` has method, type and source set by their rules |
| ResponseController.SetAccountFields | Controller/Index/Response.php:84-89 | the three account fields are added iff the payment code is "PP.PA"; otherwise `$data` is unchanged |
| ResponseController.NormaliseFields | Controller/Index/Response.php:58-89 | starting from the gate's two fields: it raises iff the code has no second piece; otherwise the built `$data` is exactly `Normalised`, with these keys (the account keys iff the code is "PP.PA") and these values |
| ResponseController.LogFields | Controller/Index/Response.php:136-146 | the record has exactly the ten logged columns, each holding its field of `$data` (`null` when unset) |
| ResponseController.AsGuest | Controller/Index/Response.php:102-107 | the guest quote has no customer id, the guest flag, group NOT_LOGGED_IN, and the billing e-mail as customer e-mail |
| ResponseController.QuoteToSubmit | Controller/Index/Response.php:99-107 | the quote loaded by the cast transaction id; iff the guest flag is exactly "true", a guest quote (no customer id, guest flag, group NOT_LOGGED_IN, billing e-mail as customer e-mail, billing e-mail unchanged), and otherwise the loaded quote unchanged |
| ResponseController.BuildLogRecord | Controller/Index/Response.php:136-146 | the record holds the ten logged columns, each copied from its field of `$data` |
| ResponseController.Respond | Controller/Index/Response.php:96-150 | the effects after normalisation are `AfterGate`: on ACK, load, submit, then either a fault or mapStatus, order save, redirect and log; without ACK, redirect and log |
| ResponseController.Execute | Controller/Index/Response.php:33-157 | the trace is `Trace` of the post; a post failing the gate yields only the redirect |
| ResponseController.UntypedCodeFaults | Controller/Index/Response.php:78-81 | past the gate, a payment code with no second piece ends the request in a fault, with no redirect URL, no order work and no log record |
| ResponseController.InvalidHashOnlyRedirects | Controller/Index/Response.php:45-55 | with an empty transaction id, an empty secret or a wrong hash, the only effect is the redirect: no quote or order effect and no log record |
| ResponseController.OrderWorkOnlyOnAck | Controller/Index/Response.php:78-123 | some effect touches the quote or the order iff the gate passes, the payment code has a second piece, and "ACK" was posted |
| ResponseController.EffectOrder | Controller/Index/Response.php:78-150 | past the gate, the order effects come first; the trace then ends in a fault iff the payment code has no type or "ACK" was posted and submit failed, and otherwise with the redirect and the log record as its last two effects |
| ResponseController.LogWrittenPastGate | Controller/Index/Response.php:125-150 | past the gate, a log record is written iff the payment code has a type and not ("ACK" was posted and submit failed), and never more than one |
| ResponseController.EndingLogs | Controller/Index/Response.php:132-150 | a trace ended by a fault holds no log record; one ended by the redirect and the log holds exactly one |
| ResponseController.AfterGateEffectOrder | Controller/Index/Response.php:96-150 | the same for any normalised `$data`: a fault ends the trace iff the result is ACK and submit failed, and otherwise the redirect and the log record do |
| ResponseController.AfterGateSubmit | Controller/Index/Response.php:99-109 | the only quote submitted is `QuoteToSubmit` of `$data` |
| ResponseController.SubmittedQuote | Controller/Index/Response.php:99-109 | the submitted quote is the one loaded by the cast transaction id, made a guest quote (no customer id, guest flag, group NOT_LOGGED_IN) iff the guest flag was posted as exactly "true" |
| ResponseController.AfterGateLog | Controller/Index/Response.php:134-147 | the logged payload is `$data`, or `$data` with the order id once an order exists, and the record is that payload's log fields |
| ResponseController.LogFieldsIgnoreOrderId | Controller/Index/Response.php:136-146 | setting the order id does not change the logged columns |
| ResponseController.LogRecordCopiesData | Controller/Index/Response.php:134-147 | every logged column equals its field of the normalised `$data`; the payload is that `$data` or that `$data` plus the order id |
| ResponseController.AfterGateNeverCancels | Controller/Index/Response.php:114-120 | the transition chosen after an ACK is never a cancel, and it is "no transition" iff the submitted order is finished |
| ResponseController.AckNeverCancels | Controller/Index/Response.php:114-120 | the same for whole notifications: a transition in the trace is never a cancel, and none happens iff the order is finished |

## Left out

- The hash function, the key material and the timing of the comparison: `getHash` and `exportKeys` are the opaque `Env.hash` and `Env.keys`.
- Floating point in amounts: `floatval` is the opaque `Env.toCents`, amounts are whole cents, and `number_format` of cents is exact. IEEE rounding is not modelled.
- PHP's `(int)` cast of a string is the opaque `Env.toInt` (Controller/Index/Response.php:59-60, 66).
- Fields.LooseEq: a numeric string is one of the spellings "[-]D" and "[-]D.DD", leading zeros allowed. PHP's other numeric spellings, such as "20.0", ".5", "+5", " 20" or "2e1", count as non-numeric in the model, so two of them are compared as text. No outcome on the notification path changes: every literal compared there ("ACK", "NOK", "LIVE", "PP.PA", the type codes) is non-numeric, and the amount check compares with `Format`'s "D.DD".
- Fields.LooseEq: follows PHP 8, where a non-numeric string is never equal to a number. Magento 2.3 runs on PHP 7.1-7.4, where `0 == "ACK"` is true. No outcome changes on the notification path: every value compared there with a letter code (the posted result and mode at Controller/Index/Response.php:58 and 73, the stored result and payment code at :84 and :96, the result and payment type inside `mapStatus`) is a string or `null`, never a number.
- Fields.AsText: a float amount as text, as `preg_split` would see it, is taken as its two-decimal `Format`.
- ResponseController.PostedLooseEq: stated for literals that do not read as numbers, the only kind the controller compares posted fields with ("ACK", "LIVE", "PP.PA"). A numeric literal is matched by any posted text that reads as the same number, as `Fields.NumericStringsExample` shows.
- PaymentHelper.SplitPaymentCode: its own contract only bounds the number of pieces; what the pieces are is stated by the lemmas beside it.
- PaymentHelper.MapStatus: a missing `PAYMENT_CODE`, `PROCESSING_RETURN` or `PROCESSING_RESULT`, or a code without a second piece, reads as `null` (Helper/Payment.php:72, 74, 89, 91). Magento's error handler would raise on those reads. A raising result would need a third outcome for inputs the notification path never passes: `ResponseController.MapStatusReadsDefined` shows that every field the controller's call reads is present.
- PaymentHelper.IsProcessing: when only one of result and status code is set, the other reads as `null` (Helper/Payment.php:173-174), where Magento's handler would raise. The same reason applies: the controller always sets both.
- PaymentHelper.IsPreAuthorization: a code without a second piece compares `null` with "PA" and gives false (Helper/Payment.php:190), where Magento's handler would raise. It is not called on the notification path.
- `handleError` and its message-code mapper, `saveTransaction`, the helper's constructor, the HTTP client and the transaction factories: foreign library calls and I/O.
- The `$quoteID` computed in `mapStatus` (Helper/Payment.php:76-78) is never used there, so it is left out.
- The internals of the three transition handlers and of cart submission: they are opaque. A transition is the `Transition` value passed to the `MapStatus` effect, and a failed `submit` is `None`.
- Order and quote persistence: `SaveOrder` records the save, and quote loading is a total function of the id.
- An exception from `mapStatus` or `$order->save()` (Controller/Index/Response.php:117-121) would end the request before the redirect and the log; the model treats both as succeeding.
- A failure saving the log record is caught and nothing follows it (Controller/Index/Response.php:147-150), so `SaveLog` is always the last effect.
- All logging (`critical`, `addDebug`, `error`) and the client address sent to it, the `getUrl` construction (a constant URL), `json_encode` (the payload is the `$data` map itself) and object-manager creation.
- Concurrency: two notifications for the same order are not modelled; nothing in these files locks.

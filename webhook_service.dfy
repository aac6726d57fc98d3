/**
 * The webhook service (services/webhookService.js): three handlers of one
 * shape. Each logs the payload, throws when its id field or its event field
 * is falsy, logs a warning for an event it does not know, and otherwise
 * answers `true`. Logging is modelled as the list of entries written.
 */
module WebhookService {
  import opened JsValues
  import opened Http

  /** The three webhook families. */
  datatype Kind = WalletHook | TransactionHook | PaymentHook

  /** A log entry: the payload, an unknown event value, or the error that was rethrown. */
  datatype LogEntry =
    | Info(message: string, data: Object)
    | Warn(message: string, value: Value)
    | Error(message: string, error: string, data: Object)

  /** What a handler does: its result (or the error it throws) and the entries it logs, in order. */
  datatype Handled = Handled(result: Attempt<bool>, logs: seq<LogEntry>)

  function Family(kind: Kind): string {
    match kind
    case WalletHook => "wallet"
    case TransactionHook => "transaction"
    case PaymentHook => "payment"
  }

  /** The field that must name the record. */
  function IdKey(kind: Kind): string {
    match kind
    case WalletHook => "wallet_id"
    case TransactionHook => "transaction_id"
    case PaymentHook => "payment_id"
  }

  /** The field the handler switches on. */
  function EventKey(kind: Kind): string {
    if kind == WalletHook then "event_type" else "status"
  }

  /** The `case` labels of each handler's `switch`. */
  function KnownEvents(kind: Kind): set<string> {
    match kind
    case WalletHook => {"balance_updated", "address_added", "transaction_created"}
    case TransactionHook => {"confirmed", "failed", "reverted"}
    case PaymentHook => {"completed", "cancelled", "refunded"}
  }

  /** The warning written by the `default` branch. */
  function UnknownMessage(kind: Kind): string {
    match kind
    case WalletHook => "Unknown wallet event type: "
    case TransactionHook => "Unknown transaction status: "
    case PaymentHook => "Unknown payment status: "
  }

  /** The message of the error thrown for a payload that lacks a required field. */
  function InvalidMessage(kind: Kind): string {
    match kind
    case WalletHook => "Invalid wallet webhook data"
    case TransactionHook => "Invalid transaction webhook data"
    case PaymentHook => "Invalid payment webhook data"
  }

  /** The `switch` matches with `===`: only a string equal to a `case` label is known. */
  predicate Known(kind: Kind, event: Value) {
    event.Str? && event.s in KnownEvents(kind)
  }

  /** A payload carries a truthy id field and a truthy event field. */
  predicate WellFormed(kind: Kind, data: Object) {
    Truthy(Get(data, IdKey(kind))) && Truthy(Get(data, EventKey(kind)))
  }

  /** One handler, run on one payload. */
  function Handle(kind: Kind, data: Object): (h: Handled)
    ensures |h.logs| >= 1 && h.logs[0] == Info("Processing " + Family(kind) + " webhook", data)
    ensures h.result.Threw? <==> !WellFormed(kind, data)
    ensures h.result.Threw? ==>
      && h.result.error == InvalidMessage(kind)
      && h.logs == [h.logs[0], Error("Error processing " + Family(kind) + " webhook", h.result.error, data)]
    ensures h.result.Returned? ==> h.result.value
    ensures h.result.Returned? ==>
      h.logs[1..] == (if Known(kind, Get(data, EventKey(kind))) then [] else [Warn(UnknownMessage(kind), Get(data, EventKey(kind)))])
  {
    var received := [Info("Processing " + Family(kind) + " webhook", data)];
    if !WellFormed(kind, data) then
      var error := InvalidMessage(kind);
      Handled(Threw(error), received + [Error("Error processing " + Family(kind) + " webhook", error, data)])
    else
      var event := Get(data, EventKey(kind));
      var warnings := if Known(kind, event) then [] else [Warn(UnknownMessage(kind), event)];
      Handled(Returned(true), received + warnings)
  }

  /** `handleWalletWebhook`. */
  function HandleWalletWebhook(data: Object): (h: Handled)
    ensures h.result.Threw? <==> !Truthy(Get(data, "wallet_id")) || !Truthy(Get(data, "event_type"))
    ensures h.result.Threw? ==> h.result.error == "Invalid wallet webhook data"
  {
    Handle(WalletHook, data)
  }

  /** `handleTransactionWebhook`. */
  function HandleTransactionWebhook(data: Object): (h: Handled)
    ensures h.result.Threw? <==> !Truthy(Get(data, "transaction_id")) || !Truthy(Get(data, "status"))
    ensures h.result.Threw? ==> h.result.error == "Invalid transaction webhook data"
  {
    Handle(TransactionHook, data)
  }

  /** `handlePaymentWebhook`. */
  function HandlePaymentWebhook(data: Object): (h: Handled)
    ensures h.result.Threw? <==> !Truthy(Get(data, "payment_id")) || !Truthy(Get(data, "status"))
    ensures h.result.Threw? ==> h.result.error == "Invalid payment webhook data"
  {
    Handle(PaymentHook, data)
  }

  /**
   * Which event arrives never changes the answer, only the log: two
   * well-formed payloads get the same result, and a warning is written
   * exactly for the one whose event is unknown.
   */
  lemma EventOnlyAffectsLog(kind: Kind, data: Object, event: Value)
    requires WellFormed(kind, data) && Truthy(event)
    ensures var h := Handle(kind, data[EventKey(kind) := event]);
      && h.result == Handle(kind, data).result == Returned(true)
      && (|h.logs| == 2 <==> !Known(kind, event))
  {
    var d := data[EventKey(kind) := event];
    assert Get(d, EventKey(kind)) == event;
    assert IdKey(kind) != EventKey(kind);
    assert Get(d, IdKey(kind)) == Get(data, IdKey(kind));
  }
}

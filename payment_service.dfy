/**
 * The payment service (services/paymentService.js): creating a payment after
 * checking its wallet and token, and building the filter for listing
 * payments. Records are JS objects (`Object`), so the input's own keys,
 * including an `id`, pass into the stored record exactly as the object
 * spread passes them.
 */
module PaymentService {
  import opened Wrappers
  import opened JsValues
  import opened Encoding
  import opened Store
  import IdGenerator

  const WalletRejected := "Invalid wallet ID or wallet does not belong to user"
  const TokenRejected := "Invalid crypto token ID"

  /** `Wallet.findById(paymentData.wallet_id)`: a row only for a string id the table holds. */
  function FindWallet(wallets: map<string, Wallet>, id: Value): (w: Option<Wallet>)
    ensures w.Some? <==> id.Str? && id.s in wallets
    ensures w.Some? ==> w.value == wallets[id.s]
  {
    if id.Str? && id.s in wallets then Some(wallets[id.s]) else None
  }

  /** The payment's wallet exists and belongs to the caller (`wallet.user_id === userId`). */
  predicate OwnWallet(wallets: map<string, Wallet>, paymentData: Object, userId: Value) {
    var wallet := FindWallet(wallets, Get(paymentData, "wallet_id"));
    wallet.Some? && StrictEq(wallet.value.userId, userId)
  }

  /** The guards of `createPayment`, in their order: the caller's own wallet, then an existing token. */
  function CreationError(wallets: map<string, Wallet>, tokens: map<string, CryptoToken>, paymentData: Object, userId: Value): (e: Option<string>)
    ensures e.None? <==>
      && OwnWallet(wallets, paymentData, userId)
      && Get(paymentData, "crypto_token_id").Str? && Get(paymentData, "crypto_token_id").s in tokens
    ensures OwnWallet(wallets, paymentData, userId) ==> e.None? || e == Some(TokenRejected)
    ensures !OwnWallet(wallets, paymentData, userId) ==> e == Some(WalletRejected)
  {
    var wallet := FindWallet(wallets, Get(paymentData, "wallet_id"));
    if wallet.None? || !StrictEq(wallet.value.userId, userId) then Some(WalletRejected)
    else
      var tokenId := Get(paymentData, "crypto_token_id");
      if !(tokenId.Str? && tokenId.s in tokens) then Some(TokenRejected)
      else None
  }

  /**
   * A caller without a user id passes the ownership check only for a wallet
   * that has no `user_id` either, since `undefined === undefined`.
   */
  lemma MissingCallerOwnsOnlyOwnerless(wallets: map<string, Wallet>, paymentData: Object)
    ensures OwnWallet(wallets, paymentData, Undefined) <==>
      && FindWallet(wallets, Get(paymentData, "wallet_id")).Some?
      && FindWallet(wallets, Get(paymentData, "wallet_id")).value.userId == Undefined
  {
  }

  /** The record `createPayment` stores: `{id, ...paymentData, status: 'pending', created_at: now, updated_at: now}`. */
  function PaymentRecord(paymentId: string, paymentData: Object, now: int): (p: Object)
    ensures p.Keys == paymentData.Keys + {"id", "status", "created_at", "updated_at"}
    ensures p["status"] == Str("pending")
    ensures p["created_at"] == Date(now) && p["updated_at"] == Date(now)
    ensures p["id"] == (if "id" in paymentData then paymentData["id"] else Str(paymentId))
    ensures forall k :: k in paymentData && k !in {"status", "created_at", "updated_at"} ==> p[k] == paymentData[k]
  {
    map["id" := Str(paymentId)] + paymentData
      + map["status" := Str("pending"), "created_at" := Date(now), "updated_at" := Date(now)]
  }

  /** Unless the input names its own id, a created payment's id is a fresh `pay_` id. */
  lemma CreatedIdHasPrefix(paymentData: Object, now: int, idNow: nat, idRandom: seq<byte>)
    requires |idRandom| == 9 && "id" !in paymentData
    ensures var p := PaymentRecord(IdGenerator.GenerateId("pay", idNow, idRandom), paymentData, now);
      IdGenerator.ValidateId(p["id"], "pay")
  {
  }

  /** A status in the input never survives: it is always replaced by `pending`. */
  lemma StatusAlwaysPending(paymentId: string, paymentData: Object, now: int, status: Value)
    ensures PaymentRecord(paymentId, paymentData["status" := status], now)["status"] == Str("pending")
    ensures PaymentRecord(paymentId, paymentData["status" := status], now) == PaymentRecord(paymentId, paymentData, now)
  {
  }

  /**
   * `createPayment`: on any failure nothing is stored and the error is
   * rethrown as "Error creating payment: …". `idNow` and `idRandom` feed
   * `generateId('pay')`; `now` is the separate `new Date()`. The three store
   * calls may throw, each at its own point: `walletFault` is
   * `Wallet.findById` (the first call), `tokenFault` is `CryptoToken.findById`
   * (after the ownership check) and `createFault` is `Payment.create` (after
   * both checks).
   */
  method CreatePayment(
    db: Database,
    paymentData: Object,
    userId: Value,
    idNow: nat,
    idRandom: seq<byte>,
    now: int,
    walletFault: Option<string>,
    tokenFault: Option<string>,
    createFault: Option<string>) returns (r: Result<Object>)
    requires db.Valid() && |idRandom| == 9
    modifies db
    ensures db.Valid()
    ensures db.wallets == old(db.wallets) && db.tokens == old(db.tokens)
    ensures r.Err? <==> db.payments == old(db.payments)
    ensures walletFault.Some? ==> r == Err("Error creating payment: " + walletFault.value)
    ensures walletFault.None? && !OwnWallet(db.wallets, paymentData, userId) ==>
      r == Err("Error creating payment: " + WalletRejected)
    ensures walletFault.None? && OwnWallet(db.wallets, paymentData, userId) && tokenFault.Some? ==>
      r == Err("Error creating payment: " + tokenFault.value)
    ensures walletFault.None? && tokenFault.None? ==>
      var e := CreationError(db.wallets, db.tokens, paymentData, userId);
      && (e.Some? ==> r == Err("Error creating payment: " + e.value))
      && (e.None? && createFault.Some? ==> r == Err("Error creating payment: " + createFault.value))
      && (e.None? && createFault.None? ==>
            && r == Ok(PaymentRecord(IdGenerator.GenerateId("pay", idNow, idRandom), paymentData, now))
            && db.payments == old(db.payments) + [r.value])
  {
    if walletFault.Some? {
      return Err("Error creating payment: " + walletFault.value);
    }
    var wallet := FindWallet(db.wallets, Get(paymentData, "wallet_id"));
    if wallet.None? || !StrictEq(wallet.value.userId, userId) {
      return Err("Error creating payment: " + WalletRejected);
    }
    if tokenFault.Some? {
      return Err("Error creating payment: " + tokenFault.value);
    }
    var tokenId := Get(paymentData, "crypto_token_id");
    if !(tokenId.Str? && tokenId.s in db.tokens) {
      return Err("Error creating payment: " + TokenRejected);
    }
    assert CreationError(db.wallets, db.tokens, paymentData, userId).None?;
    var paymentId := IdGenerator.GenerateId("pay", idNow, idRandom);
    if createFault.Some? {
      return Err("Error creating payment: " + createFault.value);
    }
    var payment := PaymentRecord(paymentId, paymentData, now);
    db.payments := db.payments + [payment];
    r := Ok(payment);
  }

  /** `listPayments`' filter: `status` and `wallet_id`, each only when truthy; every other key is dropped. */
  function PaymentFilters(filters: Object): (f: Object)
    ensures f.Keys <= {"status", "wallet_id"}
    ensures "status" in f <==> Truthy(Get(filters, "status"))
    ensures "wallet_id" in f <==> Truthy(Get(filters, "wallet_id"))
    ensures forall k :: k in f ==> f[k] == filters[k]
  {
    var paymentFilters: Object := map[];
    var paymentFilters := if Truthy(Get(filters, "status")) then paymentFilters["status" := filters["status"]] else paymentFilters;
    if Truthy(Get(filters, "wallet_id")) then paymentFilters["wallet_id" := filters["wallet_id"]] else paymentFilters
  }

  /** Building the filter from its own output changes nothing. */
  lemma PaymentFiltersIdempotent(filters: Object)
    ensures PaymentFilters(PaymentFilters(filters)) == PaymentFilters(filters)
  {
  }

  /** The object the payment controller passes for `?status=…&walletId=…`, as written. */
  function ControllerFilters(status: Value, walletId: Value): Object {
    map["status" := status, "walletId" := walletId]
  }

  /** As written, a wallet filter in the query never reaches the service's filter. */
  lemma WalletFilterDropped(status: Value, walletId: Value)
    ensures "wallet_id" !in PaymentFilters(ControllerFilters(status, walletId))
    ensures PaymentFilters(ControllerFilters(status, walletId)) == PaymentFilters(map["status" := status])
  {
    var f := ControllerFilters(status, walletId);
    assert Get(f, "wallet_id") == Undefined;
    assert Get(map["status" := status], "wallet_id") == Undefined;
  }

  /** The controller's filter under the key the service reads. */
  function IntendedControllerFilters(status: Value, walletId: Value): Object {
    map["status" := status, "wallet_id" := walletId]
  }

  /** With the service's key, a given wallet id is forwarded, and only a given one. */
  lemma WalletFilterForwarded(status: Value, walletId: Value)
    ensures var f := PaymentFilters(IntendedControllerFilters(status, walletId));
      && ("wallet_id" in f <==> Truthy(walletId))
      && (Truthy(walletId) ==> f["wallet_id"] == walletId)
      && ("status" in f <==> Truthy(status))
  {
    var g := IntendedControllerFilters(status, walletId);
    assert Get(g, "wallet_id") == walletId && Get(g, "status") == status;
  }
}

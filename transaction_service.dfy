/**
 * The transaction service (services/transactionService.js) and the
 * Transaction schema it builds on (models/Transaction.js). The service is a
 * skeleton: nothing is stored, and every operation returns a fresh object
 * built from its arguments, a fixed sample and the clock. Objects are maps
 * from key to `Value`; an object spread is a right-biased map union. Each
 * `new Date()` is a separate clock reading, passed as a parameter.
 */
module TransactionService {
  import opened Wrappers
  import opened JsValues
  import opened JsStrings
  import opened Encoding
  import IdGenerator

  /** The keys the Transaction schema keeps. */
  const SchemaKeys: set<string> := {
    "id", "from_wallet", "to_wallet", "amount", "currency", "status", "fee", "tx_hash",
    "block_number", "confirmations", "type", "metadata", "created_at", "updated_at"
  }

  /** The schema's keys a caller's input supplies unchanged. */
  const InputKeys: set<string> := {"from_wallet", "to_wallet", "amount", "currency", "tx_hash", "block_number"}

  /** The schema's keys that are copied without a default. */
  const CopiedKeys: set<string> := {
    "id", "from_wallet", "to_wallet", "amount", "currency", "tx_hash", "block_number", "created_at", "updated_at"
  }

  /** The schema's default for a key whose given value is falsy, if it has one. */
  function Default(key: string): Option<Value> {
    match key
    case "status" => Some(Str("pending"))
    case "fee" => Some(Num(0.0))
    case "confirmations" => Some(Num(0.0))
    case "type" => Some(Str("transfer"))
    case "metadata" => Some(Obj(map[]))
    case _ => None
  }

  /** One schema field, read from `data` with its default. */
  function Field(data: Object, key: string): Value {
    if Default(key).Some? then Or(Get(data, key), Default(key).value) else Get(data, key)
  }

  /** `new Transaction(data)`: the schema's keys only, with defaults for a falsy status, fee, confirmations, type and metadata. */
  function Transaction(data: Object): (t: Object)
    ensures t.Keys == SchemaKeys
    ensures t["status"] == Or(Get(data, "status"), Str("pending"))
    ensures t["type"] == Or(Get(data, "type"), Str("transfer"))
    ensures t["metadata"] == Or(Get(data, "metadata"), Obj(map[]))
    ensures t["fee"] == Or(Get(data, "fee"), Num(0.0))
    ensures t["confirmations"] == Or(Get(data, "confirmations"), Num(0.0))
    ensures forall k :: k in CopiedKeys ==> t[k] == Get(data, k)
  {
    map k | k in SchemaKeys :: Field(data, k)
  }

  /** The defaulted fields of a built transaction are always truthy, and building twice changes nothing. */
  lemma TransactionDefaults(data: Object)
    ensures var t := Transaction(data);
      && Truthy(t["status"]) && Truthy(t["fee"]) == Truthy(Get(data, "fee"))
      && Truthy(t["type"]) && Truthy(t["metadata"])
      && Transaction(t) == t
  {
    var t := Transaction(data);
    forall k | k in SchemaKeys
      ensures Transaction(t)[k] == t[k]
    {
      assert Get(t, k) == t[k];
    }
    OrDefault(Get(data, "status"), Str("pending"));
    OrDefault(Get(data, "type"), Str("transfer"));
    OrDefault(Get(data, "metadata"), Obj(map[]));
  }

  /**
   * `createTransaction`: `new Transaction({id: generateId('tx'), ...transactionData,
   * status: 'pending', created_at, updated_at})`.
   */
  function CreateTransaction(transactionData: Object, idNow: nat, idRandom: seq<byte>, createdAt: int, updatedAt: int): (t: Object)
    requires |idRandom| == 9
    ensures t.Keys == SchemaKeys
    ensures t["status"] == Str("pending")
  {
    var generated := Str(IdGenerator.GenerateId("tx", idNow, idRandom));
    CreationDataFields(transactionData, generated, createdAt, updatedAt);
    Transaction(CreationData(transactionData, generated, createdAt, updatedAt))
  }

  /**
   * A created transaction is pending with the two clock readings as its
   * timestamps, keeps the input's schema fields, drops every other key, and
   * has a fresh `tx_` id unless the input carries an `id` key of its own.
   */
  lemma CreatedTransaction(transactionData: Object, idNow: nat, idRandom: seq<byte>, createdAt: int, updatedAt: int)
    requires |idRandom| == 9
    ensures var t := CreateTransaction(transactionData, idNow, idRandom, createdAt, updatedAt);
      && t.Keys == SchemaKeys
      && t["status"] == Str("pending")
      && t["created_at"] == Date(createdAt) && t["updated_at"] == Date(updatedAt)
      && (forall k :: k in InputKeys ==> t[k] == Get(transactionData, k))
      && ("id" in transactionData ==> t["id"] == transactionData["id"])
      && ("id" !in transactionData ==> IdGenerator.ValidateId(t["id"], "tx"))
  {
    var generated := Str(IdGenerator.GenerateId("tx", idNow, idRandom));
    var data := CreationData(transactionData, generated, createdAt, updatedAt);
    CreationDataFields(transactionData, generated, createdAt, updatedAt);
    var t := Transaction(data);
    assert t == CreateTransaction(transactionData, idNow, idRandom, createdAt, updatedAt);
    assert forall k :: k in InputKeys ==> k in CopiedKeys;
    if "id" !in transactionData {
      IdGenerator.GeneratedIdValidates("tx", idNow, idRandom);
    }
  }

  /** The object `createTransaction` hands to the schema. */
  function CreationData(transactionData: Object, generated: Value, createdAt: int, updatedAt: int): Object {
    map["id" := generated] + transactionData
      + map["status" := Str("pending"), "created_at" := Date(createdAt), "updated_at" := Date(updatedAt)]
  }

  lemma CreationDataFields(transactionData: Object, generated: Value, createdAt: int, updatedAt: int)
    ensures var data := CreationData(transactionData, generated, createdAt, updatedAt);
      && Get(data, "status") == Str("pending")
      && Get(data, "created_at") == Date(createdAt) && Get(data, "updated_at") == Date(updatedAt)
      && Get(data, "id") == (if "id" in transactionData then transactionData["id"] else generated)
      && forall k :: k in InputKeys ==> Get(data, k) == Get(transactionData, k)
  {
    var stamps := map["status" := Str("pending"), "created_at" := Date(createdAt), "updated_at" := Date(updatedAt)];
    forall k | k in InputKeys
      ensures Get(CreationData(transactionData, generated, createdAt, updatedAt), k) == Get(transactionData, k)
    {
      assert k !in stamps && k != "id";
      SpreadGet(map["id" := generated], transactionData, k);
    }
    SpreadGet(map["id" := generated], transactionData, "id");
  }

  /** Reading a key from a spread `{...a, ...b}`. */
  lemma SpreadGet(a: Object, b: Object, k: string)
    ensures Get(a + b, k) == if k in b then b[k] else Get(a, k)
  {
  }

  /** The sample transaction the skeleton answers with. */
  function Sample(id: string): (s: Object)
    ensures "id" in s && s["id"] == Str(id)
  {
    map[
      "id" := Str(id),
      "from_wallet" := Str("wallet_1"),
      "to_wallet" := Str("wallet_2"),
      "amount" := Num(5.25),
      "currency" := Str("ETH")]
  }

  /** `getTransactionById`: the completed sample for a `tx_` id, null for any other. */
  function GetTransactionById(id: string, createdAt: int, updatedAt: int): (t: Option<Object>)
    ensures t.Some? <==> StartsWith(id, "tx_")
    ensures t.Some? ==> "id" in t.value && "status" in t.value && "updated_at" in t.value
    ensures t.Some? ==> t.value["id"] == Str(id) && t.value["status"] == Str("completed") && t.value["updated_at"] == Date(updatedAt)
  {
    if StartsWith(id, "tx_") then
      Some(Sample(id) + map[
        "status" := Str("completed"),
        "fee" := Num(0.01),
        "tx_hash" := Str("0xabc123..."),
        "created_at" := Date(createdAt),
        "updated_at" := Date(updatedAt)])
    else None
  }

  /** `updateTransaction` as written: the default status is spread over by `updateData`, then `updated_at` is set. */
  function UpdateTransaction(id: string, updateData: Object, now: int): (t: Option<Object>)
    ensures t.Some? <==> StartsWith(id, "tx_")
    ensures t.Some? ==> t.value.Keys == Sample(id).Keys + {"status", "updated_at"} + updateData.Keys
  {
    if StartsWith(id, "tx_") then
      Some(Sample(id) + map["status" := Or(Get(updateData, "status"), Str("completed"))]
        + updateData + map["updated_at" := Date(now)])
    else None
  }

  /**
   * What an update produces: every field of `updateData` (even `id`) wins over
   * the sample, `updated_at` is the clock, and the status is `completed`
   * exactly when `updateData` has no status key or asks for `completed`.
   */
  lemma UpdatedTransaction(id: string, updateData: Object, now: int)
    requires StartsWith(id, "tx_")
    ensures var t := UpdateTransaction(id, updateData, now).value;
      && t["updated_at"] == Date(now)
      && (forall k :: k in updateData && k != "updated_at" ==> t[k] == updateData[k])
      && (forall k :: k in Sample(id) && k !in updateData ==> t[k] == Sample(id)[k])
      && (t["status"] == Str("completed") <==> "status" !in updateData || updateData["status"] == Str("completed"))
  {
  }

  /** As written, a status key that is present but falsy is not replaced by the default. */
  lemma FalsyStatusKept(id: string, now: int)
    requires StartsWith(id, "tx_")
    ensures UpdateTransaction(id, map["status" := Null], now).value["status"] == Null
  {
  }

  /** `getTransactionStatus`: id, status and updated_at of the record `getTransactionById` finds, or null. */
  function GetTransactionStatus(id: string, createdAt: int, updatedAt: int): (s: Option<Object>)
    ensures s.None? <==> GetTransactionById(id, createdAt, updatedAt).None?
    ensures s.Some? ==>
      var t := GetTransactionById(id, createdAt, updatedAt).value;
      s.value == map["id" := Str(id), "status" := t["status"], "updated_at" := t["updated_at"]]
  {
    var transaction := GetTransactionById(id, createdAt, updatedAt);
    if transaction.None? then None
    else Some(map["id" := Str(id), "status" := transaction.value["status"], "updated_at" := transaction.value["updated_at"]])
  }

  /** `refundTransaction`: the sample marked `refunded` for a `tx_` id, null for any other. */
  function RefundTransaction(id: string, now: int): (t: Option<Object>)
    ensures t.Some? <==> StartsWith(id, "tx_")
    ensures t.Some? ==> "id" in t.value && "status" in t.value && "updated_at" in t.value
    ensures t.Some? ==> t.value["status"] == Str("refunded") && t.value["id"] == Str(id) && t.value["updated_at"] == Date(now)
  {
    if StartsWith(id, "tx_") then
      Some(Sample(id) + map["status" := Str("refunded"), "updated_at" := Date(now)])
    else None
  }

  /** A status lookup and a refund accept the same ids. */
  lemma RefundAndStatusAgree(id: string, createdAt: int, updatedAt: int, now: int)
    ensures RefundTransaction(id, now).Some? <==> GetTransactionStatus(id, createdAt, updatedAt).Some?
  {
  }

  /** `Math.ceil(2 / limit)`; `None` stands for the `Infinity` a zero limit gives. */
  function TotalPages(limit: int): (n: Option<int>)
    ensures n.None? <==> limit == 0
  {
    if limit == 0 then None else Some(-((-2.0 / (limit as real)).Floor))
  }

  /** For a positive limit the page count is the least number of pages of that size that hold both samples. */
  lemma TotalPagesIsCeiling(limit: int)
    requires limit > 0
    ensures var n := TotalPages(limit).value;
      n >= 1 && n * limit >= 2 && (n - 1) * limit < 2
  {
    var n := TotalPages(limit).value;
    var q := -2.0 / (limit as real);
    assert q.Floor as real <= q < q.Floor as real + 1.0;
    assert (n as real) * (limit as real) >= 2.0;
    assert ((n - 1) as real) * (limit as real) < 2.0;
  }

  /** What `listTransactions` answers: the two fixed samples. */
  datatype Listing = Listing(transactions: seq<Object>, total: int, page: int, limit: int, totalPages: Option<int>)

  /** `listTransactions`, with `page` and `limit` already parsed as integers; the filters are ignored. */
  function ListTransactions(page: int, limit: int, filters: Object, createdAt1: int, createdAt2: int): (l: Listing)
    ensures l.total == 2 == |l.transactions|
    ensures l.page == page && l.limit == limit && l.totalPages == TotalPages(limit)
  {
    Listing(
      [ map["id" := Str("tx_1"), "from_wallet" := Str("wallet_1"), "to_wallet" := Str("wallet_2"), "amount" := Num(5.25),
            "currency" := Str("ETH"), "status" := Str("completed"), "created_at" := Date(createdAt1)],
        map["id" := Str("tx_2"), "from_wallet" := Str("wallet_2"), "to_wallet" := Str("wallet_3"), "amount" := Num(2.10),
            "currency" := Str("BTC"), "status" := Str("pending"), "created_at" := Date(createdAt2)] ],
      2, page, limit, TotalPages(limit))
  }

  /** The listing does not depend on the filters. */
  lemma ListingIgnoresFilters(page: int, limit: int, f: Object, g: Object, c1: int, c2: int)
    ensures ListTransactions(page, limit, f, c1, c2) == ListTransactions(page, limit, g, c1, c2)
  {
  }
}

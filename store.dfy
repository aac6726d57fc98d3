/**
 * The rows the core reads and writes, and the tables that hold them. The
 * database itself (query builder, row-level errors) is not modelled: a table
 * is a map from id to row, and an update writes exactly the fields it names.
 */
module Store {
  import opened JsValues

  /** A `users` row, as far as the core reads it. */
  datatype UserRow = UserRow(id: string, workspace: Value)

  /** An `api_keys` row. */
  datatype ApiKeyRow = ApiKeyRow(
    id: string,
    userId: Value,
    name: Value,
    keyHash: string,
    permissions: Value,
    active: bool)

  class ApiKeyTable {
    var rows: map<string, ApiKeyRow>

    /** Every row is filed under its own id. */
    ghost predicate Valid()
      reads this
    {
      forall id :: id in rows ==> rows[id].id == id
    }

    constructor ()
      ensures Valid() && rows == map[]
    {
      rows := map[];
    }
  }

  /** A `wallets` row; the fields the caller supplies keep whatever value they were given. */
  datatype Wallet = Wallet(
    id: string,
    userId: Value,
    name: Value,
    address: Value,
    networkTypeId: Value,
    balance: real,
    isActive: Value,
    metadata: Value,
    createdAt: int,
    updatedAt: int)

  datatype CryptoToken = CryptoToken(id: string, symbol: string)

  /** The wallet, token and payment tables that the wallet and payment services use. */
  class Database {
    var wallets: map<string, Wallet>
    var tokens: map<string, CryptoToken>
    var payments: seq<Object>  // inserted records, oldest first

    ghost predicate Valid()
      reads this
    {
      && (forall id :: id in wallets ==> wallets[id].id == id)
      && (forall id :: id in tokens ==> tokens[id].id == id)
    }

    constructor (wallets: map<string, Wallet>, tokens: map<string, CryptoToken>)
      requires forall id :: id in wallets ==> wallets[id].id == id
      requires forall id :: id in tokens ==> tokens[id].id == id
      ensures Valid()
      ensures this.wallets == wallets && this.tokens == tokens && payments == []
    {
      this.wallets := wallets;
      this.tokens := tokens;
      payments := [];
    }
  }
}

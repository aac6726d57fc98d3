/**
 * The wallet service (services/walletService.js): creating a wallet, and
 * depositing to or withdrawing from one. Balances are exact reals; the
 * `wallets` table is the `Database` class's map, and a store call that throws
 * is the `fault` parameter.
 */
module WalletService {
  import opened Wrappers
  import opened JsValues
  import opened Store

  /**
   * The `walletData` a caller passes to `createWallet`: the validated body
   * (name, address, network type, and the optional balance, `is_active` and
   * `metadata`) plus the caller's `user_id`. A field the body leaves out is
   * `Undefined`, or `None` for the balance.
   */
  datatype WalletInput = WalletInput(
    userId: Value,
    name: Value,
    address: Value,
    networkTypeId: Value,
    balance: Option<real>,
    isActive: Value,
    metadata: Value)

  /** What deposit and withdraw report; they never throw. */
  datatype Receipt =
    | Deposited(walletId: string, amount: real, newBalance: real, networkType: Value)
    | Withdrawn(walletId: string, amount: real, toAddress: Value, newBalance: real, networkType: Value)
    | Declined(error: string)  // `{ success: false, error }`

  const AddressRequired := "Wallet address must be provided by the user"
  const NameRequired := "Wallet name must be provided by the user"

  // ---------------------------------------------------------------------------
  // Specification

  /** The guards of `createWallet`, in their order: the address first, then the name. */
  function CreationError(input: WalletInput): (e: Option<string>)
    ensures e.None? <==> Truthy(input.address) && Truthy(input.name)
    ensures !Truthy(input.address) ==> e == Some(AddressRequired)
    ensures Truthy(input.address) && !Truthy(input.name) ==> e == Some(NameRequired)
  {
    if !Truthy(input.address) then Some(AddressRequired)
    else if !Truthy(input.name) then Some(NameRequired)
    else None
  }

  /**
   * The row `createWallet` inserts: every field of the input is spread into
   * it as given, a missing balance is 0, and both timestamps are the same
   * instant.
   */
  function NewWallet(id: string, input: WalletInput, now: int): (w: Wallet)
    ensures w.balance == (if input.balance.Some? then input.balance.value else 0.0)
    ensures w.createdAt == now && w.updatedAt == now
    ensures w.id == id && w.userId == input.userId && w.name == input.name && w.address == input.address
    ensures w.networkTypeId == input.networkTypeId && w.isActive == input.isActive && w.metadata == input.metadata
  {
    var balance := if input.balance.Some? then input.balance.value else 0.0;
    Wallet(id, input.userId, input.name, input.address, input.networkTypeId, balance, input.isActive, input.metadata, now, now)
  }

  /** The table after `id`'s balance has moved by `delta`: no other wallet and no other field changes. */
  function Adjust(wallets: map<string, Wallet>, id: string, delta: real): (w: map<string, Wallet>)
    requires id in wallets
    ensures w.Keys == wallets.Keys
    ensures w[id].balance == wallets[id].balance + delta
    ensures w[id] == wallets[id].(balance := w[id].balance)
    ensures forall k :: k in wallets && k != id ==> w[k] == wallets[k]
  {
    wallets[id := wallets[id].(balance := wallets[id].balance + delta)]
  }

  /** The guard of `withdrawFunds`: a withdrawal goes ahead unless the balance is below the amount. */
  predicate CanWithdraw(balance: real, amount: real) {
    !(balance < amount)
  }

  /** A withdrawal that passes the guard never leaves a negative balance, whatever the amount's sign. */
  lemma WithdrawalNeverOverdraws(balance: real, amount: real)
    requires CanWithdraw(balance, amount)
    ensures balance - amount >= 0.0
  {
  }

  /** Neither operation checks the sign of the amount: a negative deposit lowers the balance, a negative withdrawal raises it. */
  lemma SignUnchecked(wallets: map<string, Wallet>, id: string, amount: real)
    requires id in wallets && amount < 0.0
    ensures Adjust(wallets, id, amount)[id].balance < wallets[id].balance
    ensures wallets[id].balance >= 0.0 ==> CanWithdraw(wallets[id].balance, amount)
    ensures Adjust(wallets, id, -amount)[id].balance > wallets[id].balance
  {
  }

  /** Withdrawing what was just deposited is allowed exactly when the balance was not negative, and restores the table. */
  lemma DepositThenWithdraw(wallets: map<string, Wallet>, id: string, amount: real)
    requires id in wallets
    ensures var after := Adjust(wallets, id, amount);
      && (CanWithdraw(after[id].balance, amount) <==> wallets[id].balance >= 0.0)
      && Adjust(after, id, -amount) == wallets
  {
    var after := Adjust(wallets, id, amount);
    assert Adjust(after, id, -amount)[id] == wallets[id];
  }

  // ---------------------------------------------------------------------------
  // The service

  /** `createWallet`: the guards, then one insert; every failure is rethrown as "Error creating wallet: …". */
  method CreateWallet(db: Database, input: WalletInput, now: int, newId: string, fault: Option<string>)
    returns (r: Result<Wallet>)
    requires db.Valid() && newId !in db.wallets
    modifies db
    ensures db.Valid()
    ensures db.tokens == old(db.tokens) && db.payments == old(db.payments)
    ensures CreationError(input).Some? ==>
      r == Err("Error creating wallet: " + CreationError(input).value) && db.wallets == old(db.wallets)
    ensures CreationError(input).None? && fault.Some? ==>
      r == Err("Error creating wallet: " + fault.value) && db.wallets == old(db.wallets)
    ensures CreationError(input).None? && fault.None? ==>
      r == Ok(NewWallet(newId, input, now)) && db.wallets == old(db.wallets)[newId := r.value]
  {
    if !Truthy(input.address) {
      return Err("Error creating wallet: " + AddressRequired);
    }
    if !Truthy(input.name) {
      return Err("Error creating wallet: " + NameRequired);
    }
    if fault.Some? {
      return Err("Error creating wallet: " + fault.value);
    }
    var wallet := NewWallet(newId, input, now);
    db.wallets := db.wallets[newId := wallet];
    r := Ok(wallet);
  }

  /** `depositFunds`: the balance becomes old + amount; failures are reported, not thrown. */
  method DepositFunds(db: Database, walletId: string, amount: real, networkType: Value, fault: Option<string>)
    returns (receipt: Receipt)
    requires db.Valid()
    modifies db
    ensures db.Valid()
    ensures db.tokens == old(db.tokens) && db.payments == old(db.payments)
    ensures fault.Some? ==>
      receipt == Declined("Error processing deposit: " + fault.value) && db.wallets == old(db.wallets)
    ensures fault.None? && walletId !in old(db.wallets) ==>
      receipt == Declined("Wallet not found") && db.wallets == old(db.wallets)
    ensures fault.None? && walletId in old(db.wallets) ==>
      && db.wallets == Adjust(old(db.wallets), walletId, amount)
      && receipt == Deposited(walletId, amount, db.wallets[walletId].balance, networkType)
  {
    if fault.Some? {
      return Declined("Error processing deposit: " + fault.value);
    }
    if walletId !in db.wallets {
      return Declined("Wallet not found");
    }
    var wallet := db.wallets[walletId];
    var newBalance := wallet.balance + amount;
    db.wallets := db.wallets[walletId := wallet.(balance := newBalance)];
    receipt := Deposited(walletId, amount, newBalance, networkType);
  }

  /** `withdrawFunds`: refused when the balance is below the amount; otherwise the balance becomes old − amount. */
  method WithdrawFunds(db: Database, walletId: string, amount: real, toAddress: Value, networkType: Value, fault: Option<string>)
    returns (receipt: Receipt)
    requires db.Valid()
    modifies db
    ensures db.Valid()
    ensures db.tokens == old(db.tokens) && db.payments == old(db.payments)
    ensures fault.Some? ==>
      receipt == Declined("Error processing withdrawal: " + fault.value) && db.wallets == old(db.wallets)
    ensures fault.None? && walletId !in old(db.wallets) ==>
      receipt == Declined("Wallet not found") && db.wallets == old(db.wallets)
    ensures fault.None? && walletId in old(db.wallets) && !CanWithdraw(old(db.wallets)[walletId].balance, amount) ==>
      receipt == Declined("Insufficient balance") && db.wallets == old(db.wallets)
    ensures fault.None? && walletId in old(db.wallets) && CanWithdraw(old(db.wallets)[walletId].balance, amount) ==>
      && db.wallets == Adjust(old(db.wallets), walletId, -amount)
      && receipt == Withdrawn(walletId, amount, toAddress, db.wallets[walletId].balance, networkType)
      && receipt.newBalance >= 0.0
  {
    if fault.Some? {
      return Declined("Error processing withdrawal: " + fault.value);
    }
    if walletId !in db.wallets {
      return Declined("Wallet not found");
    }
    var wallet := db.wallets[walletId];
    if wallet.balance < amount {
      return Declined("Insufficient balance");
    }
    var newBalance := wallet.balance - amount;
    db.wallets := db.wallets[walletId := wallet.(balance := newBalance)];
    receipt := Withdrawn(walletId, amount, toAddress, newBalance, networkType);
  }
}

# Kyro payment gateway: verified model of the request-handling core

This project models, in Dafny, the parts of the Kyro crypto-payment API that
decide what happens to a request and what gets stored:

- **Identifiers** (`IdGenerator`): `prefix_<base-36 clock><9 hex digits>` ids and their prefix check.
- **Wallet addresses** (`CryptoUtils`):
  - random address generation per chain family;
  - the two address regexes, written as anchored patterns (`Regex`) and characterised exactly;
  - the character-by-character random-string loop.
- **Authentication** (`AuthMiddleware`):
  - JWT bearer tokens;
  - API keys shown as `<record id>_<16 hex>_<64 hex>`;
  - the "either" middleware that tries the JWT first.
- **Workspaces** (`WorkspaceMiddleware`): every request leaves with a workspace, `testnet` by default.
- **API-key management** (`ApiKeyController`): creation, revocation and update, restricted to the key's owner.
- **Wallets** (`WalletService`): creation guards, deposits, and withdrawals with an insufficient-balance guard.
- **Payments** (`PaymentService`): the ownership and token checks before a payment is stored, the stored record, and the list filter.
- **Transactions** (`TransactionService`): the skeleton service and the Transaction schema's defaults.
- **Webhooks** (`WebhookService`): payload validation, and a status switch that only logs unknown values.

How JavaScript is represented:

- JavaScript values are the `JsValues.Value` datatype, with JavaScript truthiness, `||` and `===`.
- Objects are maps from key to value. An object spread is a right-biased map union.
- `split`, `join`, `startsWith` and `toLowerCase` are in `JsStrings`.
- Hex and base-36 encodings are in `Encoding`.

Outside effects become parameters:

- The clock and `crypto.randomBytes` are parameters.
- `Math.random()` is a stream of draws in [0, 1).
- `jwt.verify`, `bcrypt`, request validation and database lookups are function parameters that either return or throw (`Http.Attempt`).

Tables that the core changes in place are classes:

- `Store.ApiKeyTable` holds the API-key rows.
- `Store.Database` holds the wallet, token and payment tables.

The request is `Http.Request`, whose fields the middleware sets. Methods over these classes are proved against pure specification functions.

## Model

| member | source | states |
|---|---|---|
| IdGenerator.GenerateId | utils/idGenerator.js:4-11 | a generated id starts with `prefix_`; the text after it is the base-36 clock, followed by exactly nine lower-case hex digits |
| IdGenerator.ValidateId | utils/idGenerator.js:14-17 | true exactly for a string value that starts with `prefix_` |
| IdGenerator.GeneratedIdValidates | utils/idGenerator.js:4-17 | every generated id passes validation for its own prefix |
| IdGenerator.ValidateIdIgnoresRest | utils/idGenerator.js:16 | anything after `prefix_` is accepted |
| IdGenerator.GeneratedIdTimestamp | utils/idGenerator.js:6-10 | the clock value is recovered from the text between the prefix and the last nine characters |
| Encoding.Hex | utils/idGenerator.js:7 | hex output is two lower-case hex digits per byte |
| Encoding.HexRoundTrip | utils/idGenerator.js:7 | decoding the hex text gives back the bytes |
| Encoding.ToBase36 | utils/idGenerator.js:6 | base-36 output is non-empty, made of base-36 digits, with no leading zero |
| Encoding.Base36RoundTrip | utils/idGenerator.js:6 | reading the base-36 text gives back the number |
| JsStrings.JoinSplit | middleware/authMiddleware.js:33-40 | joining the pieces of a split with the same separator gives the original string |
| JsStrings.SplitHasSecond | middleware/authMiddleware.js:35 | a split has a second piece exactly when the separator occurs |
| JsStrings.SplitAround | middleware/authMiddleware.js:39-40 | the first piece is the text before the first separator; the rest is the split of what follows |
| JsStrings.ToLowerIdempotent | utils/cryptoUtils.js:7 | lower-casing twice is lower-casing once |
| CryptoUtils.RandomString | utils/cryptoUtils.js:34-40 | the result never has more than `length` characters, and each of them comes from the alphabet |
| CryptoUtils.DrawIndexInRange | utils/cryptoUtils.js:37 | `Math.floor(random * length)` is a valid index of a non-empty alphabet |
| CryptoUtils.GenerateRandomString | utils/cryptoUtils.js:34-40 | the loop's result equals the recursive specification; it has `length` characters, all from the alphabet |
| CryptoUtils.RandomStringShape | utils/cryptoUtils.js:34-40 | the specification draws `length` characters from a non-empty alphabet, and gives the empty string for an empty one |
| CryptoUtils.EthPatternExactly | utils/cryptoUtils.js:58 | the regex matches exactly `0x` followed by 40 hex digits of either case |
| CryptoUtils.BtcPatternExactly | utils/cryptoUtils.js:50 | the regex matches exactly `1`, `3` or `bc1` followed by 25 to 62 ASCII letters and digits |
| CryptoUtils.TestLastRepeat | utils/cryptoUtils.js:50 | a trailing counted class matches exactly the strings of an allowed length made of that class |
| CryptoUtils.GenerateWalletAddress | utils/cryptoUtils.js:6-30 | a bitcoin name (after lower-casing) gives an address starting with `1`; every other type gives one starting with `0x` |
| CryptoUtils.ValidateWalletAddress | utils/cryptoUtils.js:43-63 | only a non-empty string address can be valid, and only for one of the seven known type names |
| CryptoUtils.RejectsNonString | utils/cryptoUtils.js:44 | a falsy or non-string address is rejected for every crypto type |
| CryptoUtils.EthFamilyValidIff | utils/cryptoUtils.js:52-58 | for ethereum, eth, polygon, binance and bnb, an address is valid iff it is `0x` plus 40 hex digits |
| CryptoUtils.BtcFamilyValidIff | utils/cryptoUtils.js:47-50 | for bitcoin and btc, an address is valid iff it has the bitcoin shape |
| CryptoUtils.UnknownTypeRejected | utils/cryptoUtils.js:60-61 | any other crypto type rejects every address |
| CryptoUtils.CaseInsensitive | utils/cryptoUtils.js:7 | validation depends only on the lower-cased crypto type |
| CryptoUtils.BtcAlphabetAlnum | utils/cryptoUtils.js:11 | the bitcoin alphabet is ASCII letters and digits only |
| CryptoUtils.HexAlphabetHex | utils/cryptoUtils.js:16 | the hex alphabet holds hex digits only |
| CryptoUtils.GenerateByFamily | utils/cryptoUtils.js:6-31 | bitcoin names give `1` plus 25 alphabet characters; every other type gives `0x` plus 40 hex characters |
| CryptoUtils.EthStyleGenerated | utils/cryptoUtils.js:13-29 | every Ethereum-style generated address has the Ethereum shape |
| CryptoUtils.BtcGenerated | utils/cryptoUtils.js:8-11 | every generated bitcoin address has the bitcoin shape |
| CryptoUtils.GeneratedAddressValidates | utils/cryptoUtils.js:6-63 | for every known crypto type, a generated address passes validation for the same type |
| CryptoUtils.UnknownTypeAsymmetry | utils/cryptoUtils.js:27-29 | for an unknown type, generation falls back to an Ethereum address that validation then rejects |
| AuthMiddleware.BearerToken | middleware/authMiddleware.js:9 | the token, when present, is a non-empty field without spaces |
| AuthMiddleware.NoBearerToken | middleware/authMiddleware.js:8-13 | no token, so a 401: a missing header, a header without a space, or an empty second field |
| AuthMiddleware.BearerTokenField | middleware/authMiddleware.js:9 | the token is the second space-separated field, whatever follows it |
| AuthMiddleware.ApiKeyCredentials | middleware/authMiddleware.js:32-40 | no credentials iff the key has no `_`; otherwise an id without `_`, a `_`, and the secret concatenate to the key |
| AuthMiddleware.ShownKeySplits | middleware/authMiddleware.js:33-40 | `<id>_<key>` splits back into that id and that key, even when the key has underscores |
| AuthMiddleware.TokenVerdict | middleware/authMiddleware.js:7-22 | 401 exactly when the header has no token; a token that `jwt.verify` throws on is a 403; an accepted user id is the one `jwt.verify` returned |
| AuthMiddleware.ApiKeyVerdict | middleware/authMiddleware.js:25-84 | never a JWT acceptance; a rejection is a 401 or a 500; a non-Bearer header is the format 401; an accepted key is active and came from a key containing `_` |
| AuthMiddleware.EitherVerdict | middleware/authMiddleware.js:87-110 | a missing or non-Bearer header is a 401; a JWT acceptance needs the text after `Bearer ` to verify; a key acceptance is the API-key middleware's own |
| AuthMiddleware.TokenAcceptedIff | middleware/authMiddleware.js:7-22 | a JWT is accepted iff a token field exists and verifies; the user id is the token's |
| AuthMiddleware.ApiKeyAcceptedIff | middleware/authMiddleware.js:25-84 | an API key is accepted iff: Bearer format, a `_`, a record, a stored hash, a matching secret and an active key |
| AuthMiddleware.ApiKeyRejections | middleware/authMiddleware.js:28-83 | every rejection is a 401 or a 500; it is a 500, "Authentication error", exactly when the key lookup, the hash lookup or the comparison threw on the way |
| AuthMiddleware.MissingRecordFirst | middleware/authMiddleware.js:44-47 | a missing record is a 401 decided before the hash or the secret is consulted |
| AuthMiddleware.InactiveOnlyAfterSecret | middleware/authMiddleware.js:63-73 | "API key is inactive" is reported only after the secret matched |
| AuthMiddleware.IssuedKeyAccepted | middleware/authMiddleware.js:25-80 | an active key presented as `<id>_<generated>` with a matching hash is accepted |
| AuthMiddleware.EitherNeedsBearer | middleware/authMiddleware.js:90-92 | a missing or non-Bearer header is a 401 from the either-middleware itself |
| AuthMiddleware.EitherTakesJwtPath | middleware/authMiddleware.js:95-102 | a verifying token without spaces authenticates as the token's user |
| AuthMiddleware.EitherFallsBackToApiKey | middleware/authMiddleware.js:103-106 | a token that fails JWT verification is decided as an API key |
| AuthMiddleware.AuthenticateToken | middleware/authMiddleware.js:7-22 | responds with the verdict's error and leaves the request unchanged, or sets only `userId` and continues |
| AuthMiddleware.AuthenticateApiKey | middleware/authMiddleware.js:25-84 | responds with the verdict's error and leaves the request unchanged, or sets user, key id and permissions and continues |
| AuthMiddleware.AuthenticateEither | middleware/authMiddleware.js:87-110 | the outcome and the request follow the either-verdict |
| WorkspaceMiddleware.WorkspaceOrDefault | middleware/workspaceMiddleware.js:19 | the result is always truthy: the user's workspace when set, `testnet` otherwise |
| WorkspaceMiddleware.WorkspaceOrDefaultIdempotent | middleware/workspaceMiddleware.js:31-33 | filling in the default twice equals once |
| WorkspaceMiddleware.ResolveWorkspace | middleware/workspaceMiddleware.js:4-26 | `testnet` without a user; 500 if the lookup throws; 404 for an unknown user; otherwise the user's workspace or `testnet`; no other field changes |
| WorkspaceMiddleware.FilterByWorkspace | middleware/workspaceMiddleware.js:29-36 | always continues, filling in `testnet` only when no workspace is set |
| WorkspaceMiddleware.FilterTwice | middleware/workspaceMiddleware.js:29-36 | running the filter twice leaves the workspace it leaves once |
| ApiKeyController.GenerateApiKey | controllers/apiKeyController.js:9-14 | 81 characters: 16 hex digits, `_`, 64 hex digits |
| ApiKeyController.GeneratedKeyDecodes | controllers/apiKeyController.js:11-13 | both halves of the key decode back to the random bytes |
| ApiKeyController.ShownKeyRoundTrip | controllers/apiKeyController.js:52 | the key shown to the user splits back into the record id and exactly the key that was hashed |
| ApiKeyController.ShownKeyNeedsPlainId | controllers/apiKeyController.js:52 | a record id containing `_` is split at the wrong place |
| ApiKeyController.UpdatePatch | controllers/apiKeyController.js:111-113 | the patch holds `name` and `permissions` exactly when each is truthy, and nothing else |
| ApiKeyController.ApplyPatch | controllers/apiKeyController.js:116 | name and permissions take the patch's values when it names them and keep theirs otherwise; the id, owner, hash and active flag never change |
| ApiKeyController.ApplyPatchIdempotent | controllers/apiKeyController.js:111-116 | applying the same update twice equals once |
| ApiKeyController.CreateApiKey | controllers/apiKeyController.js:22-55 | 400 on invalid input and 404 on an unknown user, and a throwing user lookup or `ApiKey.create` is passed on, each with nothing stored; otherwise one new row storing the hash, and the shown key `<id>_<key>` |
| ApiKeyController.DeleteApiKey | controllers/apiKeyController.js:71-92 | a throwing lookup is passed on, then 404 for an unknown key and 403 for another user's key; a throwing delete is passed on; only a revocation changes the table, and it removes exactly that key |
| ApiKeyController.UpdateApiKey | controllers/apiKeyController.js:95-122 | a throwing lookup, 404 and 403 as for delete; a throwing update is passed on; the table changes only on success, where only that row changes, by the patch |
| ApiKeyController.IssuedKeyAuthenticates | controllers/apiKeyController.js:38-52 | a freshly created key, presented as a Bearer key, passes API-key authentication as its owner |
| WalletService.CreationError | services/walletService.js:21-27 | a missing address is reported before a missing name; no error iff both are truthy |
| WalletService.NewWallet | services/walletService.js:29-35 | every input field, `is_active` and `metadata` included, is stored as given; the balance defaults to 0; `created_at` equals `updated_at` |
| WalletService.Adjust | services/walletService.js:81-84 | only the one wallet's balance changes, by the given amount |
| WalletService.DepositThenWithdraw | services/walletService.js:70-136 | withdrawing what was deposited is allowed iff the balance was non-negative, and restores the table |
| WalletService.CreateWallet | services/walletService.js:15-41 | on a failed guard or store error, throws the wrapped message and stores nothing; otherwise inserts exactly the new wallet |
| WalletService.DepositFunds | services/walletService.js:70-99 | `Wallet not found` or a wrapped error with no change; otherwise balance := old + amount, and never throws |
| WalletService.WithdrawFunds | services/walletService.js:101-136 | `Wallet not found`, `Insufficient balance` or a wrapped error with no change; otherwise balance := old − amount, never negative |
| PaymentService.FindWallet | services/paymentService.js:11 | a wallet is found only for a string id the table holds |
| PaymentService.CreationError | services/paymentService.js:11-20 | the caller's own wallet is checked before the token; no error iff both checks pass |
| PaymentService.MissingCallerOwnsOnlyOwnerless | services/paymentService.js:12 | without a caller id, only a wallet without an owner passes the ownership check |
| PaymentService.PaymentRecord | services/paymentService.js:25-31 | the record keeps the input's fields, forces status `pending`, has equal timestamps, and takes the input's id over the generated one |
| PaymentService.CreatedIdHasPrefix | services/paymentService.js:22-26 | without an input id, the stored id is a `pay_` id |
| PaymentService.StatusAlwaysPending | services/paymentService.js:27-28 | a status supplied in the input never changes the record |
| PaymentService.CreatePayment | services/paymentService.js:8-37 | the wallet lookup's error, the ownership check, the token lookup's error, the token check and the insert's error, in that order, each thrown wrapped; the table grows exactly when the record is appended |
| PaymentService.PaymentFilters | services/paymentService.js:57-59 | only truthy `status` and `wallet_id` are forwarded, unchanged |
| PaymentService.PaymentFiltersIdempotent | services/paymentService.js:57-59 | filtering a filter changes nothing |
| PaymentService.WalletFilterDropped | controllers/paymentController.js:50-53 | as written, the controller's wallet filter never reaches the service |
| PaymentService.WalletFilterForwarded | services/paymentService.js:59 | with the key the service reads, a truthy wallet id is forwarded |
| TransactionService.Transaction | models/Transaction.js:5-19 | only the schema's keys; a falsy status, type, metadata, fee or confirmations gets its default; other fields are copied |
| TransactionService.TransactionDefaults | models/Transaction.js:11-17 | status, type and metadata are always truthy, and building a transaction twice equals once |
| TransactionService.CreateTransaction | services/transactionService.js:6-24 | a created transaction has exactly the schema's keys and is always `pending` |
| TransactionService.CreatedTransaction | services/transactionService.js:6-24 | always `pending`; timestamps from the two clocks; input fields kept, unknown keys dropped; a `tx_` id unless the input has one |
| TransactionService.GetTransactionById | services/transactionService.js:26-47 | a record iff the id starts with `tx_`; it carries that id and status `completed` |
| TransactionService.UpdateTransaction | services/transactionService.js:49-71 | null unless the id starts with `tx_`; keys are the sample's, the update's, `status` and `updated_at` |
| TransactionService.UpdatedTransaction | services/transactionService.js:58-67 | update fields win over the sample; `updated_at` is the clock; status is `completed` iff none is given or `completed` is asked for |
| TransactionService.FalsyStatusKept | services/transactionService.js:64-65 | a present but falsy status is written as given, not defaulted |
| TransactionService.GetTransactionStatus | services/transactionService.js:103-116 | null iff the lookup is null; otherwise exactly the id, the status and `updated_at` |
| TransactionService.RefundTransaction | services/transactionService.js:118-137 | a record iff the id starts with `tx_`, with status `refunded` and the clock as `updated_at` |
| TransactionService.RefundAndStatusAgree | services/transactionService.js:105-106 | refund and status lookup accept the same ids |
| TransactionService.TotalPages | services/transactionService.js:96 | the page count is undefined (`Infinity`) exactly for a zero limit |
| TransactionService.TotalPagesIsCeiling | services/transactionService.js:96 | for a positive limit, the least number of pages of that size holding both entries |
| TransactionService.ListTransactions | services/transactionService.js:73-101 | always two entries and total 2, echoing page and limit |
| TransactionService.ListingIgnoresFilters | services/transactionService.js:73-101 | the filters do not affect the listing |
| WebhookService.Handle | services/webhookService.js:4-113 | logs the payload; throws iff a required field is falsy, after an error log; otherwise true, with a warning exactly for an unknown event |
| WebhookService.HandleWalletWebhook | services/webhookService.js:4-39 | throws `Invalid wallet webhook data` iff `wallet_id` or `event_type` is falsy |
| WebhookService.HandleTransactionWebhook | services/webhookService.js:41-76 | throws `Invalid transaction webhook data` iff `transaction_id` or `status` is falsy |
| WebhookService.HandlePaymentWebhook | services/webhookService.js:78-113 | throws `Invalid payment webhook data` iff `payment_id` or `status` is falsy |
| WebhookService.EventOnlyAffectsLog | services/webhookService.js:17-34 | with the required fields present, every event value gives `true`; it warns exactly for an unknown one |

## Left out

- `calculateTxFee` (utils/cryptoUtils.js:66-78): floating-point arithmetic only, with no guard or state.
- `toLowerCase` is modelled for ASCII letters only; other characters are left as they are.
- CryptoUtils.GenerateWalletAddress and CryptoUtils.ValidateWalletAddress take the crypto type as a string, so the TypeError that `cryptoType.toLowerCase()` throws for an undefined or non-string type is not modelled; no caller in the repository passes such a value (services/walletService.js imports `generateWalletAddress` but never calls it).
- Amounts are exact reals. `parseFloat` on strings, JavaScript rounding and `NaN` amounts are not modelled.
- `balance || 0` is modelled for numeric or absent balances only.
- `bcrypt`, `jsonwebtoken`, the request validator and the database are function parameters. Their internal behaviour is not modelled.
- `User.findById`, `ApiKey.findById` and the `key_hash` query are oracles. A store call that throws is a `fault` parameter or a `Threw` result.
- The `Wallet` and `Payment` models in models/ define no `findById`, `create`, `update` or `findAll`. As written, every wallet and payment store call in the services would throw a TypeError, so `listPayments` (services/paymentService.js:61) always throws too. The model gives the tables the meaning the services expect (a lookup returns the row or nothing; an insert stores the row; an update writes the named fields). The as-written behaviour is the case where the first store call's fault parameter is set: `walletFault` for `CreatePayment`, `fault` for the wallet operations.
- A wallet's id comes from the database (the `generateId` call is commented out), so `CreateWallet` takes it as a parameter.
- `CreatePayment` has one fault parameter per store call (`Wallet.findById`, `CryptoToken.findById`, `Payment.create`), each checked where the source makes that call.
- `ApiKeyController.CreateApiKey` does not model `bcrypt.hash` throwing, nor the validator's own defaults beyond the body it returns.
- `WalletService.CreateWallet` keeps only the fields the wallet validator allows (name, address, network type, balance, `is_active`, `metadata`) plus `user_id`. The validator rejects other keys before the service is called.
- `getApiKeys`, `getWalletById`, `getWalletBalance`, `listWallets`, `getPaymentById`, `updatePayment`, `cancelPayment` and `confirmPayment` only pass a call through to the store. The last two call model methods that do not exist.
- On-chain payment verification and a payment state machine do not exist in this code and are not modelled.
- `listTransactions` receives `page` and `limit` as already-parsed integers. `parseInt` of non-numeric text (`NaN`) is not modelled.
- Logging is a list of entries. The `data` payload is kept as an object, and the warning's value is not converted to text.
- Webhook payloads are JSON objects. A null payload, which would throw a TypeError when a field is read, is not modelled.
- `next()` is the `Next` outcome. An exception thrown by a later handler is not modelled.
- Express routing, the HTTP layer, concurrency and `async` scheduling are not modelled.
- The payment test calls `createPayment` without a user id and expects success. `MissingCallerOwnsOnlyOwnerless` shows that this happens only for a wallet that has no owner.

## Findings

| source | as written | input that shows it | evidently intended | confidence | as-written member | corrected member |
|---|---|---|---|---|---|---|
| controllers/paymentController.js:51-52 | the controller passes `{ status, walletId }`, but the service reads `filters.wallet_id` | `GET /payments?walletId=w1`: the filter is `{}` and payments of every wallet are listed | pass the wallet id under `wallet_id` so the service forwards it | not executed | PaymentService.WalletFilterDropped | PaymentService.WalletFilterForwarded |

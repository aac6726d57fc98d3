/**
 * API-key issuance and management (controllers/apiKeyController.js). A key
 * is `<16 hex>_<64 hex>` drawn from random bytes (parameters); the caller is
 * shown `<record id>_<key>` once, while the table keeps only a hash of the
 * key. The `api_keys` table is an `ApiKeyTable`; bcrypt's hash, the request
 * validation and the user lookup are parameters.
 */
module ApiKeyController {
  import opened Wrappers
  import opened JsValues
  import opened Encoding
  import opened Http
  import opened Store
  import AuthMiddleware

  /** The validated body of a create request, after the validator's defaults. */
  datatype ApiKeyBody = ApiKeyBody(name: string, permissions: seq<string>)

  /** What request validation reports: the validated body, or the first error message. */
  datatype Validation = Valid(body: ApiKeyBody) | Invalid(message: string)

  /** A row as returned to the caller: everything but the hash. */
  datatype KeyInfo = KeyInfo(id: string, userId: Value, name: Value, permissions: Value, active: bool)

  /** How a handler answers. */
  datatype Reply =
    | Failure(status: int, error: string)
    | Created(apiKey: string, keyInfo: KeyInfo)
    | Revoked
    | Updated(keyInfo: KeyInfo)
    | Forwarded(error: string)  // thrown inside the handler and passed on to the error middleware

  function Info(row: ApiKeyRow): KeyInfo {
    KeyInfo(row.id, row.userId, row.name, row.permissions, row.active)
  }

  function Strings(items: seq<string>): (r: seq<Value>)
    ensures |r| == |items| && forall i :: 0 <= i < |items| ==> r[i] == Str(items[i])
  {
    seq(|items|, i requires 0 <= i < |items| => Str(items[i]))
  }

  // ---------------------------------------------------------------------------
  // Key format

  /** `generateApiKey()`: the hex of 8 random bytes, `_`, the hex of 32 random bytes. */
  function GenerateApiKey(prefixBytes: seq<byte>, secretBytes: seq<byte>): (key: string)
    requires |prefixBytes| == 8 && |secretBytes| == 32
    ensures |key| == 81 && key[16] == '_'
    ensures forall i :: 0 <= i < 81 && i != 16 ==> IsLowerHex(key[i])
  {
    var key := Hex(prefixBytes) + "_" + Hex(secretBytes);
    assert forall i :: 17 <= i < 81 ==> key[i] == Hex(secretBytes)[i - 17];
    key
  }

  /** Both halves of a generated key decode back to the random bytes they came from. */
  lemma GeneratedKeyDecodes(prefixBytes: seq<byte>, secretBytes: seq<byte>)
    requires |prefixBytes| == 8 && |secretBytes| == 32
    ensures var key := GenerateApiKey(prefixBytes, secretBytes);
      Unhex(key[..16]) == prefixBytes && Unhex(key[17..]) == secretBytes
  {
    var key := GenerateApiKey(prefixBytes, secretBytes);
    assert key[..16] == Hex(prefixBytes);
    assert key[17..] == Hex(secretBytes);
    HexRoundTrip(prefixBytes);
    HexRoundTrip(secretBytes);
  }

  /**
   * The key shown at creation, split the way the authentication middleware
   * splits it, gives back the record id and exactly the generated key that
   * was hashed, even though that key has a `_` of its own.
   */
  lemma ShownKeyRoundTrip(recordId: string, prefixBytes: seq<byte>, secretBytes: seq<byte>)
    requires |prefixBytes| == 8 && |secretBytes| == 32
    requires '_' !in recordId
    ensures var key := GenerateApiKey(prefixBytes, secretBytes);
      AuthMiddleware.ApiKeyCredentials(recordId + "_" + key) == Some((recordId, key))
  {
    AuthMiddleware.ShownKeySplits(recordId, GenerateApiKey(prefixBytes, secretBytes));
  }

  /** A record id with a `_` of its own is split in the wrong place: the middleware looks up the wrong id. */
  lemma ShownKeyNeedsPlainId(before: string, after: string, key: string)
    requires '_' !in before
    ensures AuthMiddleware.ApiKeyCredentials(before + "_" + after + "_" + key) == Some((before, after + "_" + key))
  {
    assert before + "_" + after + "_" + key == before + "_" + (after + "_" + key);
    AuthMiddleware.ShownKeySplits(before, after + "_" + key);
  }

  // ---------------------------------------------------------------------------
  // Update patches

  /** `updateData`: `name` and `permissions`, each only when truthy. */
  function UpdatePatch(name: Value, permissions: Value): (patch: Object)
    ensures patch.Keys <= {"name", "permissions"}
    ensures "name" in patch <==> Truthy(name)
    ensures "permissions" in patch <==> Truthy(permissions)
    ensures "name" in patch ==> patch["name"] == name
    ensures "permissions" in patch ==> patch["permissions"] == permissions
  {
    var updateData: Object := map[];
    var updateData := if Truthy(name) then updateData["name" := name] else updateData;
    if Truthy(permissions) then updateData["permissions" := permissions] else updateData
  }

  /** `ApiKey.update(id, patch)`: the fields the patch names are written, no others. */
  function ApplyPatch(row: ApiKeyRow, patch: Object): (r: ApiKeyRow)
    ensures r.id == row.id && r.userId == row.userId && r.keyHash == row.keyHash && r.active == row.active
    ensures r.name == (if "name" in patch then patch["name"] else row.name)
    ensures r.permissions == (if "permissions" in patch then patch["permissions"] else row.permissions)
  {
    row.(name := if "name" in patch then patch["name"] else row.name,
         permissions := if "permissions" in patch then patch["permissions"] else row.permissions)
  }

  /** Applying the same update twice is the same as applying it once. */
  lemma ApplyPatchIdempotent(row: ApiKeyRow, name: Value, permissions: Value)
    ensures var patch := UpdatePatch(name, permissions);
      ApplyPatch(ApplyPatch(row, patch), patch) == ApplyPatch(row, patch)
  {
  }

  /** An empty string name or an absent field leaves the stored value; an empty permissions array is still written. */
  lemma PatchTruthiness(row: ApiKeyRow)
    ensures ApplyPatch(row, UpdatePatch(Str(""), Undefined)) == row
    ensures ApplyPatch(row, UpdatePatch(Undefined, Arr([]))).permissions == Arr([])
  {
  }

  // ---------------------------------------------------------------------------
  // Handlers

  /** The row `ApiKey.create` inserts for a validated body; new keys are active. */
  function NewRow(id: string, userId: Value, body: ApiKeyBody, keyHash: string): ApiKeyRow {
    ApiKeyRow(id, userId, Str(body.name), keyHash, Arr(Strings(body.permissions)), true)
  }

  /**
   * `createApiKey`: 400 and 404 are answered before any key is generated or
   * stored. `createFault` is `ApiKey.create` throwing; its error is passed on
   * to the error middleware and nothing is stored.
   */
  method CreateApiKey(
    table: ApiKeyTable,
    validation: Validation,
    userId: Value,
    findUser: Value -> Attempt<Option<UserRow>>,
    prefixBytes: seq<byte>,
    secretBytes: seq<byte>,
    hash: string -> string,
    newId: string,
    createFault: Option<string>) returns (reply: Reply)
    requires table.Valid()
    requires |prefixBytes| == 8 && |secretBytes| == 32
    requires newId !in table.rows
    modifies table
    ensures table.Valid()
    ensures validation.Invalid? ==>
      reply == Failure(400, validation.message) && table.rows == old(table.rows)
    ensures validation.Valid? && findUser(userId).Threw? ==>
      reply == Forwarded(findUser(userId).error) && table.rows == old(table.rows)
    ensures validation.Valid? && findUser(userId) == Returned(None) ==>
      reply == Failure(404, "User not found") && table.rows == old(table.rows)
    ensures validation.Valid? && findUser(userId).Returned? && findUser(userId).value.Some? && createFault.Some? ==>
      reply == Forwarded(createFault.value) && table.rows == old(table.rows)
    ensures validation.Valid? && findUser(userId).Returned? && findUser(userId).value.Some? && createFault.None? ==>
      var key := GenerateApiKey(prefixBytes, secretBytes);
      var row := NewRow(newId, userId, validation.body, hash(key));
      && table.rows == old(table.rows)[newId := row]
      && reply == Created(newId + "_" + key, Info(row))
  {
    if validation.Invalid? {
      return Failure(400, validation.message);
    }
    var user := findUser(userId);
    if user.Threw? {
      return Forwarded(user.error);
    }
    if user.value.None? {
      return Failure(404, "User not found");
    }
    var apiKey := GenerateApiKey(prefixBytes, secretBytes);
    var keyHash := hash(apiKey);
    if createFault.Some? {
      return Forwarded(createFault.value);
    }
    var newApiKey := NewRow(newId, userId, validation.body, keyHash);
    table.rows := table.rows[newId := newApiKey];
    reply := Created(newApiKey.id + "_" + apiKey, Info(newApiKey));
  }

  /**
   * `deleteApiKey`: only the owner's own key is removed. `findFault` is
   * `ApiKey.findById` throwing (any error but "no row") and `deleteFault` is
   * `ApiKey.delete` throwing; either error is passed on to the error
   * middleware and the table is left as it was.
   */
  method DeleteApiKey(table: ApiKeyTable, id: string, userId: Value, findFault: Option<string>, deleteFault: Option<string>)
    returns (reply: Reply)
    requires table.Valid()
    modifies table
    ensures table.Valid()
    ensures reply.Revoked? <==> table.rows != old(table.rows)
    ensures findFault.Some? ==> reply == Forwarded(findFault.value)
    ensures findFault.None? && id !in old(table.rows) ==>
      reply == Failure(404, "API key not found")
    ensures findFault.None? && id in old(table.rows) && !StrictEq(old(table.rows)[id].userId, userId) ==>
      reply == Failure(403, "Unauthorized")
    ensures findFault.None? && id in old(table.rows) && StrictEq(old(table.rows)[id].userId, userId) ==>
      if deleteFault.Some? then reply == Forwarded(deleteFault.value)
      else reply == Revoked && table.rows == old(table.rows) - {id}
  {
    if findFault.Some? {
      return Forwarded(findFault.value);
    }
    if id !in table.rows {
      return Failure(404, "API key not found");
    }
    var apiKey := table.rows[id];
    if !StrictEq(apiKey.userId, userId) {
      return Failure(403, "Unauthorized");
    }
    if deleteFault.Some? {
      return Forwarded(deleteFault.value);
    }
    table.rows := table.rows - {id};
    reply := Revoked;
  }

  /**
   * `updateApiKey`: only the owner's own key changes, and only in its name and
   * permissions. `findFault` is `ApiKey.findById` throwing and `updateFault`
   * is `ApiKey.update` throwing; either error is passed on to the error
   * middleware and the table is left as it was.
   */
  method UpdateApiKey(
    table: ApiKeyTable,
    id: string,
    name: Value,
    permissions: Value,
    userId: Value,
    findFault: Option<string>,
    updateFault: Option<string>) returns (reply: Reply)
    requires table.Valid()
    modifies table
    ensures table.Valid()
    ensures !reply.Updated? ==> table.rows == old(table.rows)
    ensures findFault.Some? ==> reply == Forwarded(findFault.value)
    ensures findFault.None? && id !in old(table.rows) ==>
      reply == Failure(404, "API key not found")
    ensures findFault.None? && id in old(table.rows) && !StrictEq(old(table.rows)[id].userId, userId) ==>
      reply == Failure(403, "Unauthorized")
    ensures findFault.None? && id in old(table.rows) && StrictEq(old(table.rows)[id].userId, userId) ==>
      if updateFault.Some? then reply == Forwarded(updateFault.value)
      else
        var row := ApplyPatch(old(table.rows)[id], UpdatePatch(name, permissions));
        && table.rows == old(table.rows)[id := row]
        && reply == Updated(Info(row))
  {
    if findFault.Some? {
      return Forwarded(findFault.value);
    }
    if id !in table.rows {
      return Failure(404, "API key not found");
    }
    var apiKey := table.rows[id];
    if !StrictEq(apiKey.userId, userId) {
      return Failure(403, "Unauthorized");
    }
    if updateFault.Some? {
      return Forwarded(updateFault.value);
    }
    var updateData := UpdatePatch(name, permissions);
    var updated := ApplyPatch(apiKey, updateData);
    table.rows := table.rows[id := updated];
    reply := Updated(Info(updated));
  }

  /**
   * End to end: a key created for an existing user, presented as
   * `Bearer <shown key>`, passes `authenticateApiKey` against the same table
   * when bcrypt's compare agrees with its hash, and the request is then
   * attributed to that user and that key.
   */
  method IssuedKeyAuthenticates(
    table: ApiKeyTable,
    body: ApiKeyBody,
    userId: Value,
    user: UserRow,
    prefixBytes: seq<byte>,
    secretBytes: seq<byte>,
    hash: string -> string,
    newId: string) returns (outcome: Outcome, req: Request)
    requires table.Valid()
    requires |prefixBytes| == 8 && |secretBytes| == 32
    requires newId !in table.rows && '_' !in newId
    modifies table
    ensures outcome == Next
    ensures req.userId == userId && req.apiKeyId == Str(newId)
  {
    var reply := CreateApiKey(table, Valid(body), userId, _ => Returned(Some(user)), prefixBytes, secretBytes, hash, newId, None);
    var key := GenerateApiKey(prefixBytes, secretBytes);
    var row := NewRow(newId, userId, body, hash(key));
    assert reply.apiKey == newId + "_" + key;
    var rows := table.rows;
    assert rows[newId] == row;
    var findKey := (id: string) => if id in rows then Returned(Some(rows[id])) else Returned(None);
    var findHash := (id: string) => if id in rows then Returned(Some(rows[id].keyHash)) else Returned(None);
    var compare := (plain: string, h: string) => Returned(hash(plain) == h);
    AuthMiddleware.IssuedKeyAccepted(row, key, findKey, findHash, compare);
    req := new Request(Some(AuthMiddleware.BearerPrefix + reply.apiKey), Undefined);
    assert AuthMiddleware.BearerPrefix + reply.apiKey == AuthMiddleware.BearerPrefix + newId + "_" + key;
    outcome := AuthMiddleware.AuthenticateApiKey(req, findKey, findHash, compare);
  }
}

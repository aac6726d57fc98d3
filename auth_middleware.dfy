/**
 * Authentication middleware (middleware/authMiddleware.js): a JWT in the
 * Authorization header, an API key `Bearer <id>_<secret>`, or either.
 * `jwt.verify`, the two `api_keys` queries and `bcrypt.compare` are oracles
 * passed in; each may throw.
 */
module AuthMiddleware {
  import opened Wrappers
  import opened JsValues
  import opened JsStrings
  import opened Http
  import opened Store

  /** What `jwt.verify` decodes; `userId` is whatever the token carries. */
  datatype Claims = Claims(userId: Value)

  /** The decision a middleware reaches before it touches the request. */
  datatype Verdict =
    | Reject(status: int, error: string)
    | TokenAccepted(userId: Value)
    | KeyAccepted(key: ApiKeyRow)

  const BearerPrefix := "Bearer "

  // ---------------------------------------------------------------------------
  // Header parsing

  /** `authHeader && authHeader.split(' ')[1]`, when that is a non-empty string. */
  function BearerToken(header: Option<string>): (token: Option<string>)
    ensures token.Some? ==> token.value != "" && ' ' !in token.value
  {
    if header.None? || header.value == "" then None
    else
      var parts := Split(header.value, ' ');
      SplitPiecesFree(header.value, ' ');
      if |parts| < 2 || parts[1] == "" then None else Some(parts[1])
  }

  /** The second space-separated field is the token; anything after a further space is ignored. */
  lemma {:induction false} BearerTokenField(scheme: string, token: string, rest: Option<string>)
    requires ' ' !in scheme && ' ' !in token && token != ""
    ensures var header := scheme + " " + token + (if rest.Some? then " " + rest.value else "");
      BearerToken(Some(header)) == Some(token)
  {
    var tail := token + (if rest.Some? then " " + rest.value else "");
    var header := scheme + " " + token + (if rest.Some? then " " + rest.value else "");
    assert header == scheme + [' '] + tail;
    SplitAround(scheme, tail, ' ');
    FirstField(token, rest);
    assert Split(header, ' ')[1] == Split(tail, ' ')[0];
  }

  /** The first space-separated field of `token` or `token rest` is `token`. */
  lemma FirstField(token: string, rest: Option<string>)
    requires ' ' !in token
    ensures Split(token + (if rest.Some? then " " + rest.value else ""), ' ')[0] == token
  {
    var tail := token + (if rest.Some? then " " + rest.value else "");
    if rest.Some? {
      assert tail == token + [' '] + rest.value;
      SplitAround(token, rest.value, ' ');
    } else {
      assert tail == token;
      OnlyField(token);
    }
  }

  /** A string without a space is its own only field. */
  lemma OnlyField(s: string)
    requires ' ' !in s
    ensures Split(s, ' ') == [s]
  {
    assert IndexOf(s, ' ') == -1;
  }

  /**
   * The headers that carry no token, so the middleware answers 401: a missing
   * header, one without a space, and one whose second space-separated field
   * is empty (nothing, or a further space, right after the first space).
   */
  lemma {:induction false} NoBearerToken(scheme: string, rest: string)
    requires ' ' !in scheme
    ensures BearerToken(None) == None
    ensures BearerToken(Some(scheme)) == None
    ensures rest == "" || rest[0] == ' ' ==> BearerToken(Some(scheme + " " + rest)) == None
  {
    OnlyField(scheme);
    if rest == "" || rest[0] == ' ' {
      SecondFieldEmpty(scheme, rest);
    }
  }

  /** Right after the first space, nothing or a further space: the second field is empty. */
  lemma SecondFieldEmpty(scheme: string, rest: string)
    requires ' ' !in scheme && (rest == "" || rest[0] == ' ')
    ensures |Split(scheme + " " + rest, ' ')| >= 2 && Split(scheme + " " + rest, ' ')[1] == ""
  {
    if rest == "" {
      assert scheme + " " + rest == scheme + [' '] + "";
      SplitAround(scheme, "", ' ');
      OnlyField("");
    } else {
      assert scheme + " " + rest == scheme + [' '] + rest;
      SplitAround(scheme, rest, ' ');
      LeadingSpace(rest);
    }
  }

  /** A string that starts with a space has an empty first field. */
  lemma LeadingSpace(s: string)
    requires s != "" && s[0] == ' '
    ensures Split(s, ' ')[0] == ""
  {
    assert s == "" + [' '] + s[1..];
    SplitAround("", s[1..], ' ');
  }

  /** `Bearer` followed by a header-safe token gives back that token. */
  lemma BearerTokenOf(token: string)
    requires ' ' !in token && token != ""
    ensures BearerToken(Some(BearerPrefix + token)) == Some(token)
  {
    assert BearerPrefix + token == "Bearer" + " " + token + "";
    BearerTokenField("Bearer", token, None);
  }

  /** Whether the header is a non-empty string starting with `Bearer `. */
  predicate IsBearer(header: Option<string>) {
    header.Some? && header.value != "" && StartsWith(header.value, BearerPrefix)
  }

  /**
   * The API key after `Bearer `, split at its first `_`: the key id and the
   * secret (`parts.slice(1).join('_')`); None when there is no `_`.
   */
  function ApiKeyCredentials(fullKey: string): (cred: Option<(string, string)>)
    ensures cred.None? <==> '_' !in fullKey
    ensures cred.Some? ==> '_' !in cred.value.0 && cred.value.0 + "_" + cred.value.1 == fullKey
  {
    var parts := Split(fullKey, '_');
    SplitHasSecond(fullKey, '_');
    if |parts| < 2 then None
    else
      SplitPiecesFree(fullKey, '_');
      JoinSplit(fullKey, '_');
      assert Join(parts, '_') == parts[0] + "_" + Join(parts[1..], '_');
      Some((parts[0], Join(parts[1..], '_')))
  }

  /**
   * A key shown as `<record id>_<generated key>` splits back into exactly that
   * record id and that generated key, whatever the generated key contains,
   * provided the record id has no `_`.
   */
  lemma {:induction false} ShownKeySplits(recordId: string, key: string)
    requires '_' !in recordId
    ensures ApiKeyCredentials(recordId + "_" + key) == Some((recordId, key))
  {
    SplitAround(recordId, key, '_');
    JoinSplit(key, '_');
    assert recordId + "_" + key == recordId + ['_'] + key;
  }

  // ---------------------------------------------------------------------------
  // Decisions

  /** `authenticateToken`: 401 without a token, 403 when verification throws, the decoded user otherwise. */
  function TokenVerdict(header: Option<string>, verify: string -> Attempt<Claims>): (v: Verdict)
    ensures !v.KeyAccepted?
    ensures v == Reject(401, "Access token required") <==> BearerToken(header).None?
    ensures v.Reject? ==> v.status == 401 || v.status == 403
    ensures v.TokenAccepted? ==> verify(BearerToken(header).value) == Returned(Claims(v.userId))
    ensures BearerToken(header).Some? && verify(BearerToken(header).value).Threw? ==>
      v == Reject(403, "Invalid or expired token")
  {
    match BearerToken(header)
    case None => Reject(401, "Access token required")
    case Some(token) =>
      match verify(token)
      case Threw(_) => Reject(403, "Invalid or expired token")
      case Returned(decoded) => TokenAccepted(decoded.userId)
  }

  /**
   * `authenticateApiKey`: the format checks, then the key record, the stored
   * hash, the secret and the active flag, in that order; any exception on
   * the way is a 500.
   */
  function ApiKeyVerdict(
    header: Option<string>,
    findKey: string -> Attempt<Option<ApiKeyRow>>,
    findHash: string -> Attempt<Option<string>>,
    compare: (string, string) -> Attempt<bool>): (v: Verdict)
    ensures !v.TokenAccepted?
    ensures v.Reject? ==> v.status == 401 || v.status == 500
    ensures !IsBearer(header) ==> v == Reject(401, "API key required in Bearer format")
    ensures v.KeyAccepted? ==> v.key.active && '_' in header.value[7..]
  {
    if !IsBearer(header) then Reject(401, "API key required in Bearer format")
    else match ApiKeyCredentials(header.value[7..])
      case None => Reject(401, "Invalid API key format")
      case Some((id, secret)) =>
        match findKey(id)
        case Threw(_) => Reject(500, "Authentication error")
        case Returned(None) => Reject(401, "Invalid API key")
        case Returned(Some(key)) =>
          match findHash(id)
          case Threw(_) => Reject(500, "Authentication error")
          case Returned(None) => Reject(401, "Invalid API key")
          case Returned(Some(hash)) =>
            match compare(secret, hash)
            case Threw(_) => Reject(500, "Authentication error")
            case Returned(false) => Reject(401, "Invalid API key")
            case Returned(true) =>
              if !key.active then Reject(401, "API key is inactive") else KeyAccepted(key)
  }

  /** `authenticateEither`: a token that `jwt.verify` accepts takes the JWT path, anything else the API-key path. */
  function EitherVerdict(
    header: Option<string>,
    verify: string -> Attempt<Claims>,
    findKey: string -> Attempt<Option<ApiKeyRow>>,
    findHash: string -> Attempt<Option<string>>,
    compare: (string, string) -> Attempt<bool>): (v: Verdict)
    ensures !IsBearer(header) ==> v.Reject? && v.status == 401
    ensures v.TokenAccepted? ==> IsBearer(header) && verify(header.value[7..]).Returned?
    ensures v.KeyAccepted? ==> v == ApiKeyVerdict(header, findKey, findHash, compare)
    ensures v.Reject? ==> v.status == 401 || v.status == 403 || v.status == 500
  {
    if header.None? || header.value == "" then Reject(401, "Authentication required")
    else if !StartsWith(header.value, BearerPrefix) then Reject(401, "Invalid authentication format")
    else if verify(header.value[7..]).Returned? then TokenVerdict(header, verify)
    else ApiKeyVerdict(header, findKey, findHash, compare)
  }

  // ---------------------------------------------------------------------------
  // Properties of the decisions

  /** A JWT is accepted exactly when the header has a token field and it verifies; the user comes from the token. */
  lemma TokenAcceptedIff(header: Option<string>, verify: string -> Attempt<Claims>, userId: Value)
    ensures TokenVerdict(header, verify) == TokenAccepted(userId) <==>
      BearerToken(header).Some? && verify(BearerToken(header).value) == Returned(Claims(userId))
  {
  }

  /** An API key is accepted exactly when all four checks pass, in the order the middleware makes them. */
  lemma ApiKeyAcceptedIff(
    header: Option<string>,
    findKey: string -> Attempt<Option<ApiKeyRow>>,
    findHash: string -> Attempt<Option<string>>,
    compare: (string, string) -> Attempt<bool>,
    key: ApiKeyRow)
    ensures ApiKeyVerdict(header, findKey, findHash, compare) == KeyAccepted(key) <==>
      && IsBearer(header)
      && ApiKeyCredentials(header.value[7..]).Some?
      && var (id, secret) := ApiKeyCredentials(header.value[7..]).value;
      && findKey(id) == Returned(Some(key))
      && findHash(id).Returned? && findHash(id).value.Some?
      && compare(secret, findHash(id).value.value) == Returned(true)
      && key.active
  {
  }

  /**
   * One of the three oracles threw on the way to a decision: the key lookup,
   * or (once a record was found) the hash lookup, or (once a hash was found)
   * the secret comparison.
   */
  predicate OracleThrew(
    header: Option<string>,
    findKey: string -> Attempt<Option<ApiKeyRow>>,
    findHash: string -> Attempt<Option<string>>,
    compare: (string, string) -> Attempt<bool>)
  {
    && IsBearer(header)
    && ApiKeyCredentials(header.value[7..]).Some?
    && var (id, secret) := ApiKeyCredentials(header.value[7..]).value;
    || findKey(id).Threw?
    || (&& findKey(id).Returned? && findKey(id).value.Some?
        && (|| findHash(id).Threw?
            || (findHash(id).Returned? && findHash(id).value.Some? && compare(secret, findHash(id).value.value).Threw?)))
  }

  /**
   * Every rejection is a 401, except the 500 "Authentication error", which is
   * given exactly when one of the oracles threw.
   */
  lemma ApiKeyRejections(
    header: Option<string>,
    findKey: string -> Attempt<Option<ApiKeyRow>>,
    findHash: string -> Attempt<Option<string>>,
    compare: (string, string) -> Attempt<bool>)
    ensures var v := ApiKeyVerdict(header, findKey, findHash, compare);
      && (v.Reject? ==> v.status == 401 || v.status == 500)
      && (v.Reject? && v.status == 500 <==> OracleThrew(header, findKey, findHash, compare))
      && (OracleThrew(header, findKey, findHash, compare) ==> v == Reject(500, "Authentication error"))
  {
    if IsBearer(header) && ApiKeyCredentials(header.value[7..]).Some? {
      var (id, secret) := ApiKeyCredentials(header.value[7..]).value;
      if findKey(id).Returned? && findKey(id).value.Some? && findHash(id).Returned? && findHash(id).value.Some? {
        var key := findKey(id).value.value;
        match compare(secret, findHash(id).value.value)
        case Threw(_) =>
        case Returned(ok) =>
          assert ApiKeyVerdict(header, findKey, findHash, compare) ==
            if !ok then Reject(401, "Invalid API key")
            else if !key.active then Reject(401, "API key is inactive") else KeyAccepted(key);
      }
    }
  }

  /**
   * A missing record is reported before the hash is fetched or the secret is
   * compared: the later oracles do not influence the answer.
   */
  lemma MissingRecordFirst(
    header: Option<string>,
    findKey: string -> Attempt<Option<ApiKeyRow>>,
    findHash1: string -> Attempt<Option<string>>, findHash2: string -> Attempt<Option<string>>,
    compare1: (string, string) -> Attempt<bool>, compare2: (string, string) -> Attempt<bool>)
    requires IsBearer(header) && ApiKeyCredentials(header.value[7..]).Some?
    requires findKey(ApiKeyCredentials(header.value[7..]).value.0) == Returned(None)
    ensures ApiKeyVerdict(header, findKey, findHash1, compare1) == Reject(401, "Invalid API key")
    ensures ApiKeyVerdict(header, findKey, findHash1, compare1) == ApiKeyVerdict(header, findKey, findHash2, compare2)
  {
  }

  /** An inactive key is reported as inactive only to a caller who knows its secret. */
  lemma InactiveOnlyAfterSecret(
    header: Option<string>,
    findKey: string -> Attempt<Option<ApiKeyRow>>,
    findHash: string -> Attempt<Option<string>>,
    compare: (string, string) -> Attempt<bool>)
    ensures ApiKeyVerdict(header, findKey, findHash, compare) == Reject(401, "API key is inactive") ==>
      var (id, secret) := ApiKeyCredentials(header.value[7..]).value;
      && findKey(id).Returned? && findKey(id).value.Some? && !findKey(id).value.value.active
      && findHash(id).Returned? && findHash(id).value.Some?
      && compare(secret, findHash(id).value.value) == Returned(true)
  {
  }

  /**
   * A key issued as `<record id>_<generated key>`, whose stored hash matches
   * the generated key and which is active, authenticates its owner.
   */
  lemma IssuedKeyAccepted(
    key: ApiKeyRow,
    generated: string,
    findKey: string -> Attempt<Option<ApiKeyRow>>,
    findHash: string -> Attempt<Option<string>>,
    compare: (string, string) -> Attempt<bool>)
    requires '_' !in key.id && key.active
    requires findKey(key.id) == Returned(Some(key))
    requires findHash(key.id) == Returned(Some(key.keyHash))
    requires compare(generated, key.keyHash) == Returned(true)
    ensures ApiKeyVerdict(Some(BearerPrefix + key.id + "_" + generated), findKey, findHash, compare) == KeyAccepted(key)
  {
    var header := BearerPrefix + key.id + "_" + generated;
    assert header[7..] == key.id + "_" + generated;
    ShownKeySplits(key.id, generated);
  }

  /** `authenticateEither` answers 401 itself for a missing or non-Bearer header. */
  lemma EitherNeedsBearer(
    header: Option<string>,
    verify: string -> Attempt<Claims>,
    findKey: string -> Attempt<Option<ApiKeyRow>>,
    findHash: string -> Attempt<Option<string>>,
    compare: (string, string) -> Attempt<bool>)
    requires !IsBearer(header)
    ensures EitherVerdict(header, verify, findKey, findHash, compare).Reject?
    ensures EitherVerdict(header, verify, findKey, findHash, compare).status == 401
  {
  }

  /** For a Bearer token without spaces that verifies, `authenticateEither` accepts the token's user. */
  lemma {:induction false} EitherTakesJwtPath(
    token: string,
    verify: string -> Attempt<Claims>,
    findKey: string -> Attempt<Option<ApiKeyRow>>,
    findHash: string -> Attempt<Option<string>>,
    compare: (string, string) -> Attempt<bool>)
    requires ' ' !in token && token != ""
    requires verify(token).Returned?
    ensures EitherVerdict(Some(BearerPrefix + token), verify, findKey, findHash, compare)
      == TokenAccepted(verify(token).value.userId)
  {
    assert (BearerPrefix + token)[7..] == token;
    assert (BearerPrefix + token)[..7] == BearerPrefix;
    BearerTokenOf(token);
  }

  /** For a token `jwt.verify` rejects, `authenticateEither` decides as `authenticateApiKey` does. */
  lemma EitherFallsBackToApiKey(
    header: Option<string>,
    verify: string -> Attempt<Claims>,
    findKey: string -> Attempt<Option<ApiKeyRow>>,
    findHash: string -> Attempt<Option<string>>,
    compare: (string, string) -> Attempt<bool>)
    requires IsBearer(header) && verify(header.value[7..]).Threw?
    ensures EitherVerdict(header, verify, findKey, findHash, compare) == ApiKeyVerdict(header, findKey, findHash, compare)
  {
  }

  // ---------------------------------------------------------------------------
  // The middleware

  /** `authenticateToken(req, res, next)` */
  method AuthenticateToken(req: Request, verify: string -> Attempt<Claims>) returns (outcome: Outcome)
    modifies req
    ensures var v := TokenVerdict(req.authorization, verify);
      && (v.Reject? ==> outcome == Respond(v.status, v.error) && unchanged(req))
      && (v.TokenAccepted? ==>
            && outcome == Next
            && req.userId == v.userId
            && req.apiKeyId == old(req.apiKeyId)
            && req.apiKeyPermissions == old(req.apiKeyPermissions)
            && req.userWorkspace == old(req.userWorkspace))
      && !v.KeyAccepted?
  {
    var token := BearerToken(req.authorization);
    if token.None? {
      return Respond(401, "Access token required");
    }
    var decoded := verify(token.value);
    if decoded.Threw? {
      return Respond(403, "Invalid or expired token");
    }
    req.userId := decoded.value.userId;
    outcome := Next;
  }

  /** `authenticateApiKey(req, res, next)` */
  method AuthenticateApiKey(
    req: Request,
    findKey: string -> Attempt<Option<ApiKeyRow>>,
    findHash: string -> Attempt<Option<string>>,
    compare: (string, string) -> Attempt<bool>) returns (outcome: Outcome)
    modifies req
    ensures var v := ApiKeyVerdict(req.authorization, findKey, findHash, compare);
      && (v.Reject? ==> outcome == Respond(v.status, v.error) && unchanged(req))
      && (v.KeyAccepted? ==>
            && outcome == Next
            && req.userId == v.key.userId
            && req.apiKeyId == Str(v.key.id)
            && req.apiKeyPermissions == v.key.permissions
            && req.userWorkspace == old(req.userWorkspace))
      && !v.TokenAccepted?
  {
    var header := req.authorization;
    if header.None? || header.value == "" || !StartsWith(header.value, BearerPrefix) {
      return Respond(401, "API key required in Bearer format");
    }
    var fullApiKey := header.value[7..];
    var credentials := ApiKeyCredentials(fullApiKey);
    if credentials.None? {
      return Respond(401, "Invalid API key format");
    }
    var (apiKeyId, apiKeySecret) := credentials.value;
    var apiKey := findKey(apiKeyId);
    if apiKey.Threw? {
      return Respond(500, "Authentication error");
    }
    if apiKey.value.None? {
      return Respond(401, "Invalid API key");
    }
    var apiKeyData := findHash(apiKeyId);
    if apiKeyData.Threw? {
      return Respond(500, "Authentication error");
    }
    if apiKeyData.value.None? {
      return Respond(401, "Invalid API key");
    }
    var isValid := compare(apiKeySecret, apiKeyData.value.value);
    if isValid.Threw? {
      return Respond(500, "Authentication error");
    }
    if !isValid.value {
      return Respond(401, "Invalid API key");
    }
    var key := apiKey.value.value;
    if !key.active {
      return Respond(401, "API key is inactive");
    }
    req.userId := key.userId;
    req.apiKeyId := Str(key.id);
    req.apiKeyPermissions := key.permissions;
    outcome := Next;
  }

  /** `authenticateEither(req, res, next)`: after `jwt.verify` succeeds it hands over to `authenticateToken`, which parses the header again. */
  method AuthenticateEither(
    req: Request,
    verify: string -> Attempt<Claims>,
    findKey: string -> Attempt<Option<ApiKeyRow>>,
    findHash: string -> Attempt<Option<string>>,
    compare: (string, string) -> Attempt<bool>) returns (outcome: Outcome)
    modifies req
    ensures var v := EitherVerdict(req.authorization, verify, findKey, findHash, compare);
      && (v.Reject? ==> outcome == Respond(v.status, v.error) && unchanged(req))
      && (v.TokenAccepted? ==>
            && outcome == Next
            && req.userId == v.userId
            && req.apiKeyId == old(req.apiKeyId)
            && req.apiKeyPermissions == old(req.apiKeyPermissions)
            && req.userWorkspace == old(req.userWorkspace))
      && (v.KeyAccepted? ==>
            && outcome == Next
            && req.userId == v.key.userId
            && req.apiKeyId == Str(v.key.id)
            && req.apiKeyPermissions == v.key.permissions
            && req.userWorkspace == old(req.userWorkspace))
  {
    var header := req.authorization;
    if header.None? || header.value == "" {
      return Respond(401, "Authentication required");
    }
    if StartsWith(header.value, BearerPrefix) {
      var token := header.value[7..];
      if verify(token).Returned? {
        outcome := AuthenticateToken(req, verify);
      } else {
        outcome := AuthenticateApiKey(req, findKey, findHash, compare);
      }
    } else {
      return Respond(401, "Invalid authentication format");
    }
  }
}

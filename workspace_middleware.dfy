/**
 * Workspace resolution (middleware/workspaceMiddleware.js): every request
 * leaves with `req.userWorkspace` set, `testnet` unless the user's profile
 * names another; an unknown user is a 404. The user lookup is an oracle.
 */
module WorkspaceMiddleware {
  import opened Wrappers
  import opened JsValues
  import opened Http
  import opened Store

  const DefaultWorkspace := Str("testnet")

  /** `workspace || 'testnet'`: always set afterwards, and an existing workspace is kept. */
  function WorkspaceOrDefault(workspace: Value): (w: Value)
    ensures Truthy(w)
    ensures Truthy(workspace) ==> w == workspace
    ensures !Truthy(workspace) ==> w == DefaultWorkspace
  {
    Or(workspace, DefaultWorkspace)
  }

  /** Filling in the default twice is the same as once. */
  lemma WorkspaceOrDefaultIdempotent(workspace: Value)
    ensures WorkspaceOrDefault(WorkspaceOrDefault(workspace)) == WorkspaceOrDefault(workspace)
  {
  }

  /** `workspaceMiddleware(req, res, next)` */
  method ResolveWorkspace(req: Request, findUser: Value -> Attempt<Option<UserRow>>) returns (outcome: Outcome)
    modifies req
    ensures req.userId == old(req.userId) && req.apiKeyId == old(req.apiKeyId)
    ensures req.apiKeyPermissions == old(req.apiKeyPermissions)
    ensures !Truthy(req.userId) ==> outcome == Next && req.userWorkspace == DefaultWorkspace
    ensures Truthy(req.userId) ==>
      match findUser(req.userId)
      case Threw(_) => outcome == Respond(500, "Internal server error") && req.userWorkspace == old(req.userWorkspace)
      case Returned(None) => outcome == Respond(404, "User not found") && req.userWorkspace == old(req.userWorkspace)
      case Returned(Some(user)) => outcome == Next && req.userWorkspace == WorkspaceOrDefault(user.workspace)
  {
    if !Truthy(req.userId) {
      req.userWorkspace := DefaultWorkspace;
      return Next;
    }
    var user := findUser(req.userId);
    if user.Threw? {
      return Respond(500, "Internal server error");
    }
    if user.value.None? {
      return Respond(404, "User not found");
    }
    req.userWorkspace := WorkspaceOrDefault(user.value.value.workspace);
    outcome := Next;
  }

  /** `filterByWorkspace(req, res, next)`: fills in `testnet` only when no workspace is set, then always continues. */
  method FilterByWorkspace(req: Request) returns (outcome: Outcome)
    modifies req
    ensures outcome == Next
    ensures req.userWorkspace == WorkspaceOrDefault(old(req.userWorkspace))
    ensures req.userId == old(req.userId) && req.apiKeyId == old(req.apiKeyId)
    ensures req.apiKeyPermissions == old(req.apiKeyPermissions)
  {
    if !Truthy(req.userWorkspace) {
      req.userWorkspace := DefaultWorkspace;
    }
    outcome := Next;
  }

  /** Running `filterByWorkspace` twice leaves the same workspace as running it once. */
  method FilterTwice(req: Request)
    modifies req
    ensures req.userWorkspace == WorkspaceOrDefault(old(req.userWorkspace))
  {
    var _ := FilterByWorkspace(req);
    var once := req.userWorkspace;
    var _ := FilterByWorkspace(req);
    WorkspaceOrDefaultIdempotent(old(req.userWorkspace));
    assert req.userWorkspace == once;
  }
}

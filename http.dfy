/**
 * The request/response plumbing the middleware and controllers share:
 * the request fields they read and write, how a middleware ends, and the
 * result of a call into code outside the model.
 */
module Http {
  import opened Wrappers
  import opened JsValues

  /** A call into code outside the model (a database query, `jwt.verify`, `bcrypt.compare`): it returns or it throws. */
  datatype Attempt<T> = Returned(value: T) | Threw(error: string)

  /** How a middleware ends: it calls `next()`, or it answers `res.status(status).json({ error })`. */
  datatype Outcome = Next | Respond(status: int, error: string)

  /** The parts of an Express request that the middleware reads (the Authorization header) and writes. */
  class Request {
    const authorization: Option<string>
    var userId: Value
    var apiKeyId: Value
    var apiKeyPermissions: Value
    var userWorkspace: Value

    constructor (authorization: Option<string>, userId: Value)
      ensures this.authorization == authorization && this.userId == userId
      ensures apiKeyId == Undefined && apiKeyPermissions == Undefined && userWorkspace == Undefined
    {
      this.authorization := authorization;
      this.userId := userId;
      apiKeyId := Undefined;
      apiKeyPermissions := Undefined;
      userWorkspace := Undefined;
    }
  }
}

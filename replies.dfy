/**
 * What the HRIS API answers, reduced to what the agent looks at, and the
 * exceptions that escape a tick.
 */
module Replies {

  import opened Wrappers

  /**
   * The body of a 200 answer to the login request. `Malformed` is a body
   * that is not JSON or has no `data.token` entry; `TokenField(None)` is an
   * entry holding JSON `null`.
   */
  datatype LoginBody = Malformed | TokenField(token: Option<string>)

  /** The outcome of `POST …/api/v1/auth/hris/login`. */
  datatype LoginReply =
    | LoginUnreachable
    | LoginReply(status: int, body: LoginBody)

  /** The outcome of `POST …/api/v1/hris/attendance/submit`. */
  datatype SubmitReply =
    | SubmitUnreachable
    | SubmitReply(status: int)

  /** The exceptions that can leave `User.start`. */
  datatype Error =
    | TransportError       // `requests.post` raised: no connection, DNS, timeout
    | MalformedLoginReply  // `json.loads` or `parsed["data"]["token"]` raised
    | TokenUnset           // `self._auth_token` read before any assignment

  /** How a step of the agent ends: normally or by an exception. */
  datatype Outcome = Completed | Raised(error: Error)

  /** A login answer after which the agent holds a token string. */
  predicate GrantsToken(reply: LoginReply)
  {
    reply.LoginReply? && reply.status == 200 && reply.body.TokenField? && reply.body.token.Some?
  }

  /** A login answer after which an agent that held a token string still holds one. */
  predicate KeepsToken(reply: LoginReply)
  {
    reply.LoginReply? && (reply.status != 200 || GrantsToken(reply))
  }
}

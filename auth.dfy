/**
 * The mock authentication middleware: an ordered decision over the
 * Authorization, x-api-key and x-ibm-client-id headers, and the user context
 * it attaches to the request when every check passes.
 */
module Auth {
  import opened Wrappers
  import opened Text
  import opened ErrorHandler

  /** The request headers the middleware reads; `None` is an absent header. */
  datatype Headers = Headers(
    authorization: Option<string>,
    apiKey: Option<string>,
    clientId: Option<string>,
    correlationId: Option<string>)

  datatype User = User(userId: string, customerId: string, scopes: seq<string>)

  /** Either the 401 reply the middleware sends, or the user it attaches before calling `next`. */
  datatype Decision = Reject(reply: ErrorReply) | Accept(user: User)

  const MinCredentialLength := 10

  const Scopes: seq<string> := [
    "accounts:read", "accounts:write", "transactions:read", "payments:read",
    "payments:write", "beneficiaries:read", "beneficiaries:write", "statements:read"]

  /** `authHeader.replace('Bearer ', '')`: the first occurrence of the scheme is cut out, wherever it is. */
  function BearerToken(authorization: string): (token: string)
    ensures IndexOf(authorization, "Bearer ").None? ==> token == authorization
    ensures IndexOf(authorization, "Bearer ").Some? ==>
      var i := IndexOf(authorization, "Bearer ").value;
      token == authorization[..i] + authorization[i + 7..]
    ensures StartsWith(authorization, "Bearer ") ==> token == authorization[7..]
  {
    RemoveFirst(authorization, "Bearer ")
  }

  /** A present API key or client ID that is too short. */
  predicate ShortCredential(o: Option<string>) {
    Truthy(o) && |o.value| < MinCredentialLength
  }

  function Unauthorized(code: string, message: string, h: Headers, timestamp: Time, generated: string): ErrorReply {
    ErrorReply(401, ErrorBody(code, message, timestamp, CorrelationId(h.correlationId, generated), None))
  }

  /**
   * The middleware's decision. `generated` is the uuid used when no correlation
   * header is sent; `userUuid` and `customerUuid` are the uuids of the user context.
   */
  function Decide(h: Headers, timestamp: Time, generated: string, userUuid: string, customerUuid: string): (d: Decision)
    // no credential at all
    ensures !Truthy(h.authorization) && !Truthy(h.apiKey) && !Truthy(h.clientId) ==>
      d.Reject? && d.reply.error.code == "UNAUTHORIZED"
    // a bearer token shorter than ten characters wins over every later check
    ensures Truthy(h.authorization) && |BearerToken(h.authorization.value)| < MinCredentialLength ==>
      d.Reject? && d.reply.error.code == "INVALID_TOKEN"
    // a good or absent token, but a short key or client ID
    ensures ((Truthy(h.authorization) || Truthy(h.apiKey) || Truthy(h.clientId))
             && (Truthy(h.authorization) ==> |BearerToken(h.authorization.value)| >= MinCredentialLength)
             && (ShortCredential(h.apiKey) || ShortCredential(h.clientId))) ==>
      d.Reject? && d.reply.error.code == "INVALID_CREDENTIALS"
    // the request proceeds exactly when every check passes
    ensures d.Accept? <==>
      && (Truthy(h.authorization) || Truthy(h.apiKey) || Truthy(h.clientId))
      && (Truthy(h.authorization) ==> |BearerToken(h.authorization.value)| >= MinCredentialLength)
      && !ShortCredential(h.apiKey) && !ShortCredential(h.clientId)
    ensures d.Reject? ==> d.reply.status == 401 && d.reply.error.details.None?
    ensures d.Reject? ==> d.reply.error.correlationId == CorrelationId(h.correlationId, generated)
    ensures d.Accept? ==> d.user.scopes == Scopes
  {
    if !Truthy(h.authorization) && !Truthy(h.apiKey) && !Truthy(h.clientId) then
      Reject(Unauthorized("UNAUTHORIZED",
        "Authentication required. Please provide a valid Bearer token, API key, or Client ID.",
        h, timestamp, generated))
    else if Truthy(h.authorization) && |BearerToken(h.authorization.value)| < MinCredentialLength then
      Reject(Unauthorized("INVALID_TOKEN", "Invalid or expired authentication token", h, timestamp, generated))
    else if ShortCredential(h.apiKey) || ShortCredential(h.clientId) then
      Reject(Unauthorized("INVALID_CREDENTIALS", "Invalid API key or Client ID", h, timestamp, generated))
    else
      Accept(User("user-" + Prefix(userUuid, 8), "cust-" + Prefix(customerUuid, 8), Scopes))
  }

  /** A request as the middleware sees it: fixed headers and the `user` slot it may fill. */
  class Request {
    const headers: Headers
    var user: Option<User>

    constructor (headers: Headers)
      ensures this.headers == headers && user == None
    {
      this.headers := headers;
      user := None;
    }

    /** Runs the middleware: returns the rejection it sends, or sets `user` and returns `None`. */
    method Authenticate(timestamp: Time, generated: string, userUuid: string, customerUuid: string)
      returns (rejection: Option<ErrorReply>)
      modifies this
      ensures match Decide(headers, timestamp, generated, userUuid, customerUuid)
        case Reject(reply) => rejection == Some(reply) && user == old(user)
        case Accept(u) => rejection == None && user == Some(u)
    {
      var d := Decide(headers, timestamp, generated, userUuid, customerUuid);
      match d
      case Reject(reply) =>
        rejection := Some(reply);
      case Accept(u) =>
        user := Some(u);
        rejection := None;
    }
  }

  /** A short token is reported as INVALID_TOKEN even when the API key is short as well. */
  lemma ShortTokenReportedFirst(token: string, apiKey: string, timestamp: Time, generated: string)
    requires 0 < |token| < MinCredentialLength && 0 < |apiKey| < MinCredentialLength
    ensures var h := Headers(Some("Bearer " + token), Some(apiKey), None, None);
      Decide(h, timestamp, generated, "", "").reply.error.code == "INVALID_TOKEN"
  {
    var a := "Bearer " + token;
    StartsWithConcat("Bearer ", token);
    assert a[7..] == token;
  }
}

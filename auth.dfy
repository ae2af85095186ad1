/** Bearer-token authentication of a request (backend/src/middleware/auth.middleware.ts).
    The identity provider's token check is a parameter: it either decodes the
    token or fails with the provider's error code, when it gives one. */
module Auth {
  import opened Base
  import opened Http

  /** The scheme prefix; the test is case-sensitive and needs the space. */
  const Bearer := "Bearer "

  /** What the authorization header yields. */
  datatype Credential =
    | NoBearer          // no header, or one that does not start with the prefix
    | EmptyToken        // the prefix with nothing usable after it
    | Token(t: string)

  /** `authHeader.split('Bearer ')[1]`: the header starts with the prefix, so the
      piece after the first separator is the text up to the next separator. */
  function ExtractToken(header: Option<string>): (c: Credential)
    ensures c.NoBearer? <==> (header.None? || !StartsWith(header.value, Bearer))
    ensures c.EmptyToken? <==> (header.Some? && StartsWith(header.value, Bearer)
                                && (|header.value| == |Bearer| || StartsWith(header.value[|Bearer|..], Bearer)))
    ensures c.Token? ==> c.t != [] && StartsWith(header.value, Bearer + c.t) && !IsSubstring(Bearer, c.t)
  {
    if header.None? || !StartsWith(header.value, Bearer) then NoBearer
    else
      var rest := header.value[|Bearer|..];
      var t := TextBefore(rest, Bearer);
      if t == [] then EmptyToken
      else
        assert header.value == Bearer + rest;
        assert rest[..|t|] == t;
        assert (Bearer + t) == header.value[..|Bearer + t|];
        Token(t)
  }

  /** A text without the separator, sent after the prefix, is read back unchanged. */
  lemma TokenRoundTrip(t: string)
    requires t != [] && !IsSubstring(Bearer, t)
    ensures ExtractToken(Some(Bearer + t)) == Token(t)
  {
    var h := Bearer + t;
    assert h[..|Bearer|] == Bearer;
    assert h[|Bearer|..] == t;
    var r := TextBefore(t, Bearer);
    if r != t {
      assert OccursAt(Bearer, t, |r|) by {
        assert t[|r|..][..|Bearer|] == t[|r|..|r| + |Bearer|];
      }
    }
  }

  /** The JSON body of a refusal. */
  datatype Reply = Reply(success: bool, error: string, code: string)

  const MissingMessage := "Authentication required. Please provide a valid token."
  const MalformedMessage := "Authentication token is missing or malformed."
  const ExpiredMessage := "Authentication token has expired. Please sign in again."
  const RevokedMessage := "Authentication token has been revoked. Please sign in again."
  const FormatMessage := "Invalid authentication token format."
  const FailedMessage := "Authentication failed. Invalid or expired token."

  /** The provider's failure codes, each with its own answer; any other code
      (or none) is a generic failure. */
  function VerifyFailure(code: Option<string>): (r: Reply)
    ensures !r.success
    ensures r.code == "AUTH_TOKEN_EXPIRED" <==> code == Some("auth/id-token-expired")
    ensures r.code == "AUTH_TOKEN_REVOKED" <==> code == Some("auth/id-token-revoked")
    ensures r.code == "AUTH_TOKEN_INVALID" <==> code == Some("auth/argument-error")
    ensures r.code == "AUTH_FAILED"
            <==> code !in {Some("auth/id-token-expired"), Some("auth/id-token-revoked"), Some("auth/argument-error")}
  {
    if code == Some("auth/id-token-expired") then Reply(false, ExpiredMessage, "AUTH_TOKEN_EXPIRED")
    else if code == Some("auth/id-token-revoked") then Reply(false, RevokedMessage, "AUTH_TOKEN_REVOKED")
    else if code == Some("auth/argument-error") then Reply(false, FormatMessage, "AUTH_TOKEN_INVALID")
    else Reply(false, FailedMessage, "AUTH_FAILED")
  }

  /** The token check: a decoded token, or the provider's error code. */
  type Verifier = string -> Result<DecodedToken, Option<string>>

  datatype Decision = Admit(user: DecodedToken) | Refuse(reply: Reply)

  /** What `authenticateUser` decides for a header. */
  function Authenticate(header: Option<string>, verify: Verifier): (d: Decision)
    ensures d.Admit? <==> ExtractToken(header).Token? && verify(ExtractToken(header).t).Ok?
    ensures d.Admit? ==> d.user == verify(ExtractToken(header).t).value
    ensures d.Refuse? ==> !d.reply.success
    ensures d.Refuse? ==> d.reply.code in {"AUTH_TOKEN_MISSING", "AUTH_TOKEN_INVALID", "AUTH_TOKEN_EXPIRED", "AUTH_TOKEN_REVOKED", "AUTH_FAILED"}
    ensures d.Refuse? && d.reply.code == "AUTH_TOKEN_MISSING" <==> ExtractToken(header).NoBearer?
  {
    match ExtractToken(header)
    case NoBearer => Refuse(Reply(false, MissingMessage, "AUTH_TOKEN_MISSING"))
    case EmptyToken => Refuse(Reply(false, MalformedMessage, "AUTH_TOKEN_INVALID"))
    case Token(t) =>
      match verify(t)
      case Ok(user) => Admit(user)
      case Err(code) => Refuse(VerifyFailure(code))
  }

  /** The provider is consulted only when a token was found: without one, any two
      providers lead to the same refusal. */
  lemma NoTokenNoVerifier(header: Option<string>, v1: Verifier, v2: Verifier)
    requires !ExtractToken(header).Token?
    ensures Authenticate(header, v1) == Authenticate(header, v2)
    ensures Authenticate(header, v1).Refuse?
  {
  }

  /** A well-formed bearer header is admitted exactly when the provider accepts its token. */
  lemma BearerAdmitted(t: string, verify: Verifier)
    requires t != [] && !IsSubstring(Bearer, t)
    ensures Authenticate(Some(Bearer + t), verify).Admit? <==> verify(t).Ok?
    ensures verify(t).Ok? ==> Authenticate(Some(Bearer + t), verify) == Admit(verify(t).value)
    ensures verify(t).Err? ==> Authenticate(Some(Bearer + t), verify) == Refuse(VerifyFailure(verify(t).error))
  {
    TokenRoundTrip(t);
  }

  /** `authenticateUser`: admits the request (recording the user and its id) or answers 401. */
  method AuthenticateUser(req: Request, verify: Verifier) returns (o: Outcome<Reply>)
    modifies req
    ensures match Authenticate(old(req.authorization), verify)
      case Admit(u) => o == Next && req.user == Some(u) && req.userId == Some(u.uid)
      case Refuse(reply) => o == Respond(401, reply) && req.user == old(req.user) && req.userId == old(req.userId)
    ensures req.body == old(req.body) && req.params == old(req.params) && req.query == old(req.query)
    ensures req.authorization == old(req.authorization) && req.verb == old(req.verb) && req.url == old(req.url)
  {
    var d := Authenticate(req.authorization, verify);
    match d
    case Admit(u) =>
      req.user := Some(u);
      req.userId := Some(u.uid);
      o := Next;
    case Refuse(reply) =>
      o := Respond(401, reply);
  }

  /** What `optionalAuth` records: the user when a token was found and accepted, nothing otherwise. */
  function OptionalUser(header: Option<string>, verify: Verifier): (u: Option<DecodedToken>)
    ensures u.Some? <==> Authenticate(header, verify).Admit?
    ensures u.Some? ==> u.value == Authenticate(header, verify).user
  {
    match ExtractToken(header)
    case Token(t) => if verify(t).Ok? then Some(verify(t).value) else None
    case _ => None
  }

  /** `optionalAuth`: always continues; records the user only when one was admitted. */
  method OptionalAuth(req: Request, verify: Verifier) returns (o: Outcome<Reply>)
    modifies req
    ensures o == Next
    ensures var u := OptionalUser(old(req.authorization), verify);
      if u.Some? then req.user == u && req.userId == Some(u.value.uid)
      else req.user == old(req.user) && req.userId == old(req.userId)
    ensures req.body == old(req.body) && req.params == old(req.params) && req.query == old(req.query)
    ensures req.authorization == old(req.authorization) && req.verb == old(req.verb) && req.url == old(req.url)
  {
    var u := OptionalUser(req.authorization, verify);
    if u.Some? {
      req.user := u;
      req.userId := Some(u.value.uid);
    }
    o := Next;
  }
}

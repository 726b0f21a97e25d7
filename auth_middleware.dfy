/**
 * middleware/AuthMiddleware.js: `VerifyToken` reads the Authorization header, takes a
 * token from it and lets the request through when `jwt.verify` accepts that token.
 * `jwt.verify` (with its secret) is the function parameter `verify`, `None` standing
 * for a thrown verification error.
 */
module AuthMiddleware {
  import opened Wrappers
  import opened Text
  import AiService

  /** A decoded token payload, as a JSON object of text values. */
  type Claims = map<string, string>

  /** The payload signed at registration and login: `{ id, role }` and the issue time `iat`. */
  function SignedClaims(id: string, role: string, iat: string): (c: Claims)
    ensures "_id" !in c && "id" in c && "role" in c && c["id"] == id && c["role"] == role
  {
    map["id" := id, "role" := role, "iat" := iat]
  }

  datatype Reply = Reply(status: int, message: string)

  /** Every response written (in order), the `req.user` set, and how often `next` ran. */
  datatype AuthOutcome = AuthOutcome(replies: seq<Reply>, user: Option<Claims>, nextCalls: nat)

  const MissingMessage := "Authorization missing"
  const AccessDeniedMessage := "Access denied, Login or register"
  const VerifyFailedMessage := "error verifying token"

  /** `req.headers.authorization || req.headers.Authorization` */
  function HeaderOf(authorization: Option<string>, authorizationCap: Option<string>): (h: Option<string>)
    ensures authorization.Some? && authorization.value != "" ==> h == authorization
    ensures !(authorization.Some? && authorization.value != "") ==> h == authorizationCap
  {
    if authorization.Some? && authorization.value != "" then authorization else authorizationCap
  }

  /** `authheaders && authheaders.startsWith("Bearer")` */
  predicate IsBearerHeader(h: Option<string>) {
    h.Some? && h.value != "" && StartsWith(h.value, "Bearer")
  }

  /** `authheaders.split("")[1]`: the header's second character, if it has one. */
  function TokenAsWritten(header: string): Option<string> {
    if |header| >= 2 then Some([header[1]]) else None
  }

  /** For every header the gate lets through, the extracted "token" is the letter "e". */
  lemma TokenIsAlwaysE(header: string)
    requires StartsWith(header, "Bearer")
    ensures TokenAsWritten(header) == Some("e")
  {
    assert header[1] == "Bearer"[1];
  }

  /** `VerifyToken(req, res, next)` as written. */
  function VerifyToken(authorization: Option<string>, authorizationCap: Option<string>, verify: string -> Option<Claims>): (o: AuthOutcome)
    ensures var h := HeaderOf(authorization, authorizationCap);
      && (!IsBearerHeader(h) ==> o == AuthOutcome([Reply(400, MissingMessage)], None, 0))
      && (IsBearerHeader(h) ==> o.user == verify("e"))
      && (IsBearerHeader(h) && verify("e").Some? ==> o.replies == [] && o.nextCalls == 1)
      && (IsBearerHeader(h) && verify("e").None? ==> o.replies == [Reply(400, VerifyFailedMessage)] && o.nextCalls == 0)
  {
    var h := HeaderOf(authorization, authorizationCap);
    if IsBearerHeader(h) then
      var token := TokenAsWritten(h.value);
      TokenIsAlwaysE(h.value);
      // the empty-token reply does not return, so verification still runs after it
      var early := if token.None? || token.value == "" then [Reply(400, AccessDeniedMessage)] else [];
      var decoded := if token.Some? then verify(token.value) else None;
      match decoded
      case Some(c) => AuthOutcome(early, Some(c), 1)
      case None => AuthOutcome(early + [Reply(400, VerifyFailedMessage)], None, 0)
    else
      AuthOutcome([Reply(400, MissingMessage)], None, 0)
  }

  /**
   * When the one-character text "e" is not a valid token (it is no signed JWS), every
   * request with a Bearer header is refused with 400 "error verifying token".
   */
  lemma EveryBearerRequestRefused(authorization: Option<string>, authorizationCap: Option<string>,
                                  verify: string -> Option<Claims>)
    requires verify("e").None?
    requires IsBearerHeader(HeaderOf(authorization, authorizationCap))
    ensures VerifyToken(authorization, authorizationCap, verify) == AuthOutcome([Reply(400, VerifyFailedMessage)], None, 0)
  {
  }

  /** The "Access denied" reply of the empty-token branch is never written. */
  lemma EmptyTokenBranchUnreachable(authorization: Option<string>, authorizationCap: Option<string>, verify: string -> Option<Claims>)
    ensures Reply(400, AccessDeniedMessage) !in VerifyToken(authorization, authorizationCap, verify).replies
  {
  }

  /** `next` runs at most once, exactly when a user was set, and never after a reply. */
  lemma NextAtMostOnce(authorization: Option<string>, authorizationCap: Option<string>, verify: string -> Option<Claims>)
    ensures var o := VerifyToken(authorization, authorizationCap, verify);
      o.nextCalls <= 1 && (o.nextCalls == 1 <==> o.user.Some?) && (o.nextCalls == 1 <==> o.replies == [])
  {
  }

  /** `authheaders.split(" ")[1]`: the second space-separated field, as section 2.1 of RFC 6750 lays out "Bearer <token>". */
  function TokenCorrected(header: string): Option<string> {
    var fields := AiService.Split(header, ' ');
    if |fields| >= 2 then Some(fields[1]) else None
  }

  /** The corrected extraction returns the credential of "Bearer <token>". */
  lemma TokenCorrectedExtracts(token: string)
    requires ' ' !in token
    ensures TokenCorrected("Bearer " + token) == Some(token)
  {
    assert "Bearer " + token == "Bearer" + [' '] + token;
    AiService.SplitConcat("Bearer", token, ' ');
    AiService.SplitWithoutSeparator("Bearer", ' ');
    AiService.SplitWithoutSeparator(token, ' ');
  }

  /** `VerifyToken` with the corrected extraction, and a `return` after the empty-token reply. */
  function VerifyTokenCorrected(authorization: Option<string>, authorizationCap: Option<string>, verify: string -> Option<Claims>): (o: AuthOutcome)
    ensures o.nextCalls <= 1 && (o.nextCalls == 1 <==> o.user.Some?) && (o.nextCalls == 1 <==> o.replies == [])
    ensures |o.replies| <= 1
  {
    var h := HeaderOf(authorization, authorizationCap);
    if IsBearerHeader(h) then
      var token := TokenCorrected(h.value);
      if token.None? || token.value == "" then AuthOutcome([Reply(400, AccessDeniedMessage)], None, 0)
      else
        match verify(token.value)
        case Some(c) => AuthOutcome([], Some(c), 1)
        case None => AuthOutcome([Reply(400, VerifyFailedMessage)], None, 0)
    else
      AuthOutcome([Reply(400, MissingMessage)], None, 0)
  }

  /** With the correction, "Bearer <token>" is checked by verifying the token itself. */
  lemma CorrectedVerifiesTheToken(token: string, verify: string -> Option<Claims>)
    requires ' ' !in token && token != ""
    ensures VerifyTokenCorrected(Some("Bearer " + token), None, verify).user == verify(token)
  {
    TokenCorrectedExtracts(token);
    assert StartsWith("Bearer " + token, "Bearer");
  }
}

/** The `authenticate` middleware (backend/src/middleware/authenticate.ts):
    the access cookie must be present and verify under the access secret;
    the request then carries the token's user and session. The session
    table is never consulted. */
module Authenticate {
  import opened Base
  import opened Time
  import opened Jwt
  import opened Http

  const NotAuthorized := AppError(UNAUTHORIZED, "not authorized", Some(InvalidAccessToken))

  /** The middleware's decision on an access cookie. */
  function CheckAccessToken(env: Env, cookie: Option<Token>, now: int): (r: Result<Payload>)
    ensures !Truthy(cookie) ==> r == Err(NotAuthorized)
    ensures Truthy(cookie) ==>
      var v := VerifyToken(env, cookie.value, None, now);
      && (r.Ok? <==> v.Verified?)
      && (r.Ok? ==> r.value == v.payload)
      && (r.Err? ==> r.error.status == UNAUTHORIZED && r.error.code == Some(InvalidAccessToken))
      && (r.Err? ==> (r.error.message == "Token expired" <==> v.message == "jwt expired"))
      && (r.Err? ==> r.error.message in {"Token expired", "Invalid token"})
  {
    if !Truthy(cookie) then Err(NotAuthorized)
    else
      match VerifyToken(env, cookie.value, None, now)
      case Verified(payload) => Ok(payload)
      case Rejected(error) =>
        Err(AppError(UNAUTHORIZED, if error == "jwt expired" then "Token expired" else "Invalid token",
                     Some(InvalidAccessToken)))
  }

  /** `authenticate`: on success `req.userId` and `req.sessionId` come from the
      token's payload; on failure the request is left as it was. */
  method Authenticate(env: Env, req: Request, now: int) returns (r: Result<()>)
    modifies req
    ensures var decision := CheckAccessToken(env, req.cookies.accessToken, now);
      && (decision.Err? ==> r == Err(decision.error) && unchanged(req))
      && (decision.Ok? ==> r == Ok(()) && req.userId == decision.value.userId
                                       && req.sessionId == Some(decision.value.sessionId))
  {
    var decision := CheckAccessToken(env, req.cookies.accessToken, now);
    if decision.Err? {
      return Err(decision.error);
    }
    req.userId := decision.value.userId;
    req.sessionId := Some(decision.value.sessionId);
    r := Ok(());
  }

  /** An access token keeps authenticating its holder for its whole fifteen
      minutes, whatever happened to its session meanwhile: the decision does
      not depend on the session table at all. After that it is "Token expired". */
  lemma AccessTokenOutlivesSession(env: Env, sessionId: Id, userId: Id, signedAt: int, now: int)
    ensures var token := SignToken(env, AccessPayload(sessionId, userId), None, signedAt);
      CheckAccessToken(env, Some(token), now)
      == if now < signedAt + FIFTEEN_MINUTES_MS then Ok(AccessPayload(sessionId, userId))
         else Err(AppError(UNAUTHORIZED, "Token expired", Some(InvalidAccessToken)))
  {
    AccessTokenRoundTrip(env, AccessPayload(sessionId, userId), signedAt, now);
  }

  /** With distinct secrets a refresh token is never accepted as an access token. */
  lemma RefreshTokenIsNoAccessToken(env: Env, sessionId: Id, signedAt: int, now: int)
    requires env.jwtSecret != env.jwtRefreshSecret
    ensures CheckAccessToken(env, Some(SignToken(env, RefreshPayload(sessionId), Some(RefreshTokenSignOptions(env)), signedAt)), now)
         == Err(AppError(UNAUTHORIZED, "Invalid token", Some(InvalidAccessToken)))
  {
    SecretsAreSeparate(env, RefreshPayload(sessionId), signedAt, now);
  }
}

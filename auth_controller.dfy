/** The auth route handlers (backend/src/controllers/auth.controller.ts):
    each calls one service flow and turns its outcome into a response, with
    the auth cookies it sets or clears. A failed flow's error goes to the
    error handler unchanged and no cookie is touched. */
module AuthController {
  import opened Base
  import opened Time
  import opened Jwt
  import opened UserModel
  import opened VerificationCodeModel
  import opened SessionModel
  import opened AuthService
  import opened Http

  /** `accessToken || ''`. */
  function TokenOrEmpty(cookie: Option<Token>): Token
  {
    if Truthy(cookie) then cookie.value else Garbage("")
  }

  /** `registerHandler`: 201 with both auth cookies and the new user's view. */
  method RegisterHandler(db: AuthServer, email: string, password: string, userAgent: Option<string>,
                         now: int, salt: nat, mail: MailResult) returns (r: Result<Response>)
    requires db.Valid()
    modifies db
    ensures db.Valid()
    ensures r.Err? ==> unchanged(db)
    ensures r.Ok? <==> !EmailTaken(old(db.users), email) && PassesValidation(email, password)
    ensures EmailTaken(old(db.users), email) ==> r == Fail(CONFLICT, "email already in use ")
    ensures !EmailTaken(old(db.users), email) && !PassesValidation(email, password) ==>
      r == Fail(INTERNAL_SERVER_ERROR, "user validation failed")
    ensures r.Ok? ==>
      var userId, codeId, sessionId := old(db.nextId), old(db.nextId) + 1, old(db.nextId) + 2;
      && PassesValidation(email, password)
      && db.nextId == old(db.nextId) + 3
      && db.users == old(db.users)[userId := CreateUser(email, password, now, salt)]
      && db.codes == old(db.codes)[codeId := NewCode(userId, EmailVerification, now + ONE_YEAR_MS, now)]
      && db.sessions == old(db.sessions)[sessionId := NewSession(userId, userAgent, now, db.sessionLifetime)]
      && r.value == Response(CREATED,
                             SetAuthCookies(db.AccessTokenFor(sessionId, userId, now), db.RefreshTokenFor(sessionId, now)),
                             UserJson(OmitPassword(userId, db.users[userId])))
  {
    var created := db.CreateAccount(email, password, userAgent, now, salt, mail);
    if created.Err? {
      return Err(created.error);
    }
    r := Ok(Response(CREATED, SetAuthCookies(created.value.accessToken, created.value.refreshToken),
                     UserJson(created.value.user)));
  }

  /** `loginHandler`: 200 with both auth cookies and a message, not the user. */
  method LoginHandler(db: AuthServer, email: string, password: string, userAgent: Option<string>, now: int)
    returns (r: Result<Response>)
    requires db.Valid()
    modifies db
    ensures db.Valid()
    ensures db.users == old(db.users) && db.codes == old(db.codes)
    ensures r.Err? ==> unchanged(db) && r.error.status == UNAUTHORIZED
    ensures !EmailTaken(old(db.users), email) ==> r == Fail(UNAUTHORIZED, "invalid email ")
    ensures EmailTaken(old(db.users), email)
            && !ComparePassword(old(db.users)[UserWithEmail(old(db.users), email)], password) ==>
      r == Fail(UNAUTHORIZED, "invalid password")
    ensures r.Ok? <==> EmailTaken(old(db.users), email)
                       && ComparePassword(old(db.users)[UserWithEmail(old(db.users), email)], password)
    ensures r.Ok? ==>
      var userId, sessionId := UserWithEmail(old(db.users), email), old(db.nextId);
      && sessionId !in old(db.sessions)
      && db.nextId == old(db.nextId) + 1
      && db.sessions == old(db.sessions)[sessionId := NewSession(userId, userAgent, now, db.sessionLifetime)]
      && r.value == Response(OK,
                             SetAuthCookies(db.AccessTokenFor(sessionId, userId, now), db.RefreshTokenFor(sessionId, now)),
                             Message("login successful"))
  {
    var loggedIn := db.LoginUser(email, password, userAgent, now);
    if loggedIn.Err? {
      return Err(loggedIn.error);
    }
    r := Ok(Response(OK, SetAuthCookies(loggedIn.value.accessToken, loggedIn.value.refreshToken),
                     Message("login successful")));
  }

  /** `logoutHandler`: never fails; deletes the session an access token that
      verifies names, and clears both cookies in every case. */
  method LogoutHandler(db: AuthServer, cookies: Cookies, now: int) returns (resp: Response)
    requires db.Valid()
    modifies db
    ensures db.Valid()
    ensures resp == Response(OK, ClearAuthCookies(), Message("logout successful"))
    ensures db.users == old(db.users) && db.codes == old(db.codes) && db.nextId == old(db.nextId)
    ensures var v := VerifyToken(db.env, TokenOrEmpty(cookies.accessToken), None, now);
      db.sessions == if v.Verified? then old(db.sessions) - {v.payload.sessionId} else old(db.sessions)
  {
    var verified := VerifyToken(db.env, TokenOrEmpty(cookies.accessToken), None, now);
    if verified.Verified? {
      db.sessions := db.sessions - {verified.payload.sessionId};
    }
    resp := Response(OK, ClearAuthCookies(), Message("logout successful"));
  }

  /** `refreshHandler`: a missing refresh cookie fails before the service runs;
      on success the refresh cookie is set only when the session was renewed,
      and the access cookie always. */
  method RefreshHandler(db: AuthServer, cookies: Cookies, now: int) returns (r: Result<Response>)
    requires db.Valid()
    modifies db
    ensures db.Valid()
    ensures db.users == old(db.users) && db.codes == old(db.codes) && db.nextId == old(db.nextId)
    ensures r.Err? ==> unchanged(db) && r.error.status == UNAUTHORIZED
    ensures !Truthy(cookies.refreshToken) ==> r == Fail(UNAUTHORIZED, "Missing refresh token")
    ensures Truthy(cookies.refreshToken) ==>
      var v := VerifyToken(db.env, cookies.refreshToken.value, Some(RefreshVerifyOptions(db.env)), now);
      && (v.Rejected? ==> r == Fail(UNAUTHORIZED, "invalid refresh token"))
      && (v.Verified? && !(v.payload.sessionId in old(db.sessions) && IsAlive(old(db.sessions)[v.payload.sessionId], now)) ==>
            r == Fail(UNAUTHORIZED, "Session expired"))
      && (r.Ok? <==> v.Verified? && v.payload.sessionId in old(db.sessions)
                     && IsAlive(old(db.sessions)[v.payload.sessionId], now))
    ensures r.Ok? ==>
      var sessionId := VerifyToken(db.env, cookies.refreshToken.value, Some(RefreshVerifyOptions(db.env)), now).payload.sessionId;
      var s := old(db.sessions)[sessionId];
      && db.sessions == (if NeedsRenewal(s, now) then old(db.sessions)[sessionId := Renewed(s, now)] else old(db.sessions))
      && r.value == Response(OK,
                          (if NeedsRenewal(s, now) then [SetRefreshToken(db.RefreshTokenFor(sessionId, now))] else [])
                          + [SetAccessToken(db.AccessTokenFor(sessionId, s.userId, now))],
                          Message("Access token refreshed"))
  {
    if !Truthy(cookies.refreshToken) {
      return Fail(UNAUTHORIZED, "Missing refresh token");
    }
    var refreshed := db.RefreshUserAccessToken(cookies.refreshToken.value, now);
    if refreshed.Err? {
      return Err(refreshed.error);
    }
    var events := [];
    if refreshed.value.newRefreshToken.Some? {
      events := [SetRefreshToken(refreshed.value.newRefreshToken.value)];
    }
    r := Ok(Response(OK, events + [SetAccessToken(refreshed.value.accessToken)], Message("Access token refreshed")));
  }

  /** `verifyEmailHandler`: 200 with a message once the code was consumed. */
  method VerifyEmailHandler(db: AuthServer, code: Id, now: int) returns (r: Result<Response>)
    requires db.Valid()
    modifies db
    ensures db.Valid()
    ensures r.Err? ==> unchanged(db)
    ensures !HasUsableCode(old(db.codes), code, EmailVerification, now) ==> r == Fail(NOT_FOUND, "Invalid or expired code")
    ensures db.sessions == old(db.sessions) && db.nextId == old(db.nextId)
    ensures HasUsableCode(old(db.codes), code, EmailVerification, now) && old(db.codes)[code].userId !in old(db.users) ==>
      r == Fail(INTERNAL_SERVER_ERROR, "Failed to verify email")
    ensures r.Ok? <==> HasUsableCode(old(db.codes), code, EmailVerification, now) && old(db.codes)[code].userId in old(db.users)
    ensures r.Ok? ==>
      var userId := old(db.codes)[code].userId;
      && r.value == Response(OK, [], Message("Email was succesfully verified"))
      && db.users == old(db.users)[userId := old(db.users)[userId].(verified := true, updatedAt := now)]
      && db.codes == old(db.codes) - {code}
  {
    var verified := db.VerifyEmail(code, now);
    if verified.Err? {
      return Err(verified.error);
    }
    r := Ok(Response(OK, [], Message("Email was succesfully verified")));
  }

  /** `sendPasswordResetHandler`: the same answer whatever the service did. */
  method SendPasswordResetHandler(db: AuthServer, email: string, now: int, mail: MailResult) returns (resp: Response)
    requires db.Valid()
    modifies db
    ensures db.Valid()
    ensures resp == Response(OK, [], Message("Password reset email sent"))
    ensures db.users == old(db.users) && db.sessions == old(db.sessions)
    ensures !EmailTaken(old(db.users), email) ==> unchanged(db)
    ensures (EmailTaken(old(db.users), email)
             && |RecentResetCodes(old(db.codes), UserWithEmail(old(db.users), email), now - FIVE_MINUTES_MS)| > 1) ==>
      unchanged(db)
    ensures (EmailTaken(old(db.users), email)
             && |RecentResetCodes(old(db.codes), UserWithEmail(old(db.users), email), now - FIVE_MINUTES_MS)| <= 1) ==>
      var userId, codeId := UserWithEmail(old(db.users), email), old(db.nextId);
      && codeId !in old(db.codes)
      && db.nextId == old(db.nextId) + 1
      && db.codes == old(db.codes)[codeId := NewCode(userId, PasswordReset, now + ONE_HOUR_MS, now)]
  {
    var _ := db.SendPasswordResetEmail(email, now, mail);
    resp := Response(OK, [], Message("Password reset email sent"));
  }

  /** `resetPasswordHandler`: both auth cookies cleared after a successful reset. */
  method ResetPasswordHandler(db: AuthServer, password: string, code: Id, now: int, salt: nat)
    returns (r: Result<Response>)
    requires db.Valid()
    modifies db
    ensures db.Valid()
    ensures r.Err? ==> unchanged(db)
    ensures !HasUsableCode(old(db.codes), code, PasswordReset, now) ==> r == Fail(NOT_FOUND, "Invalid or expired code")
    ensures db.nextId == old(db.nextId)
    ensures HasUsableCode(old(db.codes), code, PasswordReset, now) && old(db.codes)[code].userId !in old(db.users) ==>
      r == Fail(INTERNAL_SERVER_ERROR, "Failed to reset password")
    ensures r.Ok? <==> HasUsableCode(old(db.codes), code, PasswordReset, now) && old(db.codes)[code].userId in old(db.users)
    ensures r.Ok? ==>
      var userId := old(db.codes)[code].userId;
      && r.value == Response(OK, ClearAuthCookies(), Message("password reset successful"))
      && db.users == old(db.users)[userId := old(db.users)[userId].(password := HashValue(password, salt), updatedAt := now)]
      && db.codes == old(db.codes) - {code}
      && db.sessions == WithoutSessionsOf(old(db.sessions), userId)
  {
    var reset := db.ResetPassword(password, code, now, salt);
    if reset.Err? {
      return Err(reset.error);
    }
    r := Ok(Response(OK, ClearAuthCookies(), Message("password reset successful")));
  }
}

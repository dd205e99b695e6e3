/** Sequences of requests against a fresh backend, showing properties that
    span several flows: a verification code works once, the reset-request
    rate limit, a password reset revoking every session, and the sliding
    renewal of a session. */
module Scenarios {
  import opened Base
  import opened Time
  import opened Jwt
  import opened UserModel
  import opened VerificationCodeModel
  import opened SessionModel
  import opened AuthService
  import opened Authenticate

  /** Registration yields tokens that decode to the new session and user, and
      the emailed verification code verifies the user once and only once. */
  method EmailCodeIsSingleUse(env: Env, lifetime: int, email: string, password: string, now: int, salt: nat, mail: MailResult)
    returns (registered: Result<AuthTokens>, first: Result<UserView>, second: Result<UserView>)
    requires lifetime > 0 && PassesValidation(email, password)
    ensures registered.Ok? && !registered.value.user.verified
    ensures var access := VerifyToken(env, registered.value.accessToken, None, now);
      var refresh := VerifyToken(env, registered.value.refreshToken, Some(RefreshVerifyOptions(env)), now);
      && access.Verified? && refresh.Verified?
      && access.payload.userId == Some(registered.value.user.id)
      && refresh.payload == RefreshPayload(access.payload.sessionId)
    ensures first.Ok? && first.value.verified && first.value.id == registered.value.user.id
    ensures second == Fail(NOT_FOUND, "Invalid or expired code")
  {
    var db := new AuthServer(env, lifetime);
    registered := db.CreateAccount(email, password, None, now, salt, mail);
    AccessTokenRoundTrip(env, AccessPayload(2, 0), now, now);
    RefreshTokenRoundTrip(env, RefreshPayload(2), now, now);
    first := db.VerifyEmail(1, now);
    second := db.VerifyEmail(1, now);
  }

  /** Two reset requests within five minutes pass, the third is refused
      without creating a code, and once the window has moved past them a
      request passes again. */
  method ResetRequestsAreThrottled(env: Env, lifetime: int, email: string, password: string, now: int, salt: nat, mail: MailResult)
    returns (first: Option<ResetEmailSent>, second: Option<ResetEmailSent>, third: Option<ResetEmailSent>, later: Option<ResetEmailSent>,
             codesBeforeThird: map<Id, VerificationCode>, codesAfterThird: map<Id, VerificationCode>)
    requires lifetime > 0 && PassesValidation(email, password) && Delivered(mail)
    ensures first.Some? && second.Some? && third.None? && later.Some?
    ensures codesAfterThird == codesBeforeThird
    ensures first.value.codeId != second.value.codeId
  {
    var t1, t2, t3, t4 := now + 1000, now + 2000, now + 3000, now + 2000 + FIVE_MINUTES_MS;
    var db := new AuthServer(env, lifetime);
    var _ := db.CreateAccount(email, password, None, now, salt, mail);
    assert UserWithEmail(db.users, email) == 0;
    var codes0 := db.codes;
    NoResetCodes(codes0, 0, t1 - FIVE_MINUTES_MS);
    first := db.SendPasswordResetEmail(email, t1, mail);
    assert db.codes == codes0[3 := NewCode(0, PasswordReset, t1 + ONE_HOUR_MS, t1)];
    var codes1 := db.codes;
    NoResetCodes(codes0, 0, t2 - FIVE_MINUTES_MS);
    NewResetCodeCounts(codes0, 3, 0, t1 + ONE_HOUR_MS, t1, t2 - FIVE_MINUTES_MS);
    second := db.SendPasswordResetEmail(email, t2, mail);
    assert db.codes == codes1[4 := NewCode(0, PasswordReset, t2 + ONE_HOUR_MS, t2)];
    NoResetCodes(codes0, 0, t3 - FIVE_MINUTES_MS);
    NewResetCodeCounts(codes0, 3, 0, t1 + ONE_HOUR_MS, t1, t3 - FIVE_MINUTES_MS);
    NewResetCodeCounts(codes1, 4, 0, t2 + ONE_HOUR_MS, t2, t3 - FIVE_MINUTES_MS);
    codesBeforeThird := db.codes;
    third := db.SendPasswordResetEmail(email, t3, mail);
    codesAfterThird := db.codes;
    NoResetCodes(codes0, 0, t4 - FIVE_MINUTES_MS);
    NewResetCodeCounts(codes0, 3, 0, t1 + ONE_HOUR_MS, t1, t4 - FIVE_MINUTES_MS);
    NewResetCodeCounts(codes1, 4, 0, t2 + ONE_HOUR_MS, t2, t4 - FIVE_MINUTES_MS);
    later := db.SendPasswordResetEmail(email, t4, mail);
  }

  /** A table without password-reset codes counts none in any window. */
  lemma NoResetCodes(codes: map<Id, VerificationCode>, userId: Id, since: int)
    requires forall id :: id in codes ==> codes[id].codeType != PasswordReset
    ensures |RecentResetCodes(codes, userId, since)| == 0
  {
    assert RecentResetCodes(codes, userId, since) == {};
  }

  /** A password reset deletes the user's sessions: at any instant `later`
      within the access token's fifteen minutes, the refresh token issued at
      registration no longer works, while the access token still
      authenticates, since `authenticate` never consults the sessions. The
      old password no longer logs in and the new one does. */
  method ResetRevokesSessions(env: Env, lifetime: int, email: string, password: string, newPassword: string,
                              now: int, later: int, salt: nat, mail: MailResult)
    returns (reset: Result<UserView>, refreshAfter: Result<RefreshedTokens>, accessAfter: Result<Payload>,
             oldLogin: Result<AuthTokens>, newLogin: Result<AuthTokens>)
    requires lifetime > 0 && PassesValidation(email, password) && Delivered(mail) && newPassword != password
    requires now <= later < now + FIFTEEN_MINUTES_MS
    ensures reset.Ok? && !reset.value.verified
    ensures refreshAfter == Fail(UNAUTHORIZED, "Session expired")
    ensures accessAfter.Ok? && accessAfter.value.userId == Some(reset.value.id)
    ensures oldLogin == Fail(UNAUTHORIZED, "invalid password")
    ensures newLogin.Ok?
  {
    var db := new AuthServer(env, lifetime);
    var registered := db.CreateAccount(email, password, None, now, salt, mail);
    var sent := db.SendPasswordResetEmail(email, now, mail);
    reset := db.ResetPassword(newPassword, sent.value.codeId, now, salt + 1);
    RefreshTokenRoundTrip(env, RefreshPayload(2), now, later);
    refreshAfter := db.RefreshUserAccessToken(registered.value.refreshToken, later);
    AccessTokenOutlivesSession(env, 2, 0, now, later);
    accessAfter := CheckAccessToken(env, Some(registered.value.accessToken), later);
    assert UserWithEmail(db.users, email) == 0;
    CompareHashedValue(newPassword, password, salt + 1);
    oldLogin := db.LoginUser(email, password, None, later);
    CompareHashedValue(newPassword, newPassword, salt + 1);
    newLogin := db.LoginUser(email, newPassword, None, later);
  }

  /** A refresh while more than a day is left issues no new refresh token and
      keeps the expiry; one within the last day renews the session to thirty
      days from then and issues a new refresh token. */
  method SlidingRenewal(env: Env, lifetime: int, email: string, password: string, now: int, salt: nat, mail: MailResult)
    returns (early: Result<RefreshedTokens>, late: Result<RefreshedTokens>)
    requires ONE_DAY_MS < lifetime <= THIRTY_DAYS_MS && PassesValidation(email, password)
    ensures early.Ok? && early.value.newRefreshToken.None?
    ensures late.Ok? && late.value.newRefreshToken.Some?
  {
    var db := new AuthServer(env, lifetime);
    var registered := db.CreateAccount(email, password, None, now, salt, mail);
    RefreshTokenRoundTrip(env, RefreshPayload(2), now, now);
    early := db.RefreshUserAccessToken(registered.value.refreshToken, now);
    RefreshTokenRoundTrip(env, RefreshPayload(2), now, now + lifetime - 1);
    late := db.RefreshUserAccessToken(registered.value.refreshToken, now + lifetime - 1);
  }
}

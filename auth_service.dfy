/** The authentication flows of backend/src/services/auth.service.ts over the
    three tables the backend keeps: users, sessions and verification codes.
    Each flow is one request run to completion; it checks its guards in the
    source's order and stops at the first that fails, leaving the tables as
    they were at that point. The clock, the bcrypt salt and the mail
    provider's answer are parameters. */
module AuthService {
  import opened Base
  import opened Time
  import opened Jwt
  import opened UserModel
  import opened VerificationCodeModel
  import opened SessionModel

  /** What the mail provider answers: `data.id` when it accepted the message, `error` otherwise. */
  datatype MailResult = MailResult(id: Option<string>, error: Option<string>)

  /** `data?.id` is truthy. */
  predicate Delivered(m: MailResult)
  {
    m.id.Some? && m.id.value != ""
  }

  /** What `createAccount` and `loginUser` return. */
  datatype AuthTokens = AuthTokens(user: UserView, accessToken: Token, refreshToken: Token)

  /** What `refreshUserAccessToken` returns; `newRefreshToken` is undefined unless the session was renewed. */
  datatype RefreshedTokens = RefreshedTokens(accessToken: Token, newRefreshToken: Option<Token>)

  /** The non-empty result of `sendPasswordResetEmail`: the code and expiry the
      reset link carries, and the provider's message id. */
  datatype ResetEmailSent = ResetEmailSent(codeId: Id, expiredAt: int, emailId: string)

  predicate EmailTaken(users: map<Id, User>, email: string)
  {
    exists id :: id in users && users[id].email == email
  }

  /** The unique index on `email`. */
  ghost predicate UniqueEmails(users: map<Id, User>)
  {
    forall a, b :: a in users && b in users && users[a].email == users[b].email ==> a == b
  }

  /** The user `findOne({email})` finds. */
  ghost function UserWithEmail(users: map<Id, User>, email: string): (id: Id)
    requires EmailTaken(users, email)
    ensures id in users && users[id].email == email
  {
    var id :| id in users && users[id].email == email; id
  }

  /** `findOne({_id, type, expiredAt: {$gt: now}})` finds a code. */
  predicate HasUsableCode(codes: map<Id, VerificationCode>, id: Id, codeType: CodeType, now: int)
  {
    id in codes && IsUsable(codes[id], codeType, now)
  }

  /** The codes `countDocuments({userId, type: passwordReset, createdAt: {$gt: since}})` counts. */
  function RecentResetCodes(codes: map<Id, VerificationCode>, userId: Id, since: int): set<Id>
  {
    set id | id in codes && codes[id].userId == userId && codes[id].codeType == PasswordReset
                         && codes[id].createdAt > since
  }

  /** The sessions left after `deleteMany({userId})`. */
  function WithoutSessionsOf(sessions: map<Id, Session>, userId: Id): map<Id, Session>
  {
    map id | id in sessions && sessions[id].userId != userId :: sessions[id]
  }

  /** The cascade removes every session of that user and keeps every other session as it was. */
  lemma CascadeSparesOtherUsers(sessions: map<Id, Session>, userId: Id)
    ensures forall id :: id in WithoutSessionsOf(sessions, userId) ==> WithoutSessionsOf(sessions, userId)[id].userId != userId
    ensures forall id :: id in sessions && sessions[id].userId != userId ==>
      id in WithoutSessionsOf(sessions, userId) && WithoutSessionsOf(sessions, userId)[id] == sessions[id]
    ensures WithoutSessionsOf(sessions, userId).Keys <= sessions.Keys
  {
  }

  /** Issuing a fresh password-reset code at `now` adds exactly one to the rate-limit
      count of every window that `now` falls in, and none to any other user's count. */
  lemma {:induction false} NewResetCodeCounts(codes: map<Id, VerificationCode>, id: Id, userId: Id, expiredAt: int, now: int, since: int)
    requires id !in codes
    ensures var after := codes[id := NewCode(userId, PasswordReset, expiredAt, now)];
      |RecentResetCodes(after, userId, since)| == |RecentResetCodes(codes, userId, since)| + (if now > since then 1 else 0)
    ensures var after := codes[id := NewCode(userId, PasswordReset, expiredAt, now)];
      forall other :: other != userId ==> RecentResetCodes(after, other, since) == RecentResetCodes(codes, other, since)
  {
    var after := codes[id := NewCode(userId, PasswordReset, expiredAt, now)];
    var before := RecentResetCodes(codes, userId, since);
    if now > since {
      assert RecentResetCodes(after, userId, since) == before + {id};
      assert id !in before;
    } else {
      assert RecentResetCodes(after, userId, since) == before;
    }
  }

  /** The backend's collections and its token configuration. */
  class AuthServer {
    const env: Env
    /** How long a new session lives (the session schema's expiry default). */
    const sessionLifetime: int
    var users: map<Id, User>
    var sessions: map<Id, Session>
    var codes: map<Id, VerificationCode>
    /** The next id to hand out; every id in any table is below it. */
    var nextId: nat

    ghost predicate Valid()
      reads this
    {
      && sessionLifetime > 0
      && (forall id :: id in users ==> id < nextId)
      && (forall id :: id in sessions ==> id < nextId)
      && (forall id :: id in codes ==> id < nextId)
      && UniqueEmails(users)
      && (forall id :: id in users ==> IsStored(users[id]))
    }

    constructor (env: Env, sessionLifetime: int)
      requires sessionLifetime > 0
      ensures Valid()
      ensures this.env == env && this.sessionLifetime == sessionLifetime
      ensures users == map[] && sessions == map[] && codes == map[] && nextId == 0
    {
      this.env := env;
      this.sessionLifetime := sessionLifetime;
      users, sessions, codes, nextId := map[], map[], map[], 0;
    }

    /** The tokens `createAccount` and `loginUser` sign for a new session of a user. */
    function AccessTokenFor(sessionId: Id, userId: Id, now: int): Token
      reads this
    {
      SignToken(env, AccessPayload(sessionId, userId), None, now)
    }

    function RefreshTokenFor(sessionId: Id, now: int): Token
      reads this
    {
      SignToken(env, RefreshPayload(sessionId), Some(RefreshTokenSignOptions(env)), now)
    }

    /** `createAccount`: a taken email is a conflict; otherwise one new user,
        one email-verification code valid for a year and one session, whatever
        the mail provider answers. */
    method CreateAccount(email: string, password: string, userAgent: Option<string>, now: int, salt: nat, mail: MailResult)
      returns (r: Result<AuthTokens>)
      requires Valid()
      modifies this
      ensures Valid()
      ensures EmailTaken(old(users), email) ==>
        r == Fail(CONFLICT, "email already in use ") && unchanged(this)
      ensures !EmailTaken(old(users), email) && !PassesValidation(email, password) ==>
        r == Fail(INTERNAL_SERVER_ERROR, "user validation failed") && unchanged(this)
      ensures !EmailTaken(old(users), email) && PassesValidation(email, password) ==>
        var userId, codeId, sessionId := old(nextId), old(nextId) + 1, old(nextId) + 2;
        && userId !in old(users) && codeId !in old(codes) && sessionId !in old(sessions)
        && nextId == old(nextId) + 3
        && users == old(users)[userId := CreateUser(email, password, now, salt)]
        && codes == old(codes)[codeId := NewCode(userId, EmailVerification, now + ONE_YEAR_MS, now)]
        && sessions == old(sessions)[sessionId := NewSession(userId, userAgent, now, sessionLifetime)]
        && r == Ok(AuthTokens(OmitPassword(userId, users[userId]),
                              AccessTokenFor(sessionId, userId, now), RefreshTokenFor(sessionId, now)))
    {
      if EmailTaken(users, email) {
        return Fail(CONFLICT, "email already in use ");
      }
      if !PassesValidation(email, password) {
        return Fail(INTERNAL_SERVER_ERROR, "user validation failed");
      }
      var userId := nextId;
      var user := CreateUser(email, password, now, salt);
      users := users[userId := user];
      var codeId := nextId + 1;
      codes := codes[codeId := NewCode(userId, EmailVerification, now + ONE_YEAR_MS, now)];
      // A failed verification mail is only logged: `mail` does not steer the flow.
      var sessionId := nextId + 2;
      sessions := sessions[sessionId := NewSession(userId, userAgent, now, sessionLifetime)];
      nextId := nextId + 3;
      r := Ok(AuthTokens(OmitPassword(userId, user), AccessTokenFor(sessionId, userId, now), RefreshTokenFor(sessionId, now)));
    }

    /** `loginUser`: an unknown email or a wrong password is unauthorized and
        creates nothing; otherwise one new session for that user. */
    method LoginUser(email: string, password: string, userAgent: Option<string>, now: int)
      returns (r: Result<AuthTokens>)
      requires Valid()
      modifies this
      ensures Valid()
      ensures users == old(users) && codes == old(codes)
      ensures !EmailTaken(old(users), email) ==>
        r == Fail(UNAUTHORIZED, "invalid email ") && unchanged(this)
      ensures EmailTaken(old(users), email) && !ComparePassword(old(users)[UserWithEmail(old(users), email)], password) ==>
        r == Fail(UNAUTHORIZED, "invalid password") && unchanged(this)
      ensures EmailTaken(old(users), email) && ComparePassword(old(users)[UserWithEmail(old(users), email)], password) ==>
        var userId, sessionId := UserWithEmail(old(users), email), old(nextId);
        && sessionId !in old(sessions)
        && nextId == old(nextId) + 1
        && sessions == old(sessions)[sessionId := NewSession(userId, userAgent, now, sessionLifetime)]
        && r == Ok(AuthTokens(OmitPassword(userId, users[userId]),
                              AccessTokenFor(sessionId, userId, now), RefreshTokenFor(sessionId, now)))
    {
      if !EmailTaken(users, email) {
        return Fail(UNAUTHORIZED, "invalid email ");
      }
      var userId :| userId in users && users[userId].email == email;
      assert userId == UserWithEmail(users, email);
      if !ComparePassword(users[userId], password) {
        return Fail(UNAUTHORIZED, "invalid password");
      }
      var sessionId := nextId;
      sessions := sessions[sessionId := NewSession(userId, userAgent, now, sessionLifetime)];
      nextId := nextId + 1;
      r := Ok(AuthTokens(OmitPassword(userId, users[userId]), AccessTokenFor(sessionId, userId, now), RefreshTokenFor(sessionId, now)));
    }

    /** `refreshUserAccessToken`: the token must verify under the refresh secret
        and name a session that is still alive; a session with less than a day
        left is extended to thirty days from now and gets a new refresh token;
        an access token for the session's owner is always issued. */
    method RefreshUserAccessToken(refreshToken: Token, now: int) returns (r: Result<RefreshedTokens>)
      requires Valid()
      modifies this
      ensures Valid()
      ensures users == old(users) && codes == old(codes) && nextId == old(nextId)
      ensures VerifyToken(env, refreshToken, Some(RefreshVerifyOptions(env)), now).Rejected? ==>
        r == Fail(UNAUTHORIZED, "invalid refresh token") && unchanged(this)
      ensures var v := VerifyToken(env, refreshToken, Some(RefreshVerifyOptions(env)), now);
        v.Verified? && !(v.payload.sessionId in old(sessions) && IsAlive(old(sessions)[v.payload.sessionId], now)) ==>
        r == Fail(UNAUTHORIZED, "Session expired") && unchanged(this)
      ensures var v := VerifyToken(env, refreshToken, Some(RefreshVerifyOptions(env)), now);
        v.Verified? && v.payload.sessionId in old(sessions) && IsAlive(old(sessions)[v.payload.sessionId], now) ==>
        var sessionId := v.payload.sessionId;
        var s := old(sessions)[sessionId];
        && sessions == (if NeedsRenewal(s, now) then old(sessions)[sessionId := Renewed(s, now)] else old(sessions))
        && r == Ok(RefreshedTokens(AccessTokenFor(sessionId, s.userId, now),
                                   if NeedsRenewal(s, now) then Some(RefreshTokenFor(sessionId, now)) else None))
    {
      var verified := VerifyToken(env, refreshToken, Some(RefreshVerifyOptions(env)), now);
      if verified.Rejected? {
        return Fail(UNAUTHORIZED, "invalid refresh token");
      }
      var sessionId := verified.payload.sessionId;
      if !(sessionId in sessions && IsAlive(sessions[sessionId], now)) {
        return Fail(UNAUTHORIZED, "Session expired");
      }
      var session := sessions[sessionId];
      var needsRenewal := NeedsRenewal(session, now);
      if needsRenewal {
        sessions := sessions[sessionId := Renewed(session, now)];
      }
      var newRefreshToken := if needsRenewal then Some(RefreshTokenFor(sessionId, now)) else None;
      r := Ok(RefreshedTokens(AccessTokenFor(sessionId, session.userId, now), newRefreshToken));
    }

    /** `verifyEmail`: only an unexpired email-verification code with that id
        is accepted; it marks its user verified and is deleted. */
    method VerifyEmail(code: Id, now: int) returns (r: Result<UserView>)
      requires Valid()
      modifies this
      ensures Valid()
      ensures sessions == old(sessions) && nextId == old(nextId)
      ensures !HasUsableCode(old(codes), code, EmailVerification, now) ==>
        r == Fail(NOT_FOUND, "Invalid or expired code") && unchanged(this)
      ensures HasUsableCode(old(codes), code, EmailVerification, now) && old(codes)[code].userId !in old(users) ==>
        r == Fail(INTERNAL_SERVER_ERROR, "Failed to verify email") && unchanged(this)
      ensures HasUsableCode(old(codes), code, EmailVerification, now) && old(codes)[code].userId in old(users) ==>
        var userId := old(codes)[code].userId;
        && users == old(users)[userId := old(users)[userId].(verified := true, updatedAt := now)]
        && codes == old(codes) - {code}
        && r == Ok(OmitPassword(userId, users[userId]))
    {
      if !HasUsableCode(codes, code, EmailVerification, now) {
        return Fail(NOT_FOUND, "Invalid or expired code");
      }
      var userId := codes[code].userId;
      if userId !in users {
        return Fail(INTERNAL_SERVER_ERROR, "Failed to verify email");
      }
      var updated := users[userId].(verified := true, updatedAt := now);
      users := users[userId := updated];
      codes := codes - {code};
      r := Ok(OmitPassword(userId, updated));
    }

    /** `sendPasswordResetEmail`: for a known email with at most one reset code
        issued in the last five minutes, a new reset code valid for an hour.
        Every failure, the mail provider's included, is swallowed into the empty
        result; a code created before the mail failed stays. */
    method SendPasswordResetEmail(email: string, now: int, mail: MailResult) returns (r: Option<ResetEmailSent>)
      requires Valid()
      modifies this
      ensures Valid()
      ensures users == old(users) && sessions == old(sessions)
      ensures !EmailTaken(old(users), email) ==> r == None && unchanged(this)
      ensures (EmailTaken(old(users), email)
               && |RecentResetCodes(old(codes), UserWithEmail(old(users), email), now - FIVE_MINUTES_MS)| > 1) ==>
        r == None && unchanged(this)
      ensures (EmailTaken(old(users), email)
               && |RecentResetCodes(old(codes), UserWithEmail(old(users), email), now - FIVE_MINUTES_MS)| <= 1) ==>
        var userId, codeId := UserWithEmail(old(users), email), old(nextId);
        && codeId !in old(codes)
        && nextId == old(nextId) + 1
        && codes == old(codes)[codeId := NewCode(userId, PasswordReset, now + ONE_HOUR_MS, now)]
        && r == (if Delivered(mail) then Some(ResetEmailSent(codeId, now + ONE_HOUR_MS, mail.id.value)) else None)
    {
      if !EmailTaken(users, email) {
        return None;
      }
      var userId :| userId in users && users[userId].email == email;
      assert userId == UserWithEmail(users, email);
      var count := |RecentResetCodes(codes, userId, now - FIVE_MINUTES_MS)|;
      if count > 1 {
        return None;
      }
      var expiredAt := now + ONE_HOUR_MS;
      var codeId := nextId;
      codes := codes[codeId := NewCode(userId, PasswordReset, expiredAt, now)];
      nextId := nextId + 1;
      if !Delivered(mail) {
        return None;
      }
      r := Some(ResetEmailSent(codeId, expiredAt, mail.id.value));
    }

    /** `resetPassword`: only an unexpired password-reset code with that id is
        accepted; the user's password becomes the hash of the new one, the code
        is deleted and so is every session of that user. The view returned is
        of the document as it was before the update. */
    method ResetPassword(password: string, code: Id, now: int, salt: nat) returns (r: Result<UserView>)
      requires Valid()
      modifies this
      ensures Valid()
      ensures nextId == old(nextId)
      ensures !HasUsableCode(old(codes), code, PasswordReset, now) ==>
        r == Fail(NOT_FOUND, "Invalid or expired code") && unchanged(this)
      ensures HasUsableCode(old(codes), code, PasswordReset, now) && old(codes)[code].userId !in old(users) ==>
        r == Fail(INTERNAL_SERVER_ERROR, "Failed to reset password") && unchanged(this)
      ensures HasUsableCode(old(codes), code, PasswordReset, now) && old(codes)[code].userId in old(users) ==>
        var userId := old(codes)[code].userId;
        && users == old(users)[userId := old(users)[userId].(password := HashValue(password, salt), updatedAt := now)]
        && codes == old(codes) - {code}
        && sessions == WithoutSessionsOf(old(sessions), userId)
        && r == Ok(OmitPassword(userId, old(users)[userId]))
    {
      if !HasUsableCode(codes, code, PasswordReset, now) {
        return Fail(NOT_FOUND, "Invalid or expired code");
      }
      var userId := codes[code].userId;
      if userId !in users {
        return Fail(INTERNAL_SERVER_ERROR, "Failed to reset password");
      }
      var before := users[userId];
      users := users[userId := before.(password := HashValue(password, salt), updatedAt := now)];
      codes := codes - {code};
      sessions := WithoutSessionsOf(sessions, userId);
      r := Ok(OmitPassword(userId, before));
    }
  }
}

# Authentication lifecycle of jwt-mern, in Dafny

This project models the backend authentication core of the jwt-mern
application (an Express + MongoDB server). It covers:

- **Accounts.** Register an account, log in and log out.
- **Tokens.** A short-lived access token (15 minutes, signed with
  `JWT_SECRET`) goes with a long-lived refresh token (30 days, signed with
  `JWT_REFRESH_SECRET`). Refreshing the access token renews the session
  when it has less than a day left (sliding renewal).
- **Email verification** through a one-year, single-use code.
- **Password reset** through a one-hour, single-use code. Requests are
  rate-limited, and a reset revokes every session of the user.
- **The `authenticate` middleware**, which lets a request in on the access
  cookie alone.
- **The session routes**, which list the caller's live sessions newest
  first and delete one of the caller's own sessions, and the user route,
  which returns the caller's user without the password.

How the model is laid out:

- **The database.** The three MongoDB collections (users, sessions,
  verification codes) are the map fields of one class,
  `AuthService.AuthServer`.
- **The service flows** of `auth.service.ts` are methods of that class.
  Each one checks its guards in the source's order and stops at the first
  that fails. Its `ensures` state the error returned and that nothing
  changed, or else the exact new tables and result.
  `AuthServer.Valid()` is kept by every flow. It says that:
  - emails are unique (the unique index);
  - every stored password is a bcrypt digest of a raw value;
  - every id lies below the id counter.
- **The handlers** of the controllers map a flow's outcome to a response:
  a status, the cookie events and the JSON body.
- **jsonwebtoken** is modelled abstractly. A signed token remembers its
  payload, key, audience and expiry. `verify` checks, in the library's
  order, presence, format, signature, expiry and audience, with the
  library's messages for those checks.
- **bcrypt** is modelled abstractly. A digest remembers its salt and the
  value it hashed.
- **Parameters.** The clock (`now`, in milliseconds), bcrypt's salt and the
  mail provider's answer are passed in.
- **Scenarios.** The module `Scenarios` calls the flows in sequence on a
  fresh server. Its contracts state properties that span several flows.

## Model

| member | source | states |
|---|---|---|
| Jwt.SignToken | backend/src/utils/jwt.ts:21-49 | the token carries the payload; with no options it is signed with JWT_SECRET and expires 15 minutes after signing; given options, it is signed with their secret and expires after their `expiresIn`, or never when they set none; the audience is ["user"] unless the options set one |
| Jwt.VerifyToken | backend/src/utils/jwt.ts:52-70 | a token is accepted only if it was signed with the given secret (JWT_SECRET when none is given), has not expired, and claims an audience among the expected ones, ["user"] unless the options set others; the accepted payload is the signed one; failures come back as a value, never thrown |
| Jwt.AccessTokenRoundTrip | backend/src/utils/jwt.ts:25-28 | verifying an access token yields its payload before the 15 minutes are up, and "jwt expired" from then on |
| Jwt.RefreshTokenRoundTrip | backend/src/utils/jwt.ts:31-34 | verifying a refresh token under the refresh secret yields its payload for 30 days, and "jwt expired" from then on |
| Jwt.SecretsAreSeparate | backend/src/utils/jwt.ts:25-34 | with distinct secrets, a refresh token is rejected where an access token is expected, and the reverse, with "invalid signature" at every instant |
| Jwt.GarbageNeverVerifies | backend/src/utils/jwt.ts:58-69 | a string the library did not sign is always rejected, never with "jwt expired" |
| UserModel.CreateUser | backend/src/models/user.model.ts:18-35 | a new user is unverified and has both timestamps set to the creation time; its password is stored only as a digest, which matches the given password and no other |
| UserModel.PreSave | backend/src/models/user.model.ts:28-35 | saving re-hashes the password only when it was modified, and the hook changes nothing else; once hashed, the password compares equal to exactly the raw value the document held |
| UserModel.DoubleHashRejectsRaw | backend/src/models/user.model.ts:28-35 | hashing a digest a second time would make the raw password fail to compare |
| UserModel.ComparePassword | backend/src/models/user.model.ts:37-39 | a password field that was never hashed matches no candidate; for a stored user, a candidate matches exactly when the stored digest is of that candidate |
| UserModel.CompareHashedValue | backend/src/models/user.model.ts:37-39 | `comparePassword` accepts the hashed value and nothing else |
| UserModel.OmitPassword | backend/src/models/user.model.ts:41-45 | the view plus the stored password gives back the whole document, so only the password was removed |
| UserModel.OmitPasswordHidesPassword | backend/src/models/user.model.ts:41-45 | documents that differ only in the password have equal views |
| VerificationCodeModel.NewCode | backend/src/models/verificationCode.model.ts:11-16 | a new code belongs to the given user, its `createdAt` defaults to the creation time, and it passes the `{type, expiredAt > now}` filter exactly for its own type and before its expiry |
| SessionModel.NewSession | backend/src/services/auth.service.ts:66-69 | a new session belongs to the given user and user agent, expires one session lifetime after its creation, and is alive when it is created |
| SessionModel.RenewalExtends | backend/src/services/auth.service.ts:177-181 | renewing a session that needs it pushes its expiry later, keeps it alive, and takes it out of the renewal window; nothing but the expiry changes |
| AuthService.CascadeSparesOtherUsers | backend/src/services/auth.service.ts:316-318 | `deleteMany({userId})` leaves no session of that user and keeps every other user's session unchanged |
| AuthService.NewResetCodeCounts | backend/src/services/auth.service.ts:237-253 | a new reset code raises its user's rate-limit count by one exactly for windows that began before it, and changes no other user's count |
| AuthService.AuthServer.CreateAccount | backend/src/services/auth.service.ts:23-106 | a taken email gives 409 "email already in use " and nothing changes; otherwise it adds exactly one user, one email-verification code valid for a year and one session, whatever the mail provider answers; it returns the password-free view and an access and refresh token bound to the new session |
| AuthService.AuthServer.LoginUser | backend/src/services/auth.service.ts:116-161 | an unknown email gives 401 "invalid email "; a wrong password gives 401 "invalid password"; either way nothing is created; otherwise it adds exactly one session for that user and returns tokens bound to it; users and codes are never changed |
| AuthService.AuthServer.RefreshUserAccessToken | backend/src/services/auth.service.ts:163-195 | a token that does not verify under the refresh secret gives 401 "invalid refresh token"; a missing or dead session gives 401 "Session expired"; otherwise a session with less than a day left is extended to 30 days and gets a new refresh token, an access token for its owner is always issued, and nothing else changes |
| AuthService.AuthServer.VerifyEmail | backend/src/services/auth.service.ts:197-226 | only an unexpired email-verification code with that id is accepted, else 404 "Invalid or expired code"; its user becomes verified and the code is deleted; a vanished user gives 500 "Failed to verify email" with no change; sessions are never touched |
| AuthService.AuthServer.SendPasswordResetEmail | backend/src/services/auth.service.ts:228-275 | an unknown email, or more than one reset code for that user in the last five minutes, gives the empty result and changes nothing; otherwise exactly one reset code valid for an hour is added, and the result names it only if the provider accepted the mail; users and sessions are never changed |
| AuthService.AuthServer.ResetPassword | backend/src/services/auth.service.ts:284-323 | only an unexpired password-reset code with that id is accepted, else 404; the user's password becomes a digest of the new one, the code is deleted, and so is every session of that user and no other; a vanished user gives 500 "Failed to reset password" with no change |
| Http.SetAuthCookies | backend/src/utils/cookies.ts:35-37 | whatever cookies the client held, afterwards it holds exactly the new access and refresh tokens |
| Http.ClearAuthCookies | backend/src/utils/cookies.ts:40-43 | whatever cookies the client held, afterwards it holds neither auth cookie |
| Authenticate.CheckAccessToken | backend/src/middleware/authenticate.ts:9-19 | a missing or empty cookie gives 401 "not authorized"; otherwise the request is let in exactly when the token verifies under the access secret; a rejection is 401 with code InvalidAccessToken, and reads "Token expired" exactly when the library said "jwt expired", "Invalid token" otherwise |
| Authenticate.Authenticate | backend/src/middleware/authenticate.ts:7-24 | on success the request carries the token's user and session ids; on failure the request is unchanged |
| Authenticate.AccessTokenOutlivesSession | backend/src/middleware/authenticate.ts:13-22 | an access token authenticates its holder for its full 15 minutes, whatever happened to its session, and gives "Token expired" afterwards |
| Authenticate.RefreshTokenIsNoAccessToken | backend/src/middleware/authenticate.ts:13-19 | with distinct secrets, a refresh token presented as the access cookie gets "Invalid token" |
| AuthController.RegisterHandler | backend/src/controllers/auth.controller.ts:13-34 | succeeds exactly when the email is free and the input passes validation, else the service's 409 or 500 with no change; on success it adds exactly one user, one email-verification code valid for a year and one session, and answers 201 with both auth cookies bound to the new session and the new user's view |
| AuthController.LoginHandler | backend/src/controllers/auth.controller.ts:36-49 | succeeds exactly when the email is known and the password matches, else 401 "invalid email " or "invalid password" with no change; users and codes never change; on success exactly one session is added for that user, and the answer is 200 with both cookies bound to it and "login successful" |
| AuthController.LogoutHandler | backend/src/controllers/auth.controller.ts:51-65 | always 200 "logout successful" with both cookies cleared; deletes the session named by the access cookie exactly when that cookie verifies, and nothing else |
| AuthController.RefreshHandler | backend/src/controllers/auth.controller.ts:67-91 | a missing or empty cookie gives 401 "Missing refresh token"; a token that does not verify gives "invalid refresh token", a dead session "Session expired", all with no change; otherwise the session is renewed to 30 days exactly when it had less than a day left and nothing else changes; the refresh cookie is set only on renewal, the access cookie always |
| AuthController.VerifyEmailHandler | backend/src/controllers/auth.controller.ts:93-103 | succeeds exactly when the code is a usable email-verification code of an existing user, else 404 or 500 with no change; on success that user becomes verified with `updatedAt` set, the code is deleted, and nothing else changes |
| AuthController.SendPasswordResetHandler | backend/src/controllers/auth.controller.ts:105-115 | always 200 "Password reset email sent"; an unknown email or more than one reset code in the last five minutes changes nothing; otherwise exactly one reset code valid for an hour is added; users and sessions never change |
| AuthController.ResetPasswordHandler | backend/src/controllers/auth.controller.ts:117-127 | succeeds exactly when the code is a usable password-reset code of an existing user, else 404 or 500 with no change; on success the password becomes a digest of the new one, the code is deleted, every session of that user and no other is deleted, and both cookies are cleared |
| SessionController.FindListed | backend/src/controllers/session.controller.ts:9-17 | exactly the caller's unexpired sessions, each projected to id, user agent and creation time |
| SessionController.InsertNewestFirst | backend/src/controllers/session.controller.ts:18-20 | inserting into a newest-first list keeps it newest first and adds exactly that row |
| SessionController.SortNewestFirst | backend/src/controllers/session.controller.ts:18-20 | `sort: {createdAt: -1}` yields a newest-first permutation of its input |
| SessionController.SortedFindListed | backend/src/controllers/session.controller.ts:9-21 | the sorted query result holds every listed session exactly once, newest first, and nothing else |
| SessionController.MarkAll | backend/src/controllers/session.controller.ts:23-30 | each row is kept as it was, in order, with `isCurrent` added exactly when it is the caller's own session |
| SessionController.ListSessions | backend/src/controllers/session.controller.ts:9-31 | the response lists exactly the caller's live sessions, each once, newest first, each showing only its id, user agent and creation time, with the caller's own session marked current |
| SessionController.GetSessionsHandler | backend/src/controllers/session.controller.ts:7-34 | 200, no cookies, and exactly the caller's live sessions with the current one marked; the tables are only read |
| SessionController.DeleteSessionHandler | backend/src/controllers/session.controller.ts:36-49 | deletes the session only if both its id and its owner match the caller, and then 200 "session deleted successfully"; otherwise 404 "session not found" and nothing changes |
| UserController.GetUserHandler | backend/src/controllers/user.controller.ts:8-16 | 404 "user not found" unless `req.userId` names a stored user; otherwise 200 with that user's view, which with the stored password gives back the whole document |
| Scenarios.EmailCodeIsSingleUse | backend/src/services/auth.service.ts:23-106 | after registering, both tokens verify and point at the new session and user; the emailed code verifies the user once, and a second use gives 404 |
| Scenarios.ResetRequestsAreThrottled | backend/src/services/auth.service.ts:236-244 | two reset requests within five minutes pass and a third is refused without adding a code; once the window has moved past the first two, a request passes again |
| Scenarios.ResetRevokesSessions | backend/src/services/auth.service.ts:284-323 | at any instant within the access token's 15 minutes after a password reset: the old refresh token gives "Session expired"; the old access token still authenticates; the old password fails to log in and the new one succeeds |
| Scenarios.SlidingRenewal | backend/src/services/auth.service.ts:175-183 | refreshing a fresh session issues no new refresh token; refreshing it within its last day does |

## Left out

- Persistence is not modelled:
  - MongoDB is not modelled as a separate system. The collections are in-memory maps, and each flow runs atomically, with no concurrent requests.
  - Ids are consecutive naturals from one counter, not ObjectIds. A string that is not an ObjectId, which would make Mongoose throw a CastError, cannot be expressed.
  - A store failure reaching the error handler is not modelled.
- jsonwebtoken and bcrypt are modelled abstractly:
  - The model has no real cryptography, no token text and no `iat` claim.
  - Expiry is counted in milliseconds, not in the library's whole seconds.
  - "jwt not active", the issuer checks and the other checks the source never configures are omitted.
- Sending mail is a parameter, the provider's answer. The Resend client and its development-mode address rewriting are not modelled. Neither are the email templates and link URLs, nor a mail call that throws instead of returning an error: registration ignores the answer, and the reset flow swallows every failure.
- Request parsing is not modelled:
  - zod parsing of request bodies and parameters is left out. The handlers take already-parsed values, and a zod failure (a 400 from the error handler) is not modelled.
  - `catchErrors`, the error handler and `appAssert` are replaced by the `Result` datatype, whose error holds the status, message and optional error code that `appAssert` would raise.
  - Schema validation of a new user is reduced to the two required string fields being non-empty. Its error maps to 500 "user validation failed", whereas the real error handler's answer for a Mongoose ValidationError is not part of this model.
- Cookie option objects are not modelled: the path, maxAge, sameSite, secure and httpOnly attributes of `getAccessTokenCookieOption` and `getRefreshTokenCookieOption`. Only which cookie is set or cleared is kept.
- The session schema is not part of this model, so a new session's default lifetime is the server's `sessionLifetime` constant. The date helpers are replaced by their millisecond constants, and a year is 365 days.
- The verification code's `type` is stored as a string, which is modelled as the two-value enumeration the source compares it against.
- One clock value per request is used. `refreshUserAccessToken` reads `Date.now()` twice (for the liveness test and for the renewal test), which the model treats as a single instant.
- Left unmodelled, as outside the backend core: the frontend, application bootstrap and routing, CORS, logging, and reading the environment (`Env` holds the two secrets).
- jsonwebtoken's messages for text it did not sign are reduced to two: the empty string gives "jwt must be provided" and any other unsigned text "jwt malformed", where the library also answers "invalid token" or "invalid signature" for some such strings.
- UserModel.CreateUser: "no other password matches" holds of the model's collision-free hash. bcrypt compares only the first 72 bytes of a password, and the code sets no length limit, so two passwords sharing a 72-byte prefix would both match.
- UserModel.CompareHashedValue: assumes a collision-free hash and ignores bcrypt's 72-byte truncation, as above.
- UserModel.ComparePassword: assumes a collision-free hash and ignores bcrypt's 72-byte truncation, as above.
- Scenarios.ResetRevokesSessions: that the old password fails to log in assumes it differs from the new one in more than bytes past the 72nd; the model ignores bcrypt's truncation.
- Http.SessionView: `isCurrent` is a boolean present on every entry, where the code adds `isCurrent: true` to the caller's session and omits the key on the others.
- AuthService.AuthServer.RefreshUserAccessToken: a token that fails to verify always gives "invalid refresh token", as the code does. There is no separate message for an expired refresh token.
- AuthService.AuthServer.LoginUser: the two failure messages ("invalid email " and "invalid password") are distinguishable, as in the code, rather than unified.
- AuthService.AuthServer.ResetPassword: it returns the view of the user document as it was before the update (the code's `findByIdAndUpdate` has no `{new: true}`). It does not return the updated one.

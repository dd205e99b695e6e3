/** Token signing and verification (backend/src/utils/jwt.ts) over an abstract
    model of the jsonwebtoken library: a signed token remembers its payload,
    the key it was signed with, its audience and its expiry instant. */
module Jwt {
  import opened Base
  import opened Time

  /** AccessTokenPayload is `{sessionId, userId}`; RefreshTokenPayload is `{sessionId}`. */
  datatype Payload = Payload(sessionId: Id, userId: Option<Id>)

  function AccessPayload(sessionId: Id, userId: Id): Payload
  {
    Payload(sessionId, Some(userId))
  }

  function RefreshPayload(sessionId: Id): Payload
  {
    Payload(sessionId, None)
  }

  /** What a client can present: a token the library produced, or any other string. */
  datatype Token =
    | Signed(payload: Payload, key: string, audience: Option<seq<string>>, expiresAt: Option<int>)
    | Garbage(text: string)

  /** The part of jsonwebtoken's sign/verify options the source sets; None is an absent key. */
  datatype Options = Options(expiresIn: Option<int>, audience: Option<seq<string>>)

  datatype SignOptionAndSecret = SignOptionAndSecret(options: Options, secret: NonEmptyString)

  /** The `options` argument of `verifyToken`: a secret (defaulting to JWT_SECRET) and the rest. */
  datatype VerifyOptionAndSecret = VerifyOptionAndSecret(options: Options, secret: Option<NonEmptyString>)

  /** JWT_SECRET and JWT_REFRESH_SECRET as loaded from the environment. */
  datatype Env = Env(jwtSecret: NonEmptyString, jwtRefreshSecret: NonEmptyString)

  /** The outcome `verifyToken` returns instead of throwing: `{payload}` or `{error: message}`. */
  datatype Verified = Verified(payload: Payload) | Rejected(message: string)

  const NoOptions := Options(None, None)

  /** `defaults`: the audience claim `['user']` applied to both sign and verify. */
  const Defaults := Options(None, Some(["user"]))

  function AccessTokenSignOptions(env: Env): SignOptionAndSecret
  {
    SignOptionAndSecret(Options(Some(FIFTEEN_MINUTES_MS), None), env.jwtSecret)
  }

  function RefreshTokenSignOptions(env: Env): SignOptionAndSecret
  {
    SignOptionAndSecret(Options(Some(THIRTY_DAYS_MS), None), env.jwtRefreshSecret)
  }

  /** The verify options `refreshUserAccessToken` passes: only the refresh secret. */
  function RefreshVerifyOptions(env: Env): VerifyOptionAndSecret
  {
    VerifyOptionAndSecret(NoOptions, Some(env.jwtRefreshSecret))
  }

  /** The object spread `{...base, ...over}`: a key present in `over` wins. */
  function Merge(base: Options, over: Options): Options
  {
    Options(if over.expiresIn.Some? then over.expiresIn else base.expiresIn,
            if over.audience.Some? then over.audience else base.audience)
  }

  /** The library's way of naming the expected audiences in its error message. */
  function JoinOr(names: seq<string>): string
  {
    if |names| == 0 then ""
    else if |names| == 1 then names[0]
    else names[0] + " or " + JoinOr(names[1..])
  }

  predicate AudienceMatches(claimed: Option<seq<string>>, expected: seq<string>)
  {
    claimed.Some? && exists a :: a in claimed.value && a in expected
  }

  /** jsonwebtoken's `sign`. */
  function JwtSign(payload: Payload, secret: NonEmptyString, options: Options, now: int): Token
  {
    Signed(payload, secret, options.audience,
           if options.expiresIn.Some? then Some(now + options.expiresIn.value) else None)
  }

  /** jsonwebtoken's `verify`, in the library's order of checks: the token is
      present and well formed, the signature matches, the token has not
      expired, the audience matches. */
  function JwtVerify(token: Token, secret: NonEmptyString, options: Options, now: int): Verified
  {
    match token
    case Garbage(text) =>
      if text == "" then Rejected("jwt must be provided") else Rejected("jwt malformed")
    case Signed(payload, key, audience, expiresAt) =>
      if key != secret then Rejected("invalid signature")
      else if expiresAt.Some? && now >= expiresAt.value then Rejected("jwt expired")
      else if options.audience.Some? && !AudienceMatches(audience, options.audience.value) then
        Rejected("jwt audience invalid. expected: " + JoinOr(options.audience.value))
      else Verified(payload)
  }

  /** `signToken`: the access options when none are given, the defaults under the chosen options. */
  function SignToken(env: Env, payload: Payload, options: Option<SignOptionAndSecret>, now: int): (t: Token)
    ensures t.Signed? && t.payload == payload
    ensures options.None? ==>
      t.key == env.jwtSecret && t.expiresAt == Some(now + FIFTEEN_MINUTES_MS)
    ensures options.Some? ==> t.key == options.value.secret
    ensures options.Some? ==>
      t.expiresAt == if options.value.options.expiresIn.Some? then Some(now + options.value.options.expiresIn.value) else None
    ensures t.audience == if options.Some? && options.value.options.audience.Some?
                          then options.value.options.audience else Some(["user"])
  {
    var chosen := if options.Some? then options.value else AccessTokenSignOptions(env);
    JwtSign(payload, chosen.secret, Merge(Defaults, chosen.options), now)
  }

  /** `verifyToken`: JWT_SECRET unless a secret is given, the defaults under the rest; never throws. */
  function VerifyToken(env: Env, token: Token, options: Option<VerifyOptionAndSecret>, now: int): (r: Verified)
    ensures r.Verified? ==>
      token.Signed? && r.payload == token.payload
      && token.key == (if options.Some? && options.value.secret.Some? then options.value.secret.value else env.jwtSecret)
      && (token.expiresAt.None? || now < token.expiresAt.value)
      && AudienceMatches(token.audience, if options.Some? && options.value.options.audience.Some?
                                         then options.value.options.audience.value else ["user"])
  {
    var secret := if options.Some? && options.value.secret.Some? then options.value.secret.value else env.jwtSecret;
    var rest := if options.Some? then options.value.options else NoOptions;
    JwtVerify(token, secret, Merge(Defaults, rest), now)
  }

  /** A token signed with the default audience passes the default audience check. */
  lemma DefaultAudienceAccepted()
    ensures AudienceMatches(Defaults.audience, Defaults.audience.value)
  {
    assert "user" in Defaults.audience.value;
  }

  /** An access token verifies under the default secret exactly until fifteen
      minutes after signing, and after that the error is "jwt expired". */
  lemma AccessTokenRoundTrip(env: Env, payload: Payload, signedAt: int, now: int)
    ensures VerifyToken(env, SignToken(env, payload, None, signedAt), None, now)
         == if now < signedAt + FIFTEEN_MINUTES_MS then Verified(payload) else Rejected("jwt expired")
  {
    DefaultAudienceAccepted();
  }

  /** A refresh token verifies under the refresh secret exactly until thirty
      days after signing, and after that the error is "jwt expired". */
  lemma RefreshTokenRoundTrip(env: Env, payload: Payload, signedAt: int, now: int)
    ensures VerifyToken(env, SignToken(env, payload, Some(RefreshTokenSignOptions(env)), signedAt),
                        Some(RefreshVerifyOptions(env)), now)
         == if now < signedAt + THIRTY_DAYS_MS then Verified(payload) else Rejected("jwt expired")
  {
    DefaultAudienceAccepted();
  }

  /** With distinct secrets, neither kind of token verifies where the other is
      expected, whatever the time: the failure is a signature failure, never "jwt expired". */
  lemma SecretsAreSeparate(env: Env, payload: Payload, signedAt: int, now: int)
    requires env.jwtSecret != env.jwtRefreshSecret
    ensures VerifyToken(env, SignToken(env, payload, Some(RefreshTokenSignOptions(env)), signedAt), None, now)
         == Rejected("invalid signature")
    ensures VerifyToken(env, SignToken(env, payload, None, signedAt), Some(RefreshVerifyOptions(env)), now)
         == Rejected("invalid signature")
  {
  }

  /** A string that the library did not sign never verifies, and its error is never "jwt expired". */
  lemma GarbageNeverVerifies(env: Env, text: string, options: Option<VerifyOptionAndSecret>, now: int)
    ensures VerifyToken(env, Garbage(text), options, now).Rejected?
    ensures VerifyToken(env, Garbage(text), options, now).message != "jwt expired"
  {
  }
}

/** The request and response of the Express layer, reduced to what the auth
    handlers read and write: the two auth cookies on the way in, the
    authenticated identity the middleware records on the request, and on the
    way out a status, cookie events and a JSON body. */
module Http {
  import opened Base
  import opened Jwt
  import opened UserModel

  /** `req.cookies.accessToken` and `req.cookies.refreshToken`. */
  datatype Cookies = Cookies(accessToken: Option<Token>, refreshToken: Option<Token>)

  /** JavaScript truthiness of a cookie value: absent and empty are both false. */
  predicate Truthy(cookie: Option<Token>)
  {
    cookie.Some? && cookie.value != Garbage("")
  }

  /** The effect of `res.cookie(...)` / `res.clearCookie(...)` on one auth cookie. */
  datatype CookieEvent =
    | SetAccessToken(token: Token)
    | SetRefreshToken(token: Token)
    | ClearAccessToken
    | ClearRefreshToken

  /** The client's cookies after one `Set-Cookie` instruction. */
  function ApplyEvent(jar: Cookies, event: CookieEvent): Cookies
  {
    match event
    case SetAccessToken(t) => jar.(accessToken := Some(t))
    case SetRefreshToken(t) => jar.(refreshToken := Some(t))
    case ClearAccessToken => jar.(accessToken := None)
    case ClearRefreshToken => jar.(refreshToken := None)
  }

  /** The client's cookies after a response's cookie instructions, in order. */
  function Apply(jar: Cookies, events: seq<CookieEvent>): Cookies
    decreases |events|
  {
    if events == [] then jar else Apply(ApplyEvent(jar, events[0]), events[1..])
  }

  /** Two instructions apply one after the other. */
  lemma ApplyTwo(jar: Cookies, first: CookieEvent, second: CookieEvent)
    ensures Apply(jar, [first, second]) == ApplyEvent(ApplyEvent(jar, first), second)
  {
    var once := ApplyEvent(jar, first);
    assert [first, second][1..] == [second];
    assert Apply(jar, [first, second]) == Apply(once, [second]);
    assert [second][1..] == [];
    assert Apply(once, [second]) == Apply(ApplyEvent(once, second), []);
  }

  /** `setAuthCookies`: the access cookie, then the refresh cookie; whatever
      the client held before, it then holds exactly the two new tokens. */
  function SetAuthCookies(accessToken: Token, refreshToken: Token): (events: seq<CookieEvent>)
    ensures forall jar :: Apply(jar, events) == Cookies(Some(accessToken), Some(refreshToken))
  {
    var events := [SetAccessToken(accessToken), SetRefreshToken(refreshToken)];
    assert forall jar :: Apply(jar, events) == Cookies(Some(accessToken), Some(refreshToken)) by {
      forall jar ensures Apply(jar, events) == Cookies(Some(accessToken), Some(refreshToken)) {
        ApplyTwo(jar, events[0], events[1]);
      }
    }
    events
  }

  /** `clearAuthCookies`: both cookies cleared; whatever the client held
      before, it then holds neither auth cookie. */
  function ClearAuthCookies(): (events: seq<CookieEvent>)
    ensures forall jar :: Apply(jar, events) == Cookies(None, None)
  {
    var events := [ClearAccessToken, ClearRefreshToken];
    assert forall jar :: Apply(jar, events) == Cookies(None, None) by {
      forall jar ensures Apply(jar, events) == Cookies(None, None) {
        ApplyTwo(jar, events[0], events[1]);
      }
    }
    events
  }

  /** One entry of the session list: `_id`, `userAgent`, `createdAt`, and whether it is the caller's session. */
  datatype SessionView = SessionView(id: Id, userAgent: Option<string>, createdAt: int, isCurrent: bool)

  datatype Body =
    | UserJson(user: UserView)
    | Message(text: string)
    | SessionList(sessions: seq<SessionView>)

  datatype Response = Response(status: int, cookies: seq<CookieEvent>, body: Body)

  /** An incoming request: its cookies, and the `userId` / `sessionId` that `authenticate` sets. */
  class Request {
    const cookies: Cookies
    var userId: Option<Id>
    var sessionId: Option<Id>

    constructor (cookies: Cookies)
      ensures this.cookies == cookies && userId == None && sessionId == None
    {
      this.cookies := cookies;
      userId, sessionId := None, None;
    }
  }
}

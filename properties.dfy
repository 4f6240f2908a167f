/** Properties of the session protocol that relate several operations:
    one live refresh token per account, rotation makes the presented token
    stale, logout revokes, and the two defects of the refresh handler. */
module SessionProperties {
  import opened Model
  import opened Session

  /** Each account has at most one live refresh token. */
  lemma AtMostOneLiveToken(s: State, t1: Token, t2: Token)
    requires Live(s, t1) && Live(s, t2) && t1.subject == t2.subject
    ensures t1 == t2
  {
  }

  /** The refresh token a successful login returns is the one live token of
      the account that logged in. */
  lemma LoginTokenIsLive(s: State, c: Credentials, isPasswordCorrect: (Account, string) -> bool, saveOk: bool)
    requires Valid(s)
    requires Login(s, c, isPasswordCorrect, saveOk).result.Ok?
    ensures var r := Login(s, c, isPasswordCorrect, saveOk);
      && r.result.value.tokens.refreshToken.subject == r.result.value.userId
      && Live(r.state, r.result.value.tokens.refreshToken)
      && forall t :: Live(r.state, t) && t.subject == r.result.value.userId ==> t == r.result.value.tokens.refreshToken
  {
  }

  /** Once a token has been rotated away, presenting it again is rejected as
      expired or used, and nothing changes. */
  lemma RotatedTokenIsStale(s: State, t: Token, saveOk: bool, saveAgain: bool)
    requires Valid(s)
    requires RefreshBody(s, Some(t), saveOk).result.Ok?
    ensures var s' := RefreshBody(s, Some(t), saveOk).state;
      RefreshBody(s', Some(t), saveAgain) == Step(Err(ApiError(401, ExpiredOrUsedRefreshToken)), s')
  {
  }

  /** Logging out twice leaves the same store as logging out once. */
  lemma LogoutIdempotent(s: State, id: Id)
    ensures Logout(Logout(s, id), id) == Logout(s, id)
  {
  }

  /** After logout no token of that account can be used to refresh, and
      the store is left as logout left it; a refresh token the store signed
      for an existing account is rejected as expired or used. */
  lemma LogoutRevokes(s: State, id: Id, t: Token, saveOk: bool)
    requires t.subject == id
    ensures var s' := Logout(s, id);
      && RefreshBody(s', Some(t), saveOk).result.Err?
      && RefreshBody(s', Some(t), saveOk).state == s'
    ensures var s' := Logout(s, id);
      t in s.issued && t.kind == Refresh && id in s.users ==>
      RefreshBody(s', Some(t), saveOk).result == Err(ApiError(401, ExpiredOrUsedRefreshToken))
  {
  }

  /** An access token, or a token the store never signed, is rejected by the
      verifier and never reported as stale. */
  lemma UnsignedOrAccessTokenRejected(s: State, t: Token, saveOk: bool)
    requires t.kind == Access || t !in s.issued
    ensures RefreshBody(s, Some(t), saveOk) == Step(Err(JwtError(JwtInvalid)), s)
  {
  }

  /** Finding (line 176): with the guard as written, the fresh refresh token
      of a successful login is turned away, while the guard the right way
      round accepts it and rotates. */
  lemma RefreshGuardInverted(s: State, c: Credentials, isPasswordCorrect: (Account, string) -> bool, saveOk: bool)
    requires Valid(s)
    requires Login(s, c, isPasswordCorrect, saveOk).result.Ok?
    ensures var login := Login(s, c, isPasswordCorrect, saveOk);
      var r1 := login.result.value.tokens.refreshToken;
      && RefreshAccessToken(login.state, Some(r1), None, true) == Step(Err(ApiError(401, UnauthorizedRequest)), login.state)
      && RefreshAccessTokenIntended(login.state, Some(r1), None, true).result.Ok?
  {
  }

  /** Finding (line 201): after a rotation the response as written carries no
      refresh token, although the slot now holds a new live one; the caller
      is left without any token that refreshes. The intended response
      carries exactly that token. */
  lemma RefreshResponseLosesToken(s: State, t: Token, saveOk: bool)
    requires Valid(s)
    requires RefreshBody(s, Some(t), saveOk).result.Ok?
    ensures var r := RefreshBody(s, Some(t), saveOk);
      && RespondAsWritten(r.result.value).refreshToken == None
      && Live(r.state, r.result.value.refreshToken)
      && !Live(r.state, t)
      && Respond(r.result.value).refreshToken == Some(r.result.value.refreshToken)
  {
  }

  /** The login, refresh, refresh-again, refresh-with-new-token scenario,
      with the refresh handler as intended: the first refresh rotates, the
      old token is then stale, and the new token refreshes. */
  lemma LoginRefreshScenario(s: State, c: Credentials, isPasswordCorrect: (Account, string) -> bool)
    requires Valid(s)
    requires Login(s, c, isPasswordCorrect, true).result.Ok?
    ensures var login := Login(s, c, isPasswordCorrect, true);
      var r1 := login.result.value.tokens.refreshToken;
      var first := RefreshAccessTokenIntended(login.state, Some(r1), None, true);
      && first.result.Ok?
      && RefreshAccessTokenIntended(first.state, Some(r1), None, true) ==
           Step(Err(ApiError(401, ExpiredOrUsedRefreshToken)), first.state)
      && RefreshAccessTokenIntended(first.state, first.result.value.refreshToken, None, true).result.Ok?
  {
  }

  /** Registering the same details a second time is refused as a duplicate. */
  lemma RegisterTwiceConflicts(s: State, reg: Registration, hasAvatarFile: bool, avatarUrl: Option<string>, coverUrl: Option<string>)
    requires Register(s, reg, hasAvatarFile, avatarUrl, coverUrl).result.Ok?
    ensures var s' := Register(s, reg, hasAvatarFile, avatarUrl, coverUrl).state;
      Register(s', reg, hasAvatarFile, avatarUrl, coverUrl) == Step(Err(ApiError(409, UserAlreadyExists)), s')
  {
  }

  /** One request to the controller, with the outcomes of the calls it
      cannot see; the refresh request is the handler with its guard the
      right way round. */
  datatype Request =
    | IssueReq(id: Id, saveOk: bool)
    | RegisterReq(reg: Registration, hasAvatarFile: bool, avatarUrl: Option<string>, coverUrl: Option<string>)
    | LoginReq(c: Credentials, isPasswordCorrect: (Account, string) -> bool, saveOk: bool)
    | LogoutReq(id: Id)
    | RefreshReq(cookie: Option<Token>, body: Option<Token>, saveOk: bool)
    | RefreshAsWrittenReq(cookie: Option<Token>, body: Option<Token>, saveOk: bool)

  function Apply(s: State, q: Request): State {
    match q
    case IssueReq(id, saveOk) => IssuePair(s, id, saveOk).state
    case RegisterReq(reg, f, a, c) => Register(s, reg, f, a, c).state
    case LoginReq(c, p, saveOk) => Login(s, c, p, saveOk).state
    case LogoutReq(id) => Logout(s, id)
    case RefreshReq(cookie, body, saveOk) => RefreshAccessTokenIntended(s, cookie, body, saveOk).state
    case RefreshAsWrittenReq(cookie, body, saveOk) => RefreshAccessToken(s, cookie, body, saveOk).state
  }

  /** The store after a sequence of requests. */
  function Run(s: State, qs: seq<Request>): State
    decreases |qs|
  {
    if qs == [] then s else Run(Apply(s, qs[0]), qs[1..])
  }

  /** A refresh token the store signed that no longer refreshes. */
  predicate Stale(s: State, t: Token) {
    t in s.issued && t.kind == Refresh && !Live(s, t)
  }

  /** No request brings a stale token back to life: every new slot value is
      either cleared or a token minted by that very request. */
  lemma StaleStaysStale(s: State, q: Request, t: Token)
    requires Valid(s) && Stale(s, t)
    ensures Valid(Apply(s, q)) && Stale(Apply(s, q), t)
  {
  }

  /** Once a refresh token is stale it stays stale, whatever requests follow:
      a rotated or logged-out token can never be used again. */
  lemma {:induction false} StaleForever(s: State, qs: seq<Request>, t: Token)
    requires Valid(s) && Stale(s, t)
    ensures Valid(Run(s, qs)) && Stale(Run(s, qs), t)
    decreases |qs|
  {
    if qs != [] {
      StaleStaysStale(s, qs[0], t);
      StaleForever(Apply(s, qs[0]), qs[1..], t);
    }
  }
}

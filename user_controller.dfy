/** The user controller over an in-memory account store: one method per
    handler, each running the handler's guards in order and then updating the
    store in place. Every method is proved to produce the outcome and the
    new store that the matching function in Session describes. */
module UserController {
  import opened Model
  import Session

  class UserStore {
    var users: map<Id, Account>
    var issued: set<Token>
    var nextSerial: nat
    var nextId: nat
    /** The account model's `isPasswordCorrect`, supplied by the caller. */
    const isPasswordCorrect: (Account, string) -> bool

    function State(): Session.State
      reads this
    {
      Session.State(users, issued, nextSerial, nextId)
    }

    ghost predicate Valid()
      reads this
    {
      Session.Valid(State())
    }

    constructor (isPasswordCorrect: (Account, string) -> bool)
      ensures Valid() && State() == Session.Empty()
      ensures this.isPasswordCorrect == isPasswordCorrect
    {
      users, issued, nextSerial, nextId := map[], {}, 0, 0;
      this.isPasswordCorrect := isPasswordCorrect;
    }

    /** `generateAccessAndRefreshTokens`; `saveOk` is whether `user.save`
        succeeds. */
    method GenerateAccessAndRefreshTokens(id: Id, saveOk: bool) returns (r: Result<Pair>)
      requires Valid()
      modifies this
      ensures Valid()
      ensures Session.Step(r, State()) == Session.IssuePair(old(State()), id, saveOk)
      ensures r.Ok? ==> id in users && users[id].refreshToken == Some(r.value.refreshToken)
      ensures r.Err? ==> r.error == ApiError(500, TokenGenerationFailed) && State() == old(State())
    {
      if id !in users {
        return Err(ApiError(500, TokenGenerationFailed));
      }
      var user := users[id];
      var accessToken := Token(Access, id, nextSerial);
      var refreshToken := Token(Refresh, id, nextSerial + 1);
      if !saveOk {
        return Err(ApiError(500, TokenGenerationFailed));
      }
      users := users[id := user.(refreshToken := Some(refreshToken))];
      issued := issued + {accessToken, refreshToken};
      nextSerial := nextSerial + 2;
      return Ok(Pair(accessToken, refreshToken));
    }

    /** `registerUser` up to the insert; the uploads are inputs. */
    method RegisterUser(reg: Session.Registration, hasAvatarFile: bool, avatarUrl: Option<string>, coverUrl: Option<string>)
      returns (r: Result<Id>)
      requires Valid()
      modifies this
      ensures Valid()
      ensures Session.Step(r, State()) == Session.Register(old(State()), reg, hasAvatarFile, avatarUrl, coverUrl)
      ensures r.Ok? ==> r.value !in old(users) && users.Keys == old(users).Keys + {r.value}
      ensures r.Ok? ==> users[r.value].username == ToLower(reg.username)
    {
      if reg.fullname == "" {
        return Err(ApiError(400, FullNameRequired));
      }
      if reg.username == "" {
        return Err(ApiError(400, UsernameRequired));
      }
      if reg.email == "" {
        return Err(ApiError(400, EmailRequired));
      }
      if reg.password == "" {
        return Err(ApiError(400, PasswordRequired));
      }
      var existedUser := Session.FindAccount(State(), Some(reg.username), Some(reg.email));
      if existedUser.Some? {
        return Err(ApiError(409, UserAlreadyExists));
      }
      if !hasAvatarFile {
        return Err(ApiError(400, AvatarRequired));
      }
      if avatarUrl.None? {
        return Err(ApiError(400, AvatarRequired));
      }
      var id := nextId;
      users := users[id := Session.NewAccount(reg, avatarUrl.value, coverUrl)];
      nextId := nextId + 1;
      return Ok(id);
    }

    /** `loginUser`. */
    method LoginUser(c: Session.Credentials, saveOk: bool) returns (r: Result<Session.LoginResponse>)
      requires Valid()
      modifies this
      ensures Valid()
      ensures Session.Step(r, State()) == Session.Login(old(State()), c, isPasswordCorrect, saveOk)
      ensures r.Ok? ==> r.value.userId in users && users[r.value.userId].refreshToken == Some(r.value.tokens.refreshToken)
    {
      if Falsy(c.username) && Falsy(c.email) {
        return Err(ApiError(400, IdentifierRequired));
      }
      var user := Session.FindAccount(State(), c.username, c.email);
      if user.None? {
        return Err(ApiError(404, UserDoesNotExist));
      }
      var id := user.value;
      var isPasswordValid := isPasswordCorrect(users[id], c.password);
      if !isPasswordValid {
        return Err(ApiError(401, InvalidCredentials));
      }
      var tokens := GenerateAccessAndRefreshTokens(id, saveOk);
      match tokens
      case Err(e) => return Err(e);
      case Ok(p) => return Ok(Session.LoginResponse(id, p));
    }

    /** `logoutUser`, for the account `verifyJWT` authenticated. */
    method LogoutUser(id: Id)
      requires Valid()
      modifies this
      ensures Valid()
      ensures State() == Session.Logout(old(State()), id)
      ensures id in users ==> users[id].refreshToken == None
    {
      if id in users {
        users := users[id := users[id].(refreshToken := None)];
      }
    }

    /** The body of `refreshAccessToken`: verify, look up, compare with the
        slot, rotate. */
    method RefreshBody(incoming: Option<Token>, saveOk: bool) returns (r: Result<Pair>)
      requires Valid()
      modifies this
      ensures Valid()
      ensures Session.Step(r, State()) == Session.RefreshBody(old(State()), incoming, saveOk)
    {
      var decodedToken := Session.VerifyRefreshToken(State(), incoming);
      if decodedToken.Err? {
        return Err(decodedToken.error);
      }
      var subject := decodedToken.value;
      if subject !in users {
        return Err(ApiError(401, InvalidRefreshToken));
      }
      if incoming != users[subject].refreshToken {
        return Err(ApiError(401, ExpiredOrUsedRefreshToken));
      }
      r := GenerateAccessAndRefreshTokens(subject, saveOk);
    }

    /** `refreshAccessToken` as written: it always fails with 401 and leaves
        the store as it was. */
    method RefreshAccessToken(cookie: Option<Token>, body: Option<Token>, saveOk: bool) returns (r: Result<Session.Refreshed>)
      requires Valid()
      modifies this
      ensures Valid()
      ensures Session.Step(r, State()) == Session.RefreshAccessToken(old(State()), cookie, body, saveOk)
      ensures r.Err? && r.error.ApiError? && r.error.status == 401
      ensures State() == old(State())
    {
      var incoming := Session.Incoming(cookie, body);
      if incoming.Some? {
        return Err(ApiError(401, UnauthorizedRequest));
      }
      var outcome := RefreshBody(incoming, saveOk);
      match outcome
      case Err(e) => return Err(Session.Unauthorized(e));
      case Ok(p) => return Ok(Session.RespondAsWritten(p));
    }

    /** `refreshAccessToken` with the presence guard the right way round and
        the new refresh token returned. */
    method RefreshAccessTokenIntended(cookie: Option<Token>, body: Option<Token>, saveOk: bool) returns (r: Result<Session.Refreshed>)
      requires Valid()
      modifies this
      ensures Valid()
      ensures Session.Step(r, State()) == Session.RefreshAccessTokenIntended(old(State()), cookie, body, saveOk)
      ensures r.Ok? ==> r.value.refreshToken.Some? && Session.Live(State(), r.value.refreshToken.value)
    {
      var incoming := Session.Incoming(cookie, body);
      if incoming.None? {
        return Err(ApiError(401, UnauthorizedRequest));
      }
      var outcome := RefreshBody(incoming, saveOk);
      match outcome
      case Err(e) => return Err(Session.Unauthorized(e));
      case Ok(p) => return Ok(Session.Respond(p));
    }
  }
}

/** The user controller's operations as functions from a store state to an
    outcome and the next store state. The class in UserController runs the
    same steps imperatively and is proved against these functions. */
module Session {
  import opened Model

  /** The account store: the user documents by id, every token signed so far,
      the next token serial and the next account id. */
  datatype State = State(
    users: map<Id, Account>,
    issued: set<Token>,
    nextSerial: nat,
    nextId: nat)

  /** The outcome of one operation together with the store it leaves. */
  datatype Step<T> = Step(result: Result<T>, state: State)

  /** The token that was stored in an account's slot, if any, was issued by
      the store, is a refresh token, and names that account as its subject. */
  ghost predicate SlotIssued(s: State, id: Id)
    requires id in s.users
  {
    var slot := s.users[id].refreshToken;
    slot.Some? ==> slot.value in s.issued && slot.value.kind == Refresh && slot.value.subject == id
  }

  /** The store invariant: serials and ids below their counters, and every
      filled slot holds a refresh token the store issued to that account. */
  ghost predicate Valid(s: State) {
    && (forall t :: t in s.issued ==> t.serial < s.nextSerial)
    && (forall id :: id in s.users ==> id < s.nextId)
    && (forall id :: id in s.users ==> SlotIssued(s, id))
  }

  function Empty(): (s: State)
    ensures Valid(s) && s.users == map[] && s.issued == {}
  {
    State(map[], {}, 0, 0)
  }

  // ---------------------------------------------------------------------
  // Account lookup

  /** One branch of `$or: [{username}, {email}]`; an absent field matches
      no account. */
  predicate Matches(a: Account, username: Option<string>, email: Option<string>) {
    (username.Some? && a.username == username.value) || (email.Some? && a.email == email.value)
  }

  /** The least id in `[i, bound)` whose account matches. */
  function FindFrom(users: map<Id, Account>, username: Option<string>, email: Option<string>, i: nat, bound: nat): (r: Option<Id>)
    decreases bound - i
    ensures r.Some? ==> i <= r.value < bound && r.value in users && Matches(users[r.value], username, email)
    ensures r.Some? ==> forall j :: i <= j < r.value && j in users ==> !Matches(users[j], username, email)
    ensures r.None? ==> forall j :: i <= j < bound && j in users ==> !Matches(users[j], username, email)
  {
    if i >= bound then None
    else if i in users && Matches(users[i], username, email) then Some(i)
    else FindFrom(users, username, email, i + 1, bound)
  }

  /** `User.findOne({$or: [{username}, {email}]})`: the model picks the
      matching account with the least id, or none when no account matches. */
  function FindAccount(s: State, username: Option<string>, email: Option<string>): (r: Option<Id>)
    ensures r.Some? ==> r.value in s.users && Matches(s.users[r.value], username, email)
    ensures r.Some? ==> forall j :: j in s.users && j < r.value ==> !Matches(s.users[j], username, email)
    ensures r.None? ==> forall j :: j in s.users && j < s.nextId ==> !Matches(s.users[j], username, email)
    ensures Valid(s) ==> (r.None? <==> forall j :: j in s.users ==> !Matches(s.users[j], username, email))
  {
    FindFrom(s.users, username, email, 0, s.nextId)
  }

  // ---------------------------------------------------------------------
  // generateAccessAndRefreshTokens

  /** Mint an access and a refresh token for `id` and overwrite its slot with
      the refresh token. A missing account or a failed save is a 500 that
      leaves the store as it was. */
  function IssuePair(s: State, id: Id, saveOk: bool): (r: Step<Pair>)
    ensures r.result.Ok? <==> id in s.users && saveOk
    ensures r.result.Err? ==> r.result.error == ApiError(500, TokenGenerationFailed) && r.state == s
    ensures r.result.Ok? ==>
      var p := r.result.value;
      && p.accessToken.kind == Access && p.accessToken.subject == id
      && p.refreshToken.kind == Refresh && p.refreshToken.subject == id
      && p.accessToken != p.refreshToken
      && r.state.users.Keys == s.users.Keys
      && r.state.users[id] == s.users[id].(refreshToken := Some(p.refreshToken))
      && (forall j :: j in s.users && j != id ==> r.state.users[j] == s.users[j])
      && r.state.issued == s.issued + {p.accessToken, p.refreshToken}
      && r.state.nextId == s.nextId
    ensures r.result.Ok? && Valid(s) ==>
      r.result.value.accessToken !in s.issued && r.result.value.refreshToken !in s.issued
    ensures Valid(s) ==> Valid(r.state)
  {
    if id !in s.users then Step(Err(ApiError(500, TokenGenerationFailed)), s)
    else
      var user := s.users[id];
      var accessToken := Token(Access, id, s.nextSerial);
      var refreshToken := Token(Refresh, id, s.nextSerial + 1);
      if !saveOk then Step(Err(ApiError(500, TokenGenerationFailed)), s)
      else
        Step(Ok(Pair(accessToken, refreshToken)),
             State(s.users[id := user.(refreshToken := Some(refreshToken))],
                   s.issued + {accessToken, refreshToken},
                   s.nextSerial + 2,
                   s.nextId))
  }

  // ---------------------------------------------------------------------
  // registerUser

  datatype Registration = Registration(fullname: string, email: string, username: string, password: string)

  predicate FieldsPresent(reg: Registration) {
    reg.fullname != "" && reg.username != "" && reg.email != "" && reg.password != ""
  }

  /** The document `User.create` stores for a registration. */
  function NewAccount(reg: Registration, avatarUrl: string, coverUrl: Option<string>): Account
  {
    Account(reg.fullname, ToLower(reg.username), reg.email, reg.password,
            avatarUrl, if coverUrl.Some? then coverUrl.value else "", None)
  }

  /** Validate and insert a new account. `hasAvatarFile` says whether an
      avatar was uploaded with the request; `avatarUrl` and `coverUrl` are
      the URLs the image host returned (absent when nothing was returned). */
  function Register(s: State, reg: Registration, hasAvatarFile: bool, avatarUrl: Option<string>, coverUrl: Option<string>): (r: Step<Id>)
    ensures r.result.Err? ==> r.state == s
    ensures reg.fullname == "" ==> r.result == Err(ApiError(400, FullNameRequired))
    ensures reg.fullname != "" && reg.username == "" ==> r.result == Err(ApiError(400, UsernameRequired))
    ensures reg.fullname != "" && reg.username != "" && reg.email == "" ==> r.result == Err(ApiError(400, EmailRequired))
    ensures reg.fullname != "" && reg.username != "" && reg.email != "" && reg.password == "" ==>
      r.result == Err(ApiError(400, PasswordRequired))
    ensures FieldsPresent(reg) && FindAccount(s, Some(reg.username), Some(reg.email)).Some? ==>
      r.result == Err(ApiError(409, UserAlreadyExists))
    ensures FieldsPresent(reg) && FindAccount(s, Some(reg.username), Some(reg.email)).None? && (!hasAvatarFile || avatarUrl.None?) ==>
      r.result == Err(ApiError(400, AvatarRequired))
    ensures r.result.Ok? <==>
      FieldsPresent(reg) && FindAccount(s, Some(reg.username), Some(reg.email)).None? && hasAvatarFile && avatarUrl.Some?
    ensures r.result.Ok? ==>
      var id := r.result.value;
      && r.state.users == s.users[id := NewAccount(reg, avatarUrl.value, coverUrl)]
      && r.state.users[id].username == ToLower(reg.username)
      && r.state.users[id].fullname == reg.fullname
      && r.state.users[id].email == reg.email
      && r.state.users[id].password == reg.password
      && r.state.users[id].refreshToken == None
      && r.state.issued == s.issued
    ensures r.result.Ok? && Valid(s) ==>
      r.result.value !in s.users && |r.state.users| == |s.users| + 1
    ensures Valid(s) ==> Valid(r.state)
  {
    if reg.fullname == "" then Step(Err(ApiError(400, FullNameRequired)), s)
    else if reg.username == "" then Step(Err(ApiError(400, UsernameRequired)), s)
    else if reg.email == "" then Step(Err(ApiError(400, EmailRequired)), s)
    else if reg.password == "" then Step(Err(ApiError(400, PasswordRequired)), s)
    else if FindAccount(s, Some(reg.username), Some(reg.email)).Some? then Step(Err(ApiError(409, UserAlreadyExists)), s)
    else if !hasAvatarFile then Step(Err(ApiError(400, AvatarRequired)), s)
    else if avatarUrl.None? then Step(Err(ApiError(400, AvatarRequired)), s)
    else
      var id := s.nextId;
      Step(Ok(id), s.(users := s.users[id := NewAccount(reg, avatarUrl.value, coverUrl)], nextId := id + 1))
  }

  // ---------------------------------------------------------------------
  // loginUser

  datatype Credentials = Credentials(username: Option<string>, email: Option<string>, password: string)

  datatype LoginResponse = LoginResponse(userId: Id, tokens: Pair)

  /** Guard on the identifiers, look the account up, check the password,
      then issue a pair. `isPasswordCorrect` is the account model's password
      check, which this model does not see. */
  function Login(s: State, c: Credentials, isPasswordCorrect: (Account, string) -> bool, saveOk: bool): (r: Step<LoginResponse>)
    ensures r.result.Err? ==> r.state == s
    ensures Falsy(c.username) && Falsy(c.email) ==> r.result == Err(ApiError(400, IdentifierRequired))
    ensures !(Falsy(c.username) && Falsy(c.email)) && FindAccount(s, c.username, c.email).None? ==>
      r.result == Err(ApiError(404, UserDoesNotExist))
    ensures (!(Falsy(c.username) && Falsy(c.email)) && FindAccount(s, c.username, c.email).Some? &&
             !isPasswordCorrect(s.users[FindAccount(s, c.username, c.email).value], c.password)) ==>
      r.result == Err(ApiError(401, InvalidCredentials))
    ensures r.result.Ok? <==>
      && !(Falsy(c.username) && Falsy(c.email))
      && FindAccount(s, c.username, c.email).Some?
      && isPasswordCorrect(s.users[FindAccount(s, c.username, c.email).value], c.password)
      && saveOk
    ensures r.result.Ok? ==>
      var id := r.result.value.userId;
      && id == FindAccount(s, c.username, c.email).value
      && id in r.state.users
      && r.state.users[id].refreshToken == Some(r.result.value.tokens.refreshToken)
      && IssuePair(s, id, saveOk).result == Ok(r.result.value.tokens)
      && r.state == IssuePair(s, id, saveOk).state
    ensures Valid(s) ==> Valid(r.state)
  {
    if Falsy(c.username) && Falsy(c.email) then Step(Err(ApiError(400, IdentifierRequired)), s)
    else
      var found := FindAccount(s, c.username, c.email);
      if found.None? then Step(Err(ApiError(404, UserDoesNotExist)), s)
      else
        var id := found.value;
        if !isPasswordCorrect(s.users[id], c.password) then Step(Err(ApiError(401, InvalidCredentials)), s)
        else
          var issued := IssuePair(s, id, saveOk);
          match issued.result
          case Err(e) => Step(Err(e), issued.state)
          case Ok(p) => Step(Ok(LoginResponse(id, p)), issued.state)
  }

  // ---------------------------------------------------------------------
  // logoutUser

  /** `findByIdAndUpdate(id, {$set: {refreshToken: undefined}})`: clear the
      slot of the authenticated account; an id with no account is left alone
      and the call still succeeds. */
  function Logout(s: State, id: Id): (r: State)
    ensures r.users.Keys == s.users.Keys && r.issued == s.issued && r.nextSerial == s.nextSerial && r.nextId == s.nextId
    ensures id in s.users ==> r.users[id] == s.users[id].(refreshToken := None)
    ensures forall j :: j in s.users && j != id ==> r.users[j] == s.users[j]
    ensures Valid(s) ==> Valid(r)
  {
    if id in s.users then s.(users := s.users[id := s.users[id].(refreshToken := None)]) else s
  }

  // ---------------------------------------------------------------------
  // refreshAccessToken

  /** `jwt.verify` with the refresh secret: it succeeds exactly on a refresh
      token the store signed, and yields its subject. Expiry is not modelled. */
  function VerifyRefreshToken(s: State, incoming: Option<Token>): Result<Id>
  {
    match incoming
    case None => Err(JwtError(JwtMustBeProvided))
    case Some(t) => if t in s.issued && t.kind == Refresh then Ok(t.subject) else Err(JwtError(JwtInvalid))
  }

  /** A refresh token the store signed that is the one held in its
      subject's slot. */
  predicate Live(s: State, t: Token) {
    t in s.issued && t.kind == Refresh && t.subject in s.users && s.users[t.subject].refreshToken == Some(t)
  }

  /** The body of the refresh handler (verify, look up, compare with the
      slot, rotate), read with `throw` where the source has `throws`. */
  function RefreshBody(s: State, incoming: Option<Token>, saveOk: bool): (r: Step<Pair>)
    ensures r.result.Err? ==> r.state == s
    ensures r.result.Ok? <==> incoming.Some? && Live(s, incoming.value) && saveOk
    ensures incoming.Some? && incoming.value in s.issued && incoming.value.kind == Refresh && incoming.value.subject !in s.users ==>
      r.result == Err(ApiError(401, InvalidRefreshToken))
    ensures (incoming.Some? && incoming.value in s.issued && incoming.value.kind == Refresh && incoming.value.subject in s.users &&
             s.users[incoming.value.subject].refreshToken != incoming) ==>
      r.result == Err(ApiError(401, ExpiredOrUsedRefreshToken))
    ensures incoming.None? ==> r == Step(Err(JwtError(JwtMustBeProvided)), s)
    ensures incoming.Some? && (incoming.value !in s.issued || incoming.value.kind != Refresh) ==>
      r == Step(Err(JwtError(JwtInvalid)), s)
    ensures r.result.Err? ==> r.result.error.JwtError? || r.result.error.status in {401, 500}
    ensures r.result.Ok? ==> r == IssuePair(s, incoming.value.subject, saveOk)
    ensures r.result.Ok? ==>
      var id := incoming.value.subject;
      && id in r.state.users
      && r.state.users[id].refreshToken == Some(r.result.value.refreshToken)
      && r.state == IssuePair(s, id, saveOk).state
    ensures r.result.Ok? && Valid(s) ==> r.result.value.refreshToken != incoming.value && !Live(r.state, incoming.value)
    ensures Valid(s) ==> Valid(r.state)
  {
    match VerifyRefreshToken(s, incoming)
    case Err(e) => Step(Err(e), s)
    case Ok(subject) =>
      if subject !in s.users then Step(Err(ApiError(401, InvalidRefreshToken)), s)
      else if incoming != s.users[subject].refreshToken then Step(Err(ApiError(401, ExpiredOrUsedRefreshToken)), s)
      else IssuePair(s, subject, saveOk)
  }

  /** What the handler sends back after a rotation. */
  datatype Refreshed = Refreshed(accessToken: Token, refreshToken: Option<Token>)

  /** The refresh response as written: it destructures `newrefreshToken` from
      an object whose field is `refreshToken`, so the new refresh token is
      never sent. */
  function RespondAsWritten(p: Pair): Refreshed
  {
    Refreshed(p.accessToken, None)
  }

  /** The response the handler evidently means to send: both new tokens. */
  function Respond(p: Pair): Refreshed
  {
    Refreshed(p.accessToken, Some(p.refreshToken))
  }

  /** The `catch` of the refresh handler: any error becomes a 401 with the
      same message. */
  function Unauthorized(e: Error): Error
  {
    ApiError(401, e.reason)
  }

  /** The token the request carries: the cookie, else the body field. */
  function Incoming(cookie: Option<Token>, body: Option<Token>): Option<Token>
  {
    if cookie.Some? then cookie else body
  }

  /** The refresh handler as written: the presence guard rejects a present
      token, and with no token `jwt.verify` throws; so every request fails
      with 401 and the store is never changed. */
  function RefreshAccessToken(s: State, cookie: Option<Token>, body: Option<Token>, saveOk: bool): (r: Step<Refreshed>)
    ensures r.state == s
    ensures r.result.Err? && r.result.error.ApiError? && r.result.error.status == 401
    ensures (cookie.Some? || body.Some?) ==> r.result == Err(ApiError(401, UnauthorizedRequest))
    ensures cookie.None? && body.None? ==> r.result == Err(ApiError(401, JwtMustBeProvided))
  {
    var incoming := Incoming(cookie, body);
    if incoming.Some? then Step(Err(ApiError(401, UnauthorizedRequest)), s)
    else
      var outcome := RefreshBody(s, incoming, saveOk);
      match outcome.result
      case Err(e) => Step(Err(Unauthorized(e)), outcome.state)
      case Ok(p) => Step(Ok(RespondAsWritten(p)), outcome.state)
  }

  /** The refresh handler with the presence guard the right way round and
      the new refresh token sent back. */
  function RefreshAccessTokenIntended(s: State, cookie: Option<Token>, body: Option<Token>, saveOk: bool): (r: Step<Refreshed>)
    ensures r.result.Err? ==> r.state == s && r.result.error.ApiError? && r.result.error.status == 401
    ensures cookie.None? && body.None? ==> r.result == Err(ApiError(401, UnauthorizedRequest))
    ensures r.result.Ok? <==> Incoming(cookie, body).Some? && Live(s, Incoming(cookie, body).value) && saveOk
    ensures r.result.Ok? ==>
      var t := Incoming(cookie, body).value;
      && r.result.value.refreshToken.Some?
      && t.subject in r.state.users
      && r.state.users[t.subject].refreshToken == r.result.value.refreshToken
      && Live(r.state, r.result.value.refreshToken.value)
      && r.result.value.accessToken.kind == Access
      && r.result.value.accessToken.subject == t.subject
      && (Valid(s) ==> r.result.value.accessToken !in s.issued)
      && (Valid(s) ==> r.result.value.refreshToken.value != t && !Live(r.state, t))
    ensures Valid(s) ==> Valid(r.state)
  {
    var incoming := Incoming(cookie, body);
    if incoming.None? then Step(Err(ApiError(401, UnauthorizedRequest)), s)
    else
      var outcome := RefreshBody(s, incoming, saveOk);
      match outcome.result
      case Err(e) => Step(Err(Unauthorized(e)), outcome.state)
      case Ok(p) => Step(Ok(Respond(p)), outcome.state)
  }
}

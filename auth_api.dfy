/** The authentication endpoints: registration with its duplicate checks in
    a fixed order, login, and token refresh. A token is represented by its
    claims; the refresh endpoint receives what `jwt.decode` produced from
    the submitted text (`None` when decoding failed). */
module AuthApi {
  import opened Common
  import opened Config
  import opened UserSchema
  import opened Security
  import opened AuthService

  /** Why a registration is refused, in the order the checks run. The
      request schema is checked before the handler runs. */
  datatype RegisterError =
    | InvalidRequest
    | EmailAlreadyRegistered
    | GstAlreadyRegistered
    | PhoneAlreadyRegistered
    | StorageConflict

  /** The checks `register` makes before inserting: the first that fails
      decides the error. */
  function RegisterCheck(users: seq<User>, uc: UserCreate): Option<RegisterError>
  {
    if !ValidUserCreate(uc) then Some(InvalidRequest)
    else if GetUserByEmail(users, uc.email).Some? then Some(EmailAlreadyRegistered)
    else if GetUserByGst(users, uc.gstNumber).Some? then Some(GstAlreadyRegistered)
    else if GetUserByPhone(users, uc.phone).Some? then Some(PhoneAlreadyRegistered)
    else None
  }

  /** The error of a well-formed request is decided by the first duplicate
      key in the order e-mail, GST number, phone; with none the request
      passes. */
  lemma RegisterCheckOrder(users: seq<User>, uc: UserCreate)
    requires ValidUserCreate(uc)
    ensures RegisterCheck(users, uc) == Some(EmailAlreadyRegistered) <==>
      exists u :: u in users && u.email == uc.email
    ensures RegisterCheck(users, uc) == Some(GstAlreadyRegistered) <==>
      (forall u :: u in users ==> u.email != uc.email)
      && exists u :: u in users && u.gstNumber == uc.gstNumber
    ensures RegisterCheck(users, uc) == Some(PhoneAlreadyRegistered) <==>
      (forall u :: u in users ==> u.email != uc.email && u.gstNumber != uc.gstNumber)
      && exists u :: u in users && u.phone == uc.phone
    ensures RegisterCheck(users, uc).None? <==>
      forall u :: u in users ==> u.email != uc.email && u.gstNumber != uc.gstNumber && u.phone != uc.phone
  {
  }

  /** `register`: the checks, then `create_user`. */
  method Register(table: UserTable, uc: UserCreate, passwordHash: string, newId: Uuid, now: int)
    returns (r: Result<User, RegisterError>)
    requires table.Valid()
    modifies table
    ensures table.Valid()
    ensures RegisterCheck(old(table.users), uc).Some? ==>
      r == Err(RegisterCheck(old(table.users), uc).value) && table.users == old(table.users)
    ensures RegisterCheck(old(table.users), uc).None? && r.Ok? ==>
      r.value == NewUser(uc, passwordHash, newId, now) && table.users == old(table.users) + [r.value]
    ensures RegisterCheck(old(table.users), uc).None? && r.Err? ==>
      r.error == StorageConflict && table.users == old(table.users)
      && exists v :: v in old(table.users) && v.id == newId
  {
    var check := RegisterCheck(table.users, uc);
    if check.Some? {
      return Err(check.value);
    }
    var created := table.CreateUser(uc, passwordHash, newId, now);
    if created.Err? {
      ghost var u := NewUser(uc, passwordHash, newId, now);
      ghost var v :| v in old(table.users) && SharesKey(v, u);
      assert v.id == newId;
      return Err(StorageConflict);
    }
    return Ok(created.value);
  }

  /** The `Token` response. */
  datatype TokenPair = TokenPair(accessToken: Claims, refreshToken: Claims, tokenType: string)

  /** The 401 responses of the endpoints, and the server error of a query
      the ORM refuses. */
  datatype AuthError = IncorrectEmailOrPassword | InvalidRefreshToken | UserNotFoundOrInactive | QueryRefused

  function IssueTokens(userId: Uuid, now: int, settings: Settings): TokenPair
  {
    TokenPair(CreateAccessToken(userId, now, settings, None), CreateRefreshToken(userId, now, settings), "bearer")
  }

  /** `login`: tokens for the authenticated user, or 401. */
  function Login(users: seq<User>, email: string, password: string,
                 verifyPassword: (string, string) -> bool, now: int, settings: Settings): (r: Result<TokenPair, AuthError>)
    ensures r.Err? <==> AuthenticateUser(users, email, password, verifyPassword).None?
    ensures r.Err? ==> r.error == IncorrectEmailOrPassword
    ensures r.Ok? ==>
      var u := AuthenticateUser(users, email, password, verifyPassword).value;
      && u.email == email && u in users
      && r.value.tokenType == "bearer"
      && r.value.accessToken.sub == Some(u.id) && r.value.refreshToken.sub == Some(u.id)
      && r.value.accessToken.tokenType == Some(AccessType)
      && r.value.refreshToken.tokenType == Some(RefreshType)
  {
    match AuthenticateUser(users, email, password, verifyPassword)
    case None => Err(IncorrectEmailOrPassword)
    case Some(u) => Ok(IssueTokens(u.id, now, settings))
  }

  /** `refresh_token`: a refresh-type token with a non-empty subject naming
      an active user yields a fresh pair for that user. */
  function Refresh(users: seq<User>, decoded: Option<Claims>, now: int, settings: Settings): (r: Result<TokenPair, AuthError>)
    ensures r.Err? && r.error == InvalidRefreshToken <==>
      VerifyToken(decoded, RefreshType).None? || VerifyToken(decoded, RefreshType) == Some("")
    ensures var v := VerifyToken(decoded, RefreshType);
      r.Ok? <==> v.Some? && v.value != "" && GetUserById(users, v.value).Some? && GetUserById(users, v.value).value.isActive
    ensures r.Err? ==> r.error == InvalidRefreshToken || r.error == UserNotFoundOrInactive
    ensures r.Ok? ==>
      var id := VerifyToken(decoded, RefreshType).value;
      && decoded.Some? && decoded.value.tokenType == Some(RefreshType)
      && (exists u :: u in users && u.id == id && u.isActive)
      && r.value.tokenType == "bearer"
      && r.value.accessToken.sub == Some(id) && r.value.refreshToken.sub == Some(id)
      && r.value.accessToken.tokenType == Some(AccessType)
      && r.value.refreshToken.tokenType == Some(RefreshType)
      && r.value.accessToken.exp == now + settings.accessTokenExpireMinutes * 60
      && r.value.refreshToken.exp == now + settings.refreshTokenExpireDays * 24 * 60 * 60
  {
    match VerifyToken(decoded, RefreshType)
    case None => Err(InvalidRefreshToken)
    case Some(id) =>
      if id == "" then Err(InvalidRefreshToken)
      else match GetUserById(users, id)
        case None => Err(UserNotFoundOrInactive)
        case Some(u) =>
          if !u.isActive then Err(UserNotFoundOrInactive)
          else Ok(IssueTokens(u.id, now, settings))
  }

  /** The refresh token a login hands out can be exchanged, while its user
      stays active, for a new pair for the same user. */
  lemma {:induction false} LoginThenRefresh(users: seq<User>, email: string, password: string,
                                            verifyPassword: (string, string) -> bool,
                                            now: int, later: int, settings: Settings)
    requires UniqueKeys(users)
    requires Login(users, email, password, verifyPassword, now, settings).Ok?
    requires AuthenticateUser(users, email, password, verifyPassword).value.id != ""
    requires AuthenticateUser(users, email, password, verifyPassword).value.isActive
    ensures var u := AuthenticateUser(users, email, password, verifyPassword).value;
      var pair := Login(users, email, password, verifyPassword, now, settings).value;
      Refresh(users, Some(pair.refreshToken), later, settings) == Ok(IssueTokens(u.id, later, settings))
  {
    var u := AuthenticateUser(users, email, password, verifyPassword).value;
    LookupsExact(users, u);
  }

  /** The refresh token a refresh hands out can itself be exchanged again,
      while its user stays active, for a new pair for the same user. */
  lemma {:induction false} RefreshThenRefresh(users: seq<User>, decoded: Option<Claims>,
                                              now: int, later: int, settings: Settings)
    requires Refresh(users, decoded, now, settings).Ok?
    ensures var id := VerifyToken(decoded, RefreshType).value;
      var pair := Refresh(users, decoded, now, settings).value;
      Refresh(users, Some(pair.refreshToken), later, settings) == Ok(IssueTokens(id, later, settings))
  {
    var id := VerifyToken(decoded, RefreshType).value;
    var pair := Refresh(users, decoded, now, settings).value;
    assert pair.refreshToken == CreateRefreshToken(id, now, settings);
    assert VerifyToken(Some(pair.refreshToken), RefreshType) == Some(id);
  }

  /** Login does not look at `is_active`: a deactivated user with the right
      password still obtains tokens, though refreshing them is refused. */
  lemma InactiveUserLogsInButCannotRefresh(users: seq<User>, email: string, password: string,
                                           verifyPassword: (string, string) -> bool,
                                           now: int, later: int, settings: Settings)
    requires UniqueKeys(users)
    requires AuthenticateUser(users, email, password, verifyPassword).Some?
    requires !AuthenticateUser(users, email, password, verifyPassword).value.isActive
    requires AuthenticateUser(users, email, password, verifyPassword).value.id != ""
    ensures Login(users, email, password, verifyPassword, now, settings).Ok?
    ensures var pair := Login(users, email, password, verifyPassword, now, settings).value;
      Refresh(users, Some(pair.refreshToken), later, settings) == Err(UserNotFoundOrInactive)
  {
    var u := AuthenticateUser(users, email, password, verifyPassword).value;
    LookupsExact(users, u);
  }

  /** An access token is never accepted by the refresh endpoint. */
  lemma AccessTokenRefused(users: seq<User>, sub: string, now: int, later: int, settings: Settings)
    ensures Refresh(users, Some(CreateAccessToken(sub, now, settings, None)), later, settings) == Err(InvalidRefreshToken)
  {
  }

  /** `refresh_token` as the handler is written: the user lookup names the
      response schema `User`, the name the handler's imports bind, instead
      of the table; the ORM refuses to query it, so every request that gets
      past the token check ends in a server error. */
  function RefreshAsWritten(decoded: Option<Claims>): (r: Result<TokenPair, AuthError>)
    ensures r.Err?
    ensures r.error == InvalidRefreshToken <==>
      VerifyToken(decoded, RefreshType).None? || VerifyToken(decoded, RefreshType) == Some("")
    ensures r.error != InvalidRefreshToken ==> r.error == QueryRefused
  {
    match VerifyToken(decoded, RefreshType)
    case None => Err(InvalidRefreshToken)
    case Some(id) => if id == "" then Err(InvalidRefreshToken) else Err(QueryRefused)
  }

  /** The refresh token of a successful login, which the intended handler
      exchanges for a new pair, is refused by the handler as written. */
  lemma RefreshAsWrittenRefusesLoginToken(users: seq<User>, email: string, password: string,
                                          verifyPassword: (string, string) -> bool,
                                          now: int, later: int, settings: Settings)
    requires UniqueKeys(users)
    requires Login(users, email, password, verifyPassword, now, settings).Ok?
    requires AuthenticateUser(users, email, password, verifyPassword).value.id != ""
    requires AuthenticateUser(users, email, password, verifyPassword).value.isActive
    ensures var pair := Login(users, email, password, verifyPassword, now, settings).value;
      && RefreshAsWritten(Some(pair.refreshToken)) == Err(QueryRefused)
      && Refresh(users, Some(pair.refreshToken), later, settings).Ok?
  {
    LoginThenRefresh(users, email, password, verifyPassword, now, later, settings);
  }
}

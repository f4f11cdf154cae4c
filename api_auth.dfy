/**
 * Authentication and the role guards of the REST API (zeropain/api/auth.py).
 * bcrypt and JWT are parameters: a password check, and a token codec whose
 * decode stands for jwt.decode with the server's key (None for any
 * JWTError, an expired token included). Token claims are kept as strings;
 * the expiry claim is whatever the clock gives.
 */
module ApiAuth {
  import opened Wrappers
  import opened OrderedDict

  datatype User = User(
    username: string, email: Option<string> := None, fullName: Option<string> := None, disabled: bool := false,
    role: string := "user")

  /** UserInDB: a user with the password hash. */
  datatype StoredUser = StoredUser(
    username: string, email: Option<string>, fullName: Option<string>, disabled: bool, role: string,
    hashedPassword: string)

  /** User(**user.dict(exclude={"hashed_password"})) */
  function Public(u: StoredUser): (p: User)
    ensures p.username == u.username && p.email == u.email && p.fullName == u.fullName
    ensures p.disabled == u.disabled && p.role == u.role
  {
    User(u.username, u.email, u.fullName, u.disabled, u.role)
  }

  type Users = Dict<string, StoredUser>

  /** pwd_context.verify(plain, hashed) */
  type PasswordCheck = (string, string) -> bool

  /** The initial user table: an enabled admin and an enabled user, with the hashes bcrypt made. */
  function InitialUsers(adminHash: string, userHash: string): (db: Users)
    ensures Keys(db) == ["admin", "user"]
  {
    Dict([("admin", StoredUser("admin", Some("admin@zeropain.com"), Some("Admin User"), false, "admin", adminHash)),
          ("user", StoredUser("user", Some("user@zeropain.com"), Some("Regular User"), false, "user", userHash))])
  }

  /** authenticate_user(username, password): the stored user when the password checks out. */
  function AuthenticateUser(db: Users, username: string, password: string, check: PasswordCheck): (r: Option<StoredUser>)
    ensures r.Some? <==> Get(db, username).Some? && check(password, Get(db, username).value.hashedPassword)
    ensures r.Some? ==> r == Get(db, username)
  {
    match Get(db, username)
    case None => None
    case Some(u) => if check(password, u.hashedPassword) then Some(u) else None
  }

  type Claims = Dict<string, string>

  /** jwt.encode and jwt.decode with the server's key and algorithm. */
  datatype TokenCodec = TokenCodec(encode: Claims -> string, decode: string -> Option<Claims>)

  /** A codec that decodes what it encoded (an unexpired token signed with the same key). */
  ghost predicate Decodes(codec: TokenCodec, c: Claims)
  {
    codec.decode(codec.encode(c)) == Some(c)
  }

  datatype TokenData = TokenData(username: Option<string>, role: Option<string>)

  /** {"sub": user.username, "role": user.role} */
  function UserClaims(u: StoredUser): Claims
  {
    Dict([("sub", u.username), ("role", u.role)])
  }

  /** The claims a token is encoded from: the data, the expiry and the token type. */
  function TokenClaims(data: Claims, expire: string, tokenType: string): (c: Claims)
    ensures Get(c, "type") == Some(tokenType) && Get(c, "exp") == Some(expire)
    ensures forall k :: k != "type" && k != "exp" ==> Get(c, k) == Get(data, k)
  {
    SetGet(data, "exp", expire, "type");
    forall k ensures Get(Set(Set(data, "exp", expire), "type", tokenType), k) ==
      if k == "type" then Some(tokenType) else if k == "exp" then Some(expire) else Get(data, k)
    {
      SetGet(Set(data, "exp", expire), "type", tokenType, k);
      SetGet(data, "exp", expire, k);
    }
    Set(Set(data, "exp", expire), "type", tokenType)
  }

  /** verify_token(token, token_type): the subject and role of a valid token of that type. */
  function VerifyToken(codec: TokenCodec, token: string, tokenType: string): (r: Option<TokenData>)
    ensures r.Some? <==> codec.decode(token).Some? && Get(codec.decode(token).value, "type") == Some(tokenType) &&
                         Get(codec.decode(token).value, "sub").Some?
    ensures r.Some? ==> r.value.username.Some? && r.value.username == Get(codec.decode(token).value, "sub")
  {
    match codec.decode(token)
    case None => None
    case Some(payload) =>
      if Get(payload, "type") != Some(tokenType) then None
      else if Get(payload, "sub").None? then None
      else Some(TokenData(Get(payload, "sub"), Get(payload, "role")))
  }

  datatype Token = Token(accessToken: string, refreshToken: string, tokenType: string)

  /** create_user_tokens(user): an access token and a refresh token for the user's name and role. */
  function UserTokens(codec: TokenCodec, u: StoredUser, accessExpire: string, refreshExpire: string): Token
  {
    Token(codec.encode(TokenClaims(UserClaims(u), accessExpire, "access")),
          codec.encode(TokenClaims(UserClaims(u), refreshExpire, "refresh")), "bearer")
  }

  /**
   * The tokens of a user verify, each only as its own type, to the user's
   * name and role.
   */
  lemma UserTokensVerify(codec: TokenCodec, u: StoredUser, accessExpire: string, refreshExpire: string)
    requires Decodes(codec, TokenClaims(UserClaims(u), accessExpire, "access"))
    requires Decodes(codec, TokenClaims(UserClaims(u), refreshExpire, "refresh"))
    ensures var t := UserTokens(codec, u, accessExpire, refreshExpire);
      VerifyToken(codec, t.accessToken, "access") == Some(TokenData(Some(u.username), Some(u.role))) &&
      VerifyToken(codec, t.refreshToken, "refresh") == Some(TokenData(Some(u.username), Some(u.role))) &&
      VerifyToken(codec, t.accessToken, "refresh").None? &&
      VerifyToken(codec, t.refreshToken, "access").None?
  {
    var claims := UserClaims(u);
    var e := claims.entries;
    assert e[1..] == [("role", u.role)];
    assert "sub"[0] != "role"[0];
    assert Find(e, "role") == Find(e[1..], "role");
    assert Get(claims, "sub") == Some(u.username);
    assert Get(claims, "role") == Some(u.role);
  }

  datatype HttpError = HttpError(status: int, detail: string)

  /** The status codes of section 15.5 of RFC 9110 the API raises. */
  const BadRequest := 400
  const Unauthorized := 401
  const Forbidden := 403
  const NotFound := 404

  /** get_current_user(credentials): the user named by a valid access token, without the hash. */
  function CurrentUser(db: Users, codec: TokenCodec, token: string): (r: Result<User, HttpError>)
    ensures r.Err? ==> r.error == HttpError(Unauthorized, "Could not validate credentials")
    ensures r.Ok? <==> VerifyToken(codec, token, "access").Some? &&
                       Get(db, VerifyToken(codec, token, "access").value.username.value).Some?
    ensures r.Ok? ==> r.value == Public(Get(db, VerifyToken(codec, token, "access").value.username.value).value)
  {
    var credentials := HttpError(Unauthorized, "Could not validate credentials");
    match VerifyToken(codec, token, "access")
    case None => Err(credentials)
    case Some(data) =>
      match Get(db, data.username.value)
      case None => Err(credentials)
      case Some(u) => Ok(Public(u))
  }

  /** get_current_active_user: 403 exactly for a disabled user. */
  function ActiveUser(u: Result<User, HttpError>): (r: Result<User, HttpError>)
    ensures u.Err? ==> r == u
    ensures u.Ok? ==> (r.Err? <==> u.value.disabled)
    ensures u.Ok? && u.value.disabled ==> r == Err(HttpError(Forbidden, "Inactive user"))
    ensures r.Ok? ==> r == u
  {
    match u
    case Err(e) => Err(e)
    case Ok(user) => if user.disabled then Err(HttpError(Forbidden, "Inactive user")) else Ok(user)
  }

  /** require_admin: an active user whose role is "admin". */
  function RequireAdmin(u: Result<User, HttpError>): (r: Result<User, HttpError>)
    ensures r.Ok? <==> ActiveUser(u).Ok? && ActiveUser(u).value.role == "admin"
    ensures r.Ok? ==> r == u
    ensures ActiveUser(u).Ok? && ActiveUser(u).value.role != "admin" ==> r == Err(HttpError(Forbidden, "Admin access required"))
  {
    match ActiveUser(u)
    case Err(e) => Err(e)
    case Ok(user) => if user.role != "admin" then Err(HttpError(Forbidden, "Admin access required")) else Ok(user)
  }

  /** require_user_or_admin: an active user whose role is "user" or "admin" (not "readonly"). */
  function RequireUserOrAdmin(u: Result<User, HttpError>): (r: Result<User, HttpError>)
    ensures r.Ok? <==> ActiveUser(u).Ok? && ActiveUser(u).value.role in ["user", "admin"]
    ensures r.Ok? ==> r == u
    ensures ActiveUser(u).Ok? && ActiveUser(u).value.role !in ["user", "admin"] ==>
      r == Err(HttpError(Forbidden, "Insufficient permissions"))
  {
    match ActiveUser(u)
    case Err(e) => Err(e)
    case Ok(user) =>
      if user.role !in ["user", "admin"] then Err(HttpError(Forbidden, "Insufficient permissions")) else Ok(user)
  }

  /** An admin passes both guards; a user passing require_admin passes require_user_or_admin. */
  lemma AdminImpliesUserOrAdmin(u: Result<User, HttpError>)
    ensures RequireAdmin(u).Ok? ==> RequireUserOrAdmin(u).Ok?
  {
  }

  /** verify_api_key(api_key): not implemented, so no key is ever accepted. */
  function VerifyApiKey(apiKey: string): (r: Option<User>)
    ensures r.None?
  {
    None
  }

  /** get_user_from_api_key: always 401. */
  function UserFromApiKey(apiKey: string): (r: Result<User, HttpError>)
    ensures r == Err(HttpError(Unauthorized, "Invalid API key"))
  {
    match VerifyApiKey(apiKey)
    case None => Err(HttpError(Unauthorized, "Invalid API key"))
    case Some(u) => Ok(u)
  }
}

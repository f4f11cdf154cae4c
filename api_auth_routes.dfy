/**
 * The authentication routes (zeropain/api/routes/auth.py) over the
 * in-memory user table. Each route first runs its dependency (the active
 * user, or the admin guard) on the bearer token, then its own checks in
 * the order the handler makes them. The routes that change the table are
 * methods of UserStore, each tied to a function of the old table; the
 * read-only routes are functions of the table.
 */
module AuthRoutes {
  import opened Wrappers
  import opened OrderedDict
  import opened ApiAuth

  /** The table is well formed and every user is stored under its own name. */
  ghost predicate UsersValid(db: Users)
  {
    Wf(db) && forall k :: Get(db, k).Some? ==> Get(db, k).value.username == k
  }

  /** The table seeded at import time is well formed. */
  lemma InitialUsersValid(adminHash: string, userHash: string)
    ensures UsersValid(InitialUsers(adminHash, userHash))
  {
    var db := InitialUsers(adminHash, userHash);
    var e := db.entries;
    assert "admin"[0] != "user"[0];
    assert e[1..][1..] == [];
    forall k ensures Get(db, k) == if k == "admin" then Some(e[0].1) else if k == "user" then Some(e[1].1) else None {
      assert Find(e, k) == if k == "admin" then Some(e[0].1) else Find(e[1..], k);
      assert Find(e[1..], k) == if k == "user" then Some(e[1].1) else Find(e[1..][1..], k);
    }
  }

  /**
   * login: 401 for an unknown name or a wrong password, checked first; then
   * 403 for a disabled account; otherwise a fresh pair of tokens.
   */
  function Login(db: Users, username: string, password: string, check: PasswordCheck, codec: TokenCodec,
                 accessExpire: string, refreshExpire: string): (r: Result<Token, HttpError>)
    ensures AuthenticateUser(db, username, password, check).None? <==>
      r == Err(HttpError(Unauthorized, "Incorrect username or password"))
    ensures r == Err(HttpError(Forbidden, "Account is disabled")) <==>
      AuthenticateUser(db, username, password, check).Some? && AuthenticateUser(db, username, password, check).value.disabled
    ensures r.Ok? <==>
      AuthenticateUser(db, username, password, check).Some? && !AuthenticateUser(db, username, password, check).value.disabled
    ensures r.Ok? ==> r.value == UserTokens(codec, Get(db, username).value, accessExpire, refreshExpire)
  {
    match AuthenticateUser(db, username, password, check)
    case None => Err(HttpError(Unauthorized, "Incorrect username or password"))
    case Some(u) =>
      if u.disabled then Err(HttpError(Forbidden, "Account is disabled"))
      else Ok(UserTokens(codec, u, accessExpire, refreshExpire))
  }

  /**
   * refresh_token: 401 for anything but a valid refresh token, then 401 for
   * a user that is gone or disabled; otherwise a new pair of tokens.
   */
  function Refresh(db: Users, refreshToken: string, codec: TokenCodec, accessExpire: string, refreshExpire: string)
    : (r: Result<Token, HttpError>)
    ensures VerifyToken(codec, refreshToken, "refresh").None? ==> r == Err(HttpError(Unauthorized, "Invalid refresh token"))
    ensures r.Ok? <==> (VerifyToken(codec, refreshToken, "refresh").Some? &&
      var u := Get(db, VerifyToken(codec, refreshToken, "refresh").value.username.value); u.Some? && !u.value.disabled)
    ensures VerifyToken(codec, refreshToken, "refresh").Some? && r.Err? ==>
      r == Err(HttpError(Unauthorized, "User not found or disabled"))
    ensures r.Ok? ==> r.value == UserTokens(codec, Get(db, VerifyToken(codec, refreshToken, "refresh").value.username.value).value,
                                            accessExpire, refreshExpire)
  {
    match VerifyToken(codec, refreshToken, "refresh")
    case None => Err(HttpError(Unauthorized, "Invalid refresh token"))
    case Some(data) =>
      match Get(db, data.username.value)
      case None => Err(HttpError(Unauthorized, "User not found or disabled"))
      case Some(u) =>
        if u.disabled then Err(HttpError(Unauthorized, "User not found or disabled"))
        else Ok(UserTokens(codec, u, accessExpire, refreshExpire))
  }

  /**
   * The refresh token a login hands out refreshes, for the same user, as
   * long as the table and the codec keep it valid.
   */
  lemma LoginThenRefresh(db: Users, username: string, password: string, check: PasswordCheck, codec: TokenCodec,
                         accessExpire: string, refreshExpire: string, accessExpire': string, refreshExpire': string)
    requires UsersValid(db)
    requires Login(db, username, password, check, codec, accessExpire, refreshExpire).Ok?
    requires var u := Get(db, username).value;
      Decodes(codec, TokenClaims(UserClaims(u), accessExpire, "access")) &&
      Decodes(codec, TokenClaims(UserClaims(u), refreshExpire, "refresh"))
    ensures var t := Login(db, username, password, check, codec, accessExpire, refreshExpire).value;
      Refresh(db, t.refreshToken, codec, accessExpire', refreshExpire') ==
      Ok(UserTokens(codec, Get(db, username).value, accessExpire', refreshExpire'))
  {
    var u := Get(db, username).value;
    UserTokensVerify(codec, u, accessExpire, refreshExpire);
  }

  /** The admin guard of the user-management routes, run on the current table. */
  function AdminCaller(db: Users, codec: TokenCodec, token: string): Result<User, HttpError>
  {
    RequireAdmin(CurrentUser(db, codec, token))
  }

  /** The active-user dependency, run on the current table. */
  function ActiveCaller(db: Users, codec: TokenCodec, token: string): Result<User, HttpError>
  {
    ActiveUser(CurrentUser(db, codec, token))
  }

  /** list_users: every user, in table order, without the password hash. */
  function ListUsers(db: Users, admin: Result<User, HttpError>): (r: Result<seq<User>, HttpError>)
    ensures admin.Err? ==> r == Err(admin.error)
    ensures r.Ok? <==> admin.Ok?
    ensures r.Ok? ==> (|r.value| == Size(db) &&
      forall i :: 0 <= i < |r.value| ==> r.value[i] == Public(db.entries[i].1))
  {
    match admin
    case Err(e) => Err(e)
    case Ok(_) => Ok(seq(|db.entries|, i requires 0 <= i < |db.entries| => Public(db.entries[i].1)))
  }

  /** What change_password answers and the table it leaves. */
  function ChangePasswordOutcome(db: Users, caller: Result<User, HttpError>, oldPassword: string, newHash: string,
                                 check: PasswordCheck): (o: (Result<string, HttpError>, Users))
    ensures caller.Err? ==> o == (Err(caller.error), db)
    ensures caller.Ok? && Get(db, caller.value.username).None? ==> o == (Err(HttpError(NotFound, "User not found")), db)
    ensures o.0.Err? ==> o.1 == db
    ensures o.0.Ok? <==> (caller.Ok? && Get(db, caller.value.username).Some? &&
      check(oldPassword, Get(db, caller.value.username).value.hashedPassword))
    ensures caller.Ok? && Get(db, caller.value.username).Some? && o.0.Err? ==>
      o.0 == Err(HttpError(BadRequest, "Incorrect password"))
    ensures o.0.Ok? ==> (o.0.value == "Password updated successfully" &&
      Keys(o.1) == Keys(db) &&
      Get(o.1, caller.value.username) == Some(Get(db, caller.value.username).value.(hashedPassword := newHash)) &&
      forall j :: j != caller.value.username ==> Get(o.1, j) == Get(db, j))
  {
    match caller
    case Err(e) => (Err(e), db)
    case Ok(c) =>
      match Get(db, c.username)
      case None => (Err(HttpError(NotFound, "User not found")), db)
      case Some(u) =>
        if !check(oldPassword, u.hashedPassword) then (Err(HttpError(BadRequest, "Incorrect password")), db)
        else
          var db' := Set(db, c.username, u.(hashedPassword := newHash));
          SetKeys(db, c.username, u.(hashedPassword := newHash));
          GetSomeIffKey(db, c.username);
          forall j ensures Get(db', j) == if j == c.username then Some(u.(hashedPassword := newHash)) else Get(db, j) {
            SetGet(db, c.username, u.(hashedPassword := newHash), j);
          }
          (Ok("Password updated successfully"), db')
  }

  /**
   * In a valid table the active user of a token is always stored under its
   * own name, so change_password's 404 is never raised.
   */
  lemma ChangePasswordNeverNotFound(db: Users, codec: TokenCodec, token: string, oldPassword: string, newHash: string,
                                    check: PasswordCheck)
    requires UsersValid(db)
    ensures ChangePasswordOutcome(db, ActiveCaller(db, codec, token), oldPassword, newHash, check).0 !=
      Err(HttpError(NotFound, "User not found"))
  {
    var caller := ActiveCaller(db, codec, token);
    if caller.Ok? {
      var name := VerifyToken(codec, token, "access").value.username.value;
      assert Get(db, name).Some?;
      assert caller.value.username == Get(db, name).value.username;
    }
  }

  /** What create_user answers and the table it leaves. */
  function CreateUserOutcome(db: Users, admin: Result<User, HttpError>, username: string, email: Option<string>,
                             fullName: Option<string>, role: string, newHash: string)
    : (o: (Result<User, HttpError>, Users))
    ensures admin.Err? ==> o == (Err(admin.error), db)
    ensures admin.Ok? && HasKey(db, username) ==> o == (Err(HttpError(BadRequest, "Username already exists")), db)
    ensures o.0.Ok? <==> admin.Ok? && !HasKey(db, username)
    ensures o.0.Err? ==> o.1 == db
    ensures o.0.Ok? ==>
      var stored := StoredUser(username, email, fullName, false, role, newHash);
      o.0.value == Public(stored) && Keys(o.1) == Keys(db) + [username] &&
      Get(o.1, username) == Some(stored) && forall j :: j != username ==> Get(o.1, j) == Get(db, j)
  {
    match admin
    case Err(e) => (Err(e), db)
    case Ok(_) =>
      if HasKey(db, username) then (Err(HttpError(BadRequest, "Username already exists")), db)
      else
        var stored := StoredUser(username, email, fullName, false, role, newHash);
        SetKeys(db, username, stored);
        forall j ensures Get(Set(db, username, stored), j) == if j == username then Some(stored) else Get(db, j) {
          SetGet(db, username, stored, j);
        }
        (Ok(Public(stored)), Set(db, username, stored))
  }

  /** What delete_user answers and the table it leaves: the self check comes before the existence check. */
  function DeleteUserOutcome(db: Users, admin: Result<User, HttpError>, username: string)
    : (o: (Result<string, HttpError>, Users))
    ensures admin.Err? ==> o == (Err(admin.error), db)
    ensures admin.Ok? && username == admin.value.username ==>
      o == (Err(HttpError(BadRequest, "Cannot delete your own account")), db)
    ensures admin.Ok? && username != admin.value.username && !HasKey(db, username) ==>
      o == (Err(HttpError(NotFound, "User not found")), db)
    ensures o.0.Ok? <==> admin.Ok? && username != admin.value.username && HasKey(db, username)
    ensures o.0.Err? ==> o.1 == db
    ensures o.0.Ok? ==> (o.0.value == "User " + username + " deleted successfully" &&
      (forall j :: HasKey(o.1, j) <==> HasKey(db, j) && j != username) &&
      Get(o.1, username).None? && (forall j :: j != username ==> Get(o.1, j) == Get(db, j)) &&
      Keys(o.1) == KeysNotIn(Keys(db), [username]))
  {
    match admin
    case Err(e) => (Err(e), db)
    case Ok(a) =>
      if username == a.username then (Err(HttpError(BadRequest, "Cannot delete your own account")), db)
      else if !HasKey(db, username) then (Err(HttpError(NotFound, "User not found")), db)
      else
        RemoveKeys(db, username);
        RemoveKeysOrder(db, username);
        forall j ensures Get(Remove(db, username), j) == if j == username then None else Get(db, j) {
          RemoveGet(db, username, j);
        }
        (Ok("User " + username + " deleted successfully"), Remove(db, username))
  }

  /** What disable_user answers and the table it leaves. */
  function DisableUserOutcome(db: Users, admin: Result<User, HttpError>, username: string, disabled: bool)
    : (o: (Result<string, HttpError>, Users))
    ensures admin.Err? ==> o == (Err(admin.error), db)
    ensures admin.Ok? && username == admin.value.username ==>
      o == (Err(HttpError(BadRequest, "Cannot disable your own account")), db)
    ensures admin.Ok? && username != admin.value.username && Get(db, username).None? ==>
      o == (Err(HttpError(NotFound, "User not found")), db)
    ensures o.0.Ok? <==> admin.Ok? && username != admin.value.username && Get(db, username).Some?
    ensures o.0.Err? ==> o.1 == db
    ensures o.0.Ok? ==>
      o.0.value == "User " + username + (if disabled then " disabled" else " enabled") + " successfully" &&
      Keys(o.1) == Keys(db) &&
      Get(o.1, username) == Some(Get(db, username).value.(disabled := disabled)) &&
      forall j :: j != username ==> Get(o.1, j) == Get(db, j)
  {
    match admin
    case Err(e) => (Err(e), db)
    case Ok(a) =>
      if username == a.username then (Err(HttpError(BadRequest, "Cannot disable your own account")), db)
      else
        match Get(db, username)
        case None => (Err(HttpError(NotFound, "User not found")), db)
        case Some(u) =>
          var statusText := if disabled then "disabled" else "enabled";
          SetKeys(db, username, u.(disabled := disabled));
          GetSomeIffKey(db, username);
          forall j ensures Get(Set(db, username, u.(disabled := disabled)), j) ==
            if j == username then Some(u.(disabled := disabled)) else Get(db, j)
          {
            SetGet(db, username, u.(disabled := disabled), j);
          }
          (Ok("User " + username + " " + statusText + " successfully"), Set(db, username, u.(disabled := disabled)))
  }

  /** Storing a user under its own name keeps the table valid. */
  lemma StoreKeepsValid(db: Users, u: StoredUser)
    requires UsersValid(db)
    ensures UsersValid(Set(db, u.username, u))
  {
    SetWf(db, u.username, u);
    forall k ensures Get(Set(db, u.username, u), k) == if k == u.username then Some(u) else Get(db, k) {
      SetGet(db, u.username, u, k);
    }
  }

  /** Every route that changes the table keeps it valid. */
  lemma OutcomesKeepValid(db: Users, caller: Result<User, HttpError>, username: string, oldPassword: string, newHash: string,
                          check: PasswordCheck, email: Option<string>, fullName: Option<string>, role: string, disabled: bool)
    requires UsersValid(db)
    ensures UsersValid(ChangePasswordOutcome(db, caller, oldPassword, newHash, check).1)
    ensures UsersValid(CreateUserOutcome(db, caller, username, email, fullName, role, newHash).1)
    ensures UsersValid(DeleteUserOutcome(db, caller, username).1)
    ensures UsersValid(DisableUserOutcome(db, caller, username, disabled).1)
  {
    assert UsersValid(ChangePasswordOutcome(db, caller, oldPassword, newHash, check).1) by {
      if caller.Ok? && Get(db, caller.value.username).Some? {
        var u := Get(db, caller.value.username).value;
        StoreKeepsValid(db, u.(hashedPassword := newHash));
      }
    }
    assert UsersValid(CreateUserOutcome(db, caller, username, email, fullName, role, newHash).1) by {
      StoreKeepsValid(db, StoredUser(username, email, fullName, false, role, newHash));
    }
    assert UsersValid(DeleteUserOutcome(db, caller, username).1) by {
      RemoveWf(db, username);
      forall k ensures Get(Remove(db, username), k) == if k == username then None else Get(db, k) {
        RemoveGet(db, username, k);
      }
    }
    assert UsersValid(DisableUserOutcome(db, caller, username, disabled).1) by {
      if Get(db, username).Some? {
        StoreKeepsValid(db, Get(db, username).value.(disabled := disabled));
      }
    }
  }

  /** The user table (fake_users_db) and the routes that change it. */
  class UserStore {
    var users: Users

    ghost predicate Valid()
      reads this
    {
      UsersValid(users)
    }

    /** The table as the module is imported: admin and user, with the hashes bcrypt made. */
    constructor(adminHash: string, userHash: string)
      ensures Valid() && users == InitialUsers(adminHash, userHash)
    {
      users := InitialUsers(adminHash, userHash);
      InitialUsersValid(adminHash, userHash);
    }

    /** change_password, for the active user of the bearer token. */
    method ChangePassword(codec: TokenCodec, token: string, oldPassword: string, newHash: string, check: PasswordCheck)
      returns (r: Result<string, HttpError>)
      requires Valid()
      modifies this
      ensures Valid()
      ensures (r, users) == ChangePasswordOutcome(old(users), ActiveCaller(old(users), codec, token), oldPassword, newHash, check)
    {
      OutcomesKeepValid(users, ActiveCaller(users, codec, token), "", oldPassword, newHash, check, None, None, "", false);
      var caller := ActiveCaller(users, codec, token);
      if caller.Err? {
        return Err(caller.error);
      }
      var user := Get(users, caller.value.username);
      if user.None? {
        return Err(HttpError(NotFound, "User not found"));
      }
      if !check(oldPassword, user.value.hashedPassword) {
        return Err(HttpError(BadRequest, "Incorrect password"));
      }
      users := Set(users, caller.value.username, user.value.(hashedPassword := newHash));
      r := Ok("Password updated successfully");
    }

    /** create_user; the new user is enabled. */
    method CreateUser(codec: TokenCodec, token: string, username: string, email: Option<string>, fullName: Option<string>,
                      role: string, newHash: string)
      returns (r: Result<User, HttpError>)
      requires Valid()
      modifies this
      ensures Valid()
      ensures (r, users) == CreateUserOutcome(old(users), AdminCaller(old(users), codec, token), username, email, fullName, role, newHash)
    {
      OutcomesKeepValid(users, AdminCaller(users, codec, token), username, "", newHash, (a, b) => false, email, fullName, role, false);
      var admin := AdminCaller(users, codec, token);
      if admin.Err? {
        return Err(admin.error);
      }
      if HasKey(users, username) {
        return Err(HttpError(BadRequest, "Username already exists"));
      }
      var stored := StoredUser(username, email, fullName, false, role, newHash);
      users := Set(users, username, stored);
      r := Ok(Public(stored));
    }

    /** delete_user */
    method DeleteUser(codec: TokenCodec, token: string, username: string) returns (r: Result<string, HttpError>)
      requires Valid()
      modifies this
      ensures Valid()
      ensures (r, users) == DeleteUserOutcome(old(users), AdminCaller(old(users), codec, token), username)
    {
      OutcomesKeepValid(users, AdminCaller(users, codec, token), username, "", "", (a, b) => false, None, None, "", false);
      var admin := AdminCaller(users, codec, token);
      if admin.Err? {
        return Err(admin.error);
      }
      if username == admin.value.username {
        return Err(HttpError(BadRequest, "Cannot delete your own account"));
      }
      if !HasKey(users, username) {
        return Err(HttpError(NotFound, "User not found"));
      }
      users := Remove(users, username);
      r := Ok("User " + username + " deleted successfully");
    }

    /** disable_user: sets the disabled flag of another user to the given value. */
    method DisableUser(codec: TokenCodec, token: string, username: string, disabled: bool) returns (r: Result<string, HttpError>)
      requires Valid()
      modifies this
      ensures Valid()
      ensures (r, users) == DisableUserOutcome(old(users), AdminCaller(old(users), codec, token), username, disabled)
    {
      OutcomesKeepValid(users, AdminCaller(users, codec, token), username, "", "", (a, b) => false, None, None, "", disabled);
      var admin := AdminCaller(users, codec, token);
      if admin.Err? {
        return Err(admin.error);
      }
      if username == admin.value.username {
        return Err(HttpError(BadRequest, "Cannot disable your own account"));
      }
      var user := Get(users, username);
      if user.None? {
        return Err(HttpError(NotFound, "User not found"));
      }
      users := Set(users, username, user.value.(disabled := disabled));
      var statusText := if disabled then "disabled" else "enabled";
      r := Ok("User " + username + " " + statusText + " successfully");
    }
  }
}

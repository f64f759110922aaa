/** auth_service.py and the session calls of api/v1/auth.py: as functions on the
    tables, and as methods that update them in place. */
module AuthService {
  import opened Wrappers
  import opened WorkflowModel

  datatype LockReason = TooManyFailedAttempts | OtherReason

  datatype User = User(
    username: string, isActive: bool, authenticationEnabled: bool, local: bool, passwordHash: Option<string>,
    failedAttempts: int, isLocked: bool, lockedUntil: Option<Time>, lockReason: Option<LockReason>)

  /** A token stands for its hash; a user is a position in the users table. */
  datatype Session = Session(
    user: nat, access: nat, refresh: nat, family: nat, expiresAt: Time, revokedAt: Option<Time>, revokedReason: string)

  datatype Settings = Settings(maxFailedAttempts: int, lockMinutes: int, refreshDays: int)

  /** The tables, and a supply of fresh tokens and family ids. */
  datatype Tables = Tables(users: seq<User>, sessions: seq<Session>, nextToken: nat)

  datatype Tokens = Tokens(access: nat, refresh: nat)

  /** A refused login may still leave its mark. */
  datatype LoginResult = LoginResult(tables: Tables, result: Result<Tokens>)

  // -- Sessions -------------------------------------------------------------

  predicate Live(x: Session) {
    x.revokedAt.None?
  }

  function NewSession(s: Tables, user: nat, family: Option<nat>, cfg: Settings, now: Time): Tables {
    s.(sessions := s.sessions + [Session(user, s.nextToken, s.nextToken + 1, if family.Some? then family.value else s.nextToken + 2,
                                         now + 86400 * cfg.refreshDays, None, "")],
       nextToken := s.nextToken + 3)
  }

  function NewTokens(s: Tables): Tokens {
    Tokens(s.nextToken, s.nextToken + 1)
  }

  function ByAccess(s: Tables, access: nat, now: Time): Option<nat> {
    FirstWhere(s.sessions, (x: Session) => x.access == access && Live(x) && x.expiresAt > now)
  }

  function ByRefresh(s: Tables, refresh: nat, now: Time): Option<nat> {
    FirstWhere(s.sessions, (x: Session) => x.refresh == refresh && Live(x) && x.expiresAt > now)
  }

  function Revoked(x: Session, reason: string, now: Time): Session {
    x.(revokedAt := Some(now), revokedReason := reason)
  }

  function RevokeOne(s: Tables, k: nat, reason: string, now: Time): Tables
    requires k < |s.sessions|
  {
    s.(sessions := s.sessions[k := Revoked(s.sessions[k], reason, now)])
  }

  function RevokedIf(x: Session, user: nat, reason: string, now: Time): Session {
    if x.user == user && Live(x) then Revoked(x, reason, now) else x
  }

  function RevokeAll(s: Tables, user: nat, reason: string, now: Time): Tables {
    s.(sessions := seq(|s.sessions|, k requires 0 <= k < |s.sessions| => RevokedIf(s.sessions[k], user, reason, now)))
  }

  // -- Logging in -----------------------------------------------------------

  /** `check_user_can_login`: the user with an expired automatic lock lifted. */
  function CanLogin(u: User, now: Time): Result<User> {
    if !u.isActive || !u.authenticationEnabled then Err(Unauthorized) else
    var v := if u.lockedUntil.Some? && u.lockedUntil.value <= now && u.lockReason == Some(TooManyFailedAttempts)
             then u.(isLocked := false, lockedUntil := None, lockReason := None, failedAttempts := 0) else u;
    if v.isLocked then Err(Forbidden) else Ok(v)
  }

  /** `record_failed_login`, committed. */
  function FailedLogin(s: Tables, i: nat, u: User, cfg: Settings, now: Time): Tables
    requires i < |s.users|
  {
    var v := u.(failedAttempts := u.failedAttempts + 1);
    if v.failedAttempts < cfg.maxFailedAttempts then s.(users := s.users[i := v])
    else
      RevokeAll(s.(users := s.users[i := v.(isLocked := true, lockedUntil := Some(now + 60 * cfg.lockMinutes),
                                            lockReason := Some(TooManyFailedAttempts))]), i, "account_locked", now)
  }

  function FindUser(users: seq<User>, username: string): Option<nat> {
    FirstWhere(users, (u: User) => u.username == username)
  }

  /** `login`; `matches`: what the password hasher says. */
  function Login(s: Tables, username: string, matches: bool, cfg: Settings, now: Time): LoginResult {
    var found := FindUser(s.users, username);
    if found.None? then LoginResult(s, Err(Unauthorized)) else
    var i := found.value;
    var allowed := CanLogin(s.users[i], now);
    if allowed.Err? then LoginResult(s, Err(allowed.error))
    else if !allowed.value.local || !Given(allowed.value.passwordHash) then LoginResult(s, Err(Unauthorized))
    else if !matches then LoginResult(FailedLogin(s, i, allowed.value, cfg, now), Err(Unauthorized))
    else
      var entered := s.(users := s.users[i := allowed.value.(failedAttempts := 0)]);
      LoginResult(NewSession(entered, i, None, cfg, now), Ok(NewTokens(s)))
  }

  // -- The other calls ------------------------------------------------------

  /** `refresh`: rotation within the family. */
  function Refresh(s: Tables, refresh: nat, cfg: Settings, now: Time): Result<(Tables, Tokens)> {
    var k := ByRefresh(s, refresh, now);
    if k.None? then Err(Unauthorized)
    else
      var x := s.sessions[k.value];
      Ok((NewSession(RevokeOne(s, k.value, "refresh_rotation", now), x.user, Some(x.family), cfg, now), NewTokens(s)))
  }

  /** `logout`. */
  function Logout(s: Tables, access: nat, now: Time): Result<Tables> {
    var k := ByAccess(s, access, now);
    if k.None? then Err(Unauthorized) else Ok(RevokeOne(s, k.value, "logout", now))
  }

  /** `logout_all`, for a user that is active and not locked. */
  function LogoutAll(s: Tables, access: nat, now: Time): Result<Tables> {
    var k := ByAccess(s, access, now);
    if k.None? || s.sessions[k.value].user >= |s.users| then Err(Unauthorized) else
    var user := s.sessions[k.value].user;
    if !s.users[user].isActive || s.users[user].isLocked then Err(Forbidden)
    else Ok(RevokeAll(s, user, "logout_all", now))
  }

  // -- In place -------------------------------------------------------------

  class AuthStore {
    var users: seq<User>
    var sessions: seq<Session>
    var nextToken: nat

    function Rows(): Tables
      reads this
    {
      Tables(users, sessions, nextToken)
    }

    constructor (s: Tables)
      ensures Rows() == s
    {
      users, sessions, nextToken := s.users, s.sessions, s.nextToken;
    }

    /** `create_session`. */
    method CreateSession(user: nat, family: Option<nat>, cfg: Settings, now: Time) returns (tokens: Tokens)
      modifies this
      ensures Rows() == NewSession(old(Rows()), user, family, cfg, now) && tokens == NewTokens(old(Rows()))
    {
      tokens := Tokens(nextToken, nextToken + 1);
      var id := if family.Some? then family.value else nextToken + 2;
      sessions := sessions + [Session(user, tokens.access, tokens.refresh, id, now + 86400 * cfg.refreshDays, None, "")];
      nextToken := nextToken + 3;
    }

    /** `revoke_session`. */
    method RevokeSession(k: nat, reason: string, now: Time)
      requires k < |sessions|
      modifies this
      ensures Rows() == RevokeOne(old(Rows()), k, reason, now)
    {
      sessions := sessions[k := sessions[k].(revokedAt := Some(now))];
      sessions := sessions[k := sessions[k].(revokedReason := reason)];
    }

    /** `revoke_all_sessions`: the bulk update, row by row. */
    method RevokeAllSessions(user: nat, reason: string, now: Time)
      modifies this
      ensures Rows() == RevokeAll(old(Rows()), user, reason, now)
    {
      ghost var before := Rows();
      for k := 0 to |sessions|
        invariant Rows() == before.(sessions := sessions) && |sessions| == |before.sessions|
        invariant forall j :: 0 <= j < k ==> sessions[j] == RevokedIf(before.sessions[j], user, reason, now)
        invariant forall j :: k <= j < |sessions| ==> sessions[j] == before.sessions[j]
      {
        if sessions[k].user == user && sessions[k].revokedAt.None? {
          sessions := sessions[k := sessions[k].(revokedAt := Some(now), revokedReason := reason)];
        }
      }
    }

    /** `record_failed_login`. */
    method RecordFailedLogin(i: nat, cfg: Settings, now: Time)
      requires i < |users|
      modifies this
      ensures Rows() == FailedLogin(old(Rows()), i, old(users)[i], cfg, now)
    {
      users := users[i := users[i].(failedAttempts := users[i].failedAttempts + 1)];
      if users[i].failedAttempts >= cfg.maxFailedAttempts {
        users := users[i := users[i].(isLocked := true, lockedUntil := Some(now + 60 * cfg.lockMinutes))];
        users := users[i := users[i].(lockReason := Some(TooManyFailedAttempts))];
        RevokeAllSessions(i, "account_locked", now);
      }
    }

    /** `check_user_can_login`, on the row of the user. */
    method CheckUserCanLogin(i: nat, now: Time) returns (error: Option<Error>)
      requires i < |users|
      modifies this`users
      ensures match CanLogin(old(users)[i], now)
        case Ok(u) => error.None? && users == old(users)[i := u]
        case Err(e) => error == Some(e)
    {
      var u := users[i];
      if !u.isActive || !u.authenticationEnabled { return Some(Unauthorized); }
      if u.lockedUntil.Some? && u.lockedUntil.value <= now && u.lockReason == Some(TooManyFailedAttempts) {
        users := users[i := u.(isLocked := false, lockedUntil := None, lockReason := None, failedAttempts := 0)];
      }
      error := if users[i].isLocked then Some(Forbidden) else None;
    }

    /** `login`; what is not committed is put back. */
    method LogIn(username: string, matches: bool, cfg: Settings, now: Time) returns (r: Result<Tokens>)
      modifies this
      ensures Rows() == Login(old(Rows()), username, matches, cfg, now).tables
      ensures r == Login(old(Rows()), username, matches, cfg, now).result
    {
      var found := FindUser(users, username);
      if found.None? { return Err(Unauthorized); }
      var i := found.value;
      var before := users;
      var error := CheckUserCanLogin(i, now);
      if error.Some? {
        users := before;
        return Err(error.value);
      }
      if !users[i].local || !Given(users[i].passwordHash) {
        users := before;
        return Err(Unauthorized);
      }
      if !matches {
        RecordFailedLogin(i, cfg, now);
        return Err(Unauthorized);
      }
      users := users[i := users[i].(failedAttempts := 0)];
      var tokens := CreateSession(i, None, cfg, now);
      r := Ok(tokens);
    }

    /** `refresh`. */
    method RefreshSession(refresh: nat, cfg: Settings, now: Time) returns (r: Result<Tokens>)
      modifies this
      ensures match Refresh(old(Rows()), refresh, cfg, now)
        case Ok(x) => Rows() == x.0 && r == Ok(x.1)
        case Err(e) => Rows() == old(Rows()) && r == Err(e)
    {
      var k := ByRefresh(Rows(), refresh, now);
      if k.None? { return Err(Unauthorized); }
      var session := sessions[k.value];
      RevokeSession(k.value, "refresh_rotation", now);
      var tokens := CreateSession(session.user, Some(session.family), cfg, now);
      r := Ok(tokens);
    }

    /** `logout`. */
    method LogOut(access: nat, now: Time) returns (error: Option<Error>)
      modifies this
      ensures match Logout(old(Rows()), access, now)
        case Ok(x) => Rows() == x && error.None?
        case Err(e) => Rows() == old(Rows()) && error == Some(e)
    {
      var k := ByAccess(Rows(), access, now);
      if k.None? { return Some(Unauthorized); }
      RevokeSession(k.value, "logout", now);
      error := None;
    }

    /** `logout_all`. */
    method LogOutEverywhere(access: nat, now: Time) returns (error: Option<Error>)
      modifies this
      ensures match LogoutAll(old(Rows()), access, now)
        case Ok(x) => Rows() == x && error.None?
        case Err(e) => Rows() == old(Rows()) && error == Some(e)
    {
      var k := ByAccess(Rows(), access, now);
      if k.None? || sessions[k.value].user >= |users| { return Some(Unauthorized); }
      var user := sessions[k.value].user;
      if !users[user].isActive || users[user].isLocked { return Some(Forbidden); }
      RevokeAllSessions(user, "logout_all", now);
      error := None;
    }
  }
}

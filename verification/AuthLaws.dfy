/** Laws of whole runs of logins, refreshes, logouts and automatic locks. */
module AuthLaws {
  import opened Wrappers
  import opened WorkflowModel
  import opened AuthService

  datatype AuthStep =
    | LoginStep(username: string, matches: bool)
    | RefreshStep(token: nat)
    | LogoutStep(token: nat)
    | LogoutAllStep(token: nat)

  datatype TimedAuth = TimedAuth(elapsed: nat, step: AuthStep)

  function AuthAfter(s: Tables, step: AuthStep, cfg: Settings, now: Time): Tables {
    match step
    case LoginStep(username, matches) => Login(s, username, matches, cfg, now).tables
    case RefreshStep(token) => if Refresh(s, token, cfg, now).Ok? then Refresh(s, token, cfg, now).value.0 else s
    case LogoutStep(token) => if Logout(s, token, now).Ok? then Logout(s, token, now).value else s
    case LogoutAllStep(token) => if LogoutAll(s, token, now).Ok? then LogoutAll(s, token, now).value else s
  }

  function AuthClock(t: Time, steps: seq<TimedAuth>): Time {
    if steps == [] then t else AuthClock(t, steps[..|steps| - 1]) + steps[|steps| - 1].elapsed
  }

  function AuthRun(s: Tables, t: Time, steps: seq<TimedAuth>, cfg: Settings): Tables {
    if steps == [] then s
    else AuthAfter(AuthRun(s, t, steps[..|steps| - 1], cfg), steps[|steps| - 1].step, cfg, AuthClock(t, steps))
  }

  // -- The invariant --------------------------------------------------------

  predicate AutoLocked(u: User) {
    u.isLocked && u.lockReason == Some(TooManyFailedAttempts)
  }

  ghost predicate NoLive(s: Tables, user: nat) {
    forall k :: 0 <= k < |s.sessions| && s.sessions[k].user == user ==> !Live(s.sessions[k])
  }

  /** Two sessions never share a token, and two live ones never a family. */
  predicate Separate(a: Session, b: Session) {
    a.refresh != b.refresh && a.access != b.access && (Live(a) && Live(b) ==> a.family != b.family)
  }

  ghost predicate AuthOk(s: Tables) {
    && (forall k :: 0 <= k < |s.sessions| ==>
          s.sessions[k].access < s.nextToken && s.sessions[k].refresh < s.nextToken && s.sessions[k].family < s.nextToken
          && s.sessions[k].user < |s.users|)
    && (forall j, k :: 0 <= j < k < |s.sessions| ==> Separate(s.sessions[j], s.sessions[k]))
    && (forall i :: 0 <= i < |s.users| && AutoLocked(s.users[i]) ==> NoLive(s, i))
  }

  // -- Each call keeps it ---------------------------------------------------

  lemma RevokeAllKeeps(s: Tables, user: nat, reason: string, now: Time)
    requires AuthOk(s)
    ensures AuthOk(RevokeAll(s, user, reason, now)) && NoLive(RevokeAll(s, user, reason, now), user)
  {
  }

  lemma RevokeOneKeeps(s: Tables, x: nat, reason: string, now: Time)
    requires AuthOk(s) && x < |s.sessions|
    ensures AuthOk(RevokeOne(s, x, reason, now))
  {
  }

  /** A session may be added for a user without automatic lock, in a family that has
      no live session. */
  lemma NewSessionKeeps(s: Tables, user: nat, family: Option<nat>, cfg: Settings, now: Time)
    requires AuthOk(s) && user < |s.users| && !AutoLocked(s.users[user])
    requires family.Some? ==> family.value < s.nextToken
    requires family.Some? ==> forall k :: 0 <= k < |s.sessions| && Live(s.sessions[k]) ==> s.sessions[k].family != family.value
    ensures AuthOk(NewSession(s, user, family, cfg, now))
  {
  }

  lemma SetUserKeeps(s: Tables, i: nat, u: User)
    requires AuthOk(s) && i < |s.users| && !AutoLocked(u)
    ensures AuthOk(s.(users := s.users[i := u]))
  {
  }

  lemma LockKeeps(s: Tables, i: nat, u: User, reason: string, now: Time)
    requires AuthOk(s) && i < |s.users|
    ensures AuthOk(RevokeAll(s.(users := s.users[i := u]), i, reason, now))
  {
  }

  lemma LoginKeeps(s: Tables, username: string, matches: bool, cfg: Settings, now: Time)
    requires AuthOk(s)
    ensures AuthOk(Login(s, username, matches, cfg, now).tables)
  {
    hide AuthOk, RevokeAll, NewSession;
    var found := FindUser(s.users, username);
    if found.Some? && CanLogin(s.users[found.value], now).Ok? {
      var i := found.value;
      var u := CanLogin(s.users[i], now).value;
      var v := u.(failedAttempts := u.failedAttempts + 1);
      SetUserKeeps(s, i, v);
      LockKeeps(s, i, v.(isLocked := true, lockedUntil := Some(now + 60 * cfg.lockMinutes),
                         lockReason := Some(TooManyFailedAttempts)), "account_locked", now);
      var w := u.(failedAttempts := 0);
      SetUserKeeps(s, i, w);
      NewSessionKeeps(s.(users := s.users[i := w]), i, None, cfg, now);
    }
  }

  lemma RefreshKeeps(s: Tables, token: nat, cfg: Settings, now: Time)
    requires AuthOk(s) && Refresh(s, token, cfg, now).Ok?
    ensures AuthOk(Refresh(s, token, cfg, now).value.0)
  {
    var x := ByRefresh(s, token, now).value;
    var middle := RevokeOne(s, x, "refresh_rotation", now);
    RevokeOneKeeps(s, x, "refresh_rotation", now);
    assert !AutoLocked(s.users[s.sessions[x].user]) by {
      assert AutoLocked(s.users[s.sessions[x].user]) ==> NoLive(s, s.sessions[x].user);
    }
    forall k | 0 <= k < |middle.sessions| && Live(middle.sessions[k]) ensures middle.sessions[k].family != s.sessions[x].family {
      assert k < x ==> Separate(s.sessions[k], s.sessions[x]);
      assert x < k ==> Separate(s.sessions[x], s.sessions[k]);
    }
    NewSessionKeeps(middle, s.sessions[x].user, Some(s.sessions[x].family), cfg, now);
  }

  lemma AuthAfterKeeps(s: Tables, step: AuthStep, cfg: Settings, now: Time)
    requires AuthOk(s)
    ensures AuthOk(AuthAfter(s, step, cfg, now))
  {
    hide AuthOk, Login, RevokeAll, RevokeOne, ByAccess;
    match step
    case LoginStep(username, matches) => LoginKeeps(s, username, matches, cfg, now);
    case RefreshStep(token) => if Refresh(s, token, cfg, now).Ok? { RefreshKeeps(s, token, cfg, now); }
    case LogoutStep(token) => if Logout(s, token, now).Ok? { LogoutKeeps(s, token, now); }
    case LogoutAllStep(token) => if LogoutAll(s, token, now).Ok? { LogoutAllKeeps(s, token, now); }
  }

  lemma LogoutKeeps(s: Tables, token: nat, now: Time)
    requires AuthOk(s) && Logout(s, token, now).Ok?
    ensures AuthOk(Logout(s, token, now).value)
  {
  }

  lemma LogoutAllKeeps(s: Tables, token: nat, now: Time)
    requires AuthOk(s) && LogoutAll(s, token, now).Ok?
    ensures AuthOk(LogoutAll(s, token, now).value)
  {
    RevokeAllKeeps(s, s.sessions[ByAccess(s, token, now).value].user, "logout_all", now);
  }

  /** In every reachable state a family has at most one unrevoked session, tokens are
      never shared, and an automatically locked user has no unrevoked session. */
  lemma {:induction false} AuthRunKeeps(s: Tables, t: Time, steps: seq<TimedAuth>, cfg: Settings)
    requires AuthOk(s)
    ensures AuthOk(AuthRun(s, t, steps, cfg))
  {
    hide AuthOk, AuthAfter;
    if steps != [] {
      AuthRunKeeps(s, t, steps[..|steps| - 1], cfg);
      AuthAfterKeeps(AuthRun(s, t, steps[..|steps| - 1], cfg), steps[|steps| - 1].step, cfg, AuthClock(t, steps));
    }
  }

  lemma NobodyLoggedIn(users: seq<User>)
    ensures AuthOk(Tables(users, [], 0))
  {
  }

  // -- Refresh tokens -------------------------------------------------------

  /** Sessions are only appended, and a revoked one never changes again. */
  ghost predicate Ledger(s: Tables, s2: Tables) {
    && |s.sessions| <= |s2.sessions|
    && forall k :: 0 <= k < |s.sessions| ==>
         s2.sessions[k].refresh == s.sessions[k].refresh && s2.sessions[k].user == s.sessions[k].user
         && (!Live(s.sessions[k]) ==> s2.sessions[k] == s.sessions[k])
  }

  lemma AuthAfterLedger(s: Tables, step: AuthStep, cfg: Settings, now: Time)
    ensures Ledger(s, AuthAfter(s, step, cfg, now)) && |AuthAfter(s, step, cfg, now).users| == |s.users|
  {
  }

  lemma {:induction false} AuthRunLedger(s: Tables, t: Time, steps: seq<TimedAuth>, cfg: Settings)
    ensures Ledger(s, AuthRun(s, t, steps, cfg)) && |AuthRun(s, t, steps, cfg).users| == |s.users|
  {
    hide AuthAfter;
    if steps != [] {
      AuthRunLedger(s, t, steps[..|steps| - 1], cfg);
      AuthAfterLedger(AuthRun(s, t, steps[..|steps| - 1], cfg), steps[|steps| - 1].step, cfg, AuthClock(t, steps));
    }
  }

  /** A refresh token is accepted at most once: whatever happens after it was, every
      later call with it is refused and changes nothing. */
  lemma RefreshOnce(s: Tables, token: nat, cfg: Settings, now: Time, steps: seq<TimedAuth>, later: Time)
    requires AuthOk(s) && Refresh(s, token, cfg, now).Ok?
    ensures Refresh(AuthRun(Refresh(s, token, cfg, now).value.0, now, steps, cfg), token, cfg, later) == Err(Unauthorized)
  {
    var x := ByRefresh(s, token, now).value;
    var after := Refresh(s, token, cfg, now).value.0;
    var s2 := AuthRun(after, now, steps, cfg);
    RefreshKeeps(s, token, cfg, now);
    AuthRunKeeps(after, now, steps, cfg);
    AuthRunLedger(after, now, steps, cfg);
    assert !Live(after.sessions[x]) && after.sessions[x].refresh == token;
    forall k | 0 <= k < |s2.sessions| && s2.sessions[k].refresh == token ensures k == x {
      assert k < x ==> Separate(s2.sessions[k], s2.sessions[x]);
      assert x < k ==> Separate(s2.sessions[x], s2.sessions[k]);
    }
    hide AuthRun;
  }

  // -- Issued tokens --------------------------------------------------------

  /** Both tokens lead to one live session of `user`, and to no other, until `until`. */
  ghost predicate Opens(s: Tables, tokens: Tokens, user: nat, family: nat, until: Time) {
    forall at: Time :: at < until ==>
      && ByAccess(s, tokens.access, at).Some? && ByAccess(s, tokens.access, at) == ByRefresh(s, tokens.refresh, at)
      && var x := s.sessions[ByAccess(s, tokens.access, at).value]; x.user == user && x.family == family
  }

  lemma NewSessionOpens(s: Tables, user: nat, family: Option<nat>, cfg: Settings, now: Time)
    requires AuthOk(s)
    ensures Opens(NewSession(s, user, family, cfg, now), NewTokens(s), user,
                  if family.Some? then family.value else s.nextToken + 2, now + 86400 * cfg.refreshDays)
  {
    var after := NewSession(s, user, family, cfg, now);
    var n := |s.sessions|;
    forall k | 0 <= k < n ensures after.sessions[k].access < s.nextToken && after.sessions[k].refresh < s.nextToken {
      assert after.sessions[k] == s.sessions[k];
    }
    assert after.sessions[n].access == s.nextToken && after.sessions[n].refresh == s.nextToken + 1;
  }

  /** A login opens a session of the user named, in a family of its own; a refresh
      opens one of the same user in the same family, and the spent token opens none. */
  lemma IssuedTokensOpen(s: Tables, username: string, matches: bool, token: nat, cfg: Settings, now: Time)
    requires AuthOk(s)
    ensures var done := Login(s, username, matches, cfg, now);
            done.result.Ok? ==>
              && FindUser(s.users, username).Some?
              && Opens(done.tables, done.result.value, FindUser(s.users, username).value, s.nextToken + 2, now + 86400 * cfg.refreshDays)
              && forall k :: 0 <= k < |s.sessions| ==> s.sessions[k].family != s.nextToken + 2
    ensures var done := Refresh(s, token, cfg, now);
            done.Ok? ==>
              && ByRefresh(done.value.0, token, now).None?
              && var was := s.sessions[ByRefresh(s, token, now).value];
                 Opens(done.value.0, done.value.1, was.user, was.family, now + 86400 * cfg.refreshDays)
  {
    hide Opens;
    var done := Login(s, username, matches, cfg, now);
    if done.result.Ok? {
      var i := FindUser(s.users, username).value;
      var u := CanLogin(s.users[i], now).value.(failedAttempts := 0);
      SetUserKeeps(s, i, u);
      NewSessionOpens(s.(users := s.users[i := u]), i, None, cfg, now);
    }
    if Refresh(s, token, cfg, now).Ok? {
      RefreshOnce(s, token, cfg, now, [], now);
      var k := ByRefresh(s, token, now).value;
      RevokeOneKeeps(s, k, "refresh_rotation", now);
      NewSessionOpens(RevokeOne(s, k, "refresh_rotation", now), s.sessions[k].user, Some(s.sessions[k].family), cfg, now);
    }
  }

  // -- Logout everywhere ----------------------------------------------------

  /** A login as `user` that succeeds. */
  predicate LogsIn(s: Tables, step: AuthStep, user: nat, cfg: Settings, now: Time) {
    && step.LoginStep? && FindUser(s.users, step.username) == Some(user)
    && Login(s, step.username, step.matches, cfg, now).result.Ok?
  }

  /** Some call of the run was one. */
  predicate LoggedIn(s: Tables, t: Time, steps: seq<TimedAuth>, user: nat, cfg: Settings) {
    steps != []
    && (|| LoggedIn(s, t, steps[..|steps| - 1], user, cfg)
        || LogsIn(AuthRun(s, t, steps[..|steps| - 1], cfg), steps[|steps| - 1].step, user, cfg, AuthClock(t, steps)))
  }

  /** A user without a live session gets one by a successful login, and by nothing else. */
  lemma NoLiveStaysIff(s: Tables, step: AuthStep, user: nat, cfg: Settings, now: Time)
    requires user < |s.users| && NoLive(s, user)
    ensures var s2 := AuthAfter(s, step, cfg, now);
            user < |s2.users| && (NoLive(s2, user) <==> !LogsIn(s, step, user, cfg, now))
  {
    AuthAfterLedger(s, step, cfg, now);
    if LogsIn(s, step, user, cfg, now) {
      assert Live(AuthAfter(s, step, cfg, now).sessions[|s.sessions|]);
    }
  }

  lemma {:induction false} NoLiveOverRun(s: Tables, t: Time, steps: seq<TimedAuth>, user: nat, cfg: Settings)
    requires user < |s.users| && NoLive(s, user) && !LoggedIn(s, t, steps, user, cfg)
    ensures var s2 := AuthRun(s, t, steps, cfg); user < |s2.users| && NoLive(s2, user)
  {
    hide AuthAfter, LogsIn, NoLive;
    if steps != [] {
      NoLiveOverRun(s, t, steps[..|steps| - 1], user, cfg);
      NoLiveStaysIff(AuthRun(s, t, steps[..|steps| - 1], cfg), steps[|steps| - 1].step, user, cfg, AuthClock(t, steps));
    }
  }

  /** After logging out everywhere a user has no unrevoked session until the next
      successful login; that login ends it. */
  lemma LogoutAllHolds(s: Tables, token: nat, cfg: Settings, now: Time, steps: seq<TimedAuth>, next: TimedAuth)
    requires AuthOk(s) && LogoutAll(s, token, now).Ok?
    requires var user := s.sessions[ByAccess(s, token, now).value].user;
             !LoggedIn(LogoutAll(s, token, now).value, now, steps, user, cfg)
    ensures var user := s.sessions[ByAccess(s, token, now).value].user;
            var out := LogoutAll(s, token, now).value;
            && NoLive(AuthRun(out, now, steps, cfg), user)
            && (NoLive(AuthRun(out, now, steps + [next], cfg), user) <==> !LoggedIn(out, now, steps + [next], user, cfg))
  {
    var user := s.sessions[ByAccess(s, token, now).value].user;
    var out := LogoutAll(s, token, now).value;
    RevokeAllKeeps(s, user, "logout_all", now);
    hide AuthAfter, LogsIn, LogoutAll, RevokeAll;
    NoLiveOverRun(out, now, steps, user, cfg);
    assert (steps + [next])[..|steps|] == steps;
    NoLiveStaysIff(AuthRun(out, now, steps, cfg), next.step, user, cfg, AuthClock(now, steps + [next]));
  }

  // -- Automatic locks ------------------------------------------------------

  /** Whether a wrong password locks: exactly when it uses up the last attempt. */
  lemma WrongPasswordLocksIff(s: Tables, username: string, cfg: Settings, now: Time)
    requires AuthOk(s) && FindUser(s.users, username).Some?
    requires var u := CanLogin(s.users[FindUser(s.users, username).value], now); u.Ok? && u.value.local && Given(u.value.passwordHash)
    ensures var i := FindUser(s.users, username).value; var u := CanLogin(s.users[i], now).value;
            var after := Login(s, username, false, cfg, now).tables;
            && (AutoLocked(after.users[i]) <==> u.failedAttempts + 1 >= cfg.maxFailedAttempts)
            && (AutoLocked(after.users[i]) ==> after.users[i].lockedUntil == Some(now + 60 * cfg.lockMinutes) && NoLive(after, i))
  {
  }

  lemma LockStays(s: Tables, step: AuthStep, user: nat, cfg: Settings, now: Time)
    requires user < |s.users| && AutoLocked(s.users[user]) && NoLive(s, user)
    requires s.users[user].lockedUntil.Some? ==> now < s.users[user].lockedUntil.value
    ensures var s2 := AuthAfter(s, step, cfg, now);
            user < |s2.users| && s2.users[user] == s.users[user] && NoLive(s2, user)
  {
    AuthAfterLedger(s, step, cfg, now);
  }

  /** After an automatic lock, whatever is tried, the user stays locked and without
      unrevoked sessions as long as the lock lasts. */
  lemma {:induction false} LockHolds(s: Tables, t: Time, steps: seq<TimedAuth>, user: nat, cfg: Settings)
    requires AuthOk(s) && user < |s.users| && AutoLocked(s.users[user])
    requires s.users[user].lockedUntil.Some? ==> AuthClock(t, steps) < s.users[user].lockedUntil.value
    ensures var s2 := AuthRun(s, t, steps, cfg);
            user < |s2.users| && s2.users[user] == s.users[user] && NoLive(s2, user)
  {
    hide AuthAfter;
    if steps != [] {
      LockHolds(s, t, steps[..|steps| - 1], user, cfg);
      LockStays(AuthRun(s, t, steps[..|steps| - 1], cfg), steps[|steps| - 1].step, user, cfg, AuthClock(t, steps));
    }
  }
}

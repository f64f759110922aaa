/** What the session calls answer, said on the rows of users and sessions: when a call
    succeeds, with which error it fails, and every row it leaves. */
module AuthAnswers {
  import opened Wrappers
  import opened WorkflowModel
  import opened AuthService

  // -- Logging in -----------------------------------------------------------

  /** The user of that name. */
  predicate IsUser(users: seq<User>, i: nat, username: string) {
    i < |users| && users[i].username == username && forall j :: 0 <= j < i ==> users[j].username != username
  }

  /** An automatic lock that has run out. */
  predicate RunOut(u: User, now: Time) {
    u.lockedUntil.Some? && u.lockedUntil.value <= now && u.lockReason == Some(TooManyFailedAttempts)
  }

  /** The user may try a password: active, enabled, local with a hash, and not locked or
      its automatic lock has run out. */
  predicate MayTry(u: User, now: Time) {
    && u.isActive && u.authenticationEnabled && u.local && u.passwordHash.Some? && u.passwordHash.value != ""
    && (u.isLocked ==> RunOut(u, now))
  }

  /** The row after a try: an automatic lock that has run out is gone. */
  predicate TriedAs(before: User, after: User, attempts: int, now: Time) {
    && after == before.(failedAttempts := attempts, isLocked := after.isLocked, lockedUntil := after.lockedUntil, lockReason := after.lockReason)
    && after.lockedUntil == (if RunOut(before, now) then None else before.lockedUntil)
    && after.lockReason == (if RunOut(before, now) then None else before.lockReason)
    && after.isLocked == false
  }

  /** Exactly the live sessions of the user are revoked. */
  predicate RevokedFor(before: seq<Session>, after: seq<Session>, user: nat, reason: string, now: Time) {
    && |after| == |before|
    && forall k :: 0 <= k < |before| ==>
         after[k] == if before[k].user == user && before[k].revokedAt.None?
                     then before[k].(revokedAt := Some(now), revokedReason := reason) else before[k]
  }

  /** The session issued to the user, with two tokens of its own. */
  predicate IssuedTo(s: Tables, x: Session, tokens: Tokens, user: nat, family: nat, cfg: Settings, now: Time) {
    && x.user == user && x.family == family && x.access == tokens.access && x.refresh == tokens.refresh
    && tokens.access == s.nextToken && tokens.refresh == s.nextToken + 1
    && x.expiresAt == now + 86400 * cfg.refreshDays && x.revokedAt.None?
  }

  /** Only the row of the user changed. */
  predicate OnlyUser(before: seq<User>, after: seq<User>, i: nat) {
    i < |before| && |after| == |before| && forall j :: 0 <= j < |before| && j != i ==> after[j] == before[j]
  }

  /** A login succeeds exactly for a user that may try and gives the right password; it
      clears the failed attempts and opens one session in a family of its own. */
  lemma LoginAnswer(s: Tables, username: string, matches: bool, cfg: Settings, now: Time, i: nat)
    requires IsUser(s.users, i, username)
    ensures var done := Login(s, username, matches, cfg, now); var u := s.users[i]; var s2 := done.tables;
            && (done.result.Ok? <==> MayTry(u, now) && matches)
            && (done.result.Err? ==> done.result.error == if u.isActive && u.authenticationEnabled && u.isLocked && !RunOut(u, now)
                                                          then Forbidden else Unauthorized)
            && (done.result.Ok? ==>
                  && OnlyUser(s.users, s2.users, i) && TriedAs(u, s2.users[i], 0, now)
                  && |s2.sessions| == |s.sessions| + 1 && s.sessions <= s2.sessions
                  && IssuedTo(s, s2.sessions[|s.sessions|], done.result.value, i, s.nextToken + 2, cfg, now)
                  && s2.nextToken > s.nextToken + 2)
            && (!MayTry(u, now) ==> s2 == s)
  {
  }

  /** A wrong password: one failed attempt more and no session touched, below the limit;
      at the limit the user is locked and loses every session. */
  lemma WrongPasswordAnswer(s: Tables, username: string, cfg: Settings, now: Time, i: nat)
    requires IsUser(s.users, i, username) && MayTry(s.users[i], now)
    ensures var done := Login(s, username, false, cfg, now); var u := s.users[i]; var s2 := done.tables;
            var attempts := (if RunOut(u, now) then 0 else u.failedAttempts) + 1;
            && done.result == Err(Unauthorized) && s2.nextToken == s.nextToken
            && OnlyUser(s.users, s2.users, i)
            && (attempts < cfg.maxFailedAttempts ==> s2.sessions == s.sessions && TriedAs(u, s2.users[i], attempts, now))
            && (attempts >= cfg.maxFailedAttempts ==>
                  && RevokedFor(s.sessions, s2.sessions, i, "account_locked", now)
                  && s2.users[i] == u.(failedAttempts := attempts, isLocked := true, lockedUntil := Some(now + 60 * cfg.lockMinutes),
                                       lockReason := Some(TooManyFailedAttempts)))
  {
  }

  /** A name without a user is refused like a wrong password, and nothing changes. */
  lemma UnknownUserAnswer(s: Tables, username: string, matches: bool, cfg: Settings, now: Time)
    requires forall u :: u in s.users ==> u.username != username
    ensures Login(s, username, matches, cfg, now) == LoginResult(s, Err(Unauthorized))
  {
  }

  // -- Sessions -------------------------------------------------------------

  predicate InForce(x: Session, now: Time) {
    x.revokedAt.None? && x.expiresAt > now
  }

  predicate OpensBy(s: Tables, k: nat, access: nat, now: Time) {
    k < |s.sessions| && s.sessions[k].access == access && InForce(s.sessions[k], now)
  }

  predicate RefreshesBy(s: Tables, k: nat, refresh: nat, now: Time) {
    k < |s.sessions| && s.sessions[k].refresh == refresh && InForce(s.sessions[k], now)
  }

  /** A refresh succeeds exactly with the token of a session in force; that one is revoked
      and one of the same user and family issued. */
  lemma RefreshAnswer(s: Tables, token: nat, cfg: Settings, now: Time)
    ensures var done := Refresh(s, token, cfg, now);
            && (done.Ok? <==> exists k: nat :: RefreshesBy(s, k, token, now)) && (done.Err? ==> done.error == Unauthorized)
            && (done.Ok? ==> exists k: nat :: RefreshesBy(s, k, token, now) && Rotated(s, done.value.0, k, done.value.1, cfg, now))
  {
    if exists k: nat :: RefreshesBy(s, k, token, now) {
      var k: nat :| RefreshesBy(s, k, token, now);
      assert ByRefresh(s, token, now).Some?;
    }
    if Refresh(s, token, cfg, now).Ok? {
      assert RefreshesBy(s, ByRefresh(s, token, now).value, token, now);
    }
  }

  predicate Rotated(s: Tables, s2: Tables, k: nat, tokens: Tokens, cfg: Settings, now: Time)
    requires k < |s.sessions|
  {
    var x := s.sessions[k];
    && s2.users == s.users && |s2.sessions| == |s.sessions| + 1
    && s2.sessions[..|s.sessions|] == s.sessions[k := x.(revokedAt := Some(now), revokedReason := "refresh_rotation")]
    && IssuedTo(s, s2.sessions[|s.sessions|], tokens, x.user, x.family, cfg, now)
  }

  predicate LoggedOut(s: Tables, s2: Tables, k: nat, now: Time)
    requires k < |s.sessions|
  {
    s2 == s.(sessions := s.sessions[k := s.sessions[k].(revokedAt := Some(now), revokedReason := "logout")])
  }

  /** Logging out revokes the session in force that the token opens, and that alone. */
  lemma LogoutAnswer(s: Tables, access: nat, now: Time)
    ensures var done := Logout(s, access, now);
            && (done.Ok? <==> exists k: nat :: OpensBy(s, k, access, now)) && (done.Err? ==> done.error == Unauthorized)
            && (done.Ok? ==> exists k: nat :: OpensBy(s, k, access, now) && LoggedOut(s, done.value, k, now))
  {
    if exists k: nat :: OpensBy(s, k, access, now) {
      var k: nat :| OpensBy(s, k, access, now);
      assert ByAccess(s, access, now).Some?;
    }
    if Logout(s, access, now).Ok? {
      assert OpensBy(s, ByAccess(s, access, now).value, access, now);
    }
  }

  /** Logging out everywhere is for active users that are not locked; it revokes exactly
      their live sessions. */
  lemma LogoutAllAnswer(s: Tables, access: nat, now: Time, k: nat)
    requires OpensBy(s, k, access, now) && s.sessions[k].user < |s.users|
    requires forall j: nat :: OpensBy(s, j, access, now) ==> j == k
    ensures var done := LogoutAll(s, access, now); var user := s.sessions[k].user;
            && (done.Ok? <==> s.users[user].isActive && !s.users[user].isLocked) && (done.Err? ==> done.error == Forbidden)
            && (done.Ok? ==> done.value == s.(sessions := done.value.sessions)
                             && RevokedFor(s.sessions, done.value.sessions, user, "logout_all", now))
  {
    assert ByAccess(s, access, now).Some?;
    assert OpensBy(s, ByAccess(s, access, now).value, access, now);
  }

  lemma LogoutAllRefused(s: Tables, access: nat, now: Time)
    requires forall k: nat :: !OpensBy(s, k, access, now)
    ensures LogoutAll(s, access, now) == Err(Unauthorized)
  {
    if ByAccess(s, access, now).Some? {
      assert OpensBy(s, ByAccess(s, access, now).value, access, now);
    }
  }
}

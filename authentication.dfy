/**
 * The authentication handlers over the process state they share: the
 * session table, the failed-login counter and the tor2web configuration
 * (GLSetting), and the User, Receiver and WhistleblowerTip rows of the store.
 */
module Authentication {

  import opened Results
  import opened Errors
  import opened LoginDelay
  import opened Transport
  import opened Sessions
  import opened Credentials

  predicate IsAlphanumeric(c: char)
  {
    ('A' <= c <= 'Z') || ('a' <= c <= 'z') || ('0' <= c <= '9')
  }

  /** A string matching `[A-Za-z0-9]{42}`, the pattern session ids are drawn from. */
  predicate IsSessionToken(t: string)
  {
    |t| == 42 && forall i :: 0 <= i < |t| ==> IsAlphanumeric(t[i])
  }

  /** The body the login, session and logout handlers write on success. */
  datatype AuthAnswer = AuthAnswer(sessionId: string, role: string, userId: string, sessionExpiration: int)

  /** The role the login answer reports: a whistleblower's answer says 'admin'. */
  function AnswerRole(r: Role): string
  {
    match r
    case Admin => "admin"
    case Wb => "admin"
    case Receiver => "receiver"
  }

  /** What one credential check returns and what the store holds after it. */
  datatype Verdict = Verdict(result: LoginResult, users: UserTable, tips: TipTable)

  class AuthState {
    /** GLSetting.sessions, keyed by session id. */
    var sessions: SessionTable
    /** GLSetting.failed_login_attempts, shared by every role and every user. */
    var failedLoginAttempts: nat
    /** GLSetting.memory_copy's tor2web flags, replaced when the administrator edits them. */
    var memoryCopy: Tor2webPolicy
    /** The User rows, keyed by username. */
    var users: UserTable
    /** The WhistleblowerTip rows, keyed by id. */
    var tips: TipTable

    /** The id of the Receiver row of each receiver user, keyed by the user's id. */
    const receivers: map<string, string>
    const lifetimes: Lifetimes
    const accessLogLimit: nat
    /** The Node's receipt salt. */
    const receiptSalt: string
    /** security.hash_password(secret, salt), uninterpreted. */
    const hashPassword: (string, string) -> string
    /** security.check_password(secret, stored hash, salt), uninterpreted. */
    const checkPassword: (string, string, string) -> bool

    ghost predicate Valid()
      reads this
    {
      && WellFormed(sessions, lifetimes)
      && (forall k :: k in users ==> users[k].username == k)
      && (forall k :: k in tips ==> tips[k].id == k)
    }

    /** The state at start-up: no session and no failed login yet. */
    constructor (lifetimes: Lifetimes, accessLogLimit: nat, receiptSalt: string,
                 hashPassword: (string, string) -> string, checkPassword: (string, string, string) -> bool,
                 memoryCopy: Tor2webPolicy, users: UserTable, tips: TipTable, receivers: map<string, string>)
      requires forall k :: k in users ==> users[k].username == k
      requires forall k :: k in tips ==> tips[k].id == k
      ensures Valid()
      ensures sessions == map[] && failedLoginAttempts == 0
      ensures this.memoryCopy == memoryCopy && this.users == users && this.tips == tips
      ensures this.receivers == receivers && this.lifetimes == lifetimes
      ensures this.accessLogLimit == accessLogLimit && this.receiptSalt == receiptSalt
      ensures this.hashPassword == hashPassword && this.checkPassword == checkPassword
    {
      this.sessions := map[];
      this.failedLoginAttempts := 0;
      this.memoryCopy := memoryCopy;
      this.users := users;
      this.tips := tips;
      this.receivers := receivers;
      this.lifetimes := lifetimes;
      this.accessLogLimit := accessLogLimit;
      this.receiptSalt := receiptSalt;
      this.hashPassword := hashPassword;
      this.checkPassword := checkPassword;
    }

    /** The credential check `post` runs for a known role, on the given store contents. */
    function Verify(r: Role, users: UserTable, tips: TipTable, username: string, password: string, now: int)
      : Verdict
    {
      match r
      case Admin =>
        var a := AdminLogin(users, username, password, checkPassword, now, accessLogLimit);
        Verdict(a.result, a.store, tips)
      case Wb =>
        var a := WbLogin(tips, hashPassword(password, receiptSalt), now);
        Verdict(a.result, users, a.store)
      case Receiver =>
        var a := ReceiverLogin(users, receivers, username, password, checkPassword, now, accessLogLimit);
        Verdict(a.result, a.store, tips)
    }

    /** update_session: lazy expiry or refresh of the entry `sid`. */
    method UpdateSession(sid: string, now: int) returns (valid: bool)
      requires Valid() && sid in sessions
      modifies this`sessions
      ensures Valid()
      ensures Touched(sessions, valid) == Touch(old(sessions), sid, lifetimes, now)
    {
      TouchPreservesWellFormed(sessions, sid, lifetimes, now);
      var info := sessions[sid];
      if IsExpired(info.refreshdate, lifetimes.Of(info.role), now) {
        sessions := sessions - {sid};
        valid := false;
      } else {
        sessions := sessions[sid := info.(refreshdate := now, expirydate := now + lifetimes.Of(info.role))];
        valid := true;
      }
    }

    /**
     * The `authenticated(scope)` decorator: Pass means the wrapped handler
     * runs. The checks come in the source's order: a current user, then
     * the refresh (whose failure is reported by the role read before it),
     * then the scope, which is checked after the session was refreshed.
     */
    method Authenticated(scope: string, current: Option<string>, now: int) returns (r: Outcome<Error>)
      requires Valid()
      modifies this`sessions
      ensures Valid()
      ensures CurrentUser(old(sessions), current).None? ==>
                r == Fail(NotAuthenticated) && sessions == old(sessions)
      ensures CurrentUser(old(sessions), current).Some? ==>
                var s := old(sessions)[current.value];
                var t := Touch(old(sessions), current.value, lifetimes, now);
                && sessions == t.table
                && (!t.valid ==> r == Fail(ExpiredError(s.role)))
                && (t.valid && scope != "*" && scope != RoleName(s.role) ==> r == Fail(InvalidScopeAuth))
      ensures r == Pass <==>
                && CurrentUser(old(sessions), current).Some?
                && !IsExpired(old(sessions)[current.value].refreshdate,
                              lifetimes.Of(old(sessions)[current.value].role), now)
                && (scope == "*" || scope == RoleName(old(sessions)[current.value].role))
    {
      if current.None? || current.value !in sessions {
        return Fail(NotAuthenticated);
      }
      var copyRole := sessions[current.value].role;
      var valid := UpdateSession(current.value, now);
      if !valid {
        return Fail(ExpiredError(copyRole));
      }
      if scope == "*" || scope == RoleName(sessions[current.value].role) {
        return Pass;
      }
      return Fail(InvalidScopeAuth);
    }

    /** The `unauthenticated` decorator: refresh the current session if there is one. */
    method Unauthenticated(current: Option<string>, now: int)
      requires Valid()
      modifies this`sessions
      ensures Valid()
      ensures sessions == RefreshCurrent(old(sessions), current, lifetimes, now)
    {
      if current.Some? && current.value in sessions {
        var _ := UpdateSession(current.value, now);
      }
    }

    /** login_admin against the User rows. */
    method LoginAdmin(username: string, password: string, now: int) returns (r: LoginResult)
      requires Valid()
      modifies this`users
      ensures Valid()
      ensures Attempt(r, users) == AdminLogin(old(users), username, password, checkPassword, now, accessLogLimit)
    {
      if username !in users || users[username].role != "admin" {
        return Rejected;
      }
      var adminUser := users[username];
      if |adminUser.accessLog| >= accessLogLimit {
        adminUser := adminUser.(accessLog := PySliceFrom(adminUser.accessLog, -(accessLogLimit - 1)));
      }
      if !checkPassword(password, adminUser.password, adminUser.salt) {
        adminUser := adminUser.(accessLog := adminUser.accessLog + [AccessEntry(false, now)]);
        users := users[username := adminUser];
        return Rejected;
      }
      adminUser := adminUser.(lastLogin := now);
      adminUser := adminUser.(accessLog := adminUser.accessLog + [AccessEntry(true, now)]);
      users := users[username := adminUser];
      return Granted(username);
    }

    /** login_receiver against the User and Receiver rows. */
    method LoginReceiver(username: string, password: string, now: int) returns (r: LoginResult)
      requires Valid()
      modifies this`users
      ensures Valid()
      ensures Attempt(r, users)
              == ReceiverLogin(old(users), receivers, username, password, checkPassword, now, accessLogLimit)
    {
      if username !in users || users[username].role != "receiver" {
        return Rejected;
      }
      var receiverUser := users[username];
      if |receiverUser.accessLog| >= accessLogLimit {
        receiverUser := receiverUser.(accessLog := PySliceFrom(receiverUser.accessLog, -(accessLogLimit - 1)));
      }
      if !checkPassword(password, receiverUser.password, receiverUser.salt) {
        receiverUser := receiverUser.(accessLog := receiverUser.accessLog + [AccessEntry(false, now)]);
        users := users[username := receiverUser];
        return Rejected;
      }
      if receiverUser.id !in receivers {
        // `receiver.id` on no row raises; the transaction is rolled back
        return Aborted;
      }
      receiverUser := receiverUser.(lastLogin := now);
      receiverUser := receiverUser.(accessLog := receiverUser.accessLog + [AccessEntry(true, now)]);
      users := users[username := receiverUser];
      return Granted(receivers[receiverUser.id]);
    }

    /** login_wb against the WhistleblowerTip rows. */
    method LoginWb(receipt: string, now: int) returns (r: LoginResult)
      requires Valid()
      modifies this`tips
      ensures Valid()
      ensures Attempt(r, tips) == WbLogin(old(tips), hashPassword(receipt, receiptSalt), now)
    {
      var hashedReceipt := hashPassword(receipt, receiptSalt);
      var matches := MatchingTips(tips, hashedReceipt);
      if |matches| > 1 {
        // the store finds more than one row: NotOneError, reported as a failed login
        return Rejected;
      }
      if |matches| == 0 {
        return Rejected;
      }
      var id :| id in matches;
      SingletonMember(matches, id);
      tips := tips[id := tips[id].(lastAccess := now)];
      return Granted(id);
    }

    /** generate_session: store a new entry under the fresh id `token`. */
    method GenerateSession(role: Role, userId: string, now: int, token: string) returns (sid: string)
      requires Valid() && IsSessionToken(token)
      modifies this`sessions
      ensures Valid()
      ensures sid == token && IsSessionToken(sid)
      ensures sessions == old(sessions)[sid := NewSession(sid, role, userId, now, lifetimes)]
    {
      InsertPreservesWellFormed(sessions, token, role, userId, now, lifetimes);
      sid := token;
      sessions := sessions[sid := Session(sid, role, userId, now, now + lifetimes.Of(role))];
    }

    /** GET: the current session, reported after the guard has refreshed it. */
    method Get(current: Option<string>, now: int) returns (r: Result<AuthAnswer, Error>)
      requires Valid()
      modifies this`sessions
      ensures Valid()
      ensures CurrentUser(old(sessions), current).None? ==>
                r == Failure(NotAuthenticated) && sessions == old(sessions)
      ensures CurrentUser(old(sessions), current).Some? ==>
                sessions == Touch(old(sessions), current.value, lifetimes, now).table
      ensures r.Success? <==>
                CurrentUser(old(sessions), current).Some? &&
                Touch(old(sessions), current.value, lifetimes, now).valid
      ensures CurrentUser(old(sessions), current).Some? && !Touch(old(sessions), current.value, lifetimes, now).valid ==>
                r == Failure(ExpiredError(old(sessions)[current.value].role))
      ensures r.Success? ==>
                var s := old(sessions)[current.value];
                r.value == AuthAnswer(s.id, RoleName(s.role), s.userId, now + lifetimes.Of(s.role))
    {
      var guard := Authenticated("*", current, now);
      if guard.Fail? {
        return Failure(guard.error);
      }
      var session := sessions[current.value];
      r := Success(AuthAnswer(session.id, RoleName(session.role), session.userId, session.expirydate));
    }

    /** The credential check of `post` for a known role, dispatched to the role's login function. */
    method CheckCredentials(rl: Role, username: string, password: string, now: int) returns (login: LoginResult)
      requires Valid()
      modifies this`users, this`tips
      ensures Valid()
      ensures Verdict(login, users, tips) == Verify(rl, old(users), old(tips), username, password, now)
    {
      match rl {
        case Admin => login := LoginAdmin(username, password, now);
        case Wb => login := LoginWb(password, now);
        case Receiver => login := LoginReceiver(username, password, now);
      }
    }

    /**
     * What `post` does with a credential check's verdict: a failure counts
     * one more failed login, an aborted transaction is an internal error,
     * and a success issues a session under `token` and answers it.
     */
    method AnswerLogin(rl: Role, login: LoginResult, now: int, token: string)
      returns (r: Result<AuthAnswer, Error>)
      requires Valid() && IsSessionToken(token)
      modifies this`sessions, this`failedLoginAttempts
      ensures Valid()
      ensures login == Rejected ==>
                && r == Failure(InvalidAuthRequest)
                && failedLoginAttempts == old(failedLoginAttempts) + 1
                && sessions == old(sessions)
      ensures login == Aborted ==>
                && r == Failure(Unhandled)
                && failedLoginAttempts == old(failedLoginAttempts)
                && sessions == old(sessions)
      ensures login.Granted? ==>
                && failedLoginAttempts == old(failedLoginAttempts)
                && sessions == old(sessions)[token := NewSession(token, rl, login.subject, now, lifetimes)]
                && r == Success(AuthAnswer(token, AnswerRole(rl), login.subject, now + lifetimes.Of(rl)))
    {
      if login == Rejected {
        failedLoginAttempts := failedLoginAttempts + 1;
        return Failure(InvalidAuthRequest);
      }
      if login == Aborted {
        return Failure(Unhandled);
      }
      var newSessionId := GenerateSession(rl, login.subject, now, token);
      r := Success(AuthAnswer(newSessionId, AnswerRole(rl), login.subject, sessions[newSessionId].expirydate));
    }

    /** The credential check of `post` for a known role, then its answer. */
    method Authenticate(rl: Role, username: string, password: string, now: int, token: string)
      returns (r: Result<AuthAnswer, Error>)
      requires Valid() && IsSessionToken(token)
      modifies this`sessions, this`users, this`tips, this`failedLoginAttempts
      ensures Valid()
      ensures var v := Verify(rl, old(users), old(tips), username, password, now);
              && users == v.users && tips == v.tips
              && (v.result == Rejected ==>
                    && r == Failure(InvalidAuthRequest)
                    && failedLoginAttempts == old(failedLoginAttempts) + 1
                    && sessions == old(sessions))
              && (v.result == Aborted ==>
                    && r == Failure(Unhandled)
                    && failedLoginAttempts == old(failedLoginAttempts)
                    && sessions == old(sessions))
              && (v.result.Granted? ==>
                    && failedLoginAttempts == old(failedLoginAttempts)
                    && sessions == old(sessions)[token := NewSession(token, rl, v.result.subject, now, lifetimes)]
                    && r == Success(AuthAnswer(token, AnswerRole(rl), v.result.subject, now + lifetimes.Of(rl))))
    {
      var login := CheckCredentials(rl, username, password, now);
      r := AnswerLogin(rl, login, now, token);
    }

    /**
     * The checks of `post` after the delay: the role is checked before the
     * transport, and both before any credential is looked at.
     */
    method Login(headers: map<string, string>, username: string, password: string,
                 role: string, now: int, token: string)
      returns (r: Result<AuthAnswer, Error>)
      requires Valid() && IsSessionToken(token)
      modifies this`sessions, this`users, this`tips, this`failedLoginAttempts
      ensures Valid()
      ensures KnownRole(role).None? ==>
                && r == Failure(InvalidInputFormat)
                && sessions == old(sessions) && users == old(users) && tips == old(tips)
                && failedLoginAttempts == old(failedLoginAttempts)
      ensures KnownRole(role).Some? && GetTor2webHeader(headers) && !AcceptTor2web(memoryCopy, role) ==>
                && r == Failure(TorNetworkRequired)
                && sessions == old(sessions) && users == old(users) && tips == old(tips)
                && failedLoginAttempts == old(failedLoginAttempts)
      ensures KnownRole(role).Some? && (GetTor2webHeader(headers) ==> AcceptTor2web(memoryCopy, role)) ==>
                var rl := KnownRole(role).value;
                var v := Verify(rl, old(users), old(tips), username, password, now);
                && users == v.users && tips == v.tips
                && (v.result == Rejected ==>
                      && r == Failure(InvalidAuthRequest)
                      && failedLoginAttempts == old(failedLoginAttempts) + 1
                      && sessions == old(sessions))
                && (v.result == Aborted ==>
                      && r == Failure(Unhandled)
                      && failedLoginAttempts == old(failedLoginAttempts)
                      && sessions == old(sessions))
                && (v.result.Granted? ==>
                      && failedLoginAttempts == old(failedLoginAttempts)
                      && sessions == old(sessions)[token := NewSession(token, rl, v.result.subject, now, lifetimes)]
                      && r == Success(AuthAnswer(token, AnswerRole(rl), v.result.subject, now + lifetimes.Of(rl))))
    {
      var known := KnownRole(role);
      if known.None? {
        return Failure(InvalidInputFormat);
      }
      if GetTor2webHeader(headers) && !AcceptTor2web(memoryCopy, role) {
        return Failure(TorNetworkRequired);
      }
      r := Authenticate(known.value, username, password, now, token);
    }

    /**
     * POST, the login handler, with `pick` standing for randint's random
     * source and `token` for the id rstr draws: the `unauthenticated`
     * decorator refreshes the current session, the delay is computed from
     * the failure count before any check, then Login runs.
     */
    method Post(current: Option<string>, headers: map<string, string>, username: string, password: string,
                role: string, now: int, pick: nat, token: string)
      returns (delay: nat, r: Result<AuthAnswer, Error>)
      requires Valid() && IsSessionToken(token)
      modifies this`sessions, this`users, this`tips, this`failedLoginAttempts
      ensures Valid()
      ensures delay == RandomLoginDelay(old(failedLoginAttempts), pick)
      ensures KnownRole(role).None? ==>
                && r == Failure(InvalidInputFormat)
                && sessions == RefreshCurrent(old(sessions), current, lifetimes, now)
                && users == old(users) && tips == old(tips)
                && failedLoginAttempts == old(failedLoginAttempts)
      ensures KnownRole(role).Some? && GetTor2webHeader(headers) && !AcceptTor2web(memoryCopy, role) ==>
                && r == Failure(TorNetworkRequired)
                && sessions == RefreshCurrent(old(sessions), current, lifetimes, now)
                && users == old(users) && tips == old(tips)
                && failedLoginAttempts == old(failedLoginAttempts)
      ensures KnownRole(role).Some? && (GetTor2webHeader(headers) ==> AcceptTor2web(memoryCopy, role)) ==>
                var rl := KnownRole(role).value;
                var v := Verify(rl, old(users), old(tips), username, password, now);
                var refreshed := RefreshCurrent(old(sessions), current, lifetimes, now);
                && users == v.users && tips == v.tips
                && (v.result == Rejected ==>
                      && r == Failure(InvalidAuthRequest)
                      && failedLoginAttempts == old(failedLoginAttempts) + 1
                      && sessions == refreshed)
                && (v.result == Aborted ==>
                      && r == Failure(Unhandled)
                      && failedLoginAttempts == old(failedLoginAttempts)
                      && sessions == refreshed)
                && (v.result.Granted? ==>
                      && failedLoginAttempts == old(failedLoginAttempts)
                      && sessions == refreshed[token := NewSession(token, rl, v.result.subject, now, lifetimes)]
                      && r == Success(AuthAnswer(token, AnswerRole(rl), v.result.subject, now + lifetimes.Of(rl))))
    {
      Unauthenticated(current, now);
      delay := RandomLoginDelay(failedLoginAttempts, pick);
      r := Login(headers, username, password, role, now, token);
    }

    /** DELETE, the logout handler: the guard refreshes the session, then it is removed. */
    method Delete(current: Option<string>, now: int) returns (r: Outcome<Error>)
      requires Valid()
      modifies this`sessions
      ensures Valid()
      ensures CurrentUser(old(sessions), current).None? ==>
                r == Fail(NotAuthenticated) && sessions == old(sessions)
      ensures CurrentUser(old(sessions), current).Some? ==>
                (r == Pass <==> Touch(old(sessions), current.value, lifetimes, now).valid)
      ensures CurrentUser(old(sessions), current).Some? && !Touch(old(sessions), current.value, lifetimes, now).valid ==>
                r == Fail(ExpiredError(old(sessions)[current.value].role))
      ensures CurrentUser(old(sessions), current).Some? ==> sessions == old(sessions) - {current.value}
    {
      r := Authenticated("*", current, now);
      if r.Fail? {
        return;
      }
      sessions := sessions - {current.value};
    }
  }

  /** Logging out twice: the first call ends the session, the second finds no current user. */
  method LogoutTwice(state: AuthState, current: Option<string>, now: int)
    returns (first: Outcome<Error>, second: Outcome<Error>)
    requires state.Valid()
    modifies state
    ensures state.Valid()
    ensures current.Some? ==> current.value !in state.sessions
    ensures second == Fail(NotAuthenticated)
    ensures first == Pass ==> current.Some? && current.value in old(state.sessions)
  {
    first := state.Delete(current, now);
    second := state.Delete(current, now);
  }
}

/**
 * The in-memory session table (GLSetting.sessions) as a value: creation,
 * refresh with lazy expiry, and the invariant every entry keeps.
 */
module Sessions {

  import opened Results
  import opened Errors

  /** The roles a session can be issued for. */
  datatype Role = Admin | Wb | Receiver

  function RoleName(r: Role): string
  {
    match r
    case Admin => "admin"
    case Wb => "wb"
    case Receiver => "receiver"
  }

  /** The role parameter of a login request, when it names one of the three roles. */
  function KnownRole(role: string): (r: Option<Role>)
    ensures r.Some? ==> RoleName(r.value) == role
    ensures r.None? ==> role != "admin" && role != "wb" && role != "receiver"
  {
    if role == "admin" then Some(Admin)
    else if role == "wb" then Some(Wb)
    else if role == "receiver" then Some(Receiver)
    else None
  }

  /** The per-role session lifetimes, in seconds (GLSetting.defaults.lifetimes). */
  datatype Lifetimes = Lifetimes(admin: nat, wb: nat, receiver: nat)
  {
    function Of(r: Role): nat
    {
      match r
      case Admin => admin
      case Wb => wb
      case Receiver => receiver
    }
  }

  /** One entry of the table; `userId` is the username, the receiver id or the tip id. */
  datatype Session = Session(id: string, role: Role, userId: string, refreshdate: int, expirydate: int)

  type SessionTable = map<string, Session>

  /** utility.is_expired: a date `seconds` old or older; a date exactly `seconds` old is expired. */
  predicate IsExpired(date: int, seconds: nat, now: int)
  {
    date + seconds <= now
  }

  /** The entry generate_session stores. */
  function NewSession(id: string, role: Role, userId: string, now: int, lifetimes: Lifetimes): Session
  {
    Session(id, role, userId, now, now + lifetimes.Of(role))
  }

  /** Every entry is filed under its own id and expires one lifetime after its last refresh. */
  ghost predicate WellFormed(table: SessionTable, lifetimes: Lifetimes)
  {
    forall k :: k in table ==>
      table[k].id == k && table[k].expirydate == table[k].refreshdate + lifetimes.Of(table[k].role)
  }

  datatype Touched = Touched(table: SessionTable, valid: bool)

  /**
   * update_session on the entry `sid`: an expired entry is removed and the
   * answer is false; a live one is refreshed to `now` and the answer is true.
   * No other entry changes.
   */
  function Touch(table: SessionTable, sid: string, lifetimes: Lifetimes, now: int): (r: Touched)
    requires sid in table
    ensures r.valid <==> now < table[sid].refreshdate + lifetimes.Of(table[sid].role)
    ensures r.table.Keys == if r.valid then table.Keys else table.Keys - {sid}
    ensures forall k :: k in table && k != sid ==> r.table[k] == table[k]
    ensures r.valid ==>
              && r.table[sid].refreshdate == now
              && r.table[sid].expirydate == now + lifetimes.Of(table[sid].role)
              && r.table[sid].(refreshdate := table[sid].refreshdate, expirydate := table[sid].expirydate)
                 == table[sid]
  {
    var info := table[sid];
    if IsExpired(info.refreshdate, lifetimes.Of(info.role), now) then
      Touched(table - {sid}, false)
    else
      Touched(table[sid := info.(refreshdate := now, expirydate := now + lifetimes.Of(info.role))], true)
  }

  /** The session of the request, when its id names an entry of the table. */
  function CurrentUser(table: SessionTable, current: Option<string>): Option<Session>
  {
    if current.Some? && current.value in table then Some(table[current.value]) else None
  }

  /**
   * The unauthenticated decorator: the current session, if any, is
   * refreshed or expired. No entry appears, only the current one can
   * disappear or change, and if it is still there it was refreshed to `now`.
   */
  function RefreshCurrent(table: SessionTable, current: Option<string>, lifetimes: Lifetimes, now: int)
    : (r: SessionTable)
    ensures r.Keys <= table.Keys
    ensures forall k :: k in table && (current.None? || k != current.value) ==> k in r && r[k] == table[k]
    ensures current.Some? && current.value in table ==>
              (current.value in r <==> now < table[current.value].refreshdate + lifetimes.Of(table[current.value].role))
    ensures current.Some? && current.value in r ==>
              && r[current.value].refreshdate == now
              && r[current.value].expirydate == now + lifetimes.Of(table[current.value].role)
  {
    if current.Some? && current.value in table then Touch(table, current.value, lifetimes, now).table
    else table
  }

  /** The role-specific error `authenticated` raises when the refresh fails. */
  function ExpiredError(r: Role): Error
  {
    match r
    case Admin => AdminSessionExpired
    case Wb => WbSessionExpired
    case Receiver => ReceiverSessionExpired
  }

  lemma TouchPreservesWellFormed(table: SessionTable, sid: string, lifetimes: Lifetimes, now: int)
    requires WellFormed(table, lifetimes) && sid in table
    ensures WellFormed(Touch(table, sid, lifetimes, now).table, lifetimes)
  {
  }

  lemma InsertPreservesWellFormed(table: SessionTable, sid: string, role: Role, userId: string,
                                  now: int, lifetimes: Lifetimes)
    requires WellFormed(table, lifetimes)
    ensures WellFormed(table[sid := NewSession(sid, role, userId, now, lifetimes)], lifetimes)
  {
  }

  lemma RefreshCurrentPreservesWellFormed(table: SessionTable, current: Option<string>,
                                          lifetimes: Lifetimes, now: int)
    requires WellFormed(table, lifetimes)
    ensures WellFormed(RefreshCurrent(table, current, lifetimes, now), lifetimes)
  {
    if current.Some? && current.value in table {
      TouchPreservesWellFormed(table, current.value, lifetimes, now);
    }
  }

  /**
   * A session created at `created` is accepted by every refresh before
   * `created + lifetime` (so at `created + lifetime - 1`) and refused, and
   * removed, from `created + lifetime` on (so at `created + lifetime + 1`).
   */
  lemma FreshSessionLifetime(table: SessionTable, sid: string, role: Role, userId: string,
                             created: int, lifetimes: Lifetimes, now: int)
    ensures var t := table[sid := NewSession(sid, role, userId, created, lifetimes)];
            && (Touch(t, sid, lifetimes, now).valid <==> now < created + lifetimes.Of(role))
            && (now >= created + lifetimes.Of(role) ==> sid !in Touch(t, sid, lifetimes, now).table)
  {
  }

  /**
   * Sliding expiry: a second successful refresh at a later time never
   * moves the expiry back, and moves it forward when time has passed; a
   * refresh within one lifetime of the previous one always succeeds.
   */
  lemma SlidingExpiry(table: SessionTable, sid: string, lifetimes: Lifetimes, t1: int, t2: int)
    requires sid in table && t1 <= t2
    requires Touch(table, sid, lifetimes, t1).valid
    ensures var first := Touch(table, sid, lifetimes, t1).table;
            var second := Touch(first, sid, lifetimes, t2);
            && (t2 < t1 + lifetimes.Of(table[sid].role) <==> second.valid)
            && (second.valid ==> first[sid].expirydate <= second.table[sid].expirydate)
            && (second.valid && t1 < t2 ==> first[sid].expirydate < second.table[sid].expirydate)
  {
  }

  /** An expired entry is gone afterwards: a later lookup finds no current user. */
  lemma ExpiredSessionIsGone(table: SessionTable, sid: string, lifetimes: Lifetimes, now: int)
    requires sid in table
    requires !Touch(table, sid, lifetimes, now).valid
    ensures CurrentUser(Touch(table, sid, lifetimes, now).table, Some(sid)) == None
  {
  }
}

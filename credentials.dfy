/**
 * The credential checks of the three roles, as functions from the store
 * contents before a login attempt to its verdict and the store contents
 * the transaction commits.
 */
module Credentials {

  /** One access-log entry; the source always stores no user agent. */
  datatype AccessEntry = AccessEntry(success: bool, timestamp: int)

  /** A User row as authentication.py reads and writes it. */
  datatype User = User(id: string, username: string, role: string, password: string, salt: string,
                       accessLog: seq<AccessEntry>, lastLogin: int)

  /** A WhistleblowerTip row as login_wb reads and writes it. */
  datatype WhistleblowerTip = WhistleblowerTip(id: string, receiptHash: string, lastAccess: int)

  type UserTable = map<string, User>
  type TipTable = map<string, WhistleblowerTip>

  /** A login function's answer: an identity, False, or an exception that aborted the transaction. */
  datatype LoginResult = Rejected | Granted(subject: string) | Aborted

  datatype Attempt<S> = Attempt(result: LoginResult, store: S)

  /** Python's `s[start:]`: a negative start counts from the end, and both ends are clamped. */
  function PySliceFrom<T>(s: seq<T>, start: int): (r: seq<T>)
    ensures |r| <= |s| && r == s[|s| - |r|..]
    ensures start >= 0 ==> |r| == if start <= |s| then |s| - start else 0
    ensures start < 0 ==> |r| == if -start <= |s| then -start else |s|
  {
    if start >= 0 then
      (if start <= |s| then s[start..] else [])
    else
      (if -start <= |s| then s[|s| + start..] else s)
  }

  /**
   * The cut made before appending: a log of `limit` entries or more is
   * replaced by `log[-(limit - 1):]`. For a limit of 2 or more that keeps
   * the newest limit - 1 entries; for a limit of 1 the slice is `log[0:]`
   * and keeps the whole log.
   */
  function TrimAccessLog(log: seq<AccessEntry>, limit: nat): (r: seq<AccessEntry>)
    ensures |log| < limit ==> r == log
    ensures limit >= 2 && |log| >= limit ==> r == log[|log| - (limit - 1)..]
    ensures limit == 1 ==> r == log
    ensures limit == 0 && |log| >= 1 ==> r == log[1..]
    ensures |r| <= |log| && r == log[|log| - |r|..]
  {
    if |log| >= limit then
      var r := PySliceFrom(log, -(limit - 1));
      assert limit == 0 && |log| >= 1 ==> r == log[1..];
      assert limit == 1 ==> r == log;
      assert limit >= 2 ==> r == log[|log| - (limit - 1)..];
      r
    else
      log
  }

  /**
   * The bookkeeping of one password attempt: exactly one entry is appended,
   * recording the outcome; for a limit of 2 or more the log never holds
   * more than `limit` entries; the dropped entries are the oldest;
   * last_login moves only on success; nothing else in the row changes.
   */
  function RecordAttempt(u: User, success: bool, now: int, limit: nat): (r: User)
    ensures |r.accessLog| >= 1 && r.accessLog[|r.accessLog| - 1] == AccessEntry(success, now)
    ensures var kept := r.accessLog[..|r.accessLog| - 1];
            |kept| <= |u.accessLog| && kept == u.accessLog[|u.accessLog| - |kept|..]
    ensures |u.accessLog| < limit ==> r.accessLog == u.accessLog + [AccessEntry(success, now)]
    ensures limit >= 2 && |u.accessLog| >= limit ==>
              r.accessLog[..|r.accessLog| - 1] == u.accessLog[|u.accessLog| - (limit - 1)..]
    ensures limit >= 2 ==> |r.accessLog| <= limit
    ensures r.lastLogin == if success then now else u.lastLogin
    ensures r.(accessLog := u.accessLog, lastLogin := u.lastLogin) == u
  {
    var trimmed := TrimAccessLog(u.accessLog, limit);
    u.(accessLog := trimmed + [AccessEntry(success, now)],
       lastLogin := if success then now else u.lastLogin)
  }

  /** With a limit of 1 the log grows by one entry on every attempt: the cap does not hold. */
  lemma LimitOneKeepsWholeLog(u: User, success: bool, now: int)
    ensures RecordAttempt(u, success, now, 1).accessLog == u.accessLog + [AccessEntry(success, now)]
  {
  }

  /**
   * The shared shape of login_admin and login_receiver: a username that is
   * unknown or whose row has another role yields False and writes nothing;
   * otherwise the attempt is recorded in that row alone, and the answer is
   * the username exactly when the password check succeeds.
   */
  function PasswordLogin(users: UserTable, username: string, password: string, role: string,
                         checkPassword: (string, string, string) -> bool, now: int, limit: nat)
    : (a: Attempt<UserTable>)
    ensures username !in users || users[username].role != role ==> a == Attempt(Rejected, users)
    ensures username in users && users[username].role == role ==>
              var u := users[username];
              var ok := checkPassword(password, u.password, u.salt);
              && a.store.Keys == users.Keys
              && (forall k :: k in users && k != username ==> a.store[k] == users[k])
              && a.store[username] == RecordAttempt(u, ok, now, limit)
              && (a.result == if ok then Granted(username) else Rejected)
  {
    if username !in users || users[username].role != role then
      Attempt(Rejected, users)
    else
      var u := users[username];
      var ok := checkPassword(password, u.password, u.salt);
      var store := users[username := RecordAttempt(u, ok, now, limit)];
      assert forall k :: k in users && k != username ==> store[k] == users[k];
      Attempt(if ok then Granted(username) else Rejected, store)
  }

  /** login_admin: the subject of an administrator's session is the username. */
  function AdminLogin(users: UserTable, username: string, password: string,
                      checkPassword: (string, string, string) -> bool, now: int, limit: nat)
    : (a: Attempt<UserTable>)
    ensures a.result.Granted? ==> a.result.subject == username
    ensures a.result != Aborted
  {
    PasswordLogin(users, username, password, "admin", checkPassword, now, limit)
  }

  /**
   * login_receiver: the subject is the id of the Receiver row bound to the
   * user. A successful check with no such row raises, the transaction is
   * rolled back and not even the access log is written.
   */
  function ReceiverLogin(users: UserTable, receivers: map<string, string>, username: string, password: string,
                         checkPassword: (string, string, string) -> bool, now: int, limit: nat)
    : (a: Attempt<UserTable>)
    ensures var p := PasswordLogin(users, username, password, "receiver", checkPassword, now, limit);
            && (p.result == Rejected ==> a == p)
            && (p.result.Granted? && users[username].id in receivers ==>
                  a == Attempt(Granted(receivers[users[username].id]), p.store))
            && (p.result.Granted? && users[username].id !in receivers ==> a == Attempt(Aborted, users))
  {
    var p := PasswordLogin(users, username, password, "receiver", checkPassword, now, limit);
    if p.result.Granted? then
      var uid := users[username].id;
      if uid in receivers then Attempt(Granted(receivers[uid]), p.store) else Attempt(Aborted, users)
    else
      p
  }

  /** The ids of the tips whose stored receipt hash equals `receiptHash`. */
  function MatchingTips(tips: TipTable, receiptHash: string): set<string>
  {
    set id | id in tips && tips[id].receiptHash == receiptHash
  }

  lemma SingletonMember(s: set<string>, x: string)
    requires |s| == 1 && x in s
    ensures s == {x}
  {
    var rest := s - {x};
    assert |rest| == 0;
  }

  /**
   * login_wb, given the hash of the receipt under the node's receipt salt:
   * no match and more than one match both yield False and write nothing; a
   * unique match yields that tip's id and sets its last access, and only it.
   */
  function WbLogin(tips: TipTable, receiptHash: string, now: int): (a: Attempt<TipTable>)
    ensures |MatchingTips(tips, receiptHash)| != 1 ==> a == Attempt(Rejected, tips)
    ensures |MatchingTips(tips, receiptHash)| == 1 ==>
              && a.result.Granted?
              && MatchingTips(tips, receiptHash) == {a.result.subject}
              && a.store == tips[a.result.subject := tips[a.result.subject].(lastAccess := now)]
  {
    var m := MatchingTips(tips, receiptHash);
    if |m| == 1 then
      var id :| id in m;
      SingletonMember(m, id);
      Attempt(Granted(id), tips[id := tips[id].(lastAccess := now)])
    else
      Attempt(Rejected, tips)
  }

  /** Two tips sharing a receipt hash make the receipt unusable for either of them. */
  lemma DuplicateReceiptRejected(tips: TipTable, receiptHash: string, id1: string, id2: string, now: int)
    requires id1 in tips && id2 in tips && id1 != id2
    requires tips[id1].receiptHash == receiptHash && tips[id2].receiptHash == receiptHash
    ensures WbLogin(tips, receiptHash, now) == Attempt(Rejected, tips)
  {
    var m := MatchingTips(tips, receiptHash);
    assert {id1, id2} <= m;
    assert |{id1, id2}| == 2;
    if |m| == 1 {
      SingletonMember(m, id1);
    }
  }
}

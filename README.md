# GlobaLeaks authentication core in Dafny

This project models the authentication and session subsystem of the
GlobaLeaks backend (`globaleaks/handlers/authentication.py`) and the base ORM
model's validators and generic update (`globaleaks/models.py`).

The model covers:

- the anti-bruteforce login delay, computed from the process-wide count of
  failed logins (`LoginDelay`);
- the tor2web transport policy: the `X-Tor2Web` header and the per-role flags
  of the node configuration (`Transport`);
- the in-memory session table: creation, refresh with lazy expiry, and the
  invariant `expirydate == refreshdate + lifetime(role)` (`Sessions`);
- the three credential checks `login_admin`, `login_receiver` and `login_wb`.
  Each one is a function from the store contents before the attempt to its
  verdict and the store contents committed after it, access-log bookkeeping
  included (`Credentials`);
- the process state the handlers share, as a class `AuthState`. It holds
  `GLSetting.sessions`, `GLSetting.failed_login_attempts`, the tor2web copy
  of the node settings, and the User and WhistleblowerTip rows. Its methods
  are `update_session`, the `authenticated` and `unauthenticated`
  decorators, `generate_session`, and the GET, POST and DELETE handlers of
  `AuthenticationHandler` (`Authentication`);
- `gltextv`, `gldictv` and the `Model` constructor and `update`, with the
  model's attributes as a map that `update` reassigns (`Models`).

Every state-changing method is specified by a pure function of the old state
(`Touch`, `RefreshCurrent`, `AdminLogin`, `ReceiverLogin`, `WbLogin`,
`SetKeys`). The properties are then proved about those functions.

Parameters stand in for things the model cannot compute:

- `now` is the current time, in seconds;
- `pick` is randint's random source;
- `token` is the 42-character id that `rstr.xeger` draws;
- `current` is the session id the request presents;
- `hashPassword` and `checkPassword` are uninterpreted functions fixed in
  the state;
- `Conversions` stands for Python's `unicode()` and `int()`.

Details of the code that the model keeps as written, where a reader might
expect otherwise (the first one goes against the docstring at
authentication.py:145, which says the header's content is ignored):

- **Tor2web header.** A request counts as tor2web only when the header
  value is non-empty (`True if key_content else False`). Its mere presence
  is not enough.
- **Order of the login checks.** The login delay is computed before the role
  and transport checks. An unknown role is refused with
  `InvalidInputFormat`, not `InvalidAuthRequest`.
- **No transport check in `authenticated`.** The decorator does not run
  the transport check itself; `transport_security_check` is a separate
  decorator.
- **Role in the whistleblower's answer.** The login answer of a
  whistleblower reports the role `'admin'` (authentication.py:403-404).
  The session itself is stored with the role `wb`.
- **Access-log limit of 1.** With `access_log_limit == 1` the cut
  `access_log[-0:]` keeps the whole log, so the log grows without bound
  (`LimitOneKeepsWholeLog`).
- **Expiry at exactly one lifetime.** `is_expired` counts a date exactly
  one lifetime old as expired, as test_utility.py:110-114 shows for
  `datetime_now()`.

## Model

| member | source | states |
|---|---|---|
| LoginDelay.Randint | globaleaks/handlers/authentication.py:49 | randint's value lies in the closed interval [lo, hi] |
| LoginDelay.RandintCoversRange | globaleaks/handlers/authentication.py:49 | every value of [lo, hi] is randint's answer for some random pick |
| LoginDelay.WindowNotInverted | globaleaks/handlers/authentication.py:40-47 | from 5 failures on, min_sleep <= max_sleep <= 42, so the randint call is always defined |
| LoginDelay.RandomLoginDelay | globaleaks/handlers/authentication.py:22-51 | no delay below 5 failures; from 5 on, the delay lies between min(f, 42) and min(f*f, 42); never above 42 |
| LoginDelay.DelayTable | globaleaks/handlers/authentication.py:27-36 | the doc-comment table row by row: 5 gives [5,25], 6 gives [6,36], 7 gives [7,42], 8..42 gives [f,42], above 42 exactly 42 |
| LoginDelay.DelayCoversWindow | globaleaks/handlers/authentication.py:40-49 | every value of the window is a possible delay: the model allows the whole randint range |
| Transport.TransportSecurityCheck | globaleaks/handlers/authentication.py:141-194 | a request without a non-empty X-Tor2Web header always passes; with one, it passes exactly when the declared role's flag accepts tor2web; the only failure is TorNetworkRequired |
| Transport.Tor2webHeaderContentIgnored | globaleaks/handlers/authentication.py:141-148 | the header's content is ignored: any non-empty X-Tor2Web value marks the request, an empty or absent one does not, and no other header matters |
| Transport.AcceptTor2webReadsOwnFlag | globaleaks/handlers/authentication.py:150-161 | each flag governs its own roles only: the submission flag decides wb, the receiver and admin flags their roles, the unauth flag every other role string |
| Transport.DefaultPolicyAcceptsAll | globaleaks/settings.py:149-155 | with the default flags no request is refused for its transport |
| Sessions.KnownRole | globaleaks/handlers/authentication.py:364-365 | a role string is recognised exactly when it is admin, wb or receiver, and it maps back to the same string |
| Sessions.Touch | globaleaks/handlers/authentication.py:53-78 | the session stays valid exactly when now < refreshdate + lifetime(role); an expired entry is removed, a live one gets refreshdate = now and expirydate = now + lifetime, and nothing else changes |
| Sessions.RefreshCurrent | globaleaks/handlers/authentication.py:128-139 | no entry is added and only the current session can change: it is gone exactly when it had lapsed, and otherwise it was refreshed to now and expires one lifetime from now |
| Sessions.TouchPreservesWellFormed | globaleaks/handlers/authentication.py:73-76 | a refresh or an expiry keeps every entry keyed by its id with expirydate = refreshdate + lifetime |
| Sessions.InsertPreservesWellFormed | globaleaks/handlers/authentication.py:320-327 | inserting the entry generate_session builds keeps the table well formed |
| Sessions.RefreshCurrentPreservesWellFormed | globaleaks/handlers/authentication.py:133-135 | the unauthenticated decorator's refresh keeps the table well formed |
| Sessions.FreshSessionLifetime | globaleaks/handlers/authentication.py:60-61 | a session created at t with lifetime L is accepted by every refresh before t + L and refused and removed from t + L on |
| Sessions.SlidingExpiry | globaleaks/handlers/authentication.py:71-76 | a later successful refresh never moves the expiry back and moves it forward when time passed; a refresh within one lifetime of the previous one succeeds |
| Sessions.ExpiredSessionIsGone | globaleaks/handlers/authentication.py:60-69 | after a failed refresh the session id no longer resolves to a current user |
| Credentials.PySliceFrom | globaleaks/handlers/authentication.py:236 | Python's s[start:] is a suffix of s, of length len(s) - start for a non-negative start and min(-start, len(s)) for a negative one |
| Credentials.TrimAccessLog | globaleaks/handlers/authentication.py:235-236 | a log below the limit is kept; at or above a limit of 2 or more exactly the newest limit - 1 entries are kept; a limit of 1 keeps the whole log; a limit of 0 drops the oldest entry; the result is always a suffix |
| Credentials.RecordAttempt | globaleaks/handlers/authentication.py:235-256 | exactly one entry recording the outcome and time is appended after dropping only the oldest entries; at or above a limit of 2 or more exactly the newest limit - 1 old entries are kept, so the log never exceeds the limit; last_login moves only on success; nothing else in the row changes |
| Credentials.LimitOneKeepsWholeLog | globaleaks/handlers/authentication.py:274-275 | with a limit of 1 every attempt grows the log by one entry |
| Credentials.PasswordLogin | globaleaks/handlers/authentication.py:268-296 | an unknown username or a role mismatch yields False and writes nothing; otherwise only that user's row changes, by RecordAttempt, and the answer is the username exactly when the password check succeeds |
| Credentials.AdminLogin | globaleaks/handlers/authentication.py:262-296 | an administrator's subject is the username, and the check never aborts |
| Credentials.ReceiverLogin | globaleaks/handlers/authentication.py:221-260 | a failed check is recorded like the administrator's; a successful one yields the id of the user's Receiver row; with no such row the transaction aborts and the store is left as it was |
| Credentials.WbLogin | globaleaks/handlers/authentication.py:196-219 | no matching receipt hash, or more than one, yields False and writes nothing; a unique match yields that tip's id and sets that tip's last access only |
| Credentials.DuplicateReceiptRejected | globaleaks/handlers/authentication.py:201-209 | two tips sharing a receipt hash make that receipt unusable for either |
| Authentication.AuthState.constructor | globaleaks/settings.py:120-121 | the process starts with an empty session table (and, by assumption, a failure count of 0) |
| Authentication.AuthState.UpdateSession | globaleaks/handlers/authentication.py:53-78 | the new session table and the answer are those of Touch on the old table, and the table stays well formed |
| Authentication.AuthState.Authenticated | globaleaks/handlers/authentication.py:81-126 | no current user gives NotAuthenticated; a lapsed session gives the role's expiry error and is removed; a live one in the wrong scope gives InvalidScopeAuth; the handler runs exactly when a live session of the right scope (or '*') exists |
| Authentication.AuthState.Unauthenticated | globaleaks/handlers/authentication.py:128-139 | the current session, if any, is refreshed or expired, and nothing else changes |
| Authentication.AuthState.LoginAdmin | globaleaks/handlers/authentication.py:262-296 | the answer and the new User rows are those of AdminLogin on the old rows |
| Authentication.AuthState.LoginReceiver | globaleaks/handlers/authentication.py:221-260 | the answer and the new User rows are those of ReceiverLogin on the old rows |
| Authentication.AuthState.LoginWb | globaleaks/handlers/authentication.py:196-219 | the answer and the new tip rows are those of WbLogin for the receipt hashed with the node's salt |
| Authentication.AuthState.GenerateSession | globaleaks/handlers/authentication.py:307-328 | the new id is the drawn 42-character alphanumeric token, and the table gains exactly the entry for it, expiring one lifetime from now |
| Authentication.AuthState.Get | globaleaks/handlers/authentication.py:330-345 | no current user gives NotAuthenticated and leaves the session table as it was; a lapsed session gives its role's expiry error; the answer succeeds exactly when the current session survives the guard's refresh, and reports its id, role, subject and refreshed expiry |
| Authentication.AuthState.CheckCredentials | globaleaks/handlers/authentication.py:379-425 | the verdict and the new store are those of the role's credential check |
| Authentication.AuthState.AnswerLogin | globaleaks/handlers/authentication.py:382-424 | a rejected verdict counts one more failure, answers InvalidAuthRequest and issues no session; an aborted one answers an internal error; a granted one issues exactly one session under the token and answers its id, reported role, subject and expiry |
| Authentication.AuthState.Authenticate | globaleaks/handlers/authentication.py:379-425 | a rejected check counts one more failure, answers InvalidAuthRequest and issues no session; an aborted one answers an internal error; a granted one issues one session under the token and answers its id, reported role, subject and expiry |
| Authentication.AuthState.Login | globaleaks/handlers/authentication.py:364-425 | an unknown role gives InvalidInputFormat and changes nothing; a refused tor2web request gives TorNetworkRequired and changes nothing; otherwise as Authenticate |
| Authentication.AuthState.Post | globaleaks/handlers/authentication.py:348-432 | the current session is refreshed first; the delay is the one the failure count before the attempt calls for; then the role, transport and credential outcomes as in Login |
| Authentication.AuthState.Delete | globaleaks/handlers/authentication.py:435-447 | no current user gives NotAuthenticated and changes nothing; otherwise the session is removed, and the logout succeeds exactly when it had not lapsed, a lapsed one giving its role's expiry error |
| Authentication.LogoutTwice | globaleaks/handlers/authentication.py:435-447 | a second logout with the same id always answers NotAuthenticated, and the id no longer names a session |
| Models.GlTextV | globaleaks/models.py:22-47 | a non-unicode value is refused; a name must hold 1 to 128 characters, a description at most 1024, any other attribute at most 2048; an accepted value is returned unchanged |
| Models.SubvaluesWithin | globaleaks/models.py:62-68 | the loop accepts the dict exactly when no unicode subvalue is longer than the limit |
| Models.GlDictV | globaleaks/models.py:49-70 | a non-dict is refused; a dict is accepted, and returned unchanged, exactly when none of its unicode values exceeds 2048 characters |
| Models.SetKeys | globaleaks/models.py:112-122 | one loop of update: attributes it does not name are untouched, no other attribute appears, and it completes exactly when every key is present, converts and passes its validator; a failure names a key that does not |
| Models.SetKeysAssigns | globaleaks/models.py:112-122 | after a completed loop, every key is present in attrs and the attribute holds the last converted value the loop assigned to it |
| Models.UpdateAll | globaleaks/models.py:108-122 | attributes outside the three key lists are untouched, and the update completes exactly when every unicode, int and bool key can be set |
| Models.UpdateAllAssigns | globaleaks/models.py:108-122 | after a completed update a key holds its bool conversion if it is a bool key, else its int conversion if it is an int key, else its unicode conversion |
| Models.Model.Empty | globaleaks/models.py:74-81 | a new object carries its class's key lists and validators and its column defaults |
| Models.Model.SetKeysFrom | globaleaks/models.py:112-122 | the loop over one key list leaves the attributes and outcome SetKeys computes from the old attributes |
| Models.Model.Update | globaleaks/models.py:94-122 | update(None) changes nothing; otherwise the attributes and outcome are those of UpdateAll on the old attributes |
| Models.Model.New | globaleaks/models.py:83-85 | without attrs the object keeps its defaults; with attrs it is the object update leaves, or update's error |

## Left out

- The sleeps (`security_sleep`, `uniform_answers_delay`): Post returns the delay the handler would sleep for, and the time spent is not modelled.
- HTTP writing, status codes, error message texts and logging: these are outputs without state effect. The error message modules are not part of this model, so errors are their names only.
- Concurrency and the transaction thread pool: handlers run one at a time, and each `@transact` either commits its whole effect or (Aborted) none of it.
- `validate_message` and `requests.authDict`: not part of this model. Post takes username, password and role already extracted.
- `BaseHandler.current_user`: BaseHandler is not part of this model. The current user is an optional session id looked up in the table.
- HTTP header names are matched exactly ("X-Tor2Web"); the case-insensitive lookup of the header dictionary is not modelled.
- Hashing, `check_password` and `rstr.xeger`: uninterpreted functions and parameters. The token only has the shape of the pattern and is not proved fresh, so a collision overwrites an entry as the source's dictionary assignment would.
- Dates are integer seconds; `datetime_now`, `get_future_epoch`, `pretty_date_time` and the conversions to `int` are not modelled.
- `store.find(User, ...).one()` raising NotOneError for duplicate usernames: users are keyed by username, so duplicates cannot be expressed.
- `store.find(Receiver, ...).one()` at authentication.py:258 raising NotOneError when two Receiver rows belong to one user: the transaction aborts, post answers an internal error, no access-log entry is kept and the counter does not move. `receivers` maps each user to at most one Receiver id, so this path cannot be expressed; only the missing-row abort is modelled.
- The Node lookup in `login_wb`: exactly one Node is assumed, and its receipt salt is a constant of the state.
- Authentication.AuthState.constructor: `failed_login_attempts` is defined in no file of this model, so the counter starting at 0 is an assumption.
- The AssertionError `transport_security_check` raises for a declared role outside wb, receiver, admin and unauth: it is a mistake in the code applying the decorator, and `TransportSecurityCheck` requires a listed role instead of modelling the exception.
- Model classes that declare no `unicode_keys`, `int_keys` or `bool_keys`: `update` on them raises AttributeError from `getattr`. The modelled `Model` always carries the three key lists, so that error path is not represented.
- `utility.is_expired` is not part of this model; `Sessions.IsExpired` stands for it as test_utility.py:110-114 describes it.
- DefaultPolicyAcceptsAll: how `tor2web_permitted_ops` becomes `GLSetting.memory_copy` is not part of this model, so the constructor takes any policy; the lemma is about a policy equal to those defaults, and their `tip` flag is read by no modelled handler.
- The developer-mistake AssertionError in `authenticated` (a session role outside the three): the `Role` type rules it out.
- The `KeyError` branches of GET and DELETE: right after the guard has refreshed the session it is in the table, so those branches cannot be taken when requests run one at a time.
- The final `else` of the role dispatch in POST: the earlier role check makes it unreachable.
- `Model.__new__` (table names), `__repr___`, `dict()` and `__setattr__`'s str-to-unicode coercion: these are unrelated to authentication and validation.
- `unicode()` and `int()` on arbitrary Python values are the `Conversions` parameter, with `None` standing for the exception they raise; `bool()` is modelled as Python truthiness on the modelled values.
- String lengths count Dafny characters; Python 2's code-unit counting of `unicode` values in narrow builds is not modelled.
- Storm's `Unicode`, `Int` and `Bool` column coercions and the validators attached to other model classes: only the attribute-to-validator map is modelled.

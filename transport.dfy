/**
 * The tor2web transport policy: a request that carries a non-empty
 * X-Tor2Web header came through a tor2web gateway, and the administrator's
 * configuration says, per role, whether such requests are accepted.
 */
module Transport {

  import opened Results
  import opened Errors

  /** The four tor2web flags of the in-memory copy of the node configuration. */
  datatype Tor2webPolicy = Tor2webPolicy(submission: bool, receiver: bool, admin: bool, unauth: bool)

  /** The defaults of settings.py: every role accepted over tor2web. */
  const DefaultPolicy := Tor2webPolicy(true, true, true, true)

  const Tor2webHeader := "X-Tor2Web"

  /** The roles a handler may be declared with in transport_security_check. */
  const HandlerRoles: seq<string> := ["wb", "receiver", "admin", "unauth"]

  /** get_tor2web_header: the header value is looked up and only its truthiness counts. */
  function GetTor2webHeader(headers: map<string, string>): bool
  {
    Tor2webHeader in headers && headers[Tor2webHeader] != ""
  }

  /** accept_tor2web: wb reads the submission flag; an unknown role falls back to unauth. */
  function AcceptTor2web(policy: Tor2webPolicy, role: string): bool
  {
    if role == "wb" then policy.submission
    else if role == "receiver" then policy.receiver
    else if role == "admin" then policy.admin
    else policy.unauth
  }

  /**
   * transport_security_check(role) as a guard: Pass means the wrapped
   * handler runs. The assertion on the declared role is a demand on the
   * code that applies the decorator.
   */
  function TransportSecurityCheck(policy: Tor2webPolicy, handlerRole: string, headers: map<string, string>)
    : (r: Outcome<Error>)
    requires handlerRole in HandlerRoles
    ensures Tor2webHeader !in headers || headers[Tor2webHeader] == "" ==> r == Pass
    ensures Tor2webHeader in headers && headers[Tor2webHeader] != "" ==>
              (r == Pass <==> AcceptTor2web(policy, handlerRole))
    ensures r == Pass || r == Fail(TorNetworkRequired)
  {
    if GetTor2webHeader(headers) && !AcceptTor2web(policy, handlerRole) then
      Fail(TorNetworkRequired)
    else
      Pass
  }

  /**
   * The content of the X-Tor2Web header is ignored: any non-empty value
   * marks the request, an empty one does not, and no other header matters.
   */
  lemma Tor2webHeaderContentIgnored(headers: map<string, string>, name: string, value: string)
    ensures GetTor2webHeader(headers[Tor2webHeader := value]) <==> value != ""
    ensures name != Tor2webHeader ==> GetTor2webHeader(headers[name := value]) == GetTor2webHeader(headers)
    ensures Tor2webHeader !in headers ==> !GetTor2webHeader(headers)
  {
  }

  /**
   * Each flag governs its own roles and no other: changing the submission
   * flag changes the answer for wb only, the receiver and admin flags for
   * their roles only, and the unauth flag for every other role string.
   */
  lemma AcceptTor2webReadsOwnFlag(policy: Tor2webPolicy, role: string, b: bool)
    ensures AcceptTor2web(policy.(submission := b), role)
            == if role == "wb" then b else AcceptTor2web(policy, role)
    ensures AcceptTor2web(policy.(receiver := b), role)
            == if role == "receiver" then b else AcceptTor2web(policy, role)
    ensures AcceptTor2web(policy.(admin := b), role)
            == if role == "admin" then b else AcceptTor2web(policy, role)
    ensures AcceptTor2web(policy.(unauth := b), role)
            == if role !in ["wb", "receiver", "admin"] then b else AcceptTor2web(policy, role)
  {
  }

  /** With the default configuration no request is refused for its transport. */
  lemma DefaultPolicyAcceptsAll(handlerRole: string, headers: map<string, string>)
    requires handlerRole in HandlerRoles
    ensures TransportSecurityCheck(DefaultPolicy, handlerRole, headers) == Pass
  {
  }
}

/**
 * Connection checks of src/util/emitUtils.js: the token checks of both key
 * formats, the IP check, and what the connect handler of a namespace decides
 * from them. Signature checking, the HTTP calls and the auth timer are inputs.
 */
module Auth {
  import opened Results
  import opened JsText
  import Whitelist

  const NoTokenMessage: string := "Access denied: no token provided"
  const IpNotAllowedMessage: string := "Access denied: ip not allowed"
  const TimeoutMessage: string := "operation timed out"

  /**
   * validateTokenOldFormat: a missing or empty query `t` is rejected at once
   * with the no-token message; any other token is left to the JWT check,
   * whose verdict is the result.
   */
  function ValidateTokenOldFormat(t: Option<string>, jwtVerdict: Result<string>): (r: Result<string>)
    ensures t.None? || t.value == "" ==> r == Err(NoTokenMessage)
    ensures t.Some? && t.value != "" ==> r == jwtVerdict
  {
    if t.None? || t.value == "" then Err(NoTokenMessage) else jwtVerdict
  }

  /** The claims a verified token carries. */
  datatype Claims = Claims(username: string, tokenname: string)

  /** The user-lookup path: the user itself when the token is named after the
      user, else that user's named token. */
  function UserLookupPath(username: string, tokenname: string): (path: string)
    ensures username == tokenname ==> path == "v1/users/" + username
    ensures username != tokenname ==> path == "v1/users/" + username + "/tokens/" + tokenname
  {
    if username == tokenname then "v1/users/" + username
    else "v1/users/" + username + "/tokens/" + tokenname
  }

  /** How a lookup path splits on `/`. */
  lemma {:induction false} UserLookupPathSegments(username: string, tokenname: string)
    requires '/' !in username && '/' !in tokenname
    ensures Split(UserLookupPath(username, tokenname), '/') ==
      if username == tokenname then ["v1", "users", username]
      else ["v1", "users", username, "tokens", tokenname]
  {
    if username == tokenname {
      UserPathSegments(username);
    } else {
      TokenPathSegments(username, tokenname);
    }
  }

  lemma {:induction false} UserPathSegments(username: string)
    requires '/' !in username
    ensures Split("v1/users/" + username, '/') == ["v1", "users", username]
  {
    var s1 := "users" + ['/'] + username;
    assert "v1/users/" + username == "v1" + ['/'] + s1;
    SplitWithoutSeparator(username, '/');
    SplitAtFirstSeparator("users", username, '/');
    assert Split(s1, '/') == ["users", username];
    SplitAtFirstSeparator("v1", s1, '/');
  }

  lemma {:induction false} TokenPathSegments(username: string, tokenname: string)
    requires '/' !in username && '/' !in tokenname
    ensures Split("v1/users/" + username + "/tokens/" + tokenname, '/') ==
      ["v1", "users", username, "tokens", tokenname]
  {
    assert "v1/users/" == ("v1" + ['/']) + ("users" + ['/']);
    assert "/tokens/" == ['/'] + ("tokens" + ['/']);
    Regroup("v1", "users", username, "tokens", tokenname, '/');
    FiveSegments("v1", "users", username, "tokens", tokenname, '/');
  }

  /** Regrouping the pieces of a token path. */
  lemma Regroup(v: string, u: string, name: string, t: string, token: string, sep: char)
    ensures ((v + [sep]) + (u + [sep])) + name + ([sep] + (t + [sep])) + token
      == (v + [sep]) + ((u + [sep]) + ((name + [sep]) + ((t + [sep]) + token)))
  {
  }

  /** Five pieces free of the separator, joined by it, split back into those pieces. */
  lemma {:induction false} FiveSegments(v: string, u: string, name: string, t: string, token: string, sep: char)
    requires sep !in v && sep !in u && sep !in name && sep !in t && sep !in token
    ensures Split((v + [sep]) + ((u + [sep]) + ((name + [sep]) + ((t + [sep]) + token))), sep)
      == [v, u, name, t, token]
  {
    SplitWithoutSeparator(token, sep);
    SplitAtFirstSeparator(t, token, sep);
    SplitAtFirstSeparator(name, (t + [sep]) + token, sep);
    SplitAtFirstSeparator(u, (name + [sep]) + ((t + [sep]) + token), sep);
    SplitAtFirstSeparator(v, (u + [sep]) + ((name + [sep]) + ((t + [sep]) + token)), sep);
  }

  /** The path names the user and, for a named token, the token: different
      claims look up different paths. */
  lemma {:induction false} UserLookupPathInjective(a: Claims, b: Claims)
    requires '/' !in a.username && '/' !in a.tokenname
    requires '/' !in b.username && '/' !in b.tokenname
    requires UserLookupPath(a.username, a.tokenname) == UserLookupPath(b.username, b.tokenname)
    ensures a.username == b.username
    ensures (a.username == a.tokenname) == (b.username == b.tokenname)
    ensures a.username != a.tokenname ==> a.tokenname == b.tokenname
  {
    UserLookupPathSegments(a.username, a.tokenname);
    UserLookupPathSegments(b.username, b.tokenname);
  }

  /**
   * validateTokenNewFormat: waits for the client's `auth` event (none before
   * the timeout rejects), verifies the token, then looks the user up at
   * `<apiUrl>/<path>`; the lookup's answer (the user's name) is the result.
   */
  function ValidateTokenNewFormat(apiUrl: string, token: Option<string>,
    verify: string -> Result<Claims>, lookup: string -> Result<string>): (r: Result<string>)
    ensures token.None? ==> r == Err(TimeoutMessage)
    ensures token.Some? && verify(token.value).Err? ==> r == Err(verify(token.value).error)
    ensures token.Some? && verify(token.value).Ok? ==>
      r == lookup(apiUrl + "/" + UserLookupPath(verify(token.value).value.username,
                                                 verify(token.value).value.tokenname))
  {
    if token.None? then Err(TimeoutMessage)
    else
      var claims := verify(token.value);
      if claims.Err? then Err(claims.error)
      else lookup(apiUrl + "/" + UserLookupPath(claims.value.username, claims.value.tokenname))
  }

  /** What validateIp does: nothing without a whitelist service, a synchronous
      throw without an address, else a promise that resolves to the address or
      rejects. */
  datatype IpCheck = NoCheck | ThrownSync(message: string) | Resolves(ip: string) | Rejects(message: string)

  /**
   * validateIp of src/util/emitUtils.js, with the service's `allow` answer
   * (or the request's failure) as an input.
   */
  function ValidateIp(service: string, ip: Option<string>, allow: Result<bool>): (r: IpCheck)
    ensures service == "" <==> r == NoCheck
    ensures r.ThrownSync? <==> service != "" && (ip.None? || ip.value == "")
    ensures r.Resolves? <==> service != "" && ip.Some? && ip.value != "" && allow == Ok(true)
    ensures r.Resolves? ==> r.ip == ip.value
    ensures r.Rejects? && allow.Ok? ==> r.message == IpNotAllowedMessage
  {
    if service == "" then NoCheck
    else if ip.None? || ip.value == "" then ThrownSync(Whitelist.NoAddressMessage)
    else if allow.Err? then Rejects(allow.error)
    else if !allow.value then Rejects(IpNotAllowedMessage)
    else Resolves(ip.value)
  }

  /** What the connect handler ends with: an authenticated user (with the
      address, if one was checked), a rejection with its message, or an error
      thrown out of the handler before either continuation is attached. */
  datatype ConnectOutcome =
    | Authenticated(user: string, ip: Option<string>)
    | Rejected(message: string)
    | Escaped(message: string)

  /**
   * The connect handler of a namespace: both checks run together; it
   * authenticates when neither rejects, and otherwise reports the first
   * rejection to settle (`ipSettlesFirst` says which one that is when both
   * reject). A synchronous throw of the IP check escapes the handler.
   */
  function ConnectDecision(ip: IpCheck, token: Result<string>, ipSettlesFirst: bool): (outcome: ConnectOutcome)
    ensures outcome.Authenticated? <==> (ip.NoCheck? || ip.Resolves?) && token.Ok?
    ensures outcome.Escaped? <==> ip.ThrownSync?
    ensures outcome.Authenticated? ==> outcome.user == token.value
    ensures outcome.Authenticated? ==> outcome.ip == (if ip.Resolves? then Some(ip.ip) else None)
    ensures outcome.Rejected? ==>
      (ip.Rejects? && outcome.message == ip.message) || (token.Err? && outcome.message == token.error)
  {
    match ip
    case ThrownSync(m) => Escaped(m)
    case Rejects(m) =>
      if token.Err? && !ipSettlesFirst then Rejected(token.error) else Rejected(m)
    case NoCheck => if token.Ok? then Authenticated(token.value, None) else Rejected(token.error)
    case Resolves(addr) => if token.Ok? then Authenticated(token.value, Some(addr)) else Rejected(token.error)
  }

  /**
   * The connect handler of a legacy namespace: the IP check joined with the
   * old-format token check. Without a token that check returns a promise that
   * has already rejected when the join walks its arguments, while an IP
   * rejection waits on the whitelist service's answer, so the IP check can
   * settle first only when a token was sent.
   */
  function LegacyConnect(ip: IpCheck, t: Option<string>, jwtVerdict: Result<string>, ipSettlesFirst: bool)
    : (outcome: ConnectOutcome)
    ensures t.None? || t.value == "" ==>
      outcome == if ip.ThrownSync? then Escaped(ip.message) else Rejected(NoTokenMessage)
    ensures t.Some? && t.value != "" ==> outcome == ConnectDecision(ip, jwtVerdict, ipSettlesFirst)
  {
    var sent := t.Some? && t.value != "";
    ConnectDecision(ip, ValidateTokenOldFormat(t, jwtVerdict), ipSettlesFirst && sent)
  }

  /** The token oracle: a client that sends no token is refused with the
      no-token message, whatever the IP check answers, unless that check throws. */
  lemma NoTokenRefused(ip: IpCheck, jwtVerdict: Result<string>, ipSettlesFirst: bool)
    requires !ip.ThrownSync?
    ensures LegacyConnect(ip, None, jwtVerdict, ipSettlesFirst) == Rejected(NoTokenMessage)
    ensures LegacyConnect(ip, Some(""), jwtVerdict, ipSettlesFirst) == Rejected(NoTokenMessage)
  {
  }
}

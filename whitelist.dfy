/**
 * Where a connection comes from, and whether the whitelist service lets it in
 * (util/ipWhitelistUtils.js, and the copies inside src/util/emitUtils.js).
 * The HTTP exchange with the whitelist service is an input: its outcome.
 */
module Whitelist {
  import opened Results

  /** The parts of a socket.io handshake the address lookup reads. */
  datatype Handshake = Handshake(headers: Option<map<string, string>>, address: Option<string>)

  /** A socket, whose handshake may be missing. */
  datatype Socket = Socket(handshake: Option<Handshake>)

  const ForwardedForHeader: string := "x-forwarded-for"
  const NoAddressMessage: string := "could not identify ip address"
  const WhitelistErrorMessage: string := "refocus-whitelist error"
  const VerifyPath: string := "v1/verify"

  /** The `x-forwarded-for` header when it is set to a non-empty text. */
  function ForwardedFor(h: Handshake): Option<string>
  {
    if h.headers.Some? && ForwardedForHeader in h.headers.value
      && h.headers.value[ForwardedForHeader] != ""
    then Some(h.headers.value[ForwardedForHeader])
    else None
  }

  /** The handshake address when it is non-empty. */
  function Address(h: Handshake): Option<string>
  {
    if h.address.Some? && h.address.value != "" then h.address else None
  }

  /**
   * getIpAddressFromSocket of util/ipWhitelistUtils.js: the forwarded-for
   * header verbatim (a proxy chain is not split), else the handshake address,
   * else an error, which is also the answer without a socket or handshake.
   */
  function GetIpAddressFromSocket(socket: Option<Socket>): (r: Result<string>)
    ensures r.Ok? ==> r.value != ""
    ensures r.Err? ==> r.error == NoAddressMessage
    ensures r.Err? <==> (socket.None? || socket.value.handshake.None?
      || (ForwardedFor(socket.value.handshake.value).None? && Address(socket.value.handshake.value).None?))
    ensures r.Ok? && ForwardedFor(socket.value.handshake.value).Some? ==>
      r.value == socket.value.handshake.value.headers.value[ForwardedForHeader]
    ensures r.Ok? && ForwardedFor(socket.value.handshake.value).None? ==>
      r.value == socket.value.handshake.value.address.value
  {
    if socket.None? || socket.value.handshake.None? then Err(NoAddressMessage)
    else
      var h := socket.value.handshake.value;
      if ForwardedFor(h).Some? then Ok(ForwardedFor(h).value)
      else if Address(h).Some? then Ok(Address(h).value)
      else Err(NoAddressMessage)
  }

  /** getIpAddressFromSocket of src/util/emitUtils.js: the same lookup, with
      `undefined` in place of the error. */
  function SrcGetIpAddressFromSocket(socket: Option<Socket>): Option<string>
  {
    if socket.Some? && socket.value.handshake.Some? then
      var h := socket.value.handshake.value;
      if ForwardedFor(h).Some? then ForwardedFor(h)
      else if Address(h).Some? then Address(h)
      else None
    else None
  }

  /** The two lookups find the same address, and fail on the same sockets. */
  lemma SrcLookupAgrees(socket: Option<Socket>)
    ensures SrcGetIpAddressFromSocket(socket).Some? <==> GetIpAddressFromSocket(socket).Ok?
    ensures SrcGetIpAddressFromSocket(socket).Some? ==>
      SrcGetIpAddressFromSocket(socket).value == GetIpAddressFromSocket(socket).value
  {
  }

  /** The outcome of the GET to the whitelist service: a body's `allow` flag,
      or a failure with its HTTP status. */
  datatype WhitelistResponse = Allowed(allow: bool) | Failed(status: int)

  /** The URL asked about an address: `<service>/v1/verify/<addr>`. */
  function VerifyUrl(service: string, addr: string): (url: string)
    ensures |url| == |service| + 1 + |VerifyPath| + 1 + |addr|
    ensures url[..|service| + 1 + |VerifyPath| + 1] == service + "/" + VerifyPath + "/"
    ensures url[|url| - |addr|..] == addr
  {
    service + "/" + VerifyPath + "/" + addr
  }

  /**
   * isWhitelisted, once the request is made: with no service configured every
   * address is allowed and no request is made; otherwise the body's flag
   * decides, a 400 answer means not allowed, any other failure is an error.
   */
  function IsWhitelisted(service: string, response: WhitelistResponse): (r: Result<bool>)
    ensures r == Ok(true) <==> service == "" || response == Allowed(true)
    ensures r == Ok(false) <==> service != "" && (response == Allowed(false) || response == Failed(400))
    ensures r.Err? <==> service != "" && response.Failed? && response.status != 400
    ensures r.Err? ==> r.error == WhitelistErrorMessage
  {
    if service == "" then Ok(true)
    else match response
      case Allowed(allow) => Ok(allow)
      case Failed(status) => if status == 400 then Ok(false) else Err(WhitelistErrorMessage)
  }
}

/** The part of the SIP message model (the `javax.sip` API) that the
    dialog-routing helpers read and build: URIs, addresses, the Record-Route,
    Route and Contact headers, and a response. Objects of the library are
    modelled as values. */
module SipMessage {
  import opened Wrappers

  /** A URI is either a SIP (or SIPS) URI, which the helpers decompose, or
      any other scheme (tel, fax, generic), which they treat as one value.
      `port == None` is a SIP URI without an explicit port. */
  datatype Uri =
    | SipUri(secure: bool, user: Option<string>, host: string, port: Option<nat>,
             uriParams: map<string, string>, uriHeaders: map<string, string>)
    | OpaqueUri(scheme: string, schemeData: string)

  /** A name-addr: optional display name and a URI. */
  datatype Address = Address(displayName: Option<string>, uri: Uri)

  /** Header values that carry an address plus header-level parameters
      (for Record-Route and Route e.g. `lr`, `ftag`; for Contact e.g. `expires`, `q`). */
  datatype RecordRoute = RecordRoute(address: Address, params: map<string, string>)
  datatype Route = Route(address: Address, params: map<string, string>)
  datatype Contact = Contact(address: Address, params: map<string, string>)

  /** A response as the helpers see it: its Record-Route headers in message
      order (what `getHeaders("Record-Route")` iterates) and its Contact header
      if it has one (what `getHeader("Contact")` returns, or `null`). */
  datatype Response = Response(recordRoutes: seq<RecordRoute>, contact: Option<Contact>)

  /** The `ParseException`s the stack's factories can raise. */
  datatype ParseError =
    | InvalidParameter(name: string, value: string)
    | InvalidSipUri(user: Option<string>, host: string)

  /** Whether the stack's `setParameter(name, value)` accepts a parameter; its
      parser is not part of this model, so callers supply it. */
  type ParameterCheck = (string, string) -> bool

  /** Whether the stack's `createSipURI(user, host)` accepts its arguments. */
  type SipUriCheck = (Option<string>, string) -> bool

  /** `SipURI.getPort()`: the port, or -1 when the URI has none. */
  function GetPort(u: Uri): (p: int)
    requires u.SipUri?
    ensures p >= -1
    ensures p == -1 <==> u.port.None?
    ensures u.port.Some? ==> p == u.port.value
  {
    match u.port
    case None => -1
    case Some(n) => n
  }

  /** `SipURI.setPort(p)`: -1 leaves the URI without a port; nothing else changes. */
  function SetPort(u: Uri, p: int): (r: Uri)
    requires u.SipUri? && p >= -1
    ensures r.SipUri?
    ensures p == -1 ==> r.port.None?
    ensures p >= 0 ==> r.port == Some(p)
    ensures r.(port := u.port) == u
  {
    u.(port := if p == -1 then None else Some(p))
  }

  /** `setPort(getPort())` carries the port across, and "no port" stays "no port". */
  lemma SetPortOfGetPort(target: Uri, source: Uri)
    requires target.SipUri? && source.SipUri?
    ensures SetPort(target, GetPort(source)).port == source.port
  {
  }

  /** `AddressFactory.createSipURI(user, host)`: a plain `sip:` URI with the
      given user and host, no port, no parameters and no headers. */
  function CreateSipUri(check: SipUriCheck, user: Option<string>, host: string): (r: Result<Uri, ParseError>)
    ensures r.Failure? <==> !check(user, host)
    ensures r.Failure? ==> r.error == InvalidSipUri(user, host)
    ensures r.Success? ==> r.value.SipUri? && !r.value.secure && r.value.port.None?
    ensures r.Success? ==> r.value.user == user && r.value.host == host
    ensures r.Success? ==> r.value.uriParams == map[] && r.value.uriHeaders == map[]
  {
    if check(user, host) then Success(SipUri(false, user, host, None, map[], map[]))
    else Failure(InvalidSipUri(user, host))
  }

  /** `HeaderFactory.createRouteHeader(address)`: a Route for the address, with no parameters yet. */
  function CreateRouteHeader(address: Address): (r: Route)
    ensures r.address == address && r.params == map[]
  {
    Route(address, map[])
  }
}

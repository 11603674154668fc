# SIP dialog-routing helpers, modelled in Dafny

This project models the `Utils` class of the SIP 1.1 resource adapter of the
JAIN SLEE platform. The dialog and fork manager uses these helpers when one request forks into
several early dialogs and each branch needs its own routing state:

- **Dialog-creating methods.** The set {INVITE, REFER, SUBSCRIBE}, built on first use and cached.
- **Header exclusion sets.** The headers a request copied from a request must not inherit: Route, Record-Route, Via,
  Call-ID, CSeq, From, To and Content-Length. For a response copied from a response, Contact is excluded as well.
  Both sets are built on first use and cached.
- **Route set.** The client's route set from a response's Record-Route headers, as in section 12.1.2 of RFC 3261. There is one
  Route per Record-Route, with the same address and every parameter, in reverse order.
- **Request-URI of a forked branch.** Built from the response's Contact. A SIP Contact URI gives a new `sip:` URI with only
  its user, host and port. An absent port stays absent. Any other URI (tel, fax, generic) is returned by value.
  With no Contact the result is `null`.

Files:

- `wrappers.dfy`: `Option` (Java's `null`) and `Result` (a thrown `ParseException`).
- `sip_message.dfy` (module `SipMessage`): the parts of the `javax.sip` message model that the helpers use, as values.
  These are URIs, addresses, the Record-Route, Route and Contact headers and a response. The module also has the port
  accessors with their -1 sentinel and stand-ins for the two factory calls.
- `sip_utils.dfy` (module `SipUtils`): the constants, a class `Utils` holding the three caches, the route-list methods
  with the `RouteSet` function that specifies them, and the `RequestUri` function.

Modelling choices:

- The caches are the class's static fields. One `Utils` object stands for the class's static state. `None` means a field
  that is still `null`. `Valid()` says a set cache only ever holds its constant set.
- The stack's parsers are not part of this model. `setParameter` and `createSipURI` can throw `ParseException`. Each
  model operation takes a function saying which inputs the stack accepts. A refusal becomes `Failure(ParseError)`.
- The parameter loop of `getRouteList` walks a `HashMap`-like parameter bag in unspecified order. The model picks the next
  name from the set of names not yet copied.
- `createSipURI(user, host)` always builds a `sip:` URI. So a `sips:` Contact gives a non-secure Request-URI. The model
  keeps this (`Stripped` says `!secure`).
- A response is modelled with its Record-Route headers in message order and its Contact header, if it has one. These are
  what `getHeaders("Record-Route")` and `getHeader("Contact")` return.

Errors:

- `getRequestUri` has no error of its own for a Contact without a URI or with an unknown URI family. Every address in
  the model has a URI, and every URI is either SIP or not.
- The only checked exceptions the code raises are the `ParseException`s of `setParameter` and `createSipURI`, and these
  are the only errors this model represents.

## Model

| member | source | states |
|---|---|---|
| `SipUtils.BuildDialogCreatingMethods` | resources/sip11/ra/src/main/java/org/mobicents/slee/resource/sip11/Utils.java:38-42 | a method is in the built set iff it is INVITE, REFER or SUBSCRIBE; the set has exactly three members |
| `SipUtils.Utils.GetDialogCreatingMethods` | resources/sip11/ra/src/main/java/org/mobicents/slee/resource/sip11/Utils.java:36-45 | returns the dialog-creating set; afterwards the cache is set to it; a cache that was already set is left as it was |
| `SipUtils.BuildRequestCopyOmissions` | resources/sip11/ra/src/main/java/org/mobicents/slee/resource/sip11/Utils.java:55-64 | a header name is in the set iff it is Route, Record-Route, Via, Call-ID, CSeq, From, To or Content-Length; Contact is not in it; eight members |
| `SipUtils.Utils.GetHeadersToOmitOnRequestCopy` | resources/sip11/ra/src/main/java/org/mobicents/slee/resource/sip11/Utils.java:53-67 | returns the request-copy set, builds the cache at most once and never replaces it |
| `SipUtils.BuildResponseCopyOmissions` | resources/sip11/ra/src/main/java/org/mobicents/slee/resource/sip11/Utils.java:77-87 | a header name is in the set iff it is in the request-copy set or is Contact; nine members |
| `SipUtils.Utils.GetHeadersToOmitOnResponseCopy` | resources/sip11/ra/src/main/java/org/mobicents/slee/resource/sip11/Utils.java:75-90 | returns the response-copy set, builds the cache at most once and never replaces it |
| `SipUtils.ResponseOmissionsAddContact` | resources/sip11/ra/src/main/java/org/mobicents/slee/resource/sip11/Utils.java:56-86 | the response-copy set is the request-copy set plus Contact, and is strictly larger |
| `SipUtils.Utils.constructor` | resources/sip11/ra/src/main/java/org/mobicents/slee/resource/sip11/Utils.java:28-69 | at class load every cache is unset and the cache invariant holds |
| `SipUtils.RepeatedLookups` | resources/sip11/ra/src/main/java/org/mobicents/slee/resource/sip11/Utils.java:36-90 | two calls of each getter return equal sets, and all caches are set afterwards |
| `SipUtils.RouteSet` | resources/sip11/ra/src/main/java/org/mobicents/slee/resource/sip11/Utils.java:100-113 | the route set has one entry per Record-Route header (empty for none) |
| `SipUtils.RouteSetAt` | resources/sip11/ra/src/main/java/org/mobicents/slee/resource/sip11/Utils.java:103-111 | route entry i has the address and the whole parameter map of Record-Route n-1-i |
| `SipUtils.RouteSetAppend` | resources/sip11/ra/src/main/java/org/mobicents/slee/resource/sip11/Utils.java:103-111 | Record-Route headers above others end up behind their routes: the route set of `upper + lower` is that of `lower` followed by that of `upper` |
| `SipUtils.CopyParameters` | resources/sip11/ra/src/main/java/org/mobicents/slee/resource/sip11/Utils.java:105-110 | succeeds iff the stack accepts every parameter, and then yields a Route with the Record-Route's address and exactly its parameters; otherwise names a refused parameter of that header |
| `SipUtils.GetRouteList` | resources/sip11/ra/src/main/java/org/mobicents/slee/resource/sip11/Utils.java:99-114 | succeeds iff every parameter of every Record-Route is accepted and then returns the reversed route set; on failure the error is a refused parameter of the first Record-Route that has one |
| `SipUtils.RequestUri` | resources/sip11/ra/src/main/java/org/mobicents/slee/resource/sip11/Utils.java:124-143 | no Contact gives `None`; an opaque Contact URI is returned unchanged; a SIP Contact URI gives a plain `sip:` URI with the same user, host and port (absent stays absent) and no parameters or headers, or the parse error if the stack refuses user and host |
| `SipUtils.RequestUriIdempotent` | resources/sip11/ra/src/main/java/org/mobicents/slee/resource/sip11/Utils.java:128-139 | forging from a Contact that already holds a forged Request-URI gives that URI again |
| `SipMessage.GetPort` | resources/sip11/ra/src/main/java/org/mobicents/slee/resource/sip11/Utils.java:132 | `getPort()` is -1 exactly when the URI has no port, and the port otherwise |
| `SipMessage.SetPort` | resources/sip11/ra/src/main/java/org/mobicents/slee/resource/sip11/Utils.java:132 | `setPort(-1)` leaves the URI without a port, `setPort(p)` for `p >= 0` sets port `p`, and nothing but the port changes |
| `SipMessage.SetPortOfGetPort` | resources/sip11/ra/src/main/java/org/mobicents/slee/resource/sip11/Utils.java:132 | `setPort(getPort())` copies the port, and a URI without a port gives one without a port |
| `SipMessage.CreateRouteHeader` | resources/sip11/ra/src/main/java/org/mobicents/slee/resource/sip11/Utils.java:105 | `createRouteHeader(address)` gives a Route with that address and no parameters yet |
| `SipMessage.CreateSipUri` | resources/sip11/ra/src/main/java/org/mobicents/slee/resource/sip11/Utils.java:131 | `createSipURI(user, host)` fails exactly when the stack refuses its arguments; otherwise it is a `sip:` URI with that user and host, no port, no parameters, no headers |

## Left out

- The administrative command-line tools (`ProfileCommand`, `ServiceCommand`) are not part of this model. They only parse
  options and forward a JMX operation name and arguments.
- Thread safety of the unsynchronised lazy initialisation: the model is single-threaded.
- Object identity: `clone()` of an opaque URI, and the Address object that `createRouteHeader` shares with the
  Record-Route. Both are modelled as values.
- `Collections.unmodifiableSet`: Dafny sets are immutable values, so the read-only wrapper has no counterpart.
- Case-insensitive header-name matching, and the way callers apply the exclusion sets. No copy routine is in this class.
- The grammar the stack's parsers enforce for parameters and URIs: each operation takes it as a function parameter.
- A Contact wildcard (`*`) and a Contact address without a URI: the code would throw `NullPointerException` or
  `ClassCastException`, and the model has no such values.
- SipMessage.SetPort: requires a port of at least -1, the range `getPort()` returns; other negative ports never reach it
  here.

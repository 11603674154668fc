/** The dialog-routing helpers of the SIP 1.1 resource adapter: which request
    methods create a dialog, which headers a copied request or response must
    not inherit, the route set a client derives from a response's Record-Route
    headers (section 12.1.2 of RFC 3261), and the Request-URI of a forked
    branch derived from the response's Contact. */
module SipUtils {
  import opened Wrappers
  import opened SipMessage

  // Request method names (`Request.INVITE`, `Request.REFER`, `Request.SUBSCRIBE`).
  const INVITE := "INVITE"
  const REFER := "REFER"
  const SUBSCRIBE := "SUBSCRIBE"

  // Header names (the `NAME` constants of the `javax.sip.header` interfaces).
  const ROUTE := "Route"
  const RECORD_ROUTE := "Record-Route"
  const VIA := "Via"
  const CALL_ID := "Call-ID"
  const CSEQ := "CSeq"
  const CONTACT := "Contact"
  const FROM := "From"
  const TO := "To"
  const CONTENT_LENGTH := "Content-Length"

  /** The methods that establish a dialog. */
  const DialogCreatingMethods: set<string> := {INVITE, REFER, SUBSCRIBE}

  /** Headers a request derived from another request must not copy. */
  const RequestCopyOmissions: set<string> :=
    {ROUTE, RECORD_ROUTE, VIA, CALL_ID, CSEQ, FROM, TO, CONTENT_LENGTH}

  /** Headers a response derived from another response must not copy. */
  const ResponseCopyOmissions: set<string> :=
    {ROUTE, RECORD_ROUTE, VIA, CALL_ID, CSEQ, CONTACT, FROM, TO, CONTENT_LENGTH}

  /** The set `getDialogCreatingMethods` fills on its first call. */
  method BuildDialogCreatingMethods() returns (s: set<string>)
    ensures forall m :: m in s <==> m == INVITE || m == REFER || m == SUBSCRIBE
    ensures |s| == 3
  {
    s := {};
    s := s + {INVITE};
    s := s + {REFER};
    s := s + {SUBSCRIBE};
  }

  /** The set `getHeadersToOmmitOnRequestCopy` fills on its first call:
      hop, transaction and dialog-identity headers, and Content-Length. */
  method BuildRequestCopyOmissions() returns (s: set<string>)
    ensures forall h :: h in s <==>
      h == ROUTE || h == RECORD_ROUTE || h == VIA || h == CALL_ID ||
      h == CSEQ || h == FROM || h == TO || h == CONTENT_LENGTH
    ensures CONTACT !in s
    ensures |s| == 8
  {
    s := {};
    s := s + {ROUTE};
    s := s + {RECORD_ROUTE};
    s := s + {VIA};
    s := s + {CALL_ID};
    s := s + {CSEQ};
    s := s + {FROM};
    s := s + {TO};
    s := s + {CONTENT_LENGTH};
  }

  /** The set `getHeadersToOmmitOnResponseCopy` fills on its first call:
      the request-copy set and Contact. */
  method BuildResponseCopyOmissions() returns (s: set<string>)
    ensures forall h :: h in s <==> h in RequestCopyOmissions || h == CONTACT
    ensures |s| == 9
  {
    s := {};
    s := s + {ROUTE};
    s := s + {RECORD_ROUTE};
    s := s + {VIA};
    s := s + {CALL_ID};
    s := s + {CSEQ};
    s := s + {CONTACT};
    s := s + {FROM};
    s := s + {TO};
    s := s + {CONTENT_LENGTH};
  }

  /** The two exclusion sets differ exactly in Contact. */
  lemma ResponseOmissionsAddContact()
    ensures ResponseCopyOmissions == RequestCopyOmissions + {CONTACT}
    ensures CONTACT !in RequestCopyOmissions
    ensures RequestCopyOmissions < ResponseCopyOmissions
  {
  }

  /** The class's three static caches. `None` is a field still `null`; once
      set, a cache holds its constant set and is never reassigned. */
  class Utils {
    var dialogCreatingMethods: Option<set<string>>
    var headersToOmitOnRequestCopy: Option<set<string>>
    var headersToOmitOnResponseCopy: Option<set<string>>

    ghost predicate Valid()
      reads this
    {
      && (dialogCreatingMethods.Some? ==> dialogCreatingMethods.value == DialogCreatingMethods)
      && (headersToOmitOnRequestCopy.Some? ==> headersToOmitOnRequestCopy.value == RequestCopyOmissions)
      && (headersToOmitOnResponseCopy.Some? ==> headersToOmitOnResponseCopy.value == ResponseCopyOmissions)
    }

    /** The state at class load: every cache unset. */
    constructor ()
      ensures Valid()
      ensures dialogCreatingMethods.None? && headersToOmitOnRequestCopy.None? && headersToOmitOnResponseCopy.None?
    {
      dialogCreatingMethods := None;
      headersToOmitOnRequestCopy := None;
      headersToOmitOnResponseCopy := None;
    }

    /** Builds the set on the first call and returns the cached set afterwards. */
    method GetDialogCreatingMethods() returns (s: set<string>)
      requires Valid()
      modifies this`dialogCreatingMethods
      ensures Valid()
      ensures s == DialogCreatingMethods
      ensures dialogCreatingMethods == Some(s)
      ensures old(dialogCreatingMethods).Some? ==> dialogCreatingMethods == old(dialogCreatingMethods)
    {
      if dialogCreatingMethods.None? {
        var built := BuildDialogCreatingMethods();
        dialogCreatingMethods := Some(built);
      }
      s := dialogCreatingMethods.value;
    }

    method GetHeadersToOmitOnRequestCopy() returns (s: set<string>)
      requires Valid()
      modifies this`headersToOmitOnRequestCopy
      ensures Valid()
      ensures s == RequestCopyOmissions
      ensures headersToOmitOnRequestCopy == Some(s)
      ensures old(headersToOmitOnRequestCopy).Some? ==> headersToOmitOnRequestCopy == old(headersToOmitOnRequestCopy)
    {
      if headersToOmitOnRequestCopy.None? {
        var built := BuildRequestCopyOmissions();
        headersToOmitOnRequestCopy := Some(built);
      }
      s := headersToOmitOnRequestCopy.value;
    }

    method GetHeadersToOmitOnResponseCopy() returns (s: set<string>)
      requires Valid()
      modifies this`headersToOmitOnResponseCopy
      ensures Valid()
      ensures s == ResponseCopyOmissions
      ensures headersToOmitOnResponseCopy == Some(s)
      ensures old(headersToOmitOnResponseCopy).Some? ==> headersToOmitOnResponseCopy == old(headersToOmitOnResponseCopy)
    {
      if headersToOmitOnResponseCopy.None? {
        var built := BuildResponseCopyOmissions();
        headersToOmitOnResponseCopy := Some(built);
      }
      s := headersToOmitOnResponseCopy.value;
    }
  }

  /** A caller asking twice gets the same sets, whatever the caches held before. */
  method RepeatedLookups(u: Utils) returns (methods1: set<string>, methods2: set<string>,
                                           request1: set<string>, request2: set<string>,
                                           response1: set<string>, response2: set<string>)
    requires u.Valid()
    modifies u
    ensures u.Valid()
    ensures methods1 == methods2 && request1 == request2 && response1 == response2
    ensures u.dialogCreatingMethods.Some? && u.headersToOmitOnRequestCopy.Some? && u.headersToOmitOnResponseCopy.Some?
  {
    methods1 := u.GetDialogCreatingMethods();
    request1 := u.GetHeadersToOmitOnRequestCopy();
    response1 := u.GetHeadersToOmitOnResponseCopy();
    methods2 := u.GetDialogCreatingMethods();
    request2 := u.GetHeadersToOmitOnRequestCopy();
    response2 := u.GetHeadersToOmitOnResponseCopy();
  }

  // ---------------------------------------------------------------------
  // Route set

  /** The Route a client uses for one Record-Route entry: the same address
      and the same parameters. */
  function AsRoute(rr: RecordRoute): Route
  {
    Route(rr.address, rr.params)
  }

  /** The route set for a sequence of Record-Route headers, as a client
      computes it: the entries turned into Routes, last one first. */
  function RouteSet(rrs: seq<RecordRoute>): (routes: seq<Route>)
    ensures |routes| == |rrs|
  {
    if rrs == [] then [] else [AsRoute(rrs[|rrs| - 1])] + RouteSet(rrs[..|rrs| - 1])
  }

  /** Entry `i` of the route set is built from Record-Route `n-1-i`, with
      the same address and parameters. */
  lemma {:induction false} RouteSetAt(rrs: seq<RecordRoute>, i: nat)
    requires i < |rrs|
    ensures RouteSet(rrs)[i].address == rrs[|rrs| - 1 - i].address
    ensures RouteSet(rrs)[i].params == rrs[|rrs| - 1 - i].params
  {
    if i > 0 {
      RouteSetAt(rrs[..|rrs| - 1], i - 1);
    }
  }

  /** Record-Route headers added above the existing ones end up at the
      back of the route set. */
  lemma {:induction false} RouteSetAppend(upper: seq<RecordRoute>, lower: seq<RecordRoute>)
    ensures RouteSet(upper + lower) == RouteSet(lower) + RouteSet(upper)
    decreases |lower|
  {
    if lower == [] {
      assert upper + lower == upper;
    } else {
      var n := |lower| - 1;
      assert (upper + lower)[..|upper + lower| - 1] == upper + lower[..n];
      RouteSetAppend(upper, lower[..n]);
    }
  }

  /** Every parameter of the Record-Route is accepted by the stack's parser. */
  predicate ParamsAccepted(check: ParameterCheck, rr: RecordRoute)
  {
    forall n :: n in rr.params ==> check(n, rr.params[n])
  }

  /** `e` names a parameter of `rr` that the parser refuses. */
  predicate RejectedParam(check: ParameterCheck, rr: RecordRoute, e: ParseError)
  {
    e.InvalidParameter? && e.name in rr.params && rr.params[e.name] == e.value && !check(e.name, e.value)
  }

  /** The inner loop of `getRouteList`: a Route for the Record-Route's address
      gets every parameter of the Record-Route, in the map's iteration order. */
  method CopyParameters(check: ParameterCheck, rr: RecordRoute) returns (r: Result<Route, ParseError>)
    ensures r.Success? <==> ParamsAccepted(check, rr)
    ensures r.Success? ==> r.value == AsRoute(rr)
    ensures r.Failure? ==> RejectedParam(check, rr, r.error)
  {
    var rh := CreateRouteHeader(rr.address);
    var names := rr.params.Keys;
    while names != {}
      invariant names <= rr.params.Keys
      invariant rh.address == rr.address
      invariant rh.params.Keys == rr.params.Keys - names
      invariant forall n :: n in rh.params ==> rh.params[n] == rr.params[n] && check(n, rr.params[n])
      decreases names
    {
      var name :| name in names;
      var value := rr.params[name];
      if !check(name, value) {
        return Failure(InvalidParameter(name, value));
      }
      rh := rh.(params := rh.params[name := value]);
      names := names - {name};
    }
    assert rh.params == rr.params;
    return Success(rh);
  }

  /** `getRouteList`: walks the response's Record-Route headers top to bottom
      and puts each new Route at the front of the list. Fails with the first
      parameter the stack refuses. */
  method GetRouteList(check: ParameterCheck, response: Response) returns (r: Result<seq<Route>, ParseError>)
    ensures r.Success? <==> forall k :: 0 <= k < |response.recordRoutes| ==> ParamsAccepted(check, response.recordRoutes[k])
    ensures r.Success? ==> r.value == RouteSet(response.recordRoutes)
    ensures r.Failure? ==>
      exists k :: && 0 <= k < |response.recordRoutes|
                  && (forall j :: 0 <= j < k ==> ParamsAccepted(check, response.recordRoutes[j]))
                  && RejectedParam(check, response.recordRoutes[k], r.error)
  {
    var rrs := response.recordRoutes;
    var routeList: seq<Route> := [];
    var i := 0;
    while i < |rrs|
      invariant 0 <= i <= |rrs|
      invariant routeList == RouteSet(rrs[..i])
      invariant forall j :: 0 <= j < i ==> ParamsAccepted(check, rrs[j])
    {
      var rh := CopyParameters(check, rrs[i]);
      if rh.Failure? {
        return Failure(rh.error);
      }
      assert rrs[..i + 1][..i] == rrs[..i];
      routeList := [rh.value] + routeList;
      i := i + 1;
    }
    assert rrs[..i] == rrs;
    return Success(routeList);
  }

  // ---------------------------------------------------------------------
  // Request-URI of a forked branch

  /** `getRequestUri`: no Contact gives `None`; a SIP Contact URI is rebuilt
      from its user, host and port; any other URI is copied as it is. */
  function RequestUri(check: SipUriCheck, response: Response): (r: Result<Option<Uri>, ParseError>)
    ensures response.contact.None? ==> r == Success(None)
    ensures response.contact.Some? && response.contact.value.address.uri.OpaqueUri? ==>
      r == Success(Some(response.contact.value.address.uri))
    ensures response.contact.Some? && response.contact.value.address.uri.SipUri? ==>
      var c := response.contact.value.address.uri;
      && (r.Failure? <==> !check(c.user, c.host))
      && (r.Failure? ==> r.error == InvalidSipUri(c.user, c.host))
      && (r.Success? ==> r.value.Some? && SameTarget(r.value.value, c) && Stripped(r.value.value))
  {
    match response.contact
    case None => Success(None)
    case Some(contact) =>
      var contactUri := contact.address.uri;
      if contactUri.SipUri? then
        match CreateSipUri(check, contactUri.user, contactUri.host)
        case Failure(e) => Failure(e)
        case Success(requestUri) =>
          Success(Some(SetPort(requestUri, GetPort(contactUri))))
      else
        Success(Some(contactUri))
  }

  /** Two SIP URIs name the same target: user, host and port agree
      (an absent port on both counts as agreeing). */
  predicate SameTarget(u: Uri, v: Uri)
  {
    u.SipUri? && v.SipUri? && u.user == v.user && u.host == v.host && u.port == v.port
  }

  /** A plain `sip:` URI without URI parameters or headers. */
  predicate Stripped(u: Uri)
  {
    u.SipUri? && !u.secure && u.uriParams == map[] && u.uriHeaders == map[]
  }

  /** Forging is stable: a response whose Contact already holds a forged
      Request-URI yields that same URI again. */
  lemma RequestUriIdempotent(check: SipUriCheck, response: Response, again: Response)
    requires RequestUri(check, response).Success? && RequestUri(check, response).value.Some?
    requires again.contact.Some?
    requires again.contact.value.address.uri == RequestUri(check, response).value.value
    ensures RequestUri(check, again) == RequestUri(check, response)
  {
  }
}

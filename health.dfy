/** The health client (`HealthConsulClient`): checks of a node, checks of a service, healthy
    instances of a service and checks in a given state. Every endpoint answers with
    `OkOrThrow`: the decoded content on 200, an OperationException otherwise. */
module Health {
  import opened Base
  import opened ClientApi
  import Ascii
  import Transport

  const NODE_PATH: string := "/v1/health/node/"
  const CHECKS_PATH: string := "/v1/health/checks/"
  const SERVICE_PATH: string := "/v1/health/service/"
  const STATE_PATH: string := "/v1/health/state/"

  /** A check status is passed by its enum constant's name; null means "any status". */
  type CheckStatusName = string

  /** `getHealthChecksForNode(nodeName, queryParams)`. */
  function HealthChecksForNodeCall(nodeName: string, queryParams: QueryParams): (c: RawCall)
    ensures VerbOf(c) == Transport.GET && EndpointOf(c) == NODE_PATH + nodeName
    ensures EndpointOf(c)[|NODE_PATH|..] == nodeName
    ensures DecoderOf(c) == Json("List<Check>") && ParamsOf(c) == [Some(Query(queryParams))]
  {
    GetCall(NODE_PATH + nodeName, Json("List<Check>"), [Some(Query(queryParams))])
  }

  /** `getHealthChecksForService(serviceName, request)`: the request object is the only
      parameter. */
  function HealthChecksForServiceCall(serviceName: string, request: HealthChecksForServiceReq): (c: RawCall)
    ensures VerbOf(c) == Transport.GET && EndpointOf(c) == CHECKS_PATH + serviceName
    ensures EndpointOf(c)[|CHECKS_PATH|..] == serviceName
    ensures DecoderOf(c) == Json("List<Check>") && ParamsOf(c) == [Some(Listing(request))]
    ensures TokenOf(c).None?
  {
    GetCall(CHECKS_PATH + serviceName, Json("List<Check>"), [Some(Listing(request))])
  }

  /** `getHealthChecksForService(serviceName, queryParams)`. */
  function HealthChecksForServiceByQueryCall(serviceName: string, queryParams: QueryParams): (c: RawCall)
    ensures VerbOf(c) == Transport.GET && EndpointOf(c) == CHECKS_PATH + serviceName
    ensures ParamsOf(c) == [Some(Listing(HealthChecksForServiceRequest(queryParams)))]
  {
    HealthChecksForServiceCall(serviceName, HealthChecksForServiceRequest(queryParams))
  }

  /** `getHealthServices(serviceName, request)`: the request object is the only parameter
      and carries the token. */
  function HealthServicesCall(serviceName: string, request: HealthServicesReq): (c: RawCall)
    ensures VerbOf(c) == Transport.GET && EndpointOf(c) == SERVICE_PATH + serviceName
    ensures EndpointOf(c)[|SERVICE_PATH|..] == serviceName
    ensures DecoderOf(c) == Json("List<HealthService>") && ParamsOf(c) == [Some(Listing(request))]
    ensures TokenOf(c) == request.token
  {
    GetCall(SERVICE_PATH + serviceName, Json("List<HealthService>"), [Some(Listing(request))])
  }

  /** `getHealthServices(serviceName, tags, onlyPassing, queryParams, token)`. */
  function HealthServicesByTagsCall(serviceName: string, tags: seq<Option<string>>, onlyPassing: bool,
                                    queryParams: QueryParams, token: Option<string>): (c: RawCall)
    ensures EndpointOf(c) == SERVICE_PATH + serviceName && TokenOf(c) == token
    ensures ParamsOf(c) == [Some(Listing(HealthServicesRequest(tags, onlyPassing, queryParams, token)))]
  {
    HealthServicesCall(serviceName, HealthServicesRequest(tags, onlyPassing, queryParams, token))
  }

  /** `getHealthServices(serviceName, tag, onlyPassing, queryParams, token)`. */
  function HealthServicesByTagCall(serviceName: string, tag: Option<string>, onlyPassing: bool,
                                   queryParams: QueryParams, token: Option<string>): (c: RawCall)
    ensures c == HealthServicesCall(serviceName, HealthServicesRequest([tag], onlyPassing, queryParams, token))
    ensures TokenOf(c) == token
  {
    HealthServicesByTagsCall(serviceName, [tag], onlyPassing, queryParams, token)
  }

  /** `getHealthServices(serviceName, tag, onlyPassing, queryParams)`. */
  function HealthServicesByTagNoTokenCall(serviceName: string, tag: Option<string>, onlyPassing: bool,
                                          queryParams: QueryParams): (c: RawCall)
    ensures c == HealthServicesCall(serviceName, HealthServicesRequest([tag], onlyPassing, queryParams, None))
    ensures TokenOf(c).None?
  {
    HealthServicesByTagCall(serviceName, tag, onlyPassing, queryParams, None)
  }

  /** `getHealthServices(serviceName, onlyPassing, queryParams, token)`. */
  function HealthServicesNoTagCall(serviceName: string, onlyPassing: bool, queryParams: QueryParams,
                                   token: Option<string>): (c: RawCall)
    ensures c == HealthServicesCall(serviceName, HealthServicesRequest([None], onlyPassing, queryParams, token))
    ensures TokenOf(c) == token
  {
    HealthServicesByTagCall(serviceName, None, onlyPassing, queryParams, token)
  }

  /** `getHealthServices(serviceName, onlyPassing, queryParams)`. */
  function HealthServicesNoTagNoTokenCall(serviceName: string, onlyPassing: bool, queryParams: QueryParams)
    : (c: RawCall)
    ensures c == HealthServicesCall(serviceName, HealthServicesRequest([None], onlyPassing, queryParams, None))
    ensures TokenOf(c).None?
  {
    HealthServicesByTagCall(serviceName, None, onlyPassing, queryParams, None)
  }

  /** The last path segment of a state query: "any" for a null status, otherwise the
      constant's name in lower case, which matches the name ignoring case and has no
      upper-case letter left. */
  function StateSegment(status: Option<CheckStatusName>): (s: string)
    ensures status.None? ==> s == "any"
    ensures status.Some? ==> Ascii.EqualsIgnoreCase(s, status.value)
    ensures status.Some? ==> forall i :: 0 <= i < |s| ==> !Ascii.IsUpper(s[i])
  {
    match status
    case None => "any"
    case Some(name) => Ascii.ToLower(name)
  }

  /** `getHealthChecksState(checkStatus, queryParams)`. */
  function HealthChecksStateCall(status: Option<CheckStatusName>, queryParams: QueryParams): (c: RawCall)
    ensures VerbOf(c) == Transport.GET && EndpointOf(c) == STATE_PATH + StateSegment(status)
    ensures DecoderOf(c) == Json("List<Check>") && ParamsOf(c) == [Some(Query(queryParams))]
  {
    GetCall(STATE_PATH + StateSegment(status), Json("List<Check>"), [Some(Query(queryParams))])
  }

  /** `getHealthChecksState(queryParams)`. */
  function HealthChecksStateAnyCall(queryParams: QueryParams): (c: RawCall)
    ensures VerbOf(c) == Transport.GET && EndpointOf(c) == "/v1/health/state/any"
    ensures ParamsOf(c) == [Some(Query(queryParams))]
  {
    HealthChecksStateCall(None, queryParams)
  }

  /** The state path: "any" for a null status (so the status-less overload always asks for
      "any"), the lower-cased name otherwise; two names give the same path exactly when
      they are equal ignoring case. */
  lemma StatePath(status: Option<CheckStatusName>, other: CheckStatusName, queryParams: QueryParams)
    ensures EndpointOf(HealthChecksStateAnyCall(queryParams)) == STATE_PATH + "any"
    ensures status.None? ==> EndpointOf(HealthChecksStateCall(status, queryParams)) == "/v1/health/state/any"
    ensures status.Some? ==>
              && EndpointOf(HealthChecksStateCall(status, queryParams)) == STATE_PATH + Ascii.ToLower(status.value)
              && (forall i :: |STATE_PATH| <= i < |EndpointOf(HealthChecksStateCall(status, queryParams))| ==>
                    !Ascii.IsUpper(EndpointOf(HealthChecksStateCall(status, queryParams))[i]))
    ensures status.Some? ==>
              (EndpointOf(HealthChecksStateCall(status, queryParams)) == EndpointOf(HealthChecksStateCall(Some(other), queryParams))
               <==> Ascii.EqualsIgnoreCase(status.value, other))
  {
    if status.Some? {
      var e := EndpointOf(HealthChecksStateCall(status, queryParams));
      var e' := EndpointOf(HealthChecksStateCall(Some(other), queryParams));
      Ascii.EqualsIgnoreCaseIsLowerEquality(status.value, other);
      if e == e' {
        assert Ascii.ToLower(status.value) == e[|STATE_PATH|..];
        assert Ascii.ToLower(other) == e'[|STATE_PATH|..];
      }
      forall i | |STATE_PATH| <= i < |e| ensures !Ascii.IsUpper(e[i]) {
        assert e[i] == Ascii.ToLower(status.value)[i - |STATE_PATH|];
      }
    }
  }

  /** The service-instance overloads all build one request: a single tag becomes a
      one-element tag array, a missing tag the array `{null}`, a missing token null, and
      the passing flag and query parameters are kept. */
  lemma ServicesOverloads(serviceName: string, tag: Option<string>, onlyPassing: bool,
                          queryParams: QueryParams, token: Option<string>)
    ensures HealthServicesByTagCall(serviceName, tag, onlyPassing, queryParams, token)
            == HealthServicesCall(serviceName, HealthServicesRequest([tag], onlyPassing, queryParams, token))
    ensures HealthServicesByTagNoTokenCall(serviceName, tag, onlyPassing, queryParams)
            == HealthServicesCall(serviceName, HealthServicesRequest([tag], onlyPassing, queryParams, None))
    ensures HealthServicesNoTagCall(serviceName, onlyPassing, queryParams, token)
            == HealthServicesCall(serviceName, HealthServicesRequest([None], onlyPassing, queryParams, token))
    ensures HealthServicesNoTagNoTokenCall(serviceName, onlyPassing, queryParams)
            == HealthServicesCall(serviceName, HealthServicesRequest([None], onlyPassing, queryParams, None))
    ensures TokenOf(HealthServicesByTagCall(serviceName, tag, onlyPassing, queryParams, token)) == token
    ensures TokenOf(HealthServicesNoTagNoTokenCall(serviceName, onlyPassing, queryParams)).None?
  {
  }

  /** Each endpoint is its fixed prefix followed by the name, and the services and checks
      queries pass their request object as the only URL parameter. */
  lemma Endpoints(name: string, queryParams: QueryParams)
    ensures EndpointOf(HealthChecksForNodeCall(name, queryParams))[|NODE_PATH|..] == name
    ensures EndpointOf(HealthChecksForServiceByQueryCall(name, queryParams)) == CHECKS_PATH + name
    ensures ParamsOf(HealthChecksForServiceByQueryCall(name, queryParams))
            == [Some(Listing(HealthChecksForServiceRequest(queryParams)))]
    ensures EndpointOf(HealthServicesNoTagNoTokenCall(name, false, queryParams)) == SERVICE_PATH + name
    ensures VerbOf(HealthChecksForNodeCall(name, queryParams)) == Transport.GET
  {
  }
}

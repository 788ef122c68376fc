/** The catalog client (`CatalogConsulClient`): registration and deregistration, and the
    datacenter, node, service and node-detail queries. Every endpoint answers with 200 or
    an OperationException; registration ignores the answer's body.

    The single-tag service query with a token forwards a null token instead of the
    caller's. `CatalogServiceByTagCallAsWritten` is that forwarding as written and
    `CatalogServiceByTagCall` the forwarding that keeps the token, which the other
    overloads here use. */
module Catalog {
  import opened Base
  import opened ClientApi
  import Transport

  const REGISTER_PATH: string := "/v1/catalog/register"
  const DEREGISTER_PATH: string := "/v1/catalog/deregister"
  const DATACENTERS_PATH: string := "/v1/catalog/datacenters"
  const NODES_PATH: string := "/v1/catalog/nodes"
  const SERVICES_PATH: string := "/v1/catalog/services"
  const SERVICE_PATH: string := "/v1/catalog/service/"
  const NODE_PATH: string := "/v1/catalog/node/"

  // ---------------------------------------------------------------- registration
  // `json` stands for Gson's serialisation of the registration or deregistration.

  /** `catalogRegister(catalogRegistration, token)`: a PUT of the serialised registration;
      the body of the answer is ignored. */
  function CatalogRegisterCall(json: string, token: Option<string>): (c: RawCall)
    ensures c.PutCall? && c.content == Some(json)
    ensures VerbOf(c) == Transport.PUT && EndpointOf(c) == REGISTER_PATH
    ensures DecoderOf(c) == Discard && TokenOf(c) == token
  {
    PutCall(REGISTER_PATH, Some(json), Discard, [TokenParam(token)])
  }

  /** `catalogRegister(catalogRegistration)`. */
  function CatalogRegisterNoTokenCall(json: string): (c: RawCall)
    ensures c.PutCall? && c.content == Some(json) && EndpointOf(c) == REGISTER_PATH
    ensures TokenOf(c).None? && ParamsOf(c) == [None]
  {
    CatalogRegisterCall(json, None)
  }

  /** `catalogDeregister(catalogDeregistration, token)`: a PUT of the serialised
      deregistration; the body of the answer is ignored. */
  function CatalogDeregisterCall(json: string, token: Option<string>): (c: RawCall)
    ensures c.PutCall? && c.content == Some(json)
    ensures VerbOf(c) == Transport.PUT && EndpointOf(c) == DEREGISTER_PATH
    ensures DecoderOf(c) == Discard && TokenOf(c) == token
  {
    PutCall(DEREGISTER_PATH, Some(json), Discard, [TokenParam(token)])
  }

  /** `catalogDeregister(catalogDeregistration)`. */
  function CatalogDeregisterNoTokenCall(json: string): (c: RawCall)
    ensures c.PutCall? && c.content == Some(json) && EndpointOf(c) == DEREGISTER_PATH
    ensures TokenOf(c).None? && ParamsOf(c) == [None]
  {
    CatalogDeregisterCall(json, None)
  }

  /** Registration PUTs the serialised argument, sends the token only when it is non-null
      (the short overloads never), and discards the answer's body. */
  lemma RegistrationCalls(json: string, token: Option<string>)
    ensures forall c :: c in {CatalogRegisterCall(json, token), CatalogDeregisterCall(json, token)} ==>
              && VerbOf(c) == Transport.PUT && c.content == Some(json) && DecoderOf(c) == Discard
              && TokenOf(c) == token && (token.None? <==> ParamsOf(c) == [None])
    ensures CatalogRegisterNoTokenCall(json) == CatalogRegisterCall(json, None)
    ensures CatalogDeregisterNoTokenCall(json) == CatalogDeregisterCall(json, None)
    ensures TokenOf(CatalogRegisterNoTokenCall(json)).None? && TokenOf(CatalogDeregisterNoTokenCall(json)).None?
    ensures EndpointOf(CatalogRegisterCall(json, token)) == REGISTER_PATH
    ensures EndpointOf(CatalogDeregisterCall(json, token)) == DEREGISTER_PATH
  {
  }

  // ---------------------------------------------------------------- queries

  /** `getCatalogDatacenters()`: a GET of a fixed path with no parameter. */
  function GetCatalogDatacentersCall(): (c: RawCall)
    ensures VerbOf(c) == Transport.GET && EndpointOf(c) == DATACENTERS_PATH
    ensures DecoderOf(c) == Json("List<String>") && ParamsOf(c) == [] && TokenOf(c).None?
  {
    GetCall(DATACENTERS_PATH, Json("List<String>"), [])
  }

  /** `getCatalogNodes(catalogNodesRequest)`: a built GET whose only parameter is the request
      object, with no token. */
  function CatalogNodesCall(request: CatalogNodesReq): (c: RawCall)
    ensures VerbOf(c) == Transport.GET && EndpointOf(c) == NODES_PATH
    ensures DecoderOf(c) == Json("List<Node>") && ParamsOf(c) == [Some(Listing(request))]
    ensures TokenOf(c).None? && c.RequestCall? && c.request.binaryContent.None?
  {
    RequestCall(Transport.GET, Request(NODES_PATH, None, [Some(Listing(request))], None), Json("List<Node>"))
  }

  /** `getCatalogNodes(queryParams)`. */
  function CatalogNodesByQueryCall(queryParams: QueryParams): (c: RawCall)
    ensures VerbOf(c) == Transport.GET && EndpointOf(c) == NODES_PATH
    ensures ParamsOf(c) == [Some(Listing(CatalogNodesRequest(queryParams)))]
  {
    CatalogNodesCall(CatalogNodesRequest(queryParams))
  }

  /** `getCatalogServices(catalogServicesRequest)`: the request object is the only parameter
      and carries the token. */
  function CatalogServicesCall(request: CatalogServicesReq): (c: RawCall)
    ensures VerbOf(c) == Transport.GET && EndpointOf(c) == SERVICES_PATH
    ensures DecoderOf(c) == Json("Map<String, List<String>>") && ParamsOf(c) == [Some(Listing(request))]
    ensures TokenOf(c) == request.token
  {
    GetCall(SERVICES_PATH, Json("Map<String, List<String>>"), [Some(Listing(request))])
  }

  /** `getCatalogServices(queryParams, token)`. */
  function CatalogServicesByQueryTokenCall(queryParams: QueryParams, token: Option<string>): (c: RawCall)
    ensures ParamsOf(c) == [Some(Listing(CatalogServicesRequest(queryParams, token)))]
    ensures EndpointOf(c) == SERVICES_PATH && TokenOf(c) == token
  {
    CatalogServicesCall(CatalogServicesRequest(queryParams, token))
  }

  /** `getCatalogServices(queryParams)`. */
  function CatalogServicesByQueryCall(queryParams: QueryParams): (c: RawCall)
    ensures ParamsOf(c) == [Some(Listing(CatalogServicesRequest(queryParams, None)))]
    ensures EndpointOf(c) == SERVICES_PATH && TokenOf(c).None?
  {
    CatalogServicesByQueryTokenCall(queryParams, None)
  }

  /** `getCatalogService(serviceName, catalogServiceRequest)`: the request object is the only
      parameter and carries the token. */
  function CatalogServiceCall(serviceName: string, request: CatalogServiceReq): (c: RawCall)
    ensures VerbOf(c) == Transport.GET && EndpointOf(c) == SERVICE_PATH + serviceName
    ensures EndpointOf(c)[|SERVICE_PATH|..] == serviceName
    ensures DecoderOf(c) == Json("List<CatalogService>") && ParamsOf(c) == [Some(Listing(request))]
    ensures TokenOf(c) == request.token
  {
    GetCall(SERVICE_PATH + serviceName, Json("List<CatalogService>"), [Some(Listing(request))])
  }

  /** `getCatalogService(serviceName, tags, queryParams, token)`. */
  function CatalogServiceByTagsCall(serviceName: string, tags: seq<Option<string>>, queryParams: QueryParams,
                                    token: Option<string>): (c: RawCall)
    ensures EndpointOf(c) == SERVICE_PATH + serviceName && TokenOf(c) == token
    ensures ParamsOf(c) == [Some(Listing(CatalogServiceRequest(tags, queryParams, token)))]
  {
    CatalogServiceCall(serviceName, CatalogServiceRequest(tags, queryParams, token))
  }

  /** `getCatalogService(serviceName, tag, queryParams, token)` as written: the tag is
      wrapped, the token replaced by null. */
  function CatalogServiceByTagCallAsWritten(serviceName: string, tag: Option<string>, queryParams: QueryParams,
                                            token: Option<string>): (c: RawCall)
    ensures c == CatalogServiceCall(serviceName, CatalogServiceRequest([tag], queryParams, None))
    ensures TokenOf(c).None?
  {
    CatalogServiceByTagsCall(serviceName, [tag], queryParams, None)
  }

  /** `getCatalogService(serviceName, queryParams, token)` as written: it reaches the
      overload above with a null tag, so it loses the token too. */
  function CatalogServiceNoTagTokenCallAsWritten(serviceName: string, queryParams: QueryParams,
                                                 token: Option<string>): (c: RawCall)
    ensures c == CatalogServiceCall(serviceName, CatalogServiceRequest([None], queryParams, None))
    ensures TokenOf(c).None?
  {
    CatalogServiceByTagCallAsWritten(serviceName, None, queryParams, token)
  }

  /** `getCatalogService(serviceName, tag, queryParams, token)`, forwarding the token. */
  function CatalogServiceByTagCall(serviceName: string, tag: Option<string>, queryParams: QueryParams,
                                   token: Option<string>): (c: RawCall)
    ensures c == CatalogServiceCall(serviceName, CatalogServiceRequest([tag], queryParams, token))
    ensures TokenOf(c) == token
  {
    CatalogServiceByTagsCall(serviceName, [tag], queryParams, token)
  }

  /** `getCatalogService(serviceName, tag, queryParams)`. */
  function CatalogServiceByTagNoTokenCall(serviceName: string, tag: Option<string>, queryParams: QueryParams)
    : (c: RawCall)
    ensures c == CatalogServiceCall(serviceName, CatalogServiceRequest([tag], queryParams, None))
    ensures TokenOf(c).None?
  {
    CatalogServiceByTagCall(serviceName, tag, queryParams, None)
  }

  /** `getCatalogService(serviceName, queryParams)`. */
  function CatalogServiceNoTagCall(serviceName: string, queryParams: QueryParams): (c: RawCall)
    ensures c == CatalogServiceCall(serviceName, CatalogServiceRequest([None], queryParams, None))
    ensures TokenOf(c).None?
  {
    CatalogServiceByTagCall(serviceName, None, queryParams, None)
  }

  /** `getCatalogService(serviceName, queryParams, token)`, forwarding the token. */
  function CatalogServiceNoTagTokenCall(serviceName: string, queryParams: QueryParams, token: Option<string>)
    : (c: RawCall)
    ensures c == CatalogServiceCall(serviceName, CatalogServiceRequest([None], queryParams, token))
    ensures TokenOf(c) == token
  {
    CatalogServiceByTagCall(serviceName, None, queryParams, token)
  }

  /** `getCatalogNode(nodeName, queryParams)`. */
  function CatalogNodeCall(nodeName: string, queryParams: QueryParams): (c: RawCall)
    ensures VerbOf(c) == Transport.GET && EndpointOf(c) == NODE_PATH + nodeName
    ensures EndpointOf(c)[|NODE_PATH|..] == nodeName
    ensures DecoderOf(c) == Json("CatalogNode") && ParamsOf(c) == [Some(Query(queryParams))]
  {
    GetCall(NODE_PATH + nodeName, Json("CatalogNode"), [Some(Query(queryParams))])
  }

  /** As written, the two token-taking overloads that pass through the single-tag one send
      no token, whatever token the caller gives. */
  lemma AsWrittenDropsToken(serviceName: string, tag: Option<string>, queryParams: QueryParams, token: string)
    ensures TokenOf(CatalogServiceByTagCallAsWritten(serviceName, tag, queryParams, Some(token))).None?
    ensures TokenOf(CatalogServiceNoTagTokenCallAsWritten(serviceName, queryParams, Some(token))).None?
    ensures CatalogServiceByTagCallAsWritten(serviceName, tag, queryParams, Some(token))
            != CatalogServiceByTagsCall(serviceName, [tag], queryParams, Some(token))
  {
  }

  /** With the forwarding corrected, every overload sends the caller's token, and it agrees
      with the code as written whenever the token is null. */
  lemma CorrectedForwardsToken(serviceName: string, tag: Option<string>, queryParams: QueryParams,
                               token: Option<string>)
    ensures TokenOf(CatalogServiceByTagCall(serviceName, tag, queryParams, token)) == token
    ensures TokenOf(CatalogServiceNoTagTokenCall(serviceName, queryParams, token)) == token
    ensures CatalogServiceByTagCall(serviceName, tag, queryParams, token)
            == CatalogServiceByTagsCall(serviceName, [tag], queryParams, token)
    ensures token.None? ==>
              CatalogServiceByTagCall(serviceName, tag, queryParams, token)
              == CatalogServiceByTagCallAsWritten(serviceName, tag, queryParams, token)
  {
  }

  /** A single tag becomes a one-element tag array and a missing tag the array `{null}`;
      the token-less overloads send no token. */
  lemma ServiceOverloads(serviceName: string, tag: Option<string>, queryParams: QueryParams, token: Option<string>)
    ensures CatalogServiceNoTagCall(serviceName, queryParams)
            == CatalogServiceCall(serviceName, CatalogServiceRequest([None], queryParams, None))
    ensures CatalogServiceNoTagTokenCall(serviceName, queryParams, token)
            == CatalogServiceCall(serviceName, CatalogServiceRequest([None], queryParams, token))
    ensures CatalogServiceByTagNoTokenCall(serviceName, tag, queryParams)
            == CatalogServiceCall(serviceName, CatalogServiceRequest([tag], queryParams, None))
    ensures CatalogServicesByQueryCall(queryParams) == CatalogServicesCall(CatalogServicesRequest(queryParams, None))
    ensures TokenOf(CatalogServicesByQueryTokenCall(queryParams, token)) == token
    ensures TokenOf(CatalogServicesByQueryCall(queryParams)).None?
  {
  }

  /** The service and node endpoints are the fixed prefix followed by the name, so the name
      can be read back from them; the datacenter and node listings have fixed paths. */
  lemma Endpoints(name: string, queryParams: QueryParams)
    ensures EndpointOf(CatalogServiceNoTagCall(name, queryParams)) == SERVICE_PATH + name
    ensures EndpointOf(CatalogServiceNoTagCall(name, queryParams))[|SERVICE_PATH|..] == name
    ensures EndpointOf(CatalogNodeCall(name, queryParams)) == NODE_PATH + name
    ensures EndpointOf(CatalogNodeCall(name, queryParams))[|NODE_PATH|..] == name
    ensures EndpointOf(GetCatalogDatacentersCall()) == DATACENTERS_PATH
    ensures EndpointOf(CatalogNodesByQueryCall(queryParams)) == NODES_PATH
    ensures VerbOf(CatalogNodesByQueryCall(queryParams)) == Transport.GET
    ensures ParamsOf(CatalogNodesByQueryCall(queryParams)) == [Some(Listing(CatalogNodesRequest(queryParams)))]
  {
  }
}

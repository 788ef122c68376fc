/** What the resource clients share: the calls they hand to the raw client, the `Response`
    they return, the exceptions they throw, and the two interpretation rules most endpoints
    use (200-or-throw, and unwrapping a list of at most one element). */
module ClientApi {
  import opened Base
  import opened Envelope
  import Numerals
  import Transport

  /** Query options (`QueryParams`); their contents do not matter here. */
  datatype QueryParams = QueryParams(id: nat)

  /** `QueryParams.DEFAULT`. */
  const DEFAULT_QUERY_PARAMS: QueryParams := QueryParams(0)

  /** Options of a key/value write (`PutParams`); their contents do not matter here. */
  datatype PutParams = PutParams(id: nat)

  /** The request objects whose `asUrlParameters()` a client passes on. */
  datatype ListRequest =
    | HealthChecksForServiceRequest(queryParams: QueryParams)
    | HealthServicesRequest(tags: seq<Option<string>>, passing: bool, queryParams: QueryParams, token: Option<string>)
    | CatalogNodesRequest(queryParams: QueryParams)
    | CatalogServicesRequest(queryParams: QueryParams, token: Option<string>)
    | CatalogServiceRequest(tags: seq<Option<string>>, queryParams: QueryParams, token: Option<string>)

  /** Each request class as its own type. */
  type HealthChecksForServiceReq = r: ListRequest | r.HealthChecksForServiceRequest?
    witness HealthChecksForServiceRequest(QueryParams(0))
  type HealthServicesReq = r: ListRequest | r.HealthServicesRequest?
    witness HealthServicesRequest([], false, QueryParams(0), None)
  type CatalogNodesReq = r: ListRequest | r.CatalogNodesRequest?
    witness CatalogNodesRequest(QueryParams(0))
  type CatalogServicesReq = r: ListRequest | r.CatalogServicesRequest?
    witness CatalogServicesRequest(QueryParams(0), None)
  type CatalogServiceReq = r: ListRequest | r.CatalogServiceRequest?
    witness CatalogServiceRequest([], QueryParams(0), None)

  /** One `UrlParameters` argument. */
  datatype UrlParam =
    | Flag(name: string)                   // new SingleUrlParameters(name)
    | Pair(name: string, value: string)    // new SingleUrlParameters(name, value)
    | Query(queryParams: QueryParams)
    | Put(putParams: PutParams)
    | Listing(request: ListRequest)

  /** `token != null ? new SingleUrlParameters("token", token) : null`. */
  function TokenParam(token: Option<string>): (p: Option<UrlParam>)
    ensures p.None? <==> token.None?
    ensures token.Some? ==> p == Some(Pair("token", token.value))
  {
    match token
    case None => None
    case Some(t) => Some(Pair("token", t))
  }

  /** The decoder a client passes: a Gson reading into the named type, or `r -> null`. */
  datatype Decoder = Json(target: string) | Discard

  /** The decoder function a Decoder stands for; `json` is Gson's reading (not modelled). */
  function DecoderFunction<T>(d: Decoder, json: Transport.Reader -> Transport.Decoded<T>)
    : (f: Transport.Reader -> Transport.Decoded<T>)
    ensures d.Discard? ==> forall r :: f(r) == Transport.Decoded(None)
    ensures d.Json? ==> f == json
  {
    match d
    case Discard => (r: Transport.Reader) => Transport.Decoded(None)
    case Json(_) => json
  }

  /** A request assembled with `Request.Builder`: endpoint, token (sent by the raw client
      when non-null), URL parameters in the order they were added, and a binary body. */
  datatype Request = Request(endpoint: string, token: Option<string>, params: seq<Option<UrlParam>>,
                             binaryContent: Option<seq<byte>>)

  /** One call to the raw client, in the shape of its three entry points: a GET by endpoint,
      a PUT by endpoint with a text body, or a built Request with its verb. The parameter
      lists keep the nulls a client passes. */
  datatype RawCall =
    | GetCall(endpoint: string, decoder: Decoder, params: seq<Option<UrlParam>>)
    | PutCall(endpoint: string, content: Option<string>, decoder: Decoder, params: seq<Option<UrlParam>>)
    | RequestCall(verb: Transport.Verb, request: Request, decoder: Decoder)

  function VerbOf(c: RawCall): Transport.Verb {
    match c
    case GetCall(_, _, _) => Transport.GET
    case PutCall(_, _, _, _) => Transport.PUT
    case RequestCall(verb, _, _) => verb
  }

  function EndpointOf(c: RawCall): string {
    if c.RequestCall? then c.request.endpoint else c.endpoint
  }

  function ParamsOf(c: RawCall): seq<Option<UrlParam>> {
    if c.RequestCall? then c.request.params else c.params
  }

  function DecoderOf(c: RawCall): Decoder {
    c.decoder
  }

  /** The token a request object carries, for the request objects that have one. */
  function ListRequestToken(r: ListRequest): Option<string> {
    match r
    case HealthChecksForServiceRequest(_) => None
    case HealthServicesRequest(_, _, _, token) => token
    case CatalogNodesRequest(_) => None
    case CatalogServicesRequest(_, token) => token
    case CatalogServiceRequest(_, _, token) => token
  }

  /** The value one URL parameter gives to `name`: a name/value pair of that name, or the
      token of a request object when the name is "token". */
  function ParamValue(p: Option<UrlParam>, name: string): Option<string> {
    match p
    case Some(Pair(n, v)) => if n == name then Some(v) else None
    case Some(Listing(r)) => if name == "token" then ListRequestToken(r) else None
    case _ => None
  }

  /** The value the first parameter that gives one assigns to `name`. */
  function Lookup(params: seq<Option<UrlParam>>, name: string): (v: Option<string>)
    ensures v.None? <==> forall i :: 0 <= i < |params| ==> ParamValue(params[i], name).None?
    ensures v.Some? ==> exists i :: 0 <= i < |params| && ParamValue(params[i], name) == v
  {
    if params == [] then None
    else if ParamValue(params[0], name).Some? then ParamValue(params[0], name)
    else Lookup(params[1..], name)
  }

  /** The value Lookup finds is that of the first parameter that gives one. */
  lemma {:induction false} LookupFindsFirst(params: seq<Option<UrlParam>>, name: string, i: nat)
    requires i < |params| && ParamValue(params[i], name).Some?
    requires forall j :: 0 <= j < i ==> ParamValue(params[j], name).None?
    ensures Lookup(params, name) == ParamValue(params[i], name)
    decreases i
  {
    if i > 0 {
      assert params[1..][i - 1] == params[i];
      assert forall j :: 0 <= j < i - 1 ==> params[1..][j] == params[j + 1];
      LookupFindsFirst(params[1..], name, i - 1);
    }
  }

  /** The token a call sends: the Request's own token, or the "token" URL parameter. */
  function TokenOf(c: RawCall): Option<string> {
    if c.RequestCall? then c.request.token else Lookup(c.params, "token")
  }

  /** `new Response<>(value, httpResponse)`. */
  datatype Response<+T, +C> = Response(value: Option<T>, httpResponse: HttpResponse<C>)

  /** What a client throws. Exceptions from the transport itself pass through unchanged. */
  datatype ClientError<+C> =
    | ConsulException(message: string)
    | OperationException(httpResponse: HttpResponse<C>)
    | NullPointerException     // dereferencing (or unboxing) a null decoded value

  type Outcome<T, C> = Result<Response<T, C>, ClientError<C>>

  /** `"Strange response (list size=" + size + ")"`. */
  function StrangeResponseMessage(size: nat): (m: string)
    ensures m == "Strange response (list size=" + Numerals.Render(size) + ")"
  {
    "Strange response (list size=" + Numerals.Render(size) + ")"
  }

  /** The size can be read back from the message. */
  lemma StrangeResponseMessageNamesSize(size: nat)
    ensures var m := StrangeResponseMessage(size);
            |m| >= 30 && m[28..|m| - 1] == Numerals.Render(size)
    ensures var m := StrangeResponseMessage(size);
            size < TWO_TO_THE_64 ==> Numerals.ParseUnsignedLong(m[28..|m| - 1]) == Some(size)
  {
    var m := StrangeResponseMessage(size);
    var prefix := "Strange response (list size=";
    assert |prefix| == 28;
    assert m == prefix + Numerals.Render(size) + ")";
    assert m[28..|m| - 1] == Numerals.Render(size);
    if size < TWO_TO_THE_64 {
      Numerals.ParseRender(size);
    }
  }

  /** The rule of every plain endpoint: on 200 the decoded content (null included) becomes
      the value, on any other status an OperationException carries the envelope. */
  function OkOrThrow<C>(resp: HttpResponse<C>): (r: Outcome<C, C>)
    ensures r.Success? <==> resp.statusCode == 200
    ensures r.Success? ==> r.value.value == resp.content && r.value.httpResponse == resp
    ensures r.Failure? ==> r.error == OperationException(resp)
  {
    if resp.statusCode == 200 then Success(Response(resp.content, resp))
    else Failure(OperationException(resp))
  }

  /** The rule of the endpoints that return nothing (`Response<Void>`): a null value on
      200, an OperationException otherwise; the decoded content is never looked at. */
  function VoidOnOk<C>(resp: HttpResponse<C>): (r: Outcome<(), C>)
    ensures r.Success? <==> resp.statusCode == 200
    ensures r.Success? ==> r.value == Response(None, resp)
    ensures r.Failure? ==> r.error == OperationException(resp)
  {
    if resp.statusCode == 200 then Success(Response(None, resp))
    else Failure(OperationException(resp))
  }

  /** The list unwrap of a single-value lookup: null for an empty list, the element of a
      one-element list, and a ConsulException naming the size for anything longer. */
  function AtMostOne<E, C>(list: seq<E>, resp: HttpResponse<C>): (r: Outcome<E, C>)
    ensures r.Success? <==> |list| <= 1
    ensures r.Success? ==> r.value.httpResponse == resp
    ensures r.Success? ==> (r.value.value.None? <==> list == [])
    ensures r.Success? && r.value.value.Some? ==> list == [r.value.value.value]
    ensures r.Failure? ==> r.error == ConsulException(StrangeResponseMessage(|list|))
  {
    if |list| == 0 then Success(Response(None, resp))
    else if |list| == 1 then Success(Response(Some(list[0]), resp))
    else Failure(ConsulException(StrangeResponseMessage(|list|)))
  }

  /** What a plain endpoint makes of a transport call that returned an envelope: on 200
      the decoder's value, on any other status an OperationException whose envelope holds
      the body text and no content. */
  lemma OkOrThrowAfterExecute<T>(exchange: Transport.Exchange, supported: string -> bool,
                                 decoder: Transport.Reader -> Transport.Decoded<T>,
                                 readText: (Transport.Entity, Transport.Charset) -> Result<string, string>)
    ensures Transport.ExecuteRequest(exchange, supported, decoder, readText).Success? ==>
            var resp := exchange.response;
            var r := OkOrThrow(Transport.ExecuteRequest(exchange, supported, decoder, readText).value);
            && (resp.statusCode == 200 ==>
                  r.Success? && decoder(Transport.ReaderFor(resp, supported)) == Transport.Decoded(r.value.value))
            && (resp.statusCode != 200 ==>
                  && r.Failure? && r.error.OperationException?
                  && r.error.httpResponse.content.None?
                  && readText(resp.entity, Transport.UTF_8) == Success(r.error.httpResponse.error.value))
  {
  }

  /** A call whose decoder is `r -> null` gets a null content on 200, whatever the body. */
  lemma DiscardedBodyIsNull<T>(exchange: Transport.Exchange, supported: string -> bool,
                               json: Transport.Reader -> Transport.Decoded<T>,
                               readText: (Transport.Entity, Transport.Charset) -> Result<string, string>)
    requires exchange.Received? && exchange.response.statusCode == 200
    ensures var r := Transport.ExecuteRequest(exchange, supported, DecoderFunction(Discard, json), readText);
            r.Success? && r.value.content.None?
  {
  }
}

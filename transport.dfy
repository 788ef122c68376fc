/** The HTTP transport (`AbstractHttpTransport`): it builds a GET, PUT or DELETE request from
    a request descriptor, hands it to the network, and turns the response into an envelope.
    The network exchange, the decoder, the byte-to-text reading of a body and the set of
    charsets the runtime supports are parameters. */
module Transport {
  import opened Base
  import opened Headers
  import opened Envelope

  // ----- connection-pool defaults -----

  const DEFAULT_MAX_CONNECTIONS: nat := 1000
  const DEFAULT_MAX_PER_ROUTE_CONNECTIONS: nat := 500
  /** Ten seconds, in milliseconds. */
  const DEFAULT_CONNECTION_TIMEOUT: nat := 10 * 1000
  /** Ten minutes, in milliseconds: long enough for a blocking query. */
  const DEFAULT_READ_TIMEOUT: nat := 1000 * 60 * 10

  // ----- responses -----

  datatype Charset = Charset(name: string)

  const UTF_8: Charset := Charset("UTF-8")

  /** A parsed `Content-Type` header: a media type and its optional charset parameter
      (section 8.3.2 of RFC 9110). */
  datatype ContentType = ContentType(mimeType: string, charset: Option<string>)

  /** A response body: its declared content type and its bytes. */
  datatype Entity = Entity(contentType: Option<ContentType>, content: seq<byte>)

  datatype RawResponse = RawResponse(statusCode: int, reasonPhrase: string, headers: seq<Header>,
                                     entity: Entity)

  /** What the network gives back for a request: a response, or an I/O failure
      (connection refused, timeout, reset). */
  datatype Exchange = Received(response: RawResponse) | IoFailure(cause: string)

  /** The character stream handed to a decoder. */
  datatype Reader = Reader(content: seq<byte>, charset: Charset)

  /** An exception a decoder may throw. */
  datatype Thrown = IOException(message: string) | RuntimeException(message: string)

  /** What a decoder does with a stream: return a value (possibly null) or throw. */
  datatype Decoded<+T> = Decoded(value: Option<T>) | Threw(exception: Thrown)

  /** How a transport call fails instead of returning an envelope. */
  datatype CallFailure =
    | TransportException(cause: string)   // an IOException anywhere in the exchange
    | Unchecked(message: string)          // a runtime exception, passed on: the decoder's, or the
                                          // IllegalArgumentException of a PUT with no body

  /** `getCharset(entity)`: the charset the content type declares, when the runtime supports
      it; UTF-8 when there is no content type, no charset parameter, or an unsupported one. */
  function GetCharset(entity: Entity, supported: string -> bool): (c: Charset)
    ensures entity.contentType.None? ==> c == UTF_8
    ensures entity.contentType.Some? && entity.contentType.value.charset.None? ==> c == UTF_8
    ensures entity.contentType.Some? && entity.contentType.value.charset.Some? ==>
              var name := entity.contentType.value.charset.value;
              c == if supported(name) then Charset(name) else UTF_8
  {
    match entity.contentType
    case None => UTF_8
    case Some(ct) =>
      match ct.charset
      case None => UTF_8
      case Some(name) => if supported(name) then Charset(name) else UTF_8
  }

  /** The decoder always reads in a charset the runtime supports (UTF-8 always is). */
  lemma CharsetIsSupported(entity: Entity, supported: string -> bool)
    requires supported(UTF_8.name)
    ensures supported(GetCharset(entity, supported).name)
    ensures GetCharset(entity, supported) == UTF_8
            || (entity.contentType.Some? && entity.contentType.value.charset == Some(GetCharset(entity, supported).name))
  {
  }

  /** The stream the decoder of a 200 response reads: the body's bytes, in the charset
      that GetCharset picks, which is one the runtime supports whenever UTF-8 is. */
  function ReaderFor(response: RawResponse, supported: string -> bool): (r: Reader)
    ensures r.content == response.entity.content
    ensures r.charset != UTF_8 ==>
              response.entity.contentType.Some? && response.entity.contentType.value.charset == Some(r.charset.name)
    ensures supported(UTF_8.name) ==> supported(r.charset.name)
  {
    Reader(response.entity.content, GetCharset(response.entity, supported))
  }

  /** The envelope-building half of `executeRequest`; `readText` stands for
      `EntityUtils.toString(entity, defaultCharset)`, which reads in the charset the entity
      declares and in the default charset (UTF-8 here) otherwise, and can fail with an
      IOException. */
  function ExecuteRequest<T>(exchange: Exchange, supported: string -> bool,
                             decoder: Reader -> Decoded<T>,
                             readText: (Entity, Charset) -> Result<string, string>)
    : (r: Result<HttpResponse<T>, CallFailure>)
    ensures exchange.IoFailure? ==> r == Failure(TransportException(exchange.cause))
    ensures r.Success? ==>
              var resp := exchange.response;
              var meta := ReadMetadata(resp.headers);
              && exchange.Received?
              && r.value.statusCode == resp.statusCode
              && r.value.statusMessage == resp.reasonPhrase
              && r.value.consulIndex == meta.consulIndex
              && r.value.consulKnownLeader == meta.consulKnownLeader
              && r.value.consulLastContact == meta.consulLastContact
    ensures exchange.Received? && exchange.response.statusCode == 200 ==>
              match decoder(ReaderFor(exchange.response, supported))
              case Decoded(v) => r.Success? && r.value.content == v && r.value.error.None?
              case Threw(IOException(m)) => r == Failure(TransportException(m))
              case Threw(RuntimeException(m)) => r == Failure(Unchecked(m))
    ensures exchange.Received? && exchange.response.statusCode != 200 ==>
              match readText(exchange.response.entity, UTF_8)
              case Success(text) => r.Success? && r.value.content.None? && r.value.error == Some(text)
              case Failure(m) => r == Failure(TransportException(m))
  {
    match exchange
    case IoFailure(cause) => Failure(TransportException(cause))
    case Received(resp) =>
      var meta := ReadMetadata(resp.headers);
      if resp.statusCode == 200 then
        match decoder(ReaderFor(resp, supported))
        case Decoded(v) =>
          Success(WithContent(resp.statusCode, resp.reasonPhrase, v, meta.consulIndex,
                              meta.consulKnownLeader, meta.consulLastContact))
        case Threw(IOException(m)) => Failure(TransportException(m))
        case Threw(RuntimeException(m)) => Failure(Unchecked(m))
      else
        match readText(resp.entity, UTF_8)
        case Success(text) =>
          Success(WithError(resp.statusCode, resp.reasonPhrase, meta.consulIndex,
                            meta.consulKnownLeader, meta.consulLastContact, text))
        case Failure(m) => Failure(TransportException(m))
  }

  /** A returned envelope has content or error according to its status, never both. */
  lemma EnvelopeMatchesStatus<T>(exchange: Exchange, supported: string -> bool,
                                 decoder: Reader -> Decoded<T>,
                                 readText: (Entity, Charset) -> Result<string, string>)
    requires ExecuteRequest(exchange, supported, decoder, readText).Success?
    ensures var e := ExecuteRequest(exchange, supported, decoder, readText).value;
            (e.statusCode == 200 ==> e.error.None?) &&
            (e.statusCode != 200 ==> e.content.None? && e.error.Some?)
  {
  }

  /** The decoder is never consulted for a status other than 200: any two decoders give
      the same outcome. */
  lemma DecoderUnusedOnFailure<T>(exchange: Exchange, supported: string -> bool,
                                  d1: Reader -> Decoded<T>, d2: Reader -> Decoded<T>,
                                  readText: (Entity, Charset) -> Result<string, string>)
    requires exchange.Received? && exchange.response.statusCode != 200
    ensures ExecuteRequest(exchange, supported, d1, readText) == ExecuteRequest(exchange, supported, d2, readText)
  {
  }

  /** On status 200 the body is never read as error text: any two text readers give the
      same outcome. */
  lemma TextUnusedOnSuccess<T>(exchange: Exchange, supported: string -> bool,
                               decoder: Reader -> Decoded<T>,
                               t1: (Entity, Charset) -> Result<string, string>,
                               t2: (Entity, Charset) -> Result<string, string>)
    requires exchange.Received? && exchange.response.statusCode == 200
    ensures ExecuteRequest(exchange, supported, decoder, t1) == ExecuteRequest(exchange, supported, decoder, t2)
  {
  }

  /** The metadata are read before the status branch: success and failure envelopes for the
      same headers carry the same values. */
  lemma MetadataIndependentOfStatus<T>(r1: RawResponse, r2: RawResponse, supported: string -> bool,
                                       decoder: Reader -> Decoded<T>,
                                       readText: (Entity, Charset) -> Result<string, string>)
    requires r1.headers == r2.headers
    requires ExecuteRequest(Received(r1), supported, decoder, readText).Success?
    requires ExecuteRequest(Received(r2), supported, decoder, readText).Success?
    ensures var e1 := ExecuteRequest(Received(r1), supported, decoder, readText).value;
            var e2 := ExecuteRequest(Received(r2), supported, decoder, readText).value;
            (e1.consulIndex, e1.consulKnownLeader, e1.consulLastContact)
              == (e2.consulIndex, e2.consulKnownLeader, e2.consulLastContact)
  {
  }

  /** A GET answered 200 with body `{"ok":true}` and headers announcing index 100, a known
      leader and last contact 0 gives the decoded content with exactly those metadata. */
  lemma SuccessScenario<T>(body: seq<byte>, value: T, supported: string -> bool,
                           decoder: Reader -> Decoded<T>,
                           readText: (Entity, Charset) -> Result<string, string>)
    requires decoder(Reader(body, UTF_8)) == Decoded(Some(value))
    ensures var headers := [Header(INDEX_HEADER, Some("100")), Header(KNOWN_LEADER_HEADER, Some("true")),
                            Header(LAST_CONTACT_HEADER, Some("0"))];
            ExecuteRequest(Received(RawResponse(200, "OK", headers, Entity(None, body))), supported, decoder, readText)
              == Success(HttpResponse(200, "OK", Some(value), Some(100), Some(true), Some(0), None))
  {
    var m := Metadata(Some(100), Some(true), Some(0));
    assert Numerals.Render(100) == "100" by {
      assert Numerals.Render(10) == "10";
    }
    assert MetadataHeaders(m) == [Header(INDEX_HEADER, Some("100")), Header(KNOWN_LEADER_HEADER, Some("true")),
                                  Header(LAST_CONTACT_HEADER, Some("0"))];
    MetadataRoundTrip(m);
  }

  /** A call answered 500 with body text "internal error" and no metadata headers gives a
      failure envelope holding exactly that text, with nothing set. */
  lemma FailureScenario<T>(body: seq<byte>, supported: string -> bool,
                           decoder: Reader -> Decoded<T>,
                           readText: (Entity, Charset) -> Result<string, string>)
    requires readText(Entity(None, body), UTF_8) == Success("internal error")
    ensures ExecuteRequest(Received(RawResponse(500, "Internal Server Error", [], Entity(None, body))),
                           supported, decoder, readText)
              == Success(HttpResponse(500, "Internal Server Error", None, None, None, None, Some("internal error")))
  {
  }

  // ----- requests -----

  datatype Verb = GET | PUT | DELETE

  /** The request descriptor a caller hands to the transport (`HttpRequest`): a URL with
      its query string, a header map (null allowed), and a text or binary body. */
  datatype HttpRequest = HttpRequest(url: string, headers: Option<map<string, Option<string>>>,
                                     content: Option<string>, binaryContent: Option<seq<byte>>)

  /** The body attached to a PUT (`StringEntity` or `ByteArrayEntity`). */
  datatype RequestEntity = StringEntity(text: string, charset: Charset) | ByteArrayEntity(bytes: seq<byte>)

  /** What `new ByteArrayEntity(null)` throws (an IllegalArgumentException of httpcore). */
  const NULL_BYTE_ARRAY_MESSAGE: string := "Source byte array may not be null"

  /** A built request as it goes out to the network. */
  datatype SentRequest = SentRequest(verb: Verb, uri: string, headers: seq<Header>, entity: Option<RequestEntity>)

  /** The library's mutable request object (`HttpGet`, `HttpPut`, `HttpDelete`). */
  class HttpRequestBase {
    const verb: Verb
    const uri: string
    var headers: seq<Header>
    var entity: Option<RequestEntity>

    constructor (verb: Verb, uri: string)
      ensures this.verb == verb && this.uri == uri
      ensures headers == [] && entity.None?
    {
      this.verb := verb;
      this.uri := uri;
      headers := [];
      entity := None;
    }

    /** `addHeader(name, value)`: appends a header and keeps the rest. */
    method AddHeader(name: string, value: Option<string>)
      modifies this
      ensures headers == old(headers) + [Header(name, value)]
      ensures entity == old(entity)
    {
      headers := headers + [Header(name, value)];
    }

    /** `setEntity(body)`: replaces the body and keeps the headers. */
    method SetEntity(e: RequestEntity)
      modifies this
      ensures entity == Some(e)
      ensures headers == old(headers)
    {
      entity := Some(e);
    }

    function Snapshot(): (s: SentRequest)
      reads this
    {
      SentRequest(verb, uri, headers, entity)
    }
  }

  /** `added` holds each entry of the map exactly once, name and value verbatim, in some
      order (a hash map's iteration order is unspecified). */
  ghost predicate EachEntryOnce(added: seq<Header>, m: map<string, Option<string>>) {
    && |added| == |m|
    && (forall i :: 0 <= i < |added| ==> added[i].name in m && added[i].value == m[added[i].name])
    && (forall i, j :: 0 <= i < j < |added| ==> added[i].name != added[j].name)
    && (forall k :: k in m ==> exists i :: 0 <= i < |added| && added[i].name == k)
  }

  /** The headers a descriptor's map contributes: none for a null map. */
  ghost predicate HeadersFrom(added: seq<Header>, headers: Option<map<string, Option<string>>>) {
    match headers
    case None => added == []
    case Some(m) => EachEntryOnce(added, m)
  }

  /** `addHeadersToRequest(request, headers)`: nothing for a null map; otherwise one
      `addHeader` per map entry. */
  method AddHeadersToRequest(request: HttpRequestBase, headers: Option<map<string, Option<string>>>)
    modifies request
    ensures request.entity == old(request.entity)
    ensures |request.headers| >= |old(request.headers)|
    ensures request.headers[..|old(request.headers)|] == old(request.headers)
    ensures HeadersFrom(request.headers[|old(request.headers)|..], headers)
  {
    var before := request.headers;
    if headers.None? {
      assert request.headers[|before|..] == [];
      return;
    }
    var m := headers.value;
    var remaining := m.Keys;
    while remaining != {}
      invariant remaining <= m.Keys
      invariant request.entity == old(request.entity)
      invariant |request.headers| >= |before| && request.headers[..|before|] == before
      invariant var added := request.headers[|before|..];
                && |added| + |remaining| == |m|
                && (forall i :: 0 <= i < |added| ==>
                      added[i].name in m && added[i].name !in remaining && added[i].value == m[added[i].name])
                && (forall i, j :: 0 <= i < j < |added| ==> added[i].name != added[j].name)
                && (forall k :: k in m && k !in remaining ==> exists i :: 0 <= i < |added| && added[i].name == k)
      decreases remaining
    {
      var name :| name in remaining;
      ghost var prior := request.headers[|before|..];
      request.AddHeader(name, m[name]);
      ghost var added := request.headers[|before|..];
      assert added == prior + [Header(name, m[name])];
      assert added[|prior|].name == name;
      forall k | k in m && k !in remaining - {name}
        ensures exists i :: 0 <= i < |added| && added[i].name == k
      {
        if k != name {
          var i :| 0 <= i < |prior| && prior[i].name == k;
          assert added[i].name == k;
        }
      }
      remaining := remaining - {name};
    }
  }

  /** The body `makePutRequest` attaches: the text, as UTF-8, whenever there is one; the
      binary content only when the text is null; none at all when both are null, where
      `new ByteArrayEntity(null)` throws instead of building an entity. */
  function PutEntity(request: HttpRequest): (e: Option<RequestEntity>)
    ensures e.None? <==> request.content.None? && request.binaryContent.None?
    ensures request.content.Some? ==> e == Some(StringEntity(request.content.value, UTF_8))
    ensures request.content.None? && request.binaryContent.Some? ==>
              e == Some(ByteArrayEntity(request.binaryContent.value))
  {
    if request.content.Some? then Some(StringEntity(request.content.value, UTF_8))
    else if request.binaryContent.Some? then Some(ByteArrayEntity(request.binaryContent.value))
    else None
  }

  /** The text body wins whatever binary content comes with it. */
  lemma TextBodyPreferred(url: string, headers: Option<map<string, Option<string>>>, text: string,
                          b1: Option<seq<byte>>, b2: Option<seq<byte>>)
    ensures PutEntity(HttpRequest(url, headers, Some(text), b1)) == PutEntity(HttpRequest(url, headers, Some(text), b2))
  {
  }

  /** Builds the request, adds the descriptor's headers, attaches the body if any, and
      executes it. Returns the request as sent with the outcome. */
  method Send<T>(verb: Verb, request: HttpRequest, body: Option<RequestEntity>,
                 network: SentRequest -> Exchange, supported: string -> bool,
                 decoder: Reader -> Decoded<T>, readText: (Entity, Charset) -> Result<string, string>)
    returns (sent: SentRequest, r: Result<HttpResponse<T>, CallFailure>)
    ensures sent.verb == verb && sent.uri == request.url && sent.entity == body
    ensures HeadersFrom(sent.headers, request.headers)
    ensures r == ExecuteRequest(network(sent), supported, decoder, readText)
  {
    var httpRequest := new HttpRequestBase(verb, request.url);
    AddHeadersToRequest(httpRequest, request.headers);
    if body.Some? {
      httpRequest.SetEntity(body.value);
    }
    sent := httpRequest.Snapshot();
    assert sent.headers == sent.headers[0..];
    r := ExecuteRequest(network(sent), supported, decoder, readText);
  }

  /** `makeGetRequest`: a GET with the descriptor's URL and headers and no body. */
  method MakeGetRequest<T>(request: HttpRequest, network: SentRequest -> Exchange, supported: string -> bool,
                           decoder: Reader -> Decoded<T>, readText: (Entity, Charset) -> Result<string, string>)
    returns (sent: SentRequest, r: Result<HttpResponse<T>, CallFailure>)
    ensures sent.verb == GET && sent.uri == request.url && sent.entity.None?
    ensures HeadersFrom(sent.headers, request.headers)
    ensures r == ExecuteRequest(network(sent), supported, decoder, readText)
  {
    sent, r := Send(GET, request, None, network, supported, decoder, readText);
  }

  /** `makePutRequest`: a PUT with the descriptor's URL and headers and the body PutEntity
      picks. With neither a text nor a binary body, building the entity throws and nothing
      is sent (`sent` is None). */
  method MakePutRequest<T>(request: HttpRequest, network: SentRequest -> Exchange, supported: string -> bool,
                           decoder: Reader -> Decoded<T>, readText: (Entity, Charset) -> Result<string, string>)
    returns (sent: Option<SentRequest>, r: Result<HttpResponse<T>, CallFailure>)
    ensures sent.None? <==> request.content.None? && request.binaryContent.None?
    ensures sent.None? ==> r == Failure(Unchecked(NULL_BYTE_ARRAY_MESSAGE))
    ensures sent.Some? ==>
              && sent.value.verb == PUT && sent.value.uri == request.url
              && (request.content.Some? ==> sent.value.entity == Some(StringEntity(request.content.value, UTF_8)))
              && (request.content.None? ==> sent.value.entity == Some(ByteArrayEntity(request.binaryContent.value)))
              && HeadersFrom(sent.value.headers, request.headers)
              && r == ExecuteRequest(network(sent.value), supported, decoder, readText)
  {
    var body := PutEntity(request);
    if body.None? {
      sent := None;
      r := Failure(Unchecked(NULL_BYTE_ARRAY_MESSAGE));
      return;
    }
    var s;
    s, r := Send(PUT, request, body, network, supported, decoder, readText);
    sent := Some(s);
  }

  /** `makeDeleteRequest`: a DELETE with the descriptor's URL and headers and no body. */
  method MakeDeleteRequest<T>(request: HttpRequest, network: SentRequest -> Exchange, supported: string -> bool,
                              decoder: Reader -> Decoded<T>, readText: (Entity, Charset) -> Result<string, string>)
    returns (sent: SentRequest, r: Result<HttpResponse<T>, CallFailure>)
    ensures sent.verb == DELETE && sent.uri == request.url && sent.entity.None?
    ensures HeadersFrom(sent.headers, request.headers)
    ensures r == ExecuteRequest(network(sent), supported, decoder, readText)
  {
    sent, r := Send(DELETE, request, None, network, supported, decoder, readText);
  }
}

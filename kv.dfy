/** The key/value store client (`KeyValueConsulClient`): what each operation sends to the raw
    client and what it makes of the envelope that comes back. A missing key (status 404) is
    an empty answer for the reads and an error for the writes and deletes. */
module KeyValue {
  import opened Base
  import opened Envelope
  import opened ClientApi
  import Transport

  const KV_PATH: string := "/v1/kv/"

  /** The argument lists of the read and delete overloads (getKVValue, getKVBinaryValue,
      getKVValues, getKVBinaryValues, deleteKVValue, deleteKVValues) after the key. */
  datatype ReadArgs =
    | ByKey
    | WithToken(token: Option<string>)
    | WithQuery(queryParams: QueryParams)
    | WithTokenAndQuery(token: Option<string>, queryParams: QueryParams)

  /** Overload forwarding: `(key)` calls `(key, DEFAULT)`, `(key, token)` calls
      `(key, token, DEFAULT)` and `(key, queryParams)` calls `(key, null, queryParams)`. */
  function Forward(a: ReadArgs): (f: ReadArgs)
    ensures f.WithTokenAndQuery?
    ensures f.token == if a.WithToken? || a.WithTokenAndQuery? then a.token else None
    ensures f.queryParams == if a.WithQuery? || a.WithTokenAndQuery? then a.queryParams else DEFAULT_QUERY_PARAMS
    decreases if a.ByKey? then 1 else 0
  {
    match a
    case ByKey => Forward(WithQuery(DEFAULT_QUERY_PARAMS))
    case WithToken(t) => WithTokenAndQuery(t, DEFAULT_QUERY_PARAMS)
    case WithQuery(q) => WithTokenAndQuery(None, q)
    case WithTokenAndQuery(_, _) => a
  }

  /** The argument lists of getKVKeysOnly after the key prefix. */
  datatype KeysArgs =
    | KeysByPrefix
    | KeysWithSeparatorAndToken(separator: Option<string>, token: Option<string>)
    | KeysWithQuery(queryParams: QueryParams)
    | KeysFull(separator: Option<string>, token: Option<string>, queryParams: QueryParams)

  /** `(prefix)` calls `(prefix, DEFAULT)`, `(prefix, separator, token)` calls
      `(prefix, separator, token, DEFAULT)` and `(prefix, queryParams)` calls
      `(prefix, null, null, queryParams)`. */
  function ForwardKeys(a: KeysArgs): (f: KeysArgs)
    ensures f.KeysFull?
    ensures f.separator == if a.KeysWithSeparatorAndToken? || a.KeysFull? then a.separator else None
    ensures f.token == if a.KeysWithSeparatorAndToken? || a.KeysFull? then a.token else None
    ensures f.queryParams == if a.KeysWithQuery? || a.KeysFull? then a.queryParams else DEFAULT_QUERY_PARAMS
    decreases if a.KeysByPrefix? then 1 else 0
  {
    match a
    case KeysByPrefix => ForwardKeys(KeysWithQuery(DEFAULT_QUERY_PARAMS))
    case KeysWithSeparatorAndToken(s, t) => KeysFull(s, t, DEFAULT_QUERY_PARAMS)
    case KeysWithQuery(q) => KeysFull(None, None, q)
    case KeysFull(_, _, _) => a
  }

  /** The argument lists of setKVValue and setKVBinaryValue after the key and value. */
  datatype PutArgs =
    | PutPlain
    | PutWithParams(putParams: Option<PutParams>)
    | PutWithTokenAndParams(token: Option<string>, putParams: Option<PutParams>)
    | PutWithQuery(queryParams: QueryParams)
    | PutWithParamsAndQuery(putParams: Option<PutParams>, queryParams: QueryParams)
    | PutFull(token: Option<string>, putParams: Option<PutParams>, queryParams: QueryParams)

  /** `(k, v)` calls `(k, v, DEFAULT)`; `(k, v, putParams)` calls `(k, v, putParams, DEFAULT)`;
      `(k, v, token, putParams)` calls `(k, v, token, putParams, DEFAULT)`; `(k, v, queryParams)`
      calls `(k, v, null, null, queryParams)`; `(k, v, putParams, queryParams)` calls
      `(k, v, null, putParams, queryParams)`. */
  function ForwardPut(a: PutArgs): (f: PutArgs)
    ensures f.PutFull?
    ensures f.token == if a.PutWithTokenAndParams? || a.PutFull? then a.token else None
    ensures f.putParams == if a.PutPlain? || a.PutWithQuery? then None else a.putParams
    ensures f.queryParams ==
              if a.PutWithQuery? || a.PutWithParamsAndQuery? || a.PutFull? then a.queryParams
              else DEFAULT_QUERY_PARAMS
    decreases if a.PutPlain? || a.PutWithParams? then 1 else 0
  {
    match a
    case PutPlain => ForwardPut(PutWithQuery(DEFAULT_QUERY_PARAMS))
    case PutWithParams(p) => ForwardPut(PutWithParamsAndQuery(p, DEFAULT_QUERY_PARAMS))
    case PutWithTokenAndParams(t, p) => PutFull(t, p, DEFAULT_QUERY_PARAMS)
    case PutWithQuery(q) => PutFull(None, None, q)
    case PutWithParamsAndQuery(p, q) => PutFull(None, p, q)
    case PutFull(_, _, _) => a
  }

  function PutParam(p: Option<PutParams>): Option<UrlParam> {
    if p.Some? then Some(Put(p.value)) else None
  }

  function SeparatorParam(separator: Option<string>): Option<UrlParam> {
    if separator.Some? then Some(Pair("separator", separator.value)) else None
  }

  // ---------------------------------------------------------------- the calls

  /** `getKVValue(key, token, queryParams)`: a GET of the key's path decoded as a list of
      values, without `recurse`. */
  function GetKVValueCall(key: string, a: ReadArgs): (c: RawCall)
    ensures VerbOf(c) == Transport.GET && EndpointOf(c) == KV_PATH + key && EndpointOf(c)[|KV_PATH|..] == key
    ensures DecoderOf(c) == Json("List<GetValue>")
    ensures Some(Query(Forward(a).queryParams)) in ParamsOf(c) && Some(Flag("recurse")) !in ParamsOf(c)
  {
    var f := Forward(a);
    GetCall(KV_PATH + key, Json("List<GetValue>"), [TokenParam(f.token), Some(Query(f.queryParams))])
  }

  /** `getKVBinaryValue(key, token, queryParams)`: the same GET, decoded as binary values. */
  function GetKVBinaryValueCall(key: string, a: ReadArgs): (c: RawCall)
    ensures VerbOf(c) == Transport.GET && EndpointOf(c) == KV_PATH + key && EndpointOf(c)[|KV_PATH|..] == key
    ensures DecoderOf(c) == Json("List<GetBinaryValue>")
    ensures Some(Query(Forward(a).queryParams)) in ParamsOf(c) && Some(Flag("recurse")) !in ParamsOf(c)
  {
    var f := Forward(a);
    GetCall(KV_PATH + key, Json("List<GetBinaryValue>"), [TokenParam(f.token), Some(Query(f.queryParams))])
  }

  /** `getKVValues(keyPrefix, token, queryParams)`: a GET of the prefix's whole subtree. */
  function GetKVValuesCall(keyPrefix: string, a: ReadArgs): (c: RawCall)
    ensures VerbOf(c) == Transport.GET && EndpointOf(c) == KV_PATH + keyPrefix
    ensures EndpointOf(c)[|KV_PATH|..] == keyPrefix
    ensures DecoderOf(c) == Json("List<GetValue>")
    ensures Some(Query(Forward(a).queryParams)) in ParamsOf(c) && Some(Flag("recurse")) in ParamsOf(c)
  {
    var f := Forward(a);
    GetCall(KV_PATH + keyPrefix, Json("List<GetValue>"),
            [Some(Flag("recurse")), TokenParam(f.token), Some(Query(f.queryParams))])
  }

  /** `getKVBinaryValues(keyPrefix, token, queryParams)`: the subtree, as binary values. */
  function GetKVBinaryValuesCall(keyPrefix: string, a: ReadArgs): (c: RawCall)
    ensures VerbOf(c) == Transport.GET && EndpointOf(c) == KV_PATH + keyPrefix
    ensures EndpointOf(c)[|KV_PATH|..] == keyPrefix
    ensures DecoderOf(c) == Json("List<GetBinaryValue>")
    ensures Some(Query(Forward(a).queryParams)) in ParamsOf(c) && Some(Flag("recurse")) in ParamsOf(c)
  {
    var f := Forward(a);
    GetCall(KV_PATH + keyPrefix, Json("List<GetBinaryValue>"),
            [Some(Flag("recurse")), TokenParam(f.token), Some(Query(f.queryParams))])
  }

  /** `getKVKeysOnly(keyPrefix, separator, token, queryParams)`: a GET of the prefix asking
      for key names only. */
  function GetKVKeysOnlyCall(keyPrefix: string, a: KeysArgs): (c: RawCall)
    ensures VerbOf(c) == Transport.GET && EndpointOf(c) == KV_PATH + keyPrefix
    ensures EndpointOf(c)[|KV_PATH|..] == keyPrefix
    ensures DecoderOf(c) == Json("List<String>")
    ensures Some(Flag("keys")) in ParamsOf(c) && Some(Query(ForwardKeys(a).queryParams)) in ParamsOf(c)
    ensures Some(Flag("recurse")) !in ParamsOf(c)
  {
    var f := ForwardKeys(a);
    GetCall(KV_PATH + keyPrefix, Json("List<String>"),
            [Some(Flag("keys")), SeparatorParam(f.separator), TokenParam(f.token), Some(Query(f.queryParams))])
  }

  /** `setKVValue(key, value, token, putParams, queryParams)`: a PUT of the text value, as
      given (null included), to the key's path, answered with a flag. */
  function SetKVValueCall(key: string, value: Option<string>, a: PutArgs): (c: RawCall)
    ensures c.PutCall? && c.content == value
    ensures VerbOf(c) == Transport.PUT && EndpointOf(c) == KV_PATH + key && EndpointOf(c)[|KV_PATH|..] == key
    ensures DecoderOf(c) == Json("Boolean")
    ensures Some(Query(ForwardPut(a).queryParams)) in ParamsOf(c)
  {
    var f := ForwardPut(a);
    PutCall(KV_PATH + key, value, Json("Boolean"),
            [PutParam(f.putParams), TokenParam(f.token), Some(Query(f.queryParams))])
  }

  /** `setKVBinaryValue(key, value, token, putParams, queryParams)`: a PUT of the bytes, as
      given (null included), in a built request that carries the token. */
  function SetKVBinaryValueCall(key: string, value: Option<seq<byte>>, a: PutArgs): (c: RawCall)
    ensures c.RequestCall? && c.request.binaryContent == value
    ensures VerbOf(c) == Transport.PUT && EndpointOf(c) == KV_PATH + key && EndpointOf(c)[|KV_PATH|..] == key
    ensures DecoderOf(c) == Json("Boolean") && TokenOf(c) == ForwardPut(a).token
    ensures Some(Query(ForwardPut(a).queryParams)) in ParamsOf(c)
  {
    var f := ForwardPut(a);
    RequestCall(Transport.PUT,
                Request(KV_PATH + key, f.token, [Some(Query(f.queryParams)), PutParam(f.putParams)], value),
                Json("Boolean"))
  }

  /** `deleteKVValue(key, token, queryParams)`: a DELETE of the key alone; the body is ignored. */
  function DeleteKVValueCall(key: string, a: ReadArgs): (c: RawCall)
    ensures VerbOf(c) == Transport.DELETE && EndpointOf(c) == KV_PATH + key && EndpointOf(c)[|KV_PATH|..] == key
    ensures DecoderOf(c) == Discard && TokenOf(c) == Forward(a).token
    ensures c.RequestCall? && c.request.binaryContent.None?
    ensures Some(Query(Forward(a).queryParams)) in ParamsOf(c) && Some(Flag("recurse")) !in ParamsOf(c)
  {
    var f := Forward(a);
    RequestCall(Transport.DELETE, Request(KV_PATH + key, f.token, [Some(Query(f.queryParams))], None), Discard)
  }

  /** `deleteKVValues(key, token, queryParams)`: a DELETE of the key's whole subtree. */
  function DeleteKVValuesCall(key: string, a: ReadArgs): (c: RawCall)
    ensures VerbOf(c) == Transport.DELETE && EndpointOf(c) == KV_PATH + key && EndpointOf(c)[|KV_PATH|..] == key
    ensures DecoderOf(c) == Discard && TokenOf(c) == Forward(a).token
    ensures c.RequestCall? && c.request.binaryContent.None?
    ensures Some(Query(Forward(a).queryParams)) in ParamsOf(c) && Some(Flag("recurse")) in ParamsOf(c)
  {
    var f := Forward(a);
    RequestCall(Transport.DELETE,
                Request(KV_PATH + key, f.token, [Some(Flag("recurse")), Some(Query(f.queryParams))], None),
                Discard)
  }

  /** What every key/value call addresses and authenticates with. */
  predicate Sends(c: RawCall, verb: Transport.Verb, key: string, token: Option<string>, queryParams: QueryParams) {
    && VerbOf(c) == verb
    && EndpointOf(c) == KV_PATH + key
    && TokenOf(c) == token
    && Some(Query(queryParams)) in ParamsOf(c)
  }

  /** The reads GET the key's path with the caller's token (none when it is null) and query
      parameters. The binary reads send the text reads' call with another decoder, the list
      reads add `recurse` in front of the single reads' parameters, and an overload sends
      the same call as the full form it forwards to. */
  lemma ReadCallsAddressTheKey(key: string, a: ReadArgs)
    ensures Sends(GetKVValueCall(key, a), Transport.GET, key, Forward(a).token, Forward(a).queryParams)
    ensures Sends(GetKVValuesCall(key, a), Transport.GET, key, Forward(a).token, Forward(a).queryParams)
    ensures GetKVBinaryValueCall(key, a)
            == GetCall(EndpointOf(GetKVValueCall(key, a)), Json("List<GetBinaryValue>"), ParamsOf(GetKVValueCall(key, a)))
    ensures GetKVBinaryValuesCall(key, a)
            == GetCall(EndpointOf(GetKVValuesCall(key, a)), Json("List<GetBinaryValue>"), ParamsOf(GetKVValuesCall(key, a)))
    ensures ParamsOf(GetKVValuesCall(key, a)) == [Some(Flag("recurse"))] + ParamsOf(GetKVValueCall(key, a))
    ensures GetKVValueCall(key, a) == GetKVValueCall(key, Forward(a))
    ensures GetKVValuesCall(key, a) == GetKVValuesCall(key, Forward(a))
  {
    if Forward(a).token.Some? {
      LookupFindsFirst(ParamsOf(GetKVValuesCall(key, a)), "token", 1);
    }
  }

  /** The keys-only listing always asks for keys, and names a separator and a token only
      when they are non-null. */
  lemma KeysOnlyParameters(keyPrefix: string, a: KeysArgs)
    ensures var c := GetKVKeysOnlyCall(keyPrefix, a);
            && Sends(c, Transport.GET, keyPrefix, ForwardKeys(a).token, ForwardKeys(a).queryParams)
            && Some(Flag("keys")) in ParamsOf(c)
            && Lookup(ParamsOf(c), "separator") == ForwardKeys(a).separator
  {
    var c := GetKVKeysOnlyCall(keyPrefix, a);
    var ps := ParamsOf(c);
    assert |ps| == 4;
    assert ParamValue(ps[0], "token").None? && ParamValue(ps[0], "separator").None?;
    assert ParamValue(ps[1], "token").None?;
    assert ParamValue(ps[2], "separator").None?;
    assert ParamValue(ps[3], "token").None? && ParamValue(ps[3], "separator").None?;
    if ForwardKeys(a).token.Some? {
      LookupFindsFirst(ps, "token", 2);
    }
    if ForwardKeys(a).separator.Some? {
      LookupFindsFirst(ps, "separator", 1);
    }
  }

  /** The writes PUT the value as given to the key's path; the text write passes the put
      options as a URL parameter exactly when they are non-null, and the binary write puts
      the bytes in a built request. */
  lemma WriteCallsCarryTheValue(key: string, value: Option<string>, bytes: Option<seq<byte>>, a: PutArgs)
    ensures var c := SetKVValueCall(key, value, a);
            && Sends(c, Transport.PUT, key, ForwardPut(a).token, ForwardPut(a).queryParams)
            && c.PutCall? && c.content == value
            && (forall p :: Some(Put(p)) in ParamsOf(c) <==> ForwardPut(a).putParams == Some(p))
    ensures var c := SetKVBinaryValueCall(key, bytes, a);
            && Sends(c, Transport.PUT, key, ForwardPut(a).token, ForwardPut(a).queryParams)
            && c.RequestCall? && c.request.binaryContent == bytes
            && (forall p :: Some(Put(p)) in ParamsOf(c) <==> ForwardPut(a).putParams == Some(p))
  {
    if ForwardPut(a).token.Some? {
      LookupFindsFirst(ParamsOf(SetKVValueCall(key, value, a)), "token", 1);
    }
  }

  /** The deletes send DELETE to the key's path with the caller's token and query
      parameters; the subtree delete adds `recurse` in front of the single delete's
      parameters and otherwise sends the same request. */
  lemma DeleteCallsAddressTheKey(key: string, a: ReadArgs)
    ensures Sends(DeleteKVValueCall(key, a), Transport.DELETE, key, Forward(a).token, Forward(a).queryParams)
    ensures Sends(DeleteKVValuesCall(key, a), Transport.DELETE, key, Forward(a).token, Forward(a).queryParams)
    ensures ParamsOf(DeleteKVValuesCall(key, a)) == [Some(Flag("recurse"))] + ParamsOf(DeleteKVValueCall(key, a))
    ensures DeleteKVValuesCall(key, a)
            == RequestCall(Transport.DELETE,
                           DeleteKVValueCall(key, a).request.(params := ParamsOf(DeleteKVValuesCall(key, a))), Discard)
  {
  }

  // ---------------------------------------------------------------- the answers

  /** getKVValue and getKVBinaryValue: on 200 the list is unwrapped (a null list cannot be
      sized), on 404 the value is null, on any other status an OperationException. */
  function SingleValueResult<E>(resp: HttpResponse<seq<E>>): (r: Outcome<E, seq<E>>)
    ensures r.Success? <==>
              || resp.statusCode == 404
              || (resp.statusCode == 200 && resp.content.Some? && |resp.content.value| <= 1)
    ensures r.Success? ==> r.value.httpResponse == resp
    ensures r.Success? && r.value.value.Some? ==>
              resp.statusCode == 200 && resp.content == Some([r.value.value.value])
    ensures resp.statusCode == 200 && resp.content.None? ==> r == Failure(NullPointerException)
    ensures resp.statusCode == 200 && resp.content.Some? && |resp.content.value| > 1 ==>
              r == Failure(ConsulException(StrangeResponseMessage(|resp.content.value|)))
    ensures resp.statusCode != 200 && resp.statusCode != 404 ==> r == Failure(OperationException(resp))
  {
    if resp.statusCode == 200 then
      match resp.content
      case None => Failure(NullPointerException)
      case Some(list) => AtMostOne(list, resp)
    else if resp.statusCode == 404 then Success(Response(None, resp))
    else Failure(OperationException(resp))
  }

  /** getKVValues, getKVBinaryValues and getKVKeysOnly: the whole decoded content on 200, null
      on 404, an OperationException on any other status. */
  function ListResult<L>(resp: HttpResponse<L>): (r: Outcome<L, L>)
    ensures r.Success? <==> resp.statusCode == 200 || resp.statusCode == 404
    ensures r.Success? ==> r.value.httpResponse == resp
    ensures r.Success? ==> r.value.value == if resp.statusCode == 200 then resp.content else None
    ensures r.Failure? ==> r.error == OperationException(resp)
  {
    if resp.statusCode == 200 then Success(Response(resp.content, resp))
    else if resp.statusCode == 404 then Success(Response(None, resp))
    else Failure(OperationException(resp))
  }

  /** setKVValue and setKVBinaryValue: the decoded flag on 200 (unboxing a null one fails),
      an OperationException on any other status, 404 included. */
  function BooleanResult(resp: HttpResponse<bool>): (r: Outcome<bool, bool>)
    ensures r.Success? <==> resp.statusCode == 200 && resp.content.Some?
    ensures r.Success? ==> r.value == Response(resp.content, resp)
    ensures resp.statusCode == 200 && resp.content.None? ==> r == Failure(NullPointerException)
    ensures resp.statusCode != 200 ==> r == Failure(OperationException(resp))
  {
    if resp.statusCode == 200 then
      match resp.content
      case None => Failure(NullPointerException)
      case Some(b) => Success(Response(Some(b), resp))
    else Failure(OperationException(resp))
  }

  /** The single-value read is the list read with the list unwrapped: they fail alike on the
      same statuses, they agree on 404, and on 200 the single read keeps the one element,
      names the size of a longer list, and cannot size a null list. */
  lemma SingleValueIsUnwrappedList<E>(resp: HttpResponse<seq<E>>)
    ensures ListResult(resp).Failure? ==> SingleValueResult(resp) == Failure(ListResult(resp).error)
    ensures resp.statusCode == 404 ==> SingleValueResult(resp) == Success(Response(None, resp))
                                       && ListResult(resp) == Success(Response(None, resp))
    ensures resp.statusCode == 200 && resp.content.Some? && |resp.content.value| <= 1 ==>
              SingleValueResult(resp) ==
              Success(Response(if resp.content.value == [] then None else Some(resp.content.value[0]), resp))
    ensures resp.statusCode == 200 && resp.content.Some? && |resp.content.value| > 1 ==>
              ListResult(resp).Success? && SingleValueResult(resp).Failure?
              && SingleValueResult(resp).error.ConsulException?
    ensures resp.statusCode == 200 && resp.content.None? ==>
              ListResult(resp) == Success(Response(None, resp))
              && SingleValueResult(resp) == Failure(NullPointerException)
  {
  }

  /** A missing key (404) reads as null through every read, while writes and deletes report
      it as an error. */
  lemma MissingKeyTolerance<E, L>(single: HttpResponse<seq<E>>, list: HttpResponse<L>,
                                  written: HttpResponse<bool>, deleted: HttpResponse<()>)
    requires single.statusCode == 404 && list.statusCode == 404
    requires written.statusCode == 404 && deleted.statusCode == 404
    ensures SingleValueResult(single) == Success(Response(None, single))
    ensures ListResult(list) == Success(Response(None, list))
    ensures BooleanResult(written) == Failure(OperationException(written))
    ensures VoidOnOk(deleted) == Failure(OperationException(deleted))
  {
  }
}

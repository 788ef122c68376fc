/** The access-control client (`AclConsulClient`): create, update, destroy, clone, look up
    and list ACL tokens. Unlike the key/value reads, a lookup has no tolerance for 404. */
module Acl {
  import opened Base
  import opened Envelope
  import opened ClientApi
  import KeyValue
  import Transport

  const CREATE_PATH: string := "/v1/acl/create"
  const UPDATE_PATH: string := "/v1/acl/update"
  const DESTROY_PATH: string := "/v1/acl/destroy/"
  const INFO_PATH: string := "/v1/acl/info/"
  const CLONE_PATH: string := "/v1/acl/clone/"
  const LIST_PATH: string := "/v1/acl/list"

  /** The JSON object an ACL write answers with; Gson may store a null value under a key. */
  type IdMap = map<string, Option<string>>

  // ---------------------------------------------------------------- the calls
  // `json` stands for Gson's serialisation of the NewAcl or UpdateAcl argument.

  /** `aclCreate(newAcl, token)`: a PUT of the serialised argument, answered with a map. */
  function AclCreateCall(json: string, token: Option<string>): (c: RawCall)
    ensures c.PutCall? && c.content == Some(json)
    ensures VerbOf(c) == Transport.PUT && EndpointOf(c) == CREATE_PATH
    ensures DecoderOf(c) == Json("Map<String, String>") && TokenOf(c) == token
  {
    PutCall(CREATE_PATH, Some(json), Json("Map<String, String>"), [TokenParam(token)])
  }

  /** `aclUpdate(updateAcl, token)`: a PUT of the serialised argument; the body is ignored. */
  function AclUpdateCall(json: string, token: Option<string>): (c: RawCall)
    ensures c.PutCall? && c.content == Some(json)
    ensures VerbOf(c) == Transport.PUT && EndpointOf(c) == UPDATE_PATH
    ensures DecoderOf(c) == Discard && TokenOf(c) == token
  {
    PutCall(UPDATE_PATH, Some(json), Discard, [TokenParam(token)])
  }

  /** `aclDestroy(aclId, token)`: a PUT of an empty body to the id's path; the body is ignored. */
  function AclDestroyCall(aclId: string, token: Option<string>): (c: RawCall)
    ensures c.PutCall? && c.content == Some("")
    ensures VerbOf(c) == Transport.PUT && EndpointOf(c) == DESTROY_PATH + aclId
    ensures EndpointOf(c)[|DESTROY_PATH|..] == aclId
    ensures DecoderOf(c) == Discard && TokenOf(c) == token
  {
    PutCall(DESTROY_PATH + aclId, Some(""), Discard, [TokenParam(token)])
  }

  /** `getAcl(id)`: a GET of the id's path with no parameter and no token. */
  function GetAclCall(id: string): (c: RawCall)
    ensures VerbOf(c) == Transport.GET && EndpointOf(c) == INFO_PATH + id && EndpointOf(c)[|INFO_PATH|..] == id
    ensures DecoderOf(c) == Json("List<Acl>") && TokenOf(c).None? && ParamsOf(c) == []
  {
    GetCall(INFO_PATH + id, Json("List<Acl>"), [])
  }

  /** `aclClone(aclId, token)`: a PUT of an empty body to the id's path, answered with a map. */
  function AclCloneCall(aclId: string, token: Option<string>): (c: RawCall)
    ensures c.PutCall? && c.content == Some("")
    ensures VerbOf(c) == Transport.PUT && EndpointOf(c) == CLONE_PATH + aclId
    ensures EndpointOf(c)[|CLONE_PATH|..] == aclId
    ensures DecoderOf(c) == Json("Map<String, String>") && TokenOf(c) == token
  {
    PutCall(CLONE_PATH + aclId, Some(""), Json("Map<String, String>"), [TokenParam(token)])
  }

  /** `getAclList(token)`: a GET of the list path. */
  function GetAclListCall(token: Option<string>): (c: RawCall)
    ensures VerbOf(c) == Transport.GET && EndpointOf(c) == LIST_PATH
    ensures DecoderOf(c) == Json("List<Acl>") && TokenOf(c) == token
  {
    GetCall(LIST_PATH, Json("List<Acl>"), [TokenParam(token)])
  }

  /** Every ACL call but the lookup sends the caller's token when it is non-null and no
      token parameter at all when it is null; the lookup sends no token. */
  lemma TokenOnlyWhenGiven(json: string, aclId: string, token: Option<string>)
    ensures forall c :: c in {AclCreateCall(json, token), AclUpdateCall(json, token), AclDestroyCall(aclId, token),
                              AclCloneCall(aclId, token), GetAclListCall(token)} ==>
              TokenOf(c) == token && (token.None? <==> ParamsOf(c) == [None])
    ensures TokenOf(GetAclCall(aclId)).None? && ParamsOf(GetAclCall(aclId)) == []
  {
  }

  /** Destroy and clone PUT an empty body to the fixed prefix followed by the id; create
      and update PUT the serialised argument to a fixed path; destroy and update ignore
      the answer's body. */
  lemma WriteCallShapes(json: string, aclId: string, token: Option<string>)
    ensures var c := AclDestroyCall(aclId, token);
            && VerbOf(c) == Transport.PUT && c.content == Some("") && DecoderOf(c) == Discard
            && EndpointOf(c) == DESTROY_PATH + aclId
            && EndpointOf(c)[|DESTROY_PATH|..] == aclId
    ensures var c := AclCloneCall(aclId, token);
            && VerbOf(c) == Transport.PUT && c.content == Some("") && DecoderOf(c).Json?
            && EndpointOf(c)[|CLONE_PATH|..] == aclId
    ensures var c := AclCreateCall(json, token);
            VerbOf(c) == Transport.PUT && c.content == Some(json) && EndpointOf(c) == CREATE_PATH
    ensures var c := AclUpdateCall(json, token);
            && VerbOf(c) == Transport.PUT && c.content == Some(json) && EndpointOf(c) == UPDATE_PATH
            && DecoderOf(c) == Discard
  {
  }

  // ---------------------------------------------------------------- the answers

  /** aclCreate and aclClone: on 200 the value stored under "ID", null when the key is
      absent (or its value null); a null map cannot be read; any other status throws. */
  function IdResult(resp: HttpResponse<IdMap>): (r: Outcome<string, IdMap>)
    ensures r.Success? <==> resp.statusCode == 200 && resp.content.Some?
    ensures r.Success? ==> r.value.httpResponse == resp
    ensures r.Success? && "ID" in resp.content.value ==> r.value.value == resp.content.value["ID"]
    ensures r.Success? && "ID" !in resp.content.value ==> r.value.value.None?
    ensures resp.statusCode == 200 && resp.content.None? ==> r == Failure(NullPointerException)
    ensures resp.statusCode != 200 ==> r == Failure(OperationException(resp))
  {
    if resp.statusCode == 200 then
      match resp.content
      case None => Failure(NullPointerException)
      case Some(m) => Success(Response(if "ID" in m then m["ID"] else None, resp))
    else Failure(OperationException(resp))
  }

  /** getAcl: on 200 the list is unwrapped as a key/value lookup unwraps it; any other
      status, 404 included, throws. */
  function AclInfoResult<A>(resp: HttpResponse<seq<A>>): (r: Outcome<A, seq<A>>)
    ensures r.Success? <==> resp.statusCode == 200 && resp.content.Some? && |resp.content.value| <= 1
    ensures r.Success? ==> r.value.httpResponse == resp
    ensures r.Success? ==> (r.value.value.None? <==> resp.content.value == [])
    ensures r.Success? && r.value.value.Some? ==> resp.content.value == [r.value.value.value]
    ensures resp.statusCode == 200 && resp.content.None? ==> r == Failure(NullPointerException)
    ensures resp.statusCode == 200 && resp.content.Some? && |resp.content.value| > 1 ==>
              r == Failure(ConsulException(StrangeResponseMessage(|resp.content.value|)))
    ensures resp.statusCode != 200 ==> r == Failure(OperationException(resp))
  {
    if resp.statusCode == 200 then
      match resp.content
      case None => Failure(NullPointerException)
      case Some(list) => AtMostOne(list, resp)
    else Failure(OperationException(resp))
  }

  /** The ACL lookup and the key/value lookup agree on every status but 404, where the key
      lookup answers null and the ACL lookup throws. */
  lemma LookupDiffersOnlyOn404<A>(resp: HttpResponse<seq<A>>)
    ensures resp.statusCode != 404 ==> AclInfoResult(resp) == KeyValue.SingleValueResult(resp)
    ensures resp.statusCode == 404 ==>
              && AclInfoResult(resp) == Failure(OperationException(resp))
              && KeyValue.SingleValueResult(resp) == Success(Response(None, resp))
  {
  }

  /** An answer that carries an id, read back. */
  lemma CreatedIdExample(resp: HttpResponse<IdMap>, id: string)
    requires resp.statusCode == 200 && resp.content == Some(map["ID" := Some(id)])
    ensures IdResult(resp) == Success(Response(Some(id), resp))
  {
  }
}

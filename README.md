# consul-api transport and resource clients in Dafny

This project models the HTTP transport of the consul-api Java client. It also models four
of the resource clients built on top of that transport.

**Transport** (`AbstractHttpTransport`). The model covers:

- the connection defaults;
- how GET, PUT and DELETE requests are assembled, including the loop that copies the
  header map onto the outgoing request;
- how a response becomes an `HttpResponse` envelope:
  - the status line;
  - the three Consul metadata headers (`X-Consul-Index`, `X-Consul-Knownleader`,
    `X-Consul-Lastcontact`), parsed leniently;
  - the charset used to read a body;
  - the split between a decoded content on status 200 and an error text on any other
    status.

**Clients modelled**: key/value (`KeyValueConsulClient`), ACL (`AclConsulClient`),
health (`HealthConsulClient`) and catalog (`CatalogConsulClient`). For each operation the
model gives two things:

- the call it hands to the raw client: verb, endpoint, body, decoder, and URL
  parameters with their nulls;
- what it makes of the envelope that comes back: a `Response`, an
  `OperationException`, a `ConsulException`, or the `NullPointerException` that
  dereferencing a null decoded value raises.

Overload families become argument datatypes, and their forwarding is a function. The
overloads that have their own argument shapes become functions that forward as the source
does.

**How Java values are modelled**:

- Java `null` is `Option.None`.
- Exceptions are `Result.Failure`.
- Consul's unsigned 64-bit metadata is a `u64` (`0 ≤ n < 2^64`). It is seen through the Java
  `long` that carries it (`int64`, two's complement).

**Things outside the core are parameters.**

- the network: `SentRequest -> Exchange`;
- Gson decoding: `Reader -> Decoded<T>`, which may throw;
- reading an entity as text: `(Entity, Charset) -> Result`;
- which charsets the JVM supports: a predicate.

**Files**:

- `base.dfy`: `Option`, `Result` and the integer ranges.
- `numerals.dfy`: `Long.parseUnsignedLong` and decimal rendering.
- `ascii.dfy`: letter case.
- `envelope.dfy`: `HttpResponse`.
- `headers.dfy`: metadata headers.
- `transport.dfy`: request assembly and `executeRequest`.
- `client_api.dfy`: what the clients share.
- `kv.dfy`, `acl.dfy`, `health.dfy`, `catalog.dfy`: the four clients.

The constants `DEFAULT_MAX_CONNECTIONS = 1000`, `DEFAULT_MAX_PER_ROUTE_CONNECTIONS = 500`,
`DEFAULT_CONNECTION_TIMEOUT = 10 * 1000` and `DEFAULT_READ_TIMEOUT = 1000 * 60 * 10` are
declared in `Transport` with the values of
`src/main/java/com/ecwid/consul/transport/AbstractHttpTransport.java:26-32`.

## Model

| member | source | states |
|---|---|---|
| Numerals.ParseUnsignedLong | src/main/java/com/ecwid/consul/transport/AbstractHttpTransport.java:124-128 | It accepts only an optional `+` followed by a non-empty run of decimal digits whose value is below 2^64, and returns that value. A leading `-` is always rejected. |
| Numerals.ParseRender | src/main/java/com/ecwid/consul/transport/AbstractHttpTransport.java:124-128 | Every unsigned 64-bit value, written in decimal, parses back to itself. |
| Numerals.ParseRejectsOverflow | src/main/java/com/ecwid/consul/transport/AbstractHttpTransport.java:124-128 | The decimal text of any value of 2^64 or more is rejected (unset). |
| Numerals.ParseThenRender | src/main/java/com/ecwid/consul/transport/AbstractHttpTransport.java:124-128 | Any accepted text is the canonical decimal of its value, apart from a leading `+` and leading zeros. |
| Numerals.ParsePlusSign | src/main/java/com/ecwid/consul/transport/AbstractHttpTransport.java:124-128 | A leading `+` does not change the result. |
| Numerals.ParseLeadingZero | src/main/java/com/ecwid/consul/transport/AbstractHttpTransport.java:124-128 | Leading zeros do not change the result. |
| Numerals.ParseExamples | src/main/java/com/ecwid/consul/transport/AbstractHttpTransport.java:124-128 | `"42"`, `"+42"` and `"0"` are accepted; `""`, `"+"`, `"-1"`, `"abc"` and `"4x2"` are rejected. |
| Numerals.Render | src/main/java/com/ecwid/consul/v1/kv/KeyValueConsulClient.java:82 | The decimal text of a number (a list size here) is non-empty and all digits, and has no leading zero unless it is `"0"`. |
| Numerals.AsJavaLong | src/main/java/com/ecwid/consul/transport/AbstractHttpTransport.java:75-77 | The `long` that stores an unsigned value equals it modulo 2^64, and equals it outright below 2^63. |
| Numerals.JavaLongRoundTrip | src/main/java/com/ecwid/consul/transport/AbstractHttpTransport.java:75-77 | Reading a stored `long` back as unsigned gives the original value, so storing the value loses nothing. |
| Numerals.FromJavaLong | src/main/java/com/ecwid/consul/transport/HttpResponse.java:68-78 | The unsigned reading of a `long` equals it modulo 2^64: a non-negative `long` reads as itself, a negative one as a value of 2^63 or more. |
| Ascii.ToLower | src/main/java/com/ecwid/consul/v1/health/HealthConsulClient.java:141 | Lower-casing keeps the length and lower-cases each character in place. |
| Ascii.ToLowerIdempotent | src/main/java/com/ecwid/consul/v1/health/HealthConsulClient.java:141 | Lower-cased text has no upper-case letter left, so lower-casing it again changes nothing. |
| Ascii.EqualsIgnoreCaseIsLowerEquality | src/main/java/com/ecwid/consul/transport/AbstractHttpTransport.java:75-77 | Case-insensitive header-name matching holds exactly when the two names lower-case to the same text. |
| Ascii.EqualsIgnoreCase | src/main/java/com/ecwid/consul/transport/AbstractHttpTransport.java:75-77 | Matching names have the same length. Equal names match, and so do names that differ only in the case of letters. |
| Envelope.HttpResponse.ConsulIndexAsLong | src/main/java/com/ecwid/consul/transport/HttpResponse.java:68-70 | The getter returns null exactly when no index was stored; otherwise it returns the `long` that reads back as the stored value. |
| Envelope.HttpResponse.ConsulLastContactAsLong | src/main/java/com/ecwid/consul/transport/HttpResponse.java:76-78 | The same holds for the last-contact time. |
| Envelope.WithContent | src/main/java/com/ecwid/consul/transport/HttpResponse.java:19-21 | The success constructor stores the content and the five other arguments unchanged; `error` is null. |
| Envelope.WithError | src/main/java/com/ecwid/consul/transport/HttpResponse.java:23-32 | The failure constructor stores the error text and the other arguments unchanged; `content` is null. |
| Envelope.ConstructorShapes | src/main/java/com/ecwid/consul/transport/HttpResponse.java:19-50 | An envelope comes from the success constructor exactly when its error is null. It comes from the failure constructor exactly when its content is null and its error is not. So neither constructor builds one with both. |
| Headers.FirstMatch | src/main/java/com/ecwid/consul/transport/AbstractHttpTransport.java:75-77 | It gives the position of the first header whose name matches case-insensitively, or the number of headers when none matches. |
| Headers.FirstHeader | src/main/java/com/ecwid/consul/transport/AbstractHttpTransport.java:75-77 | It returns null exactly when no header matches. Otherwise it returns the header at the first matching position, which matches the name ignoring case. |
| Headers.FirstOfItsName | src/main/java/com/ecwid/consul/transport/AbstractHttpTransport.java:75-77 | A matching header preceded only by headers of other names is the one read, whatever follows it. |
| Headers.ParseUnsignedLongHeader | src/main/java/com/ecwid/consul/transport/AbstractHttpTransport.java:114-129 | A missing header or a null value gives null. Otherwise the result is the `Long.parseUnsignedLong` result, with every rejection turned into null. |
| Headers.ParseBoolean | src/main/java/com/ecwid/consul/transport/AbstractHttpTransport.java:131-145 | The result is true exactly for the value `"true"`, false exactly for `"false"`, and null otherwise. |
| Headers.ParseBooleanExamples | src/main/java/com/ecwid/consul/transport/AbstractHttpTransport.java:131-145 | `"True"`, `"1"`, a null value and a missing header all give null. |
| Headers.ReadMetadata | src/main/java/com/ecwid/consul/transport/AbstractHttpTransport.java:75-77 | Each of the three values is the parse of the first header of its name. |
| Headers.MissingHeadersAreUnset | src/main/java/com/ecwid/consul/transport/AbstractHttpTransport.java:114-122 | A metadata header that is absent leaves its value null. |
| Headers.LaterHeadersIgnored | src/main/java/com/ecwid/consul/transport/AbstractHttpTransport.java:75-77 | Once a header of a name has appeared, headers after it cannot change what is read. |
| Headers.DistinctHeaderNames | src/main/java/com/ecwid/consul/transport/AbstractHttpTransport.java:75-77 | No two of the three metadata header names match each other, even ignoring case. |
| Headers.MetadataRoundTrip | src/main/java/com/ecwid/consul/transport/HttpResponse.java:15-17 | Every combination of set and unset index, leader flag and last contact, sent as headers, is read back exactly. The three are independent. |
| Transport.GetCharset | src/main/java/com/ecwid/consul/transport/AbstractHttpTransport.java:98-112 | It gives UTF-8 when there is no content type, no charset parameter, or a charset the JVM does not support; otherwise the declared charset. |
| Transport.CharsetIsSupported | src/main/java/com/ecwid/consul/transport/AbstractHttpTransport.java:98-112 | Provided UTF-8 is supported, the chosen charset is always supported, and it is either UTF-8 or the charset the content type declares. |
| Transport.ReaderFor | src/main/java/com/ecwid/consul/transport/AbstractHttpTransport.java:79-81 | The decoder reads the body's bytes in UTF-8 or in the charset the content type declares, and that charset is supported whenever UTF-8 is. |
| Transport.ExecuteRequest | src/main/java/com/ecwid/consul/transport/AbstractHttpTransport.java:69-96 | An I/O failure gives a TransportException and never an envelope. Every envelope carries the status line and the metadata of the first matching headers. On 200 the decoder's value is the content: error unset, a decoder IOException becomes a TransportException, any other exception passes through. On any other status the content is unset and the error is the body text as `readText` reads it, with UTF-8 as the default charset; a read failure becomes a TransportException. |
| Transport.EnvelopeMatchesStatus | src/main/java/com/ecwid/consul/transport/AbstractHttpTransport.java:78-91 | A successful call's envelope has an unset error exactly on 200, and an unset content on every other status. |
| Transport.DecoderUnusedOnFailure | src/main/java/com/ecwid/consul/transport/AbstractHttpTransport.java:84-91 | On a status other than 200 the decoder is never applied: any two decoders give the same outcome. |
| Transport.TextUnusedOnSuccess | src/main/java/com/ecwid/consul/transport/AbstractHttpTransport.java:78-83 | On 200 the body is never read as error text: any two text readers give the same outcome. |
| Transport.MetadataIndependentOfStatus | src/main/java/com/ecwid/consul/transport/AbstractHttpTransport.java:73-77 | Two responses with the same headers produce the same metadata, whatever their status and body. |
| Transport.SuccessScenario | src/main/java/com/ecwid/consul/transport/AbstractHttpTransport.java:72-83 | A 200 response with index 100, leader `true` and last contact 0 gives exactly the envelope holding the decoded value and those three values. |
| Transport.FailureScenario | src/main/java/com/ecwid/consul/transport/AbstractHttpTransport.java:84-91 | A 500 response gives the envelope with its body text as the error and no content. |
| Transport.HttpRequestBase.constructor | src/main/java/com/ecwid/consul/transport/AbstractHttpTransport.java:36 | A fresh request has its verb and URI, no headers and no entity. |
| Transport.HttpRequestBase.AddHeader | src/main/java/com/ecwid/consul/transport/AbstractHttpTransport.java:156 | It appends one header, verbatim, and leaves the entity alone. |
| Transport.HttpRequestBase.SetEntity | src/main/java/com/ecwid/consul/transport/AbstractHttpTransport.java:47-49 | It sets the entity and leaves the headers alone. |
| Transport.AddHeadersToRequest | src/main/java/com/ecwid/consul/transport/AbstractHttpTransport.java:147-158 | A null map adds nothing. Otherwise each map entry is appended once, with its value verbatim, after the headers already there. Nothing else changes. |
| Transport.PutEntity | src/main/java/com/ecwid/consul/transport/AbstractHttpTransport.java:46-50 | A non-null text body becomes a UTF-8 string entity. When the text is null, non-null binary content becomes a byte entity. When both are null there is no entity, because `new ByteArrayEntity(null)` throws. |
| Transport.TextBodyPreferred | src/main/java/com/ecwid/consul/transport/AbstractHttpTransport.java:46-50 | With a text body present, the binary content makes no difference. |
| Transport.Send | src/main/java/com/ecwid/consul/transport/AbstractHttpTransport.java:35-60 | The request sent has the verb, the URL, the given entity and the headers of the map. The result is what `executeRequest` makes of the network's answer to it. |
| Transport.MakeGetRequest | src/main/java/com/ecwid/consul/transport/AbstractHttpTransport.java:35-40 | A GET of the URL with the map's headers and no entity, then executed. |
| Transport.MakePutRequest | src/main/java/com/ecwid/consul/transport/AbstractHttpTransport.java:43-53 | Nothing is sent exactly when both bodies are null, and the result is then the IllegalArgumentException of `ByteArrayEntity`. Otherwise a PUT of the URL with the map's headers and the text body, or else the binary body, is executed once. |
| Transport.MakeDeleteRequest | src/main/java/com/ecwid/consul/transport/AbstractHttpTransport.java:56-60 | A DELETE of the URL with the map's headers and no entity, then executed. |
| ClientApi.TokenParam | src/main/java/com/ecwid/consul/v1/kv/KeyValueConsulClient.java:69 | The token parameter is absent exactly when the token is null; otherwise it is the pair `token=<token>`. |
| ClientApi.DecoderFunction | src/main/java/com/ecwid/consul/v1/acl/AclConsulClient.java:75 | The `r -> null` decoder yields null for every body; a Gson decoder is the given reading. |
| ClientApi.StrangeResponseMessage | src/main/java/com/ecwid/consul/v1/kv/KeyValueConsulClient.java:82 | The message is `Strange response (list size=N)`, with N the decimal size. |
| ClientApi.StrangeResponseMessageNamesSize | src/main/java/com/ecwid/consul/v1/kv/KeyValueConsulClient.java:82 | The size can be read back from the message: the text between the prefix and the closing parenthesis parses to it. |
| ClientApi.OkOrThrow | src/main/java/com/ecwid/consul/v1/health/HealthConsulClient.java:57-62 | It succeeds exactly on 200, with the decoded content, null included, as the value. Otherwise it throws an OperationException carrying the envelope. Every plain ACL, health and catalog read follows this rule. |
| ClientApi.VoidOnOk | src/main/java/com/ecwid/consul/v1/kv/KeyValueConsulClient.java:342-346 | It gives a null value on 200 and an OperationException otherwise. The deletes, ACL update and destroy, and catalog register and deregister follow this rule. |
| ClientApi.AtMostOne | src/main/java/com/ecwid/consul/v1/kv/KeyValueConsulClient.java:77-83 | An empty list gives null and a one-element list its element. A longer list throws a ConsulException naming its size. |
| ClientApi.OkOrThrowAfterExecute | src/main/java/com/ecwid/consul/transport/AbstractHttpTransport.java:78-91 | After a transport call, a plain endpoint returns the decoder's value on 200. On any other status it throws an OperationException whose envelope holds the body text and no content. |
| ClientApi.DiscardedBodyIsNull | src/main/java/com/ecwid/consul/v1/catalog/CatalogConsulClient.java:60 | With the `r -> null` decoder, a 200 envelope has null content whatever the body. |
| KeyValue.Forward | src/main/java/com/ecwid/consul/v1/kv/KeyValueConsulClient.java:53-65 | The shorter read and delete overloads forward a null token and `QueryParams.DEFAULT` wherever they lack one. The full form passes through unchanged. |
| KeyValue.GetKVValueCall | src/main/java/com/ecwid/consul/v1/kv/KeyValueConsulClient.java:67-71 | A GET of `/v1/kv/<key>`, from which the key can be read back. It is decoded as a list of values and carries the forwarded query parameters and no `recurse`. |
| KeyValue.GetKVBinaryValueCall | src/main/java/com/ecwid/consul/v1/kv/KeyValueConsulClient.java:106-110 | The same GET of the key, decoded as a list of binary values. |
| KeyValue.GetKVValuesCall | src/main/java/com/ecwid/consul/v1/kv/KeyValueConsulClient.java:145-150 | A GET of `/v1/kv/<keyPrefix>` with `recurse` and the forwarded query parameters, decoded as a list of values. |
| KeyValue.GetKVBinaryValuesCall | src/main/java/com/ecwid/consul/v1/kv/KeyValueConsulClient.java:178-183 | The same subtree GET, decoded as a list of binary values. |
| KeyValue.GetKVKeysOnlyCall | src/main/java/com/ecwid/consul/v1/kv/KeyValueConsulClient.java:211-218 | A GET of the prefix with `keys`, without `recurse`, with the forwarded query parameters, decoded as a list of strings. |
| KeyValue.SetKVValueCall | src/main/java/com/ecwid/consul/v1/kv/KeyValueConsulClient.java:255-260 | A PUT to the key's path whose text body is the value exactly as given, null included. It is decoded as a Boolean and carries the forwarded query parameters. |
| KeyValue.SetKVBinaryValueCall | src/main/java/com/ecwid/consul/v1/kv/KeyValueConsulClient.java:295-307 | A PUT of a built request to the key's path whose binary body is the value exactly as given, null included. It carries the forwarded token and query parameters and is decoded as a Boolean. |
| KeyValue.DeleteKVValueCall | src/main/java/com/ecwid/consul/v1/kv/KeyValueConsulClient.java:332-340 | A DELETE of the key's path in a built request with no body and the forwarded token. The answer's body is discarded, and there is no `recurse`. |
| KeyValue.DeleteKVValuesCall | src/main/java/com/ecwid/consul/v1/kv/KeyValueConsulClient.java:364-374 | The same DELETE with `recurse`. |
| KeyValue.ForwardKeys | src/main/java/com/ecwid/consul/v1/kv/KeyValueConsulClient.java:196-209 | The shorter keys-only overloads forward a null separator, a null token and the default query parameters where they lack them. |
| KeyValue.ForwardPut | src/main/java/com/ecwid/consul/v1/kv/KeyValueConsulClient.java:230-253 | The shorter write overloads forward a null token, null put options and the default query parameters where they lack them. |
| KeyValue.ReadCallsAddressTheKey | src/main/java/com/ecwid/consul/v1/kv/KeyValueConsulClient.java:146-151 | The reads GET `/v1/kv/<key>` with the forwarded token (none when null) and query parameters. The binary reads send the text reads' call with another decoder. The list reads put `recurse` in front of the single reads' parameters. Every overload sends the same call as its full form. |
| KeyValue.KeysOnlyParameters | src/main/java/com/ecwid/consul/v1/kv/KeyValueConsulClient.java:212-218 | The keys-only read always sends `keys`. It sends `separator` and `token` exactly when they are non-null. |
| KeyValue.WriteCallsCarryTheValue | src/main/java/com/ecwid/consul/v1/kv/KeyValueConsulClient.java:256-307 | Both writes PUT the value exactly as given to the key's path, with the forwarded token and query parameters. The put options are passed exactly when non-null. |
| KeyValue.DeleteCallsAddressTheKey | src/main/java/com/ecwid/consul/v1/kv/KeyValueConsulClient.java:333-375 | Both deletes send DELETE to the key's path with the forwarded token and query parameters. The subtree delete is the single delete with `recurse` put in front of its parameters. |
| KeyValue.SingleValueResult | src/main/java/com/ecwid/consul/v1/kv/KeyValueConsulClient.java:74-88 | On 200 the list is unwrapped: empty gives null, one element gives that element, more gives "Strange response", a null list gives a NullPointerException. On 404 the value is null; any other status throws an OperationException. |
| KeyValue.ListResult | src/main/java/com/ecwid/consul/v1/kv/KeyValueConsulClient.java:153-160 | On 200 the value is the whole decoded content, on 404 it is null, and any other status throws an OperationException. The binary and keys-only list reads follow the same rule. |
| KeyValue.BooleanResult | src/main/java/com/ecwid/consul/v1/kv/KeyValueConsulClient.java:262-267 | On 200 the value is the decoded flag, and a null flag cannot be unboxed. Every other status throws, 404 included. |
| KeyValue.SingleValueIsUnwrappedList | src/main/java/com/ecwid/consul/v1/kv/KeyValueConsulClient.java:74-88 | The single read is the list read with the list unwrapped. They fail alike, and they agree on 404. On 200 the single read keeps the only element, names the size of a longer list, and fails on a null list where the list read returns null. |
| KeyValue.MissingKeyTolerance | src/main/java/com/ecwid/consul/v1/kv/KeyValueConsulClient.java:84-86 | A 404 reads as null through every read, while writes and deletes report it as an OperationException. |
| Acl.TokenOnlyWhenGiven | src/main/java/com/ecwid/consul/v1/acl/AclConsulClient.java:55-145 | Create, update, destroy, clone and list send the token exactly when it is non-null, and otherwise no parameter at all. The lookup sends no token. |
| Acl.WriteCallShapes | src/main/java/com/ecwid/consul/v1/acl/AclConsulClient.java:71-130 | Destroy and clone PUT an empty string to their prefix followed by the id. Create and update PUT the serialised argument to fixed paths. Destroy and update ignore the answer's body. |
| Acl.AclCreateCall | src/main/java/com/ecwid/consul/v1/acl/AclConsulClient.java:56-61 | A PUT of the serialised argument to `/v1/acl/create`, decoded as a map, sending exactly the caller's token. |
| Acl.AclUpdateCall | src/main/java/com/ecwid/consul/v1/acl/AclConsulClient.java:72-75 | A PUT of the serialised argument to `/v1/acl/update` that discards the answer's body and sends exactly the caller's token. |
| Acl.AclDestroyCall | src/main/java/com/ecwid/consul/v1/acl/AclConsulClient.java:85-87 | A PUT of an empty body to `/v1/acl/destroy/<id>`, from which the id can be read back. It discards the answer's body and sends exactly the caller's token. |
| Acl.GetAclCall | src/main/java/com/ecwid/consul/v1/acl/AclConsulClient.java:97-100 | A GET of `/v1/acl/info/<id>`, from which the id can be read back, decoded as a list of ACLs, with no parameter and no token. |
| Acl.AclCloneCall | src/main/java/com/ecwid/consul/v1/acl/AclConsulClient.java:118-122 | A PUT of an empty body to `/v1/acl/clone/<id>`, decoded as a map, sending exactly the caller's token. |
| Acl.GetAclListCall | src/main/java/com/ecwid/consul/v1/acl/AclConsulClient.java:133-137 | A GET of `/v1/acl/list`, decoded as a list of ACLs, sending exactly the caller's token. |
| Acl.IdResult | src/main/java/com/ecwid/consul/v1/acl/AclConsulClient.java:63-68 | On 200 the value is the one stored under `"ID"`, null when that key is absent, and a null map fails. Any other status throws. |
| Acl.AclInfoResult | src/main/java/com/ecwid/consul/v1/acl/AclConsulClient.java:102-114 | On 200 the list is unwrapped (0 gives null, 1 gives the element, more gives "Strange response"). Any other status, 404 included, throws an OperationException. |
| Acl.LookupDiffersOnlyOn404 | src/main/java/com/ecwid/consul/v1/acl/AclConsulClient.java:112-114 | The ACL lookup agrees with the key/value lookup on every status except 404, where the ACL lookup throws and the key lookup returns null. |
| Acl.CreatedIdExample | src/main/java/com/ecwid/consul/v1/acl/AclConsulClient.java:63-65 | An answer `{"ID": id}` on 200 yields `id`. |
| Health.StatePath | src/main/java/com/ecwid/consul/v1/health/HealthConsulClient.java:134-144 | A null status, and so the status-less overload, queries `/v1/health/state/any`. Otherwise the path ends in the lower-cased name. Two names give the same path exactly when they are equal ignoring case. |
| Health.ServicesOverloads | src/main/java/com/ecwid/consul/v1/health/HealthConsulClient.java:88-118 | A single tag is forwarded as a one-element array, and a missing tag as `{null}`. A missing token is forwarded as null. `onlyPassing` and the query parameters are kept. |
| Health.Endpoints | src/main/java/com/ecwid/consul/v1/health/HealthConsulClient.java:51-78 | The node, checks and service paths are their prefix followed by the name. A checks-by-query call passes a request object built from the query parameters. |
| Health.HealthChecksForNodeCall | src/main/java/com/ecwid/consul/v1/health/HealthConsulClient.java:52-55 | A GET of `/v1/health/node/<name>`, from which the name can be read back, decoded as a list of checks, with the query parameters as its only parameter. |
| Health.HealthChecksForServiceCall | src/main/java/com/ecwid/consul/v1/health/HealthConsulClient.java:75-78 | A GET of `/v1/health/checks/<name>` with the request object as its only parameter and no token. |
| Health.HealthChecksForServiceByQueryCall | src/main/java/com/ecwid/consul/v1/health/HealthConsulClient.java:66-71 | A GET of the checks path whose only parameter is a request object built from the query parameters. |
| Health.HealthServicesCall | src/main/java/com/ecwid/consul/v1/health/HealthConsulClient.java:121-124 | A GET of `/v1/health/service/<name>` with the request object as its only parameter. The token sent is the request object's. |
| Health.HealthServicesByTagsCall | src/main/java/com/ecwid/consul/v1/health/HealthConsulClient.java:109-117 | The request object holds the tags, the passing flag, the query parameters and the token, and exactly that token is sent. |
| Health.HealthServicesByTagCall | src/main/java/com/ecwid/consul/v1/health/HealthConsulClient.java:104-106 | The tag becomes a one-element tag array, and the caller's token is sent. |
| Health.HealthServicesByTagNoTokenCall | src/main/java/com/ecwid/consul/v1/health/HealthConsulClient.java:99-101 | The tag becomes a one-element tag array, and no token is sent. |
| Health.HealthServicesNoTagCall | src/main/java/com/ecwid/consul/v1/health/HealthConsulClient.java:94-96 | The tag array is `{null}`, and the caller's token is sent. |
| Health.HealthServicesNoTagNoTokenCall | src/main/java/com/ecwid/consul/v1/health/HealthConsulClient.java:89-91 | The tag array is `{null}`, and no token is sent. |
| Health.StateSegment | src/main/java/com/ecwid/consul/v1/health/HealthConsulClient.java:141 | A null status gives `any`. Otherwise the segment matches the constant's name ignoring case and has no upper-case letter. |
| Health.HealthChecksStateCall | src/main/java/com/ecwid/consul/v1/health/HealthConsulClient.java:140-144 | A GET of `/v1/health/state/` followed by the segment, decoded as a list of checks, with the query parameters as its only parameter. |
| Health.HealthChecksStateAnyCall | src/main/java/com/ecwid/consul/v1/health/HealthConsulClient.java:135-137 | A GET of `/v1/health/state/any` with the query parameters as its only parameter. |
| Catalog.RegistrationCalls | src/main/java/com/ecwid/consul/v1/catalog/CatalogConsulClient.java:50-84 | Register and deregister PUT the serialised argument to fixed paths and discard the answer's body. They send the token exactly when non-null; the short overloads never send one. |
| Catalog.AsWrittenDropsToken | src/main/java/com/ecwid/consul/v1/catalog/CatalogConsulClient.java:162-177 | As written, the single-tag overload with a token sends no token. So does the no-tag overload that reaches it. |
| Catalog.CorrectedForwardsToken | src/main/java/com/ecwid/consul/v1/catalog/CatalogConsulClient.java:173-177 | With the forwarding corrected, both overloads send the caller's token. The corrected form agrees with the code as written whenever the token is null. |
| Catalog.ServiceOverloads | src/main/java/com/ecwid/consul/v1/catalog/CatalogConsulClient.java:128-189 | A no-tag overload passes the tag array `{null}`, and a single tag becomes a one-element array. The token-less overloads forward a null token. |
| Catalog.Endpoints | src/main/java/com/ecwid/consul/v1/catalog/CatalogConsulClient.java:86-209 | The service and node paths are a fixed prefix followed by the name, so the name can be read back. The datacenter and node listings use fixed paths, and the node listing passes its request object as a GET. |
| Catalog.CatalogRegisterCall | src/main/java/com/ecwid/consul/v1/catalog/CatalogConsulClient.java:56-60 | A PUT of the serialised registration to `/v1/catalog/register` that discards the answer's body and sends exactly the caller's token. |
| Catalog.CatalogRegisterNoTokenCall | src/main/java/com/ecwid/consul/v1/catalog/CatalogConsulClient.java:51-53 | The same PUT with no token: its only parameter is null. |
| Catalog.CatalogDeregisterCall | src/main/java/com/ecwid/consul/v1/catalog/CatalogConsulClient.java:74-78 | A PUT of the serialised deregistration to `/v1/catalog/deregister` that discards the answer's body and sends exactly the caller's token. |
| Catalog.CatalogDeregisterNoTokenCall | src/main/java/com/ecwid/consul/v1/catalog/CatalogConsulClient.java:69-71 | The same PUT with no token: its only parameter is null. |
| Catalog.GetCatalogDatacentersCall | src/main/java/com/ecwid/consul/v1/catalog/CatalogConsulClient.java:87-90 | A GET of `/v1/catalog/datacenters` with no parameter and no token. |
| Catalog.CatalogNodesCall | src/main/java/com/ecwid/consul/v1/catalog/CatalogConsulClient.java:110-118 | A built GET of `/v1/catalog/nodes` with no body and no token, whose only parameter is the request object. |
| Catalog.CatalogNodesByQueryCall | src/main/java/com/ecwid/consul/v1/catalog/CatalogConsulClient.java:101-106 | A GET of the nodes path whose only parameter is a request object built from the query parameters. |
| Catalog.CatalogServicesCall | src/main/java/com/ecwid/consul/v1/catalog/CatalogConsulClient.java:144-147 | A GET of `/v1/catalog/services` whose only parameter is the request object. The token sent is the request object's. |
| Catalog.CatalogServicesByQueryTokenCall | src/main/java/com/ecwid/consul/v1/catalog/CatalogConsulClient.java:134-140 | The request object is built from the query parameters and the token, and exactly that token is sent. |
| Catalog.CatalogServicesByQueryCall | src/main/java/com/ecwid/consul/v1/catalog/CatalogConsulClient.java:129-131 | The request object is built from the query parameters with no token, and no token is sent. |
| Catalog.CatalogServiceCall | src/main/java/com/ecwid/consul/v1/catalog/CatalogConsulClient.java:192-195 | A GET of `/v1/catalog/service/<name>`, from which the name can be read back, whose only parameter is the request object. The token sent is the request object's. |
| Catalog.CatalogServiceByTagsCall | src/main/java/com/ecwid/consul/v1/catalog/CatalogConsulClient.java:180-188 | The request object holds the tags, the query parameters and the token, and exactly that token is sent. |
| Catalog.CatalogServiceByTagCallAsWritten | src/main/java/com/ecwid/consul/v1/catalog/CatalogConsulClient.java:174-177 | As written: the tag becomes a one-element tag array with a null token, so no token is sent whatever the caller gives. |
| Catalog.CatalogServiceNoTagTokenCallAsWritten | src/main/java/com/ecwid/consul/v1/catalog/CatalogConsulClient.java:163-165 | As written: the tag array is `{null}` with a null token, so no token is sent whatever the caller gives. |
| Catalog.CatalogServiceByTagCall | src/main/java/com/ecwid/consul/v1/catalog/CatalogConsulClient.java:174-177 | Corrected: the tag becomes a one-element tag array, and the caller's token is sent. |
| Catalog.CatalogServiceByTagNoTokenCall | src/main/java/com/ecwid/consul/v1/catalog/CatalogConsulClient.java:168-171 | The tag becomes a one-element tag array, and no token is sent. |
| Catalog.CatalogServiceNoTagCall | src/main/java/com/ecwid/consul/v1/catalog/CatalogConsulClient.java:158-160 | The tag array is `{null}`, and no token is sent. |
| Catalog.CatalogServiceNoTagTokenCall | src/main/java/com/ecwid/consul/v1/catalog/CatalogConsulClient.java:163-165 | Corrected: the tag array is `{null}`, and the caller's token is sent. |
| Catalog.CatalogNodeCall | src/main/java/com/ecwid/consul/v1/catalog/CatalogConsulClient.java:206-209 | A GET of `/v1/catalog/node/<name>`, from which the name can be read back, decoded as one node, with the query parameters as its only parameter. |

## Left out

- Network I/O: `HttpClient.execute`, `getHttpClient`, pooling, TLS and timeouts are outside the model. The network is a function from the request sent to the exchange received.
- Byte decoding: `Reader` is the body bytes with a charset. `EntityUtils.toString` is a parameter. The content-type header is taken as already parsed.
- Gson: serialisation and deserialisation are foreign code. A decoder is a parameter, and serialised bodies are given as text.
- Transport.HttpRequestBase: only what the transport touches (verb, URI, headers, entity) is modelled, not the Apache class itself.
- The response entity is taken to be present; the source does not handle a missing one.
- Numerals.ParseUnsignedLong: `Character.digit` also accepts non-ASCII decimal digits, which the model rejects.
- Ascii.ToLower: only ASCII letters change case, whereas Java uses the full Unicode tables and the default locale for `toLowerCase`.
- Headers.FirstHeader: header names are compared with ASCII case folding, whereas `equalsIgnoreCase` also folds non-ASCII letters.
- Health.StatePath: `Check.CheckStatus` is not part of this model, so a status is its constant's name, any text.
- `ConsulRawClient`, `Request.Builder`, `UrlParameters`, `QueryParams`, `PutParams` and the request classes' `asUrlParameters()` are not part of this model. A call to the raw client is described by what it is given, and these values are opaque.
- How the raw client turns a call into an `HttpRequest` (the URL it builds, how it sends the token, how it skips null URL parameters) is not part of this model.
- Keys, key prefixes, ACL ids and service and node names are taken as non-null strings. A caller can pass null, and Java's string concatenation then turns it into the text "null", so the program addresses the key or name "null". A null `QueryParams` or a null tag array passed to the full forms is not modelled either.
- Transport.MakePutRequest: the IllegalArgumentException of `new ByteArrayEntity(null)` is represented only by its message; httpcore's `Args.notNull` is not part of this model.
- The constructors of the four clients only choose a raw client and are left out.
- `EventConsulClient`, `StatusConsulClient`, `QueryConsulClient` and `CoordinateConsulClient` are left out. Each is a fixed-path call followed by the `ClientApi.OkOrThrow` rule.
- Concurrency: sharing a client or a connection pool between threads is not expressed.

## Findings

| source | as written | input that shows it | evidently intended | confidence | as-written member | corrected member |
|---|---|---|---|---|---|---|
| src/main/java/com/ecwid/consul/v1/catalog/CatalogConsulClient.java:176 | `getCatalogService(serviceName, tag, queryParams, token)` forwards `null` in place of `token` to the tag-array overload. `getCatalogService(serviceName, queryParams, token)` (line 164) reaches it with a `(String) null` tag and loses the token as well. | `getCatalogService("web", "v1", QueryParams.DEFAULT, "secret")` sends no token | the caller's token is forwarded, as the health client does at src/main/java/com/ecwid/consul/v1/health/HealthConsulClient.java:105 | not executed | Catalog.AsWrittenDropsToken | Catalog.CorrectedForwardsToken |

/** HTTP headers and the three pieces of Consul metadata the transport reads from them:
    the consistency index, the known-leader flag and the last-contact time. A malformed or
    missing header never fails a call; it leaves the value unset (None). */
module Headers {
  import opened Base
  import Numerals
  import Ascii

  /** A header as the HTTP library holds it; its value may be null. */
  datatype Header = Header(name: string, value: Option<string>)

  const INDEX_HEADER: string := "X-Consul-Index"
  const KNOWN_LEADER_HEADER: string := "X-Consul-Knownleader"
  const LAST_CONTACT_HEADER: string := "X-Consul-Lastcontact"

  /** The position of the first header whose name matches, ignoring case, or |headers|
      when there is none. */
  function FirstMatch(headers: seq<Header>, name: string): (i: nat)
    ensures i <= |headers|
    ensures i < |headers| ==> Ascii.EqualsIgnoreCase(headers[i].name, name)
    ensures forall j :: 0 <= j < i ==> !Ascii.EqualsIgnoreCase(headers[j].name, name)
  {
    if headers == [] then 0
    else if Ascii.EqualsIgnoreCase(headers[0].name, name) then 0
    else 1 + FirstMatch(headers[1..], name)
  }

  /** No header of the list has the name, ignoring case. */
  predicate NoMatch(headers: seq<Header>, name: string) {
    forall j :: 0 <= j < |headers| ==> !Ascii.EqualsIgnoreCase(headers[j].name, name)
  }

  /** `response.getFirstHeader(name)`: the first header with that name, or null. */
  function FirstHeader(headers: seq<Header>, name: string): (h: Option<Header>)
    ensures h.None? <==> NoMatch(headers, name)
    ensures h.Some? ==> h.value == headers[FirstMatch(headers, name)] && Ascii.EqualsIgnoreCase(h.value.name, name)
  {
    var i := FirstMatch(headers, name);
    if i < |headers| then Some(headers[i]) else None
  }

  /** `parseUnsignedLong(header)`: null for a missing header or a null value, and for any
      value `Long.parseUnsignedLong` rejects; the parsed value otherwise. */
  function ParseUnsignedLongHeader(header: Option<Header>): (r: Option<u64>)
    ensures header.None? || header.value.value.None? ==> r.None?
    ensures header.Some? && header.value.value.Some? ==>
              r == Numerals.ParseUnsignedLong(header.value.value.value)
  {
    match header
    case None => None
    case Some(h) =>
      match h.value
      case None => None
      case Some(text) => Numerals.ParseUnsignedLong(text)
  }

  /** `parseBoolean(header)`: true exactly for the value "true", false exactly for the
      value "false", null for everything else, case included. */
  function ParseBoolean(header: Option<Header>): (r: Option<bool>)
    ensures r == Some(true) <==> header.Some? && header.value.value == Some("true")
    ensures r == Some(false) <==> header.Some? && header.value.value == Some("false")
  {
    match header
    case None => None
    case Some(h) =>
      if h.value == Some("true") then Some(true)
      else if h.value == Some("false") then Some(false)
      else None
  }

  /** The three metadata values, each read from the first header of its name. */
  datatype Metadata = Metadata(consulIndex: Option<u64>, consulKnownLeader: Option<bool>,
                               consulLastContact: Option<u64>)

  function ReadMetadata(headers: seq<Header>): (m: Metadata)
    ensures m.consulIndex == ParseUnsignedLongHeader(FirstHeader(headers, INDEX_HEADER))
    ensures m.consulKnownLeader == ParseBoolean(FirstHeader(headers, KNOWN_LEADER_HEADER))
    ensures m.consulLastContact == ParseUnsignedLongHeader(FirstHeader(headers, LAST_CONTACT_HEADER))
  {
    Metadata(ParseUnsignedLongHeader(FirstHeader(headers, INDEX_HEADER)),
             ParseBoolean(FirstHeader(headers, KNOWN_LEADER_HEADER)),
             ParseUnsignedLongHeader(FirstHeader(headers, LAST_CONTACT_HEADER)))
  }

  /** A header that is absent leaves its value unset. */
  lemma MissingHeadersAreUnset(headers: seq<Header>)
    ensures NoMatch(headers, INDEX_HEADER) ==> ReadMetadata(headers).consulIndex.None?
    ensures NoMatch(headers, KNOWN_LEADER_HEADER) ==> ReadMetadata(headers).consulKnownLeader.None?
    ensures NoMatch(headers, LAST_CONTACT_HEADER) ==> ReadMetadata(headers).consulLastContact.None?
  {
  }

  /** Only the first header of a name counts: headers appended after it change nothing. */
  lemma {:induction false} LaterHeadersIgnored(headers: seq<Header>, more: seq<Header>, name: string)
    requires FirstHeader(headers, name).Some?
    ensures FirstHeader(headers + more, name) == FirstHeader(headers, name)
  {
    FirstMatchOfPrefix(headers, more, name);
  }

  lemma {:induction false} FirstMatchOfPrefix(headers: seq<Header>, more: seq<Header>, name: string)
    requires FirstMatch(headers, name) < |headers|
    ensures FirstMatch(headers + more, name) == FirstMatch(headers, name)
    decreases |headers|
  {
    if !Ascii.EqualsIgnoreCase(headers[0].name, name) {
      assert (headers + more)[1..] == headers[1..] + more;
      FirstMatchOfPrefix(headers[1..], more, name);
    }
  }

  /** The known-leader flag accepts exactly two spellings. */
  lemma ParseBooleanExamples()
    ensures ParseBoolean(Some(Header(KNOWN_LEADER_HEADER, Some("true")))) == Some(true)
    ensures ParseBoolean(Some(Header(KNOWN_LEADER_HEADER, Some("false")))) == Some(false)
    ensures ParseBoolean(Some(Header(KNOWN_LEADER_HEADER, Some("True")))) == None
    ensures ParseBoolean(Some(Header(KNOWN_LEADER_HEADER, Some("1")))) == None
    ensures ParseBoolean(Some(Header(KNOWN_LEADER_HEADER, None))) == None
    ensures ParseBoolean(None) == None
  {
  }

  /** The headers a server sends to announce the given metadata: one header per value that
      is set, written as Consul writes it. */
  function MetadataHeaders(m: Metadata): seq<Header> {
    IndexHeaders(m) + LeaderHeaders(m) + LastContactHeaders(m)
  }

  function IndexHeaders(m: Metadata): seq<Header> {
    if m.consulIndex.Some? then [Header(INDEX_HEADER, Some(Numerals.Render(m.consulIndex.value)))] else []
  }

  function LeaderHeaders(m: Metadata): seq<Header> {
    if m.consulKnownLeader.Some?
    then [Header(KNOWN_LEADER_HEADER, Some(if m.consulKnownLeader.value then "true" else "false"))]
    else []
  }

  function LastContactHeaders(m: Metadata): seq<Header> {
    if m.consulLastContact.Some? then [Header(LAST_CONTACT_HEADER, Some(Numerals.Render(m.consulLastContact.value)))] else []
  }

  lemma DistinctHeaderNames()
    ensures !Ascii.EqualsIgnoreCase(INDEX_HEADER, KNOWN_LEADER_HEADER)
    ensures !Ascii.EqualsIgnoreCase(INDEX_HEADER, LAST_CONTACT_HEADER)
    ensures !Ascii.EqualsIgnoreCase(KNOWN_LEADER_HEADER, LAST_CONTACT_HEADER)
    ensures !Ascii.EqualsIgnoreCase(KNOWN_LEADER_HEADER, INDEX_HEADER)
    ensures !Ascii.EqualsIgnoreCase(LAST_CONTACT_HEADER, INDEX_HEADER)
    ensures !Ascii.EqualsIgnoreCase(LAST_CONTACT_HEADER, KNOWN_LEADER_HEADER)
  {
    assert Ascii.LowerChar(KNOWN_LEADER_HEADER[9]) != Ascii.LowerChar(LAST_CONTACT_HEADER[9]);
  }

  /** Headers of other names in front of the ones searched change nothing. */
  lemma {:induction false} FirstHeaderSkips(prefix: seq<Header>, rest: seq<Header>, name: string)
    requires NoMatch(prefix, name)
    ensures FirstMatch(prefix + rest, name) == |prefix| + FirstMatch(rest, name)
    ensures FirstHeader(prefix + rest, name) == FirstHeader(rest, name)
    decreases |prefix|
  {
    if prefix != [] {
      assert (prefix + rest)[0] == prefix[0];
      assert (prefix + rest)[1..] == prefix[1..] + rest;
      FirstHeaderSkips(prefix[1..], rest, name);
    }
    var i := FirstMatch(rest, name);
    if i < |rest| {
      assert (prefix + rest)[|prefix| + i] == rest[i];
    }
  }

  /** The header read is the first of its name: whatever precedes it has other names, and
      whatever follows it is ignored. */
  lemma FirstOfItsName(prefix: seq<Header>, h: Header, rest: seq<Header>, name: string)
    requires NoMatch(prefix, name) && Ascii.EqualsIgnoreCase(h.name, name)
    ensures FirstHeader(prefix + [h] + rest, name) == Some(h)
  {
    assert prefix + [h] + rest == prefix + ([h] + rest);
    FirstHeaderSkips(prefix, [h] + rest, name);
    assert ([h] + rest)[0] == h;
  }

  /** Each value's header is the only one of its name that a server sends. */
  lemma OtherNames(m: Metadata)
    ensures NoMatch(IndexHeaders(m), KNOWN_LEADER_HEADER) && NoMatch(IndexHeaders(m), LAST_CONTACT_HEADER)
    ensures NoMatch(LeaderHeaders(m), INDEX_HEADER) && NoMatch(LeaderHeaders(m), LAST_CONTACT_HEADER)
    ensures NoMatch(LastContactHeaders(m), INDEX_HEADER) && NoMatch(LastContactHeaders(m), KNOWN_LEADER_HEADER)
  {
    DistinctHeaderNames();
  }

  lemma IndexFound(m: Metadata)
    ensures FirstHeader(MetadataHeaders(m), INDEX_HEADER) ==
              if m.consulIndex.Some? then Some(IndexHeaders(m)[0]) else None
  {
    OtherNames(m);
    var a, b, c := IndexHeaders(m), LeaderHeaders(m), LastContactHeaders(m);
    assert MetadataHeaders(m) == a + (b + c);
    if a == [] {
      assert a + (b + c) == b + c;
      FirstHeaderSkips(b, c, INDEX_HEADER);
      FirstHeaderSkips(c, [], INDEX_HEADER);
      assert c + [] == c;
    } else {
      assert (a + (b + c))[0] == a[0];
    }
  }

  lemma LeaderFound(m: Metadata)
    ensures FirstHeader(MetadataHeaders(m), KNOWN_LEADER_HEADER) ==
              if m.consulKnownLeader.Some? then Some(LeaderHeaders(m)[0]) else None
  {
    OtherNames(m);
    var a, b, c := IndexHeaders(m), LeaderHeaders(m), LastContactHeaders(m);
    assert MetadataHeaders(m) == a + (b + c);
    FirstHeaderSkips(a, b + c, KNOWN_LEADER_HEADER);
    if b == [] {
      assert b + c == c + [];
      FirstHeaderSkips(c, [], KNOWN_LEADER_HEADER);
    } else {
      assert (b + c)[0] == b[0];
    }
  }

  lemma LastContactFound(m: Metadata)
    ensures FirstHeader(MetadataHeaders(m), LAST_CONTACT_HEADER) ==
              if m.consulLastContact.Some? then Some(LastContactHeaders(m)[0]) else None
  {
    OtherNames(m);
    var a, b, c := IndexHeaders(m), LeaderHeaders(m), LastContactHeaders(m);
    assert forall j :: 0 <= j < |a + b| ==> (a + b)[j] in a || (a + b)[j] in b;
    FirstHeaderSkips(a + b, c, LAST_CONTACT_HEADER);
    if c != [] {
      assert c[0].name == LAST_CONTACT_HEADER;
    }
  }

  /** The three values are independent: every combination of set and unset values, sent
      by a server, is read back exactly. */
  lemma MetadataRoundTrip(m: Metadata)
    ensures ReadMetadata(MetadataHeaders(m)) == m
  {
    IndexFound(m);
    LeaderFound(m);
    LastContactFound(m);
    if m.consulIndex.Some? {
      Numerals.ParseRender(m.consulIndex.value);
    }
    if m.consulLastContact.Some? {
      Numerals.ParseRender(m.consulLastContact.value);
    }
  }
}

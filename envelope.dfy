/** The response envelope every transport call produces (`HttpResponse<T>`): an immutable
    record of the status line, the decoded content or the error text, and three pieces of
    metadata read from response headers. Java's nulls are None. */
module Envelope {
  import opened Base
  import Numerals

  /** The seven final fields, in the order of the full constructor; the datatype's
      constructor is that constructor and its destructors are the getters. */
  datatype HttpResponse<+T> = HttpResponse(
    statusCode: int,
    statusMessage: string,
    content: Option<T>,
    consulIndex: Option<u64>,
    consulKnownLeader: Option<bool>,
    consulLastContact: Option<u64>,
    error: Option<string>)
  {
    /** `getConsulIndex()`: the stored unsigned value as the Java `long` that carries it. */
    function ConsulIndexAsLong(): (l: Option<int64>)
      ensures l.None? <==> consulIndex.None?
      ensures l.Some? ==> Numerals.FromJavaLong(l.value) == consulIndex.value
    {
      match consulIndex
      case None => None
      case Some(v) => Some(Numerals.AsJavaLong(v))
    }

    /** `getConsulLastContact()`, read the same way. */
    function ConsulLastContactAsLong(): (l: Option<int64>)
      ensures l.None? <==> consulLastContact.None?
      ensures l.Some? ==> Numerals.FromJavaLong(l.value) == consulLastContact.value
    {
      match consulLastContact
      case None => None
      case Some(v) => Some(Numerals.AsJavaLong(v))
    }
  }

  /** The success constructor: content given, error null. */
  function WithContent<T>(statusCode: int, statusMessage: string, content: Option<T>,
                          consulIndex: Option<u64>, consulKnownLeader: Option<bool>,
                          consulLastContact: Option<u64>): (r: HttpResponse<T>)
    ensures r.content == content && r.error.None?
    ensures r.statusCode == statusCode && r.statusMessage == statusMessage
    ensures r.consulIndex == consulIndex && r.consulKnownLeader == consulKnownLeader
    ensures r.consulLastContact == consulLastContact
  {
    HttpResponse(statusCode, statusMessage, content, consulIndex, consulKnownLeader, consulLastContact, None)
  }

  /** The failure constructor: error text given, content null. Its parameters come in the
      source's order, with the error last. */
  function WithError<T>(statusCode: int, statusMessage: string, consulIndex: Option<u64>,
                        consulKnownLeader: Option<bool>, consulLastContact: Option<u64>,
                        error: string): (r: HttpResponse<T>)
    ensures r.error == Some(error) && r.content.None?
    ensures r.statusCode == statusCode && r.statusMessage == statusMessage
    ensures r.consulIndex == consulIndex && r.consulKnownLeader == consulKnownLeader
    ensures r.consulLastContact == consulLastContact
  {
    HttpResponse(statusCode, statusMessage, None, consulIndex, consulKnownLeader, consulLastContact, Some(error))
  }

  /** An envelope comes from the success constructor exactly when its error is null, and
      from the failure constructor exactly when its content is null and its error is not:
      so no envelope built by those two carries both content and error. */
  lemma ConstructorShapes<T>(e: HttpResponse<T>)
    ensures (e == WithContent(e.statusCode, e.statusMessage, e.content, e.consulIndex,
                              e.consulKnownLeader, e.consulLastContact))
            <==> e.error.None?
    ensures (e.error.Some? && e == WithError(e.statusCode, e.statusMessage, e.consulIndex,
                             e.consulKnownLeader, e.consulLastContact, e.error.value))
            <==> (e.content.None? && e.error.Some?)
  {
  }
}

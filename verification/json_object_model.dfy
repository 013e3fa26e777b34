/** `JsonObjectRequestModel`: a text model whose data is the response text
    parsed as a JSON object. */
module JsonObjectModel {
  import opened Common
  import opened Model

  /** What the JSON parser does with a (possibly null) text: it returns an
      object (possibly null), or it throws with a (possibly null) message.
      The parser itself is external and is passed in as a function. */
  datatype ParseResult<Json> = Parsed(obj: Option<Json>) | Thrown(message: Option<string>)

  /** `onSuccess`: a parse failure becomes a `doError` with the JSON decode
      code and the exception's message, and the success listener is not
      called; a parsed object goes to `doSuccess` with the same network
      response, and the error listener is not called. */
  function OnSuccess<Json>(m: Model, seqId: int, resp: NetworkResp, text: Option<string>,
                           parse: Option<string> -> ParseResult<Json>): (r: seq<UserEvent<Option<Json>>>)
    ensures |r| <= 1
    ensures parse(text).Thrown? ==>
      && (|r| == 1 <==> m.errorListener.Some?)
      && forall e :: e in r ==>
           e == ErrorCalled(m.errorListener.value, ParseJsonObjectFailed, parse(text).message)
    ensures parse(text).Parsed? ==>
      && (|r| == 1 <==> m.successListener.Some?)
      && forall e :: e in r ==> e == SuccessCalled(m.successListener.value, resp, parse(text).obj)
  {
    match parse(text)
    case Thrown(message) => DoError(m, ParseJsonObjectFailed, message)
    case Parsed(obj) => DoSuccess(m, resp, obj)
  }

  /** With one listener for both outcomes, every text success reaches it
      exactly once: as success or as a parse error, never both. */
  lemma ExactlyOneOutcome<Json>(m: Model, l: ObjectRef, seqId: int, resp: NetworkResp, text: Option<string>,
                                parse: Option<string> -> ParseResult<Json>)
    ensures var r := OnSuccess(Listener(m, Some(l)), seqId, resp, text, parse);
      && |r| == 1
      && r[0].listener == l
      && (r[0].SuccessCalled? <==> parse(text).Parsed?)
      && (r[0].ErrorCalled? ==> r[0].code == ParseJsonObjectFailed)
  {
    var r := OnSuccess(Listener(m, Some(l)), seqId, resp, text, parse);
    assert r[0] in r;
  }
}

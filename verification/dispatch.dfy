/** The path from a registry delivery back to the caller: the registry calls
    the listener it holds for the id, and when that listener is a JSON text
    model, the model's `onSuccess`/`onError` turn the delivery into calls of
    the caller's own success and error listeners. */
module Dispatch {
  import opened Common
  import opened Registry
  import opened Model
  import RegistryTrace
  import TextModel
  import JsonObjectModel

  /** The JSON parser, passed in: see `JsonObjectModel.ParseResult`. */
  type Parser<Json> = Option<string> -> JsonObjectModel.ParseResult<Json>

  /** A call of a caller's listener, tagged with the request id it answers
      and the model whose listener it is. */
  datatype Fired<Json> = Fired(seqId: int, model: ObjectRef, event: UserEvent<Option<Json>>)

  /** The text a text model receives: the delivered text, or null. */
  function TextOf(content: Option<Content>): (text: Option<string>)
    ensures content.Some? && content.value.Text? ==> text == Some(content.value.text)
    ensures content.None? ==> text.None?
  {
    if content.Some? && content.value.Text? then Some(content.value.text) else None
  }

  function Tag<Json>(seqId: int, model: ObjectRef, events: seq<UserEvent<Option<Json>>>): (r: seq<Fired<Json>>)
    ensures |r| == |events|
    ensures forall i :: 0 <= i < |r| ==> r[i] == Fired(seqId, model, events[i])
  {
    if events == [] then [] else [Fired(seqId, model, events[0])] + Tag(seqId, model, events[1..])
  }

  /** One registry event routed to the JSON text model registered under its
      listener. Only a delivery fires anything, at most once, and only the
      listeners of the model the registry held for that id. */
  function Route<Json>(models: map<ObjectRef, Model>, e: Event, parse: Parser<Json>)
    : (r: seq<Fired<Json>>)
    ensures |r| <= 1
    ensures !e.IsDelivery() ==> r == []
    ensures forall f :: f in r ==>
      && e.IsDelivery() && f.seqId == e.seqId && f.model == e.listener && e.listener in models
      && (f.event.SuccessCalled? ==>
            e.SuccessDelivered? && Some(f.event.listener) == models[e.listener].successListener)
      && (f.event.ErrorCalled? ==> Some(f.event.listener) == models[e.listener].errorListener)
    ensures e.SuccessDelivered? && e.listener in models ==>
      var m := models[e.listener];
      var p := parse(TextOf(e.content));
      && (p.Parsed? ==> r == if m.successListener.Some?
            then [Fired(e.seqId, e.listener, SuccessCalled(m.successListener.value, e.headers, p.obj))]
            else [])
      && (p.Thrown? ==> r == if m.errorListener.Some?
            then [Fired(e.seqId, e.listener, ErrorCalled(m.errorListener.value, ParseJsonObjectFailed, p.message))]
            else [])
    ensures e.ErrorDelivered? && e.listener in models ==>
      var m := models[e.listener];
      r == if m.errorListener.Some?
        then [Fired(e.seqId, e.listener, ErrorCalled(m.errorListener.value, e.code, Some(e.message)))] else []
  {
    match e
    case SuccessDelivered(id, l, headers, content) =>
      if l !in models then []
      else Tag(id, l, JsonObjectModel.OnSuccess(models[l], id, headers, TextOf(content), parse))
    case ErrorDelivered(id, l, code, message) =>
      if l !in models then []
      else Tag(id, l, TextModel.OnError<Option<Json>>(models[l], id, code, Some(message)))
    case _ => []
  }

  /** Every event of a registry log, routed in order. */
  function RouteAll<Json>(models: map<ObjectRef, Model>, log: seq<Event>, parse: Parser<Json>)
    : seq<Fired<Json>>
  {
    if log == [] then []
    else RouteAll(models, log[..|log| - 1], parse) + Route(models, log[|log| - 1], parse)
  }

  /** The number of listener calls that answer `id`. */
  function FiredFor<Json>(fired: seq<Fired<Json>>, id: int): nat
  {
    if fired == [] then 0
    else FiredFor(fired[..|fired| - 1], id) + (if fired[|fired| - 1].seqId == id then 1 else 0)
  }

  lemma {:induction false} FiredForAppend<Json>(a: seq<Fired<Json>>, b: seq<Fired<Json>>, id: int)
    ensures FiredFor(a + b, id) == FiredFor(a, id) + FiredFor(b, id)
    decreases |b|
  {
    if b == [] {
      assert a + b == a;
    } else {
      var b' := b[..|b| - 1];
      assert (a + b)[..|a + b| - 1] == a + b';
      FiredForAppend(a, b', id);
    }
  }

  /** Routing never fires more listener calls for an id than the registry
      made deliveries for it. */
  lemma {:induction false} RoutingAddsNoCalls<Json>(models: map<ObjectRef, Model>, log: seq<Event>,
                                                   parse: Parser<Json>, id: int)
    ensures FiredFor(RouteAll(models, log, parse), id) <= RegistryTrace.Deliveries(log, id)
    decreases |log|
  {
    if log != [] {
      var init := log[..|log| - 1];
      var e := log[|log| - 1];
      RoutingAddsNoCalls(models, init, parse, id);
      var r := Route(models, e, parse);
      FiredForAppend(RouteAll(models, init, parse), r, id);
      if |r| == 1 {
        assert r[..0] == [];
        assert r[0] in r;
      }
    }
  }

  /** End to end: over any registry trace (without id wrap-around), each
      request id causes at most one call of a caller's listener: success,
      error or parse error, never two of them. */
  lemma AtMostOneCallerCallback<Json>(s: Registry, ops: seq<RegistryTrace.Op>, mapper: ErrorMapper,
                                      models: map<ObjectRef, Model>,
                                      parse: Parser<Json>)
    requires Valid(s) && s.seqCounter + RegistryTrace.Loads(ops) <= MAX_INT
    ensures forall id :: FiredFor(RouteAll(models, RegistryTrace.Run(s, ops, mapper).events, parse), id) <= 1
  {
    var log := RegistryTrace.Run(s, ops, mapper).events;
    RegistryTrace.RunInv(s, ops, mapper);
    forall id ensures FiredFor(RouteAll(models, log, parse), id) <= 1 {
      assert RegistryTrace.Deliveries(log, id) <= 1;
      RoutingAddsNoCalls(models, log, parse, id);
    }
  }

  /** True when every delivery for `id` in `log` goes to a JSON text model
      in `models` whose success and error listeners are both set. */
  ghost predicate CallersListen(models: map<ObjectRef, Model>, log: seq<Event>, id: int)
  {
    forall i :: 0 <= i < |log| && log[i].IsDelivery() && log[i].seqId == id ==>
      && log[i].listener in models
      && models[log[i].listener].successListener.Some?
      && models[log[i].listener].errorListener.Some?
  }

  /** One event routed to listening models fires exactly one call for its
      id when it is a delivery for that id, and none otherwise. */
  lemma RouteFiresOnce<Json>(models: map<ObjectRef, Model>, e: Event,
                             parse: Parser<Json>, id: int)
    requires e.IsDelivery() && e.seqId == id ==>
      && e.listener in models
      && models[e.listener].successListener.Some? && models[e.listener].errorListener.Some?
    ensures FiredFor(Route(models, e, parse), id) == if e.IsDelivery() && e.seqId == id then 1 else 0
  {
    var r := Route(models, e, parse);
    if |r| == 1 {
      assert r[..0] == [];
      assert r[0] in r;
    }
  }

  /** When the models listen, routing loses nothing: every registry
      delivery for `id` becomes exactly one call of a caller's listener. */
  lemma {:induction false} RoutingReachesCaller<Json>(models: map<ObjectRef, Model>, log: seq<Event>,
                                                     parse: Parser<Json>, id: int)
    requires CallersListen(models, log, id)
    ensures FiredFor(RouteAll(models, log, parse), id) == RegistryTrace.Deliveries(log, id)
    decreases |log|
  {
    if log != [] {
      var init := log[..|log| - 1];
      var e := log[|log| - 1];
      assert CallersListen(models, init, id) by {
        forall i | 0 <= i < |init| ensures init[i] == log[i] { }
      }
      RoutingReachesCaller(models, init, parse, id);
      FiredForAppend(RouteAll(models, init, parse), Route(models, e, parse), id);
      RouteFiresOnce(models, e, parse, id);
    }
  }

  /** End to end: over any registry trace (without id wrap-around), an id
      that the registry delivered to a listening JSON text model causes
      exactly one call of a caller's listener. */
  lemma ExactlyOneCallerCallback<Json>(s: Registry, ops: seq<RegistryTrace.Op>, mapper: ErrorMapper,
                                       models: map<ObjectRef, Model>,
                                       parse: Parser<Json>, id: int, i: int)
    requires Valid(s) && s.seqCounter + RegistryTrace.Loads(ops) <= MAX_INT
    requires var log := RegistryTrace.Run(s, ops, mapper).events;
      && 0 <= i < |log| && log[i].IsDelivery() && log[i].seqId == id
      && CallersListen(models, log, id)
    ensures FiredFor(RouteAll(models, RegistryTrace.Run(s, ops, mapper).events, parse), id) == 1
  {
    var log := RegistryTrace.Run(s, ops, mapper).events;
    RegistryTrace.RunInv(s, ops, mapper);
    assert RegistryTrace.Deliveries(log, id) <= 1;
    RegistryTrace.OneDeliveryCountsOnce(log, id, i);
    RoutingReachesCaller(models, log, parse, id);
  }
}

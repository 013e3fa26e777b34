/** Text models (`AbstractTextRequestModel`): a model whose submission path
    is the registry's text entry point, with the model itself as the
    registry listener. */
module TextModel {
  import opened Common
  import D = Descriptor
  import R = Registry
  import opened Model

  /** The outcome of loading a model: the model with its descriptor
      stamped, the registry after submission, the id returned and the
      registry's events. */
  datatype Loaded = Loaded(model: Model, registry: R.Registry, seqId: Int32, events: seq<R.Event>)

  /** The transport payload the registry's text entry point builds from the
      descriptor `req`. */
  function TextPayloadOf(req: D.Request): R.Payload
  {
    R.TextPayload(req.requestMethod, req.url, req.params, req.headers, req.body)
  }

  /** `loadInternal`: `loadTextModel(mRequest, this)`. The registry stamps
      the id on this model's own descriptor, registers this model as the
      listener, and the id it returns is the one `loadInternal` returns;
      everything else the registry promises of a load holds as well. */
  function LoadInternal(m: Model, reg: R.Registry): (r: Loaded)
    ensures SameBinding(m, r.model)
    ensures R.Submitted(reg, m.request, TextPayloadOf(m.request), Some(m.self),
                        R.Submission(r.registry, r.model.request, r.seqId, r.events))
  {
    var sub := R.LoadTextModel(reg, m.request, Some(m.self));
    Loaded(m.(request := sub.request), sub.registry, sub.seqId, sub.events)
  }

  /** `load()`: the before-load hook, then the filler, then `loadInternal`;
      its result is `loadInternal`'s. What is submitted is the descriptor
      as the hooks left it. */
  function Load(m: Model, reg: R.Registry, hooks: Hooks): (r: Loaded)
    ensures var prepared := BeforeSubmit(m, hooks);
      && SameBinding(prepared, r.model)
      && R.Submitted(reg, prepared.request, TextPayloadOf(prepared.request), Some(m.self),
                     R.Submission(r.registry, r.model.request, r.seqId, r.events))
  {
    LoadInternal(BeforeSubmit(m, hooks), reg)
  }

  /** `onError`: the registry's error callback reaches `doError` with the
      code and message unchanged. */
  function OnError<Data>(m: Model, seqId: int, code: ErrorCode, message: Option<string>)
    : (r: seq<UserEvent<Data>>)
    ensures |r| == 1 <==> m.errorListener.Some?
    ensures |r| <= 1
    ensures forall e :: e in r ==> e == ErrorCalled(m.errorListener.value, code, message)
  {
    DoError(m, code, message)
  }

  /** With no life listener and no filler, `load()` is exactly
      `loadInternal()`. */
  lemma LoadWithoutHooks(m: Model, reg: R.Registry, hooks: Hooks)
    requires m.lifeListener.None? && m.filler.None?
    ensures Load(m, reg, hooks) == LoadInternal(m, reg)
  {
  }

  /** A filler's rewrite of the descriptor is what reaches the registry:
      with only a filler set, the submitted url, headers and params are the
      filled ones. */
  lemma FillerResultIsSubmitted(m: Model, reg: R.Registry, hooks: Hooks)
    requires m.lifeListener.None? && m.filler.Some?
    ensures var r := Load(m, reg, hooks);
      var filled := hooks.fill(m.filler.value, m.request);
      r.registry.pending[r.seqId].request.payload ==
        TextPayloadOf(filled)
  {
  }

  /** Loading on a valid registry issues an id that is not in use;
      cancelling the loaded model then removes exactly that node and
      cancels its transport request, restoring the previous pending map.
      This holds at the wrap too; below it the id is the counter plus one
      and the registry stays valid. */
  lemma LoadThenCancel(m: Model, reg: R.Registry, hooks: Hooks)
    requires R.Valid(reg)
    ensures var r := Load(m, reg, hooks);
      var c := Cancel(r.model, r.registry);
      && r.seqId !in reg.pending
      && c.events == [R.CancelIssued(r.registry.pending[r.seqId].request)]
      && r.seqId !in c.registry.pending
      && c.registry.pending == reg.pending
      && (reg.seqCounter < MAX_INT ==> r.seqId == reg.seqCounter + 1 && R.Valid(r.registry))
  {
    var p := BeforeSubmit(m, hooks);
    var payload := TextPayloadOf(p.request);
    if reg.seqCounter < MAX_INT {
      R.SubmitPreservesValid(reg, p.request, payload, Some(p.self));
    }
    var r := Load(m, reg, hooks);
    var c := Cancel(r.model, r.registry);
    assert r.seqId !in reg.pending;
    assert c.registry.pending == reg.pending;
  }
}

/** The fluent request model (`AbstractModel`): a descriptor plus the
    caller's listeners and hooks. In the library every fluent call mutates
    the model and returns the same instance; here it returns the updated
    model value, so `m.Url(u).Head(k, v)` is the composition of the two
    updates and the model's identity `self` never changes. */
module Model {
  import opened Common
  import D = Descriptor
  import R = Registry

  /** Which registry a model talks to: its own client, or the default. */
  datatype ClientRef = DefaultClient | OwnClient(ref: ObjectRef)

  /** Listeners, hooks and the client are held by identity; a null field is
      `None`. `self` is the model object itself, which the text models
      register with the registry as their listener. */
  datatype Model = Model(
    self: ObjectRef,
    request: D.Request,
    successListener: Option<ObjectRef>,
    errorListener: Option<ObjectRef>,
    lifeListener: Option<ObjectRef>,
    filler: Option<ObjectRef>,
    client: Option<ObjectRef>)

  /** The response metadata (`NetworkResp`) handed to success listeners;
      only its headers are modelled, and it may be null. */
  type NetworkResp = Option<Headers>

  /** A call into one of the caller's listeners. */
  datatype UserEvent<Data> =
    | SuccessCalled(listener: ObjectRef, resp: NetworkResp, data: Data)
    | ErrorCalled(listener: ObjectRef, code: ErrorCode, message: Option<string>)

  /** What the caller's hooks do: the life listener's `onBeforeLoad` may
      reconfigure the model it is given, and a request filler may rewrite
      the descriptor. Both are external code, passed in as functions of
      the hook's identity. */
  datatype Hooks = Hooks(
    onBeforeLoad: (ObjectRef, Model) -> Model,
    fill: (ObjectRef, D.Request) -> D.Request)

  /** The constructor: a fresh descriptor and no listeners. */
  function NewModel(self: ObjectRef): (m: Model)
    ensures m.self == self && m.request == D.NewRequest()
    ensures m.successListener.None? && m.errorListener.None?
    ensures m.lifeListener.None? && m.filler.None? && m.client.None?
  {
    Model(self, D.NewRequest(), None, None, None, None, None)
  }

  /** True when `a` and `b` agree on everything but the descriptor. */
  predicate SameBinding(a: Model, b: Model)
  {
    a.self == b.self && a.successListener == b.successListener &&
    a.errorListener == b.errorListener && a.lifeListener == b.lifeListener &&
    a.filler == b.filler && a.client == b.client
  }

  /** True when `a` and `b` agree on everything but the two listeners. */
  predicate SameExceptListeners(a: Model, b: Model)
  {
    a.self == b.self && a.request == b.request && a.lifeListener == b.lifeListener &&
    a.filler == b.filler && a.client == b.client
  }

  // Fluent descriptor setters: each updates only the descriptor.

  function Url(m: Model, url: Option<string>): (r: Model)
    ensures SameBinding(m, r) && r.request == D.Url(m.request, url)
  {
    m.(request := D.Url(m.request, url))
  }

  function WithMethod(m: Model, method': D.HttpMethod): (r: Model)
    ensures SameBinding(m, r) && r.request == D.WithMethod(m.request, method')
  {
    m.(request := D.WithMethod(m.request, method'))
  }

  function Head(m: Model, key: string, value: string): (r: Model)
    ensures SameBinding(m, r) && r.request == D.Head(m.request, key, value)
  {
    m.(request := D.Head(m.request, key, value))
  }

  function Param(m: Model, key: string, obj: Option<ObjectRef>): (r: Model)
    ensures SameBinding(m, r) && r.request == D.Param(m.request, key, obj)
  {
    m.(request := D.Param(m.request, key, obj))
  }

  function Body(m: Model, body: Option<seq<Byte>>): (r: Model)
    ensures SameBinding(m, r) && r.request == D.Body(m.request, body)
  {
    m.(request := D.Body(m.request, body))
  }

  function ParamCheckNull(m: Model, key: string, obj: Option<ObjectRef>): (r: Model)
    ensures SameBinding(m, r) && r.request == D.ParamCheckNull(m.request, key, obj)
  {
    m.(request := D.ParamCheckNull(m.request, key, obj))
  }

  function AddParams(m: Model, params: D.Params): (r: Model)
    ensures SameBinding(m, r) && r.request == D.AddParams(m.request, params)
  {
    m.(request := D.AddParams(m.request, params))
  }

  function FillExtraHeader(m: Model, fill: bool): (r: Model)
    ensures SameBinding(m, r) && r.request == D.FillExtraHeader(m.request, fill)
  {
    m.(request := D.FillExtraHeader(m.request, fill))
  }

  // Listener and hook registration.

  /** `listener(l)`: one object serves as both the success and the error
      listener. */
  function Listener(m: Model, l: Option<ObjectRef>): (r: Model)
    ensures r.successListener == l && r.errorListener == l
    ensures SameExceptListeners(m, r)
  {
    m.(successListener := l, errorListener := l)
  }

  /** `success(l)`: replaces only the success listener. */
  function Success(m: Model, l: Option<ObjectRef>): (r: Model)
    ensures r.successListener == l && r.errorListener == m.errorListener
    ensures SameExceptListeners(m, r)
  {
    m.(successListener := l)
  }

  /** `error(l)`: replaces only the error listener. */
  function Error(m: Model, l: Option<ObjectRef>): (r: Model)
    ensures r.errorListener == l && r.successListener == m.successListener
    ensures SameExceptListeners(m, r)
  {
    m.(errorListener := l)
  }

  function Filler(m: Model, f: Option<ObjectRef>): (r: Model)
    ensures r.filler == f && r.self == m.self && r.request == m.request
    ensures r == m.(filler := r.filler)
  {
    m.(filler := f)
  }

  function LifeListener(m: Model, l: Option<ObjectRef>): (r: Model)
    ensures r.lifeListener == l && r.self == m.self && r.request == m.request
    ensures r == m.(lifeListener := r.lifeListener)
  {
    m.(lifeListener := l)
  }

  function Client(m: Model, c: Option<ObjectRef>): (r: Model)
    ensures r.client == c && r.self == m.self && r.request == m.request
    ensures r == m.(client := r.client)
  {
    m.(client := c)
  }

  /** `getHttpClient`: the model's own client when one is set, otherwise
      the default one. */
  function GetHttpClient(m: Model): (c: ClientRef)
    ensures c.OwnClient? <==> m.client.Some?
    ensures c.OwnClient? ==> c.ref == m.client.value
  {
    if m.client.Some? then OwnClient(m.client.value) else DefaultClient
  }

  /** `listener(l)` is `success(l)` followed by `error(l)`, in either order. */
  lemma ListenerIsSuccessAndError(m: Model, l: Option<ObjectRef>)
    ensures Listener(m, l) == Error(Success(m, l), l)
    ensures Listener(m, l) == Success(Error(m, l), l)
  {
  }

  /** A later registration replaces an earlier one of the same listener and
      leaves the other listener as it was. */
  lemma LaterRegistrationWins(m: Model, l1: Option<ObjectRef>, l2: Option<ObjectRef>)
    ensures Success(Listener(m, l1), l2).errorListener == l1
    ensures Success(Listener(m, l1), l2).successListener == l2
    ensures Error(Listener(m, l1), l2).successListener == l1
    ensures Error(Listener(m, l1), l2).errorListener == l2
  {
  }

  /** Setting a client makes `getHttpClient` return it; a fresh model uses
      the default client. */
  lemma ClientOverridesDefault(m: Model, c: ObjectRef, self: ObjectRef)
    ensures GetHttpClient(Client(m, Some(c))) == OwnClient(c)
    ensures GetHttpClient(Client(m, None)) == DefaultClient
    ensures GetHttpClient(NewModel(self)) == DefaultClient
  {
  }

  /** `doSuccess`: the success listener, if any, receives the response and
      the data unchanged; with no listener nothing happens. */
  function DoSuccess<Data>(m: Model, resp: NetworkResp, data: Data): (r: seq<UserEvent<Data>>)
    ensures |r| == (if m.successListener.Some? then 1 else 0)
    ensures forall e :: e in r ==> e == SuccessCalled(m.successListener.value, resp, data)
  {
    if m.successListener.Some? then [SuccessCalled(m.successListener.value, resp, data)] else []
  }

  /** `doError`: the error listener, if any, receives the code and the
      message unchanged; with no listener nothing happens. */
  function DoError<Data>(m: Model, code: ErrorCode, message: Option<string>): (r: seq<UserEvent<Data>>)
    ensures |r| == (if m.errorListener.Some? then 1 else 0)
    ensures forall e :: e in r ==> e == ErrorCalled(m.errorListener.value, code, message)
  {
    if m.errorListener.Some? then [ErrorCalled(m.errorListener.value, code, message)] else []
  }

  /** The part of `load()` before `loadInternal`: first the life listener's
      `onBeforeLoad` (when one is set) on this model, then the filler that
      is set AFTER that hook ran (when one is) on the resulting descriptor.
      The hooks act on this same object, so `self` is kept. */
  function BeforeSubmit(m: Model, hooks: Hooks): (r: Model)
    ensures r.self == m.self
    ensures m.lifeListener.None? && m.filler.None? ==> r == m
    ensures m.lifeListener.None? && m.filler.Some? ==>
      SameBinding(m, r) && r.request == hooks.fill(m.filler.value, m.request)
    ensures m.lifeListener.Some? ==>
      var hooked := hooks.onBeforeLoad(m.lifeListener.value, m);
      SameBinding(hooked.(self := m.self), r) &&
      r.request == if hooked.filler.Some? then hooks.fill(hooked.filler.value, hooked.request)
                   else hooked.request
  {
    var afterHook :=
      if m.lifeListener.Some? then hooks.onBeforeLoad(m.lifeListener.value, m).(self := m.self) else m;
    if afterHook.filler.Some? then afterHook.(request := hooks.fill(afterHook.filler.value, afterHook.request))
    else afterHook
  }

  /** `cancel()`: asks the registry to cancel whatever id the descriptor
      carries. Before any load that is 0, which the registry never issues,
      so nothing happens. */
  function Cancel(m: Model, reg: R.Registry): (r: R.Transition)
    ensures R.RemovedOnly(reg, r.registry, m.request.seqId)
    ensures m.request.seqId in reg.pending ==>
      r.events == [R.CancelIssued(reg.pending[m.request.seqId].request)]
    ensures m.request.seqId !in reg.pending ==> r == R.Transition(reg, [])
  {
    R.CancelBizModel(reg, m.request.seqId)
  }

  /** A model that was never loaded cancels nothing on a valid registry. */
  lemma CancelBeforeLoadIsNoOp(self: ObjectRef, reg: R.Registry)
    requires R.Valid(reg)
    ensures Cancel(NewModel(self), reg) == R.Transition(reg, [])
  {
    R.CancelUnissuedIsNoOp(reg, 0);
  }
}

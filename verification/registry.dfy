/** The dispatch registry (`BizHttpManager`): it issues sequence ids, keeps
    one pending node per in-flight request, attaches the retry policy and
    the extra-headers filler, and turns transport completions into at most
    one delivery to the registered listener.

    The loads, `cancelBizModel` and the completion handlers hold the
    registry's lock; `onCreate`, `onTerminate` and the three setters do
    not. Every operation is modelled as one atomic transition of an
    immutable state. What the registry does to the outside world (queueing
    a transport request, cancelling one, calling a listener) is recorded as
    events. */
module Registry {
  import opened Common
  import D = Descriptor

  const DEFAULT_TIMEOUT_MS: int := 20 * 1000
  const UPLOAD_TIMEOUT_MS: int := 40 * 1000
  /** Every policy the registry builds allows one retry. Its float backoff
      multiplier (1.0) is not modelled. */
  const MAX_NUM_RETRIES: int := 1

  datatype RetryPolicy = RetryPolicy(timeoutMs: Int32, maxNumRetries: int)

  /** The kind-specific transport request: each kind copies exactly the
      descriptor fields its transport constructor takes. */
  datatype Payload =
    | TextPayload(requestMethod: D.HttpMethod, url: Option<string>, params: D.Params,
                  headers: Headers, body: Option<seq<Byte>>)
    | BinaryPayload(url: Option<string>, params: D.Params, headers: Headers, body: Option<seq<Byte>>)
    | UploadPayload(url: Option<string>, formItems: seq<ObjectRef>, headers: Headers)
    | DownloadPayload(url: Option<string>, params: D.Params, headers: Headers)
    | DownloadFilePayload(url: Option<string>, params: D.Params, headers: Headers, filePath: Option<string>)

  /** The transport-level request handed to the queue. */
  datatype TransportRequest = TransportRequest(
    seqId: Int32,
    payload: Payload,
    retryPolicy: Option<RetryPolicy>,
    extraHeadersFiller: Option<ObjectRef>)

  /** A pending entry: the transport request and the caller's listener. */
  datatype Node = Node(seqId: Int32, request: TransportRequest, listener: Option<ObjectRef>)

  datatype Registry = Registry(
    seqCounter: Int32,
    pending: map<int, Node>,
    defaultPolicy: Option<RetryPolicy>,
    uploadPolicy: Option<RetryPolicy>,
    extraHeadersFiller: Option<ObjectRef>)

  /** Content a transport hands back: text for the text, upload and
      download-to-file kinds, bytes for the binary and download kinds. */
  datatype Content = Text(text: string) | Bytes(bytes: seq<Byte>)

  datatype Response = Response(headers: Headers, content: Content)

  /** The two external functions applied to a transport error: the mapping
      to the library's error code and the error's string form. */
  datatype ErrorMapper = ErrorMapper(fromError: ObjectRef -> ErrorCode, describe: ObjectRef -> string)

  /** What the registry does to the outside world. */
  datatype Event =
    | Enqueued(request: TransportRequest)
    | CancelIssued(request: TransportRequest)
    | SuccessDelivered(seqId: int, listener: ObjectRef, headers: Option<Headers>, content: Option<Content>)
    | ErrorDelivered(seqId: int, listener: ObjectRef, code: ErrorCode, message: string)
  {
    /** A call into a caller's listener. */
    predicate IsDelivery() { SuccessDelivered? || ErrorDelivered? }
  }

  /** The state right after construction, before `onCreate`: the counter
      is 0, nothing is pending and neither policy is set yet. */
  function NewRegistry(): (s: Registry)
    ensures s.seqCounter == 0 && s.pending == map[]
    ensures s.defaultPolicy.None? && s.uploadPolicy.None? && s.extraHeadersFiller.None?
  {
    Registry(0, map[], None, None, None)
  }

  /** The registry's well-formedness: every pending node sits under the id
      stamped on it, and that id was issued (between 1 and the counter). */
  ghost predicate Valid(s: Registry)
  {
    && 0 <= s.seqCounter
    && forall id :: id in s.pending ==>
         1 <= id <= s.seqCounter && s.pending[id].seqId == id && s.pending[id].request.seqId == id
  }

  function SetUploadTimeoutMilliseconds(s: Registry, ms: Int32): (s': Registry)
    ensures s'.uploadPolicy == Some(RetryPolicy(ms, MAX_NUM_RETRIES))
    ensures s' == s.(uploadPolicy := s'.uploadPolicy)
  {
    s.(uploadPolicy := Some(RetryPolicy(ms, MAX_NUM_RETRIES)))
  }

  function SetDefaultTimeoutMilliseconds(s: Registry, ms: Int32): (s': Registry)
    ensures s'.defaultPolicy == Some(RetryPolicy(ms, MAX_NUM_RETRIES))
    ensures s' == s.(defaultPolicy := s'.defaultPolicy)
  {
    s.(defaultPolicy := Some(RetryPolicy(ms, MAX_NUM_RETRIES)))
  }

  function SetExtraHeadersFiller(s: Registry, filler: Option<ObjectRef>): (s': Registry)
    ensures s'.extraHeadersFiller == filler
    ensures s' == s.(extraHeadersFiller := filler)
  {
    s.(extraHeadersFiller := filler)
  }

  /** `onCreate`: installs the upload and the default timeouts. */
  function OnCreate(s: Registry): (s': Registry)
    ensures s'.uploadPolicy == Some(RetryPolicy(40000, 1))
    ensures s'.defaultPolicy == Some(RetryPolicy(20000, 1))
    ensures s'.seqCounter == s.seqCounter && s'.pending == s.pending
    ensures s'.extraHeadersFiller == s.extraHeadersFiller
  {
    SetDefaultTimeoutMilliseconds(SetUploadTimeoutMilliseconds(s, UPLOAD_TIMEOUT_MS), DEFAULT_TIMEOUT_MS)
  }

  /** `onTerminate`: forgets every pending node without cancelling it. */
  function OnTerminate(s: Registry): (s': Registry)
    ensures s'.pending == map[]
    ensures s'.seqCounter == s.seqCounter
    ensures s' == s.(pending := map[])
  {
    s.(pending := map[])
  }

  /** `nextSeqId`: `addAndGet(1)` on a 32-bit counter. Ids count up from 1
      and wrap to the most negative `int` after the largest one. */
  function NextSeqId(counter: Int32): (id: Int32)
    ensures counter < MAX_INT ==> id == counter + 1
    ensures counter == MAX_INT ==> id == MIN_INT
  {
    WrapInt(counter + 1)
  }

  /** The retry policy `addRequestNode` attaches: the upload policy for an
      upload request, the default policy for every other kind. */
  function PolicyFor(s: Registry, payload: Payload): (p: Option<RetryPolicy>)
    ensures payload.UploadPayload? ==> p == s.uploadPolicy
    ensures !payload.UploadPayload? ==> p == s.defaultPolicy
  {
    if payload.UploadPayload? then s.uploadPolicy else s.defaultPolicy
  }

  /** The outcome of a `load*Model` call: the new registry state, the
      descriptor with its id stamped, the id returned, and the events. */
  datatype Submission = Submission(registry: Registry, request: D.Request, seqId: Int32, events: seq<Event>)

  /** What a load does, whichever kind it submits: the next id is issued and
      becomes the counter, it is stamped on the descriptor (nothing else in
      the descriptor changes), a node for it holds the listener and the
      transport request with the kind's policy and the filler iff the
      descriptor asks for one, that request is queued, and every other node,
      both policies and the filler are untouched. */
  ghost predicate Submitted(s: Registry, req: D.Request, payload: Payload, listener: Option<ObjectRef>,
                            r: Submission)
  {
    && r.seqId == NextSeqId(s.seqCounter) && r.registry.seqCounter == r.seqId
    && r.request == req.(seqId := r.seqId)
    && r.seqId in r.registry.pending
    && (var node := r.registry.pending[r.seqId];
        && node.seqId == r.seqId && node.listener == listener
        && node.request.seqId == r.seqId && node.request.payload == payload
        && node.request.retryPolicy == PolicyFor(s, payload)
        && node.request.extraHeadersFiller == (if req.fillExtraHeader then s.extraHeadersFiller else None)
        && r.events == [Enqueued(node.request)])
    && (forall id :: id != r.seqId ==>
          (id in r.registry.pending <==> id in s.pending) &&
          (id in s.pending ==> r.registry.pending[id] == s.pending[id]))
    && r.registry.defaultPolicy == s.defaultPolicy && r.registry.uploadPolicy == s.uploadPolicy
    && r.registry.extraHeadersFiller == s.extraHeadersFiller
  }

  /** `nextSeqId`, `request.seqId(id)` and `addRequestNode`, shared by the
      five entry points. */
  function Submit(s: Registry, req: D.Request, payload: Payload, listener: Option<ObjectRef>): (r: Submission)
    ensures Submitted(s, req, payload, listener, r)
  {
    var seqId := NextSeqId(s.seqCounter);
    var stamped := D.SeqId(req, seqId);
    var filler := if stamped.fillExtraHeader then s.extraHeadersFiller else None;
    var transport := TransportRequest(seqId, payload, PolicyFor(s, payload), filler);
    var node := Node(seqId, transport, listener);
    var s' := s.(seqCounter := seqId, pending := s.pending[seqId := node]);
    Submission(s', stamped, seqId, [Enqueued(transport)])
  }

  /** `loadTextModel`: method, url, params, headers and body travel, with
      the default policy. */
  function LoadTextModel(s: Registry, req: D.Request, listener: Option<ObjectRef>): (r: Submission)
    ensures Submitted(s, req, TextPayload(req.requestMethod, req.url, req.params, req.headers, req.body),
                      listener, r)
    ensures r.registry.pending[r.seqId].request.retryPolicy == s.defaultPolicy
  {
    Submit(s, req, TextPayload(req.requestMethod, req.url, req.params, req.headers, req.body), listener)
  }

  /** `loadBinaryModel`: like text, but the transport takes no method. */
  function LoadBinaryModel(s: Registry, req: D.Request, listener: Option<ObjectRef>): (r: Submission)
    ensures Submitted(s, req, BinaryPayload(req.url, req.params, req.headers, req.body), listener, r)
    ensures r.registry.pending[r.seqId].request.retryPolicy == s.defaultPolicy
  {
    Submit(s, req, BinaryPayload(req.url, req.params, req.headers, req.body), listener)
  }

  /** `loadUploadModel`: form items replace params and body, and the upload
      policy applies. */
  function LoadUploadModel(s: Registry, req: D.Request, formItems: seq<ObjectRef>, listener: Option<ObjectRef>)
    : (r: Submission)
    ensures Submitted(s, req, UploadPayload(req.url, formItems, req.headers), listener, r)
    ensures r.registry.pending[r.seqId].request.retryPolicy == s.uploadPolicy
  {
    Submit(s, req, UploadPayload(req.url, formItems, req.headers), listener)
  }

  /** `loadDownloadModel`: url, params and headers travel. */
  function LoadDownloadModel(s: Registry, req: D.Request, listener: Option<ObjectRef>): (r: Submission)
    ensures Submitted(s, req, DownloadPayload(req.url, req.params, req.headers), listener, r)
    ensures r.registry.pending[r.seqId].request.retryPolicy == s.defaultPolicy
  {
    Submit(s, req, DownloadPayload(req.url, req.params, req.headers), listener)
  }

  /** `loadDownloadFileModel`: a download that also carries the file path. */
  function LoadDownloadFileModel(s: Registry, req: D.Request, filePath: Option<string>, listener: Option<ObjectRef>)
    : (r: Submission)
    ensures Submitted(s, req, DownloadFilePayload(req.url, req.params, req.headers, filePath), listener, r)
    ensures r.registry.pending[r.seqId].request.retryPolicy == s.defaultPolicy
  {
    Submit(s, req, DownloadFilePayload(req.url, req.params, req.headers, filePath), listener)
  }

  /** The outcome of a cancel or a completion. */
  datatype Transition = Transition(registry: Registry, events: seq<Event>)

  /** True when `b` is `a` with the pending node of `id` (if any) removed. */
  ghost predicate RemovedOnly(a: Registry, b: Registry, id: int)
  {
    && id !in b.pending
    && (forall k :: k != id ==> (k in b.pending <==> k in a.pending))
    && (forall k :: k != id && k in a.pending ==> b.pending[k] == a.pending[k])
    && b.seqCounter == a.seqCounter
    && b.defaultPolicy == a.defaultPolicy && b.uploadPolicy == a.uploadPolicy
    && b.extraHeadersFiller == a.extraHeadersFiller
  }

  /** `cancelBizModel`: removes the node and cancels its transport request;
      an id that is not pending changes nothing and cancels nothing. */
  function CancelBizModel(s: Registry, seqId: int): (r: Transition)
    ensures RemovedOnly(s, r.registry, seqId)
    ensures seqId in s.pending ==> r.events == [CancelIssued(s.pending[seqId].request)]
    ensures seqId !in s.pending ==> r == Transition(s, [])
    ensures forall e :: e in r.events ==> !e.IsDelivery()
  {
    if seqId in s.pending then
      Transition(s.(pending := s.pending - {seqId}), [CancelIssued(s.pending[seqId].request)])
    else
      Transition(s, [])
  }

  /** `WrappedRequestListener.onSuccess` with `handleSuccess`: the node is
      removed first; only a node that was present and has a listener
      produces a delivery. A null response is delivered as null headers and
      null content. The five kinds' handlers behave identically. */
  function OnSuccess(s: Registry, seqId: int, response: Option<Response>): (r: Transition)
    ensures RemovedOnly(s, r.registry, seqId)
    ensures |r.events| <= 1
    ensures |r.events| == 1 <==> seqId in s.pending && s.pending[seqId].listener.Some?
    ensures forall e :: e in r.events ==>
      && e.SuccessDelivered? && e.seqId == seqId && e.listener == s.pending[seqId].listener.value
      && (response.None? ==> e.headers.None? && e.content.None?)
      && (response.Some? ==>
            e.headers == Some(response.value.headers) && e.content == Some(response.value.content))
  {
    if seqId !in s.pending then Transition(s, [])
    else
      var node := s.pending[seqId];
      var s' := s.(pending := s.pending - {seqId});
      if node.listener.None? then Transition(s', [])
      else if response.None? then Transition(s', [SuccessDelivered(seqId, node.listener.value, None, None)])
      else
        Transition(s', [SuccessDelivered(seqId, node.listener.value,
                                         Some(response.value.headers), Some(response.value.content))])
  }

  /** `handleError`: the same removal, then the listener's `onError` with
      the mapped code and the error's string form. */
  function HandleError(s: Registry, seqId: int, error: ObjectRef, mapper: ErrorMapper): (r: Transition)
    ensures RemovedOnly(s, r.registry, seqId)
    ensures |r.events| <= 1
    ensures |r.events| == 1 <==> seqId in s.pending && s.pending[seqId].listener.Some?
    ensures forall e :: e in r.events ==>
      && e.ErrorDelivered? && e.seqId == seqId && e.listener == s.pending[seqId].listener.value
      && e.code == mapper.fromError(error) && e.message == mapper.describe(error)
  {
    if seqId !in s.pending then Transition(s, [])
    else
      var node := s.pending[seqId];
      var s' := s.(pending := s.pending - {seqId});
      if node.listener.None? then Transition(s', [])
      else
        var code := mapper.fromError(error);
        Transition(s', [ErrorDelivered(seqId, node.listener.value, code, mapper.describe(error))])
  }

  /** The filler is attached exactly when the descriptor asks for it, and
      then it is the registry's current filler. */
  lemma FillerOnlyWhenFlagged(s: Registry, req: D.Request, payload: Payload, listener: Option<ObjectRef>)
    ensures var r := Submit(s, req, payload, listener);
      var attached := r.registry.pending[r.seqId].request.extraHeadersFiller;
      (req.fillExtraHeader ==> attached == s.extraHeadersFiller) &&
      (!req.fillExtraHeader ==> attached.None?)
  {
  }

  /** After `onCreate`, an upload request waits 40 s and every other kind
      waits 20 s. */
  lemma TimeoutsAfterCreate(s: Registry, req: D.Request, payload: Payload, listener: Option<ObjectRef>)
    ensures var r := Submit(OnCreate(s), req, payload, listener);
      var p := r.registry.pending[r.seqId].request.retryPolicy;
      p.Some? && p.value.maxNumRetries == 1 &&
      p.value.timeoutMs == (if payload.UploadPayload? then 40000 else 20000)
  {
  }

  /** A submission on a valid registry issues an id that was not in use and
      keeps the registry valid, as long as the counter has not reached the
      largest `int`. */
  lemma SubmitPreservesValid(s: Registry, req: D.Request, payload: Payload, listener: Option<ObjectRef>)
    requires Valid(s) && s.seqCounter < MAX_INT
    ensures var r := Submit(s, req, payload, listener);
      r.seqId == s.seqCounter + 1 && r.seqId !in s.pending && Valid(r.registry)
  {
  }

  /** The id counter wraps: after the largest `int` the next id issued is
      negative, so ids are increasing only up to 2^31 - 1 allocations. */
  lemma SeqIdWraps(s: Registry, req: D.Request, payload: Payload, listener: Option<ObjectRef>)
    requires s.seqCounter == MAX_INT
    ensures Submit(s, req, payload, listener).seqId == MIN_INT < 0
  {
  }

  /** Cancelling an id the registry never issued is a no-op: in particular
      id 0, which a descriptor carries before it is loaded. */
  lemma CancelUnissuedIsNoOp(s: Registry, seqId: int)
    requires Valid(s) && (seqId <= 0 || seqId > s.seqCounter)
    ensures CancelBizModel(s, seqId) == Transition(s, [])
  {
  }

  /** Once any of cancel, success or error has removed a node, a second
      completion or cancel of that id does nothing at all. */
  lemma SecondCompletionIsNoOp(s: Registry, seqId: int, response: Option<Response>, error: ObjectRef,
                               mapper: ErrorMapper)
    requires seqId !in s.pending
    ensures OnSuccess(s, seqId, response) == Transition(s, [])
    ensures HandleError(s, seqId, error, mapper) == Transition(s, [])
    ensures CancelBizModel(s, seqId) == Transition(s, [])
  {
  }

  /** A success completion whose response is null still reaches a pending
      node's listener, with null headers and null content. */
  lemma NullResponseStillDelivered(s: Registry, seqId: int)
    requires seqId in s.pending && s.pending[seqId].listener.Some?
    ensures OnSuccess(s, seqId, None).events ==
      [SuccessDelivered(seqId, s.pending[seqId].listener.value, None, None)]
  {
  }
}

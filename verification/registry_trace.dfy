/** Arbitrary sequences of registry operations. The loads, cancels and
    completions hold the registry's lock, so any interleaving of them is one
    sequential trace of the transitions in `Registry`. `onCreate`,
    `onTerminate` and the setters are unlocked in the code but are taken
    here as atomic steps too. The theorems hold for every such trace. */
module RegistryTrace {
  import opened Common
  import D = Descriptor
  import opened Registry

  /** One registry operation, taken as an atomic step. */
  datatype Op =
    | LoadText(req: D.Request, listener: Option<ObjectRef>)
    | LoadBinary(req: D.Request, listener: Option<ObjectRef>)
    | LoadUpload(req: D.Request, formItems: seq<ObjectRef>, listener: Option<ObjectRef>)
    | LoadDownload(req: D.Request, listener: Option<ObjectRef>)
    | LoadDownloadFile(req: D.Request, filePath: Option<string>, listener: Option<ObjectRef>)
    | Cancel(seqId: int)
    | Success(seqId: int, response: Option<Response>)
    | Error(seqId: int, error: ObjectRef)
    | Create
    | Terminate
    | SetUploadTimeout(ms: Int32)
    | SetDefaultTimeout(ms: Int32)
    | SetFiller(filler: Option<ObjectRef>)
  {
    predicate IsLoad() {
      LoadText? || LoadBinary? || LoadUpload? || LoadDownload? || LoadDownloadFile?
    }
  }

  function Step(s: Registry, op: Op, mapper: ErrorMapper): Transition
  {
    match op
    case LoadText(req, l) => var r := LoadTextModel(s, req, l); Transition(r.registry, r.events)
    case LoadBinary(req, l) => var r := LoadBinaryModel(s, req, l); Transition(r.registry, r.events)
    case LoadUpload(req, items, l) =>
      var r := LoadUploadModel(s, req, items, l); Transition(r.registry, r.events)
    case LoadDownload(req, l) => var r := LoadDownloadModel(s, req, l); Transition(r.registry, r.events)
    case LoadDownloadFile(req, path, l) =>
      var r := LoadDownloadFileModel(s, req, path, l); Transition(r.registry, r.events)
    case Cancel(id) => CancelBizModel(s, id)
    case Success(id, resp) => OnSuccess(s, id, resp)
    case Error(id, err) => HandleError(s, id, err, mapper)
    case Create => Transition(OnCreate(s), [])
    case Terminate => Transition(OnTerminate(s), [])
    case SetUploadTimeout(ms) => Transition(SetUploadTimeoutMilliseconds(s, ms), [])
    case SetDefaultTimeout(ms) => Transition(SetDefaultTimeoutMilliseconds(s, ms), [])
    case SetFiller(f) => Transition(SetExtraHeadersFiller(s, f), [])
  }

  /** The state after `ops` and every event they caused, in order. */
  function Run(s: Registry, ops: seq<Op>, mapper: ErrorMapper): Transition
    decreases |ops|
  {
    if ops == [] then Transition(s, [])
    else
      var prev := Run(s, ops[..|ops| - 1], mapper);
      var last := Step(prev.registry, ops[|ops| - 1], mapper);
      Transition(last.registry, prev.events + last.events)
  }

  /** The number of load operations in `ops`. */
  function Loads(ops: seq<Op>): nat
  {
    if ops == [] then 0
    else Loads(ops[..|ops| - 1]) + (if ops[|ops| - 1].IsLoad() then 1 else 0)
  }

  /** The number of listener calls for `id` in `log`. */
  function Deliveries(log: seq<Event>, id: int): nat
  {
    if log == [] then 0
    else
      var last := log[|log| - 1];
      Deliveries(log[..|log| - 1], id) + (if last.IsDelivery() && last.seqId == id then 1 else 0)
  }

  /** True when the sequence ids of the queued transport requests in `log`
      strictly increase. */
  ghost predicate IssuedIncreasing(log: seq<Event>)
  {
    forall i, j :: 0 <= i < j < |log| && log[i].Enqueued? && log[j].Enqueued? ==>
      log[i].request.seqId < log[j].request.seqId
  }

  lemma {:induction false} DeliveriesAppend(a: seq<Event>, b: seq<Event>, id: int)
    ensures Deliveries(a + b, id) == Deliveries(a, id) + Deliveries(b, id)
    decreases |b|
  {
    if b == [] {
      assert a + b == a;
    } else {
      var b' := b[..|b| - 1];
      assert (a + b)[..|a + b| - 1] == a + b';
      DeliveriesAppend(a, b', id);
    }
  }

  lemma {:induction false} NoDeliveryMeansZero(log: seq<Event>, id: int)
    requires forall i :: 0 <= i < |log| && log[i].IsDelivery() ==> log[i].seqId != id
    ensures Deliveries(log, id) == 0
    decreases |log|
  {
    if log != [] {
      NoDeliveryMeansZero(log[..|log| - 1], id);
    }
  }

  /** Two listener calls for one id at two positions count twice. */
  lemma {:induction false} TwoDeliveriesCountTwice(log: seq<Event>, id: int, i: int, j: int)
    requires 0 <= i < j < |log|
    requires log[i].IsDelivery() && log[i].seqId == id
    requires log[j].IsDelivery() && log[j].seqId == id
    ensures Deliveries(log, id) >= 2
    decreases |log|
  {
    var init := log[..|log| - 1];
    if j < |log| - 1 {
      TwoDeliveriesCountTwice(init, id, i, j);
    } else {
      assert init[i] == log[i];
      OneDeliveryCountsOnce(init, id, i);
    }
  }

  lemma {:induction false} OneDeliveryCountsOnce(log: seq<Event>, id: int, i: int)
    requires 0 <= i < |log|
    requires log[i].IsDelivery() && log[i].seqId == id
    ensures Deliveries(log, id) >= 1
    decreases |log|
  {
    if i < |log| - 1 {
      var init := log[..|log| - 1];
      assert init[i] == log[i];
      OneDeliveryCountsOnce(init, id, i);
    }
  }

  /** The invariant of a trace run from a valid registry with `base` as its
      counter: the registry stays valid, delivered and queued ids were
      issued, queued ids increase, and per id the deliveries so far plus
      "still pending" never exceed one. */
  ghost predicate TraceInv(base: int, s: Registry, log: seq<Event>)
  {
    && Valid(s)
    && base <= s.seqCounter
    && (forall i :: 0 <= i < |log| && log[i].IsDelivery() ==> log[i].seqId <= s.seqCounter)
    && (forall i :: 0 <= i < |log| && log[i].Enqueued? ==>
          base < log[i].request.seqId <= s.seqCounter)
    && IssuedIncreasing(log)
    && (forall id :: Deliveries(log, id) + (if id in s.pending then 1 else 0) <= 1)
  }

  /** Issuing a new id keeps the trace invariant. */
  lemma SubmitPreservesInv(base: int, s: Registry, log: seq<Event>, req: D.Request, payload: Payload,
                           l: Option<ObjectRef>)
    requires TraceInv(base, s, log) && s.seqCounter < MAX_INT
    ensures var r := Submit(s, req, payload, l);
      TraceInv(base, r.registry, log + r.events) && r.registry.seqCounter == s.seqCounter + 1
  {
    var r := Submit(s, req, payload, l);
    var log' := log + r.events;
    var n := s.seqCounter + 1;
    SubmitPreservesValid(s, req, payload, l);
    forall id ensures Deliveries(log', id) == Deliveries(log, id) {
      DeliveriesAppend(log, r.events, id);
      NoDeliveryMeansZero(r.events, id);
    }
    NoDeliveryMeansZero(log, n);
    forall i | 0 <= i < |log'| && log'[i].Enqueued?
      ensures base < log'[i].request.seqId <= n
    {
      if i < |log| { assert log'[i] == log[i]; }
    }
    forall i, j | 0 <= i < j < |log'| && log'[i].Enqueued? && log'[j].Enqueued?
      ensures log'[i].request.seqId < log'[j].request.seqId
    {
      assert log'[i] == log[i];
      if j < |log| { assert log'[j] == log[j]; }
    }
    forall i | 0 <= i < |log'| && log'[i].IsDelivery()
      ensures log'[i].seqId <= n
    {
      assert i < |log| && log'[i] == log[i];
    }
  }

  /** Removing the node of `id` with at most one event, which may be a
      delivery for `id` only if `id` was pending, keeps the invariant. */
  lemma RemovalPreservesInv(base: int, s: Registry, log: seq<Event>, id: int, t: Transition)
    requires TraceInv(base, s, log)
    requires RemovedOnly(s, t.registry, id)
    requires |t.events| <= 1
    requires forall e :: e in t.events ==> !e.Enqueued? && (e.IsDelivery() ==> e.seqId == id && id in s.pending)
    ensures TraceInv(base, t.registry, log + t.events)
  {
    var log' := log + t.events;
    forall k ensures Deliveries(log', k) + (if k in t.registry.pending then 1 else 0) <= 1 {
      DeliveriesAppend(log, t.events, k);
      if |t.events| == 1 {
        assert t.events[..0] == [];
        assert t.events[0] in t.events;
      }
      if k != id {
        NoDeliveryMeansZero(t.events, k);
      }
    }
    forall i | 0 <= i < |log'| && log'[i].IsDelivery()
      ensures log'[i].seqId <= t.registry.seqCounter
    {
      if i < |log| { assert log'[i] == log[i]; } else { assert log'[i] in t.events; }
    }
    forall k | |log| <= k < |log'|
      ensures !log'[k].Enqueued?
    {
      assert log'[k] == t.events[k - |log|];
      assert t.events[k - |log|] in t.events;
    }
    forall i | 0 <= i < |log'| && log'[i].Enqueued?
      ensures base < log'[i].request.seqId <= t.registry.seqCounter
    {
      assert log'[i] == log[i];
    }
    forall i, j | 0 <= i < j < |log'| && log'[i].Enqueued? && log'[j].Enqueued?
      ensures log'[i].request.seqId < log'[j].request.seqId
    {
      assert log'[i] == log[i] && log'[j] == log[j];
    }
  }

  lemma StepPreservesInv(base: int, s: Registry, log: seq<Event>, op: Op, mapper: ErrorMapper)
    requires TraceInv(base, s, log)
    requires op.IsLoad() ==> s.seqCounter < MAX_INT
    ensures var t := Step(s, op, mapper);
      && TraceInv(base, t.registry, log + t.events)
      && t.registry.seqCounter == s.seqCounter + (if op.IsLoad() then 1 else 0)
  {
    var t := Step(s, op, mapper);
    match op
    case LoadText(req, l) =>
      var payload := TextPayload(req.requestMethod, req.url, req.params, req.headers, req.body);
      SubmitPreservesInv(base, s, log, req, payload, l);
    case LoadBinary(req, l) =>
      SubmitPreservesInv(base, s, log, req, BinaryPayload(req.url, req.params, req.headers, req.body), l);
    case LoadUpload(req, items, l) =>
      SubmitPreservesInv(base, s, log, req, UploadPayload(req.url, items, req.headers), l);
    case LoadDownload(req, l) =>
      SubmitPreservesInv(base, s, log, req, DownloadPayload(req.url, req.params, req.headers), l);
    case LoadDownloadFile(req, path, l) =>
      SubmitPreservesInv(base, s, log, req, DownloadFilePayload(req.url, req.params, req.headers, path), l);
    case Cancel(id) =>
      RemovalPreservesInv(base, s, log, id, t);
    case Success(id, resp) =>
      RemovalPreservesInv(base, s, log, id, t);
    case Error(id, err) =>
      RemovalPreservesInv(base, s, log, id, t);
    case Terminate =>
      assert log + t.events == log;
      forall k ensures Deliveries(log, k) <= 1 { }
    case _ =>
      assert log + t.events == log;
  }

  lemma {:induction false} RunInv(s: Registry, ops: seq<Op>, mapper: ErrorMapper)
    requires Valid(s) && s.seqCounter + Loads(ops) <= MAX_INT
    ensures var t := Run(s, ops, mapper);
      TraceInv(s.seqCounter, t.registry, t.events) && t.registry.seqCounter == s.seqCounter + Loads(ops)
    decreases |ops|
  {
    if ops == [] {
      forall id ensures Deliveries([], id) == 0 { }
    } else {
      var init := ops[..|ops| - 1];
      RunInv(s, init, mapper);
      var prev := Run(s, init, mapper);
      StepPreservesInv(s.seqCounter, prev.registry, prev.events, ops[|ops| - 1], mapper);
    }
  }

  /** At-most-once delivery: over any trace from a valid registry (in which
      the id counter does not wrap), every id reaches its listener at most
      once, never both success and error, and an id still pending at the
      end has not been delivered. */
  lemma AtMostOnceDelivery(s: Registry, ops: seq<Op>, mapper: ErrorMapper)
    requires Valid(s) && s.seqCounter + Loads(ops) <= MAX_INT
    ensures var t := Run(s, ops, mapper);
      && (forall id :: Deliveries(t.events, id) <= 1)
      && (forall id :: id in t.registry.pending ==> Deliveries(t.events, id) == 0)
      && (forall i, j :: 0 <= i < j < |t.events| && t.events[i].IsDelivery() && t.events[j].IsDelivery()
            ==> t.events[i].seqId != t.events[j].seqId)
  {
    RunInv(s, ops, mapper);
    var t := Run(s, ops, mapper);
    forall i, j | 0 <= i < j < |t.events| && t.events[i].IsDelivery() && t.events[j].IsDelivery()
      ensures t.events[i].seqId != t.events[j].seqId
    {
      if t.events[i].seqId == t.events[j].seqId {
        TwoDeliveriesCountTwice(t.events, t.events[i].seqId, i, j);
      }
    }
  }

  /** Ids are issued in strictly increasing order, each above every id the
      registry had issued before the trace, and the counter ends at the
      start value plus the number of loads. */
  lemma IdsStrictlyIncrease(s: Registry, ops: seq<Op>, mapper: ErrorMapper)
    requires Valid(s) && s.seqCounter + Loads(ops) <= MAX_INT
    ensures var t := Run(s, ops, mapper);
      && IssuedIncreasing(t.events)
      && (forall i :: 0 <= i < |t.events| && t.events[i].Enqueued? ==>
            s.seqCounter < t.events[i].request.seqId <= t.registry.seqCounter)
      && t.registry.seqCounter == s.seqCounter + Loads(ops)
  {
    RunInv(s, ops, mapper);
  }

  /** An issued id that is no longer pending (cancelled, completed or
      dropped by `onTerminate`) is never pending again and never reaches a
      listener in any later trace: a cancel before completion suppresses
      the completion. */
  lemma {:induction false} ClosedStaysClosed(s: Registry, ops: seq<Op>, mapper: ErrorMapper, id: int)
    requires Valid(s) && s.seqCounter + Loads(ops) <= MAX_INT
    requires id <= s.seqCounter && id !in s.pending
    ensures var t := Run(s, ops, mapper);
      id !in t.registry.pending && Deliveries(t.events, id) == 0
    decreases |ops|
  {
    if ops != [] {
      var init := ops[..|ops| - 1];
      var op := ops[|ops| - 1];
      ClosedStaysClosed(s, init, mapper, id);
      RunInv(s, init, mapper);
      var prev := Run(s, init, mapper);
      var t := Step(prev.registry, op, mapper);
      StepPreservesInv(s.seqCounter, prev.registry, prev.events, op, mapper);
      DeliveriesAppend(prev.events, t.events, id);
      if !(op.Success? || op.Error?) || op.seqId != id {
        NoDeliveryForOthers(prev.registry, op, mapper, id);
      } else {
        assert t.events == [];
      }
    }
  }

  /** A step delivers to `id` only when it completes `id`, and it makes `id`
      pending only when it issues `id`. */
  lemma NoDeliveryForOthers(s: Registry, op: Op, mapper: ErrorMapper, id: int)
    requires Valid(s) && id <= s.seqCounter && id !in s.pending
    requires !(op.Success? || op.Error?) || op.seqId != id
    requires op.IsLoad() ==> s.seqCounter < MAX_INT
    ensures var t := Step(s, op, mapper);
      Deliveries(t.events, id) == 0 && id !in t.registry.pending
  {
    var t := Step(s, op, mapper);
    NoDeliveryMeansZero(t.events, id);
  }
}

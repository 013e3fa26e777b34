# Request dispatch core of android-major-https, modelled in Dafny

This project models the request-dispatch core of an Android HTTP helper
library. It has two halves.

The first half is the dispatch registry `BizHttpManager`. It hands out
sequence ids from a counter. It keeps a map from id to pending node, which
holds the transport request and the caller's listener. It attaches one of
two retry policies (default or upload) and, on request, the extra-headers
filler. A transport completion (success or error) removes the node and
calls the node's listener only if the node was still there. The loads,
`cancelBizModel` and the completion handlers are `synchronized`;
`onCreate`, `onTerminate` and the three setters are not. Each operation is
modelled as one atomic transition of an immutable state. The model records
what the registry does to the outside world as events: it queues a
transport request, cancels one, or calls a listener. Any interleaving of
the locked operations is one sequential trace of these transitions. The
main theorems hold for every such trace:

- each id reaches a listener at most once, and never as both success and
  error;
- ids are issued in strictly increasing order;
- an id that was cancelled, completed or dropped is never delivered again.

The second half is the fluent request model. `AbstractModel` and its
nested `Request` descriptor hold url, method, headers, params, body, the
fill-extra-header flag and the seq id. The model adds the success, error
and life listeners, the request filler and an optional client. `load()`
runs the life hook, then the filler, then `loadInternal`. The text model
(`AbstractTextRequestModel`) submits through the registry's text entry
point and registers itself as the listener. `JsonObjectRequestModel` turns
a text success into either a success with the parsed object or a
parse-error delivery. The `Dispatch` module connects the two halves. It
routes each registry delivery to the JSON text model registered for that
id. It proves end to end that every request id causes at most one call of
a caller's listener, and exactly one when the registry delivered it to a
model whose listeners are set.

Modules, one per file: `Common` (nullable references, Java `int`, object
identities, error codes), `Descriptor`, `Registry`, `RegistryTrace`,
`Model`, `TextModel`, `JsonObjectModel`, `Dispatch`.

External code is represented as follows:

- **Objects the model does not look inside** (listeners, hooks, fillers,
  form items, transport errors, parameter values) are held as identities
  (`ObjectRef`). A Java null is `None`.
- **Unseen behaviour is passed in as function values.** This covers
  `CommonError.fromError`, the transport error's `toString`, the JSON
  parser, the life listener's `onBeforeLoad` and the request filler's
  `fill`.
- **The registry's effects on the outside world are events.** These are
  `RequestQueue.add` and the transport request's `cancel`.

Facts about the code that shape the model:

- `INVALID_SEQ_ID` (-1) is declared but never assigned. A fresh
  descriptor's seq id is Java's default 0.
- The id counter is a 32-bit `AtomicInteger`, so it wraps to the most
  negative `int` after 2^31 - 1 allocations (`SeqIdWraps`). The trace
  theorems therefore assume that no wrap happens during the trace.
- Listeners are called while the registry lock is held
  (BizHttpManager.java:322-330 and 339-346). In a model where each
  operation is atomic, this needs no separate treatment.
- `onTerminate` clears the pending map but does not cancel the transport
  requests. Their later completions are silently dropped.
- The extra-headers hook is not called by the registry. The registry only
  attaches the filler object to the transport request; the filling happens
  in transport code that is not part of this model.

## Model

| member | source | states |
|---|---|---|
| Descriptor.NewRequest | sources/android-major-https/src/main/java/com/jungle/majorhttps/model/base/AbstractModel.java:47-53 | a fresh descriptor has method GET, empty params and headers, flag false, null url and body, and seq id 0, which is not INVALID_SEQ_ID |
| Descriptor.SeqId | sources/android-major-https/src/main/java/com/jungle/majorhttps/model/base/AbstractModel.java:56-59 | the descriptor's seq id becomes the given id; every other field is unchanged |
| Descriptor.Url | sources/android-major-https/src/main/java/com/jungle/majorhttps/model/base/AbstractModel.java:61-64 | the url becomes the given (possibly null) url; every other field is unchanged |
| Descriptor.WithMethod | sources/android-major-https/src/main/java/com/jungle/majorhttps/model/base/AbstractModel.java:66-69 | the method becomes the given method; every other field is unchanged |
| Descriptor.Head | sources/android-major-https/src/main/java/com/jungle/majorhttps/model/base/AbstractModel.java:71-74 | the key maps to the value; every other header key and every other field is unchanged |
| Descriptor.Param | sources/android-major-https/src/main/java/com/jungle/majorhttps/model/base/AbstractModel.java:76-79 | the key maps to the value, null included; every other param and field is unchanged |
| Descriptor.ParamCheckNull | sources/android-major-https/src/main/java/com/jungle/majorhttps/model/base/AbstractModel.java:81-87 | a null value leaves the descriptor unchanged; a non-null value is put like `param` |
| Descriptor.AddParams | sources/android-major-https/src/main/java/com/jungle/majorhttps/model/base/AbstractModel.java:89-92 | putAll: keys are the union, the argument's values win, old values survive elsewhere |
| Descriptor.FillExtraHeader | sources/android-major-https/src/main/java/com/jungle/majorhttps/model/base/AbstractModel.java:94-97 | the fill-extra-header flag becomes the given value; every other field is unchanged |
| Descriptor.Body | sources/android-major-https/src/main/java/com/jungle/majorhttps/model/base/AbstractModel.java:99-102 | the body becomes the given (possibly null) bytes; every other field is unchanged |
| Descriptor.FieldSettersOverwrite | sources/android-major-https/src/main/java/com/jungle/majorhttps/model/base/AbstractModel.java:56-102 | a later call of the same plain setter (`seqId`, `url`, `method`, `body`, `fillExtraHeader`) replaces the earlier value |
| Descriptor.FieldSettersCommute | sources/android-major-https/src/main/java/com/jungle/majorhttps/model/base/AbstractModel.java:56-102 | any two of the plain setters `seqId`, `url`, `method`, `body` and `fillExtraHeader` commute, all ten pairs |
| Descriptor.HeadOverwrites | sources/android-major-https/src/main/java/com/jungle/majorhttps/model/base/AbstractModel.java:71-74 | a later `head` on the same key replaces the earlier value |
| Descriptor.HeadCommutes | sources/android-major-https/src/main/java/com/jungle/majorhttps/model/base/AbstractModel.java:71-74 | `head` calls on different keys commute |
| Descriptor.ParamCheckNullIsGuardedParam | sources/android-major-https/src/main/java/com/jungle/majorhttps/model/base/AbstractModel.java:76-87 | `paramCheckNull` equals `param` for a non-null value and is the identity for null |
| Descriptor.AddParamsAgreesWithParam | sources/android-major-https/src/main/java/com/jungle/majorhttps/model/base/AbstractModel.java:76-92 | `addParams` of one entry is `param`; of no entries is nothing; two calls equal one call on the merged map |
| Registry.NewRegistry | sources/easy-http/src/main/java/com/jungle/easyhttp/request/BizHttpManager.java:92-98 | a new registry has counter 0, no pending node, no policies and no filler |
| Registry.SetUploadTimeoutMilliseconds | sources/easy-http/src/main/java/com/jungle/easyhttp/request/BizHttpManager.java:114-116 | installs an upload policy with that timeout and one retry; nothing else changes |
| Registry.SetDefaultTimeoutMilliseconds | sources/easy-http/src/main/java/com/jungle/easyhttp/request/BizHttpManager.java:118-120 | installs a default policy with that timeout and one retry; nothing else changes |
| Registry.SetExtraHeadersFiller | sources/easy-http/src/main/java/com/jungle/easyhttp/request/BizHttpManager.java:122-124 | replaces the filler; nothing else changes |
| Registry.OnCreate | sources/easy-http/src/main/java/com/jungle/easyhttp/request/BizHttpManager.java:101-104 | after `onCreate` the upload timeout is 40000 ms and the default 20000 ms; ids, nodes and filler are untouched |
| Registry.OnTerminate | sources/easy-http/src/main/java/com/jungle/easyhttp/request/BizHttpManager.java:106-108 | the pending map is empty and the counter is kept |
| Registry.NextSeqId | sources/easy-http/src/main/java/com/jungle/easyhttp/request/BizHttpManager.java:228-230 | the next id is the previous one plus 1, except that after the largest int it wraps to the smallest |
| Registry.PolicyFor | sources/easy-http/src/main/java/com/jungle/easyhttp/request/BizHttpManager.java:203-207 | an upload request gets the upload policy and every other kind the default policy |
| Registry.Submit | sources/easy-http/src/main/java/com/jungle/easyhttp/request/BizHttpManager.java:197-215 | the new id is stamped on the descriptor, registered with the listener, its request carries the kind's policy and the filler iff flagged, is queued, and no other node changes |
| Registry.LoadTextModel | sources/easy-http/src/main/java/com/jungle/easyhttp/request/BizHttpManager.java:126-139 | as `Submit` with a text payload of method, url, params, headers and body: counter advanced, id stamped and returned, node registered with the listener, default policy, filler iff flagged, request queued, other nodes untouched |
| Registry.LoadBinaryModel | sources/easy-http/src/main/java/com/jungle/easyhttp/request/BizHttpManager.java:141-153 | as `Submit` with a binary payload of url, params, headers and body (no method) and the default policy: counter advanced, id stamped, filler iff flagged, queued, other nodes untouched |
| Registry.LoadUploadModel | sources/easy-http/src/main/java/com/jungle/easyhttp/request/BizHttpManager.java:155-167 | as `Submit` with an upload payload of url, form items and headers and the upload policy: counter advanced, id stamped, filler iff flagged, queued, other nodes untouched |
| Registry.LoadDownloadModel | sources/easy-http/src/main/java/com/jungle/easyhttp/request/BizHttpManager.java:169-181 | as `Submit` with a download payload of url, params and headers and the default policy: counter advanced, id stamped, filler iff flagged, queued, other nodes untouched |
| Registry.LoadDownloadFileModel | sources/easy-http/src/main/java/com/jungle/easyhttp/request/BizHttpManager.java:183-195 | as `Submit` with a download payload that adds the file path, and the default policy: counter advanced, id stamped, filler iff flagged, queued, other nodes untouched |
| Registry.CancelBizModel | sources/easy-http/src/main/java/com/jungle/easyhttp/request/BizHttpManager.java:217-222 | a pending id is removed and its transport request cancelled; an absent id changes nothing and cancels nothing; other nodes are untouched; no listener is called |
| Registry.OnSuccess | sources/easy-http/src/main/java/com/jungle/easyhttp/request/BizHttpManager.java:321-331 | removes the node first; exactly when it was present with a listener, that listener alone gets one success with the response's headers and content (null for a null response) |
| Registry.HandleError | sources/easy-http/src/main/java/com/jungle/easyhttp/request/BizHttpManager.java:339-346 | removes the node first; exactly when it was present with a listener, that listener alone gets one error with the mapped code and the error's string form |
| Registry.NullResponseStillDelivered | sources/easy-http/src/main/java/com/jungle/easyhttp/request/BizHttpManager.java:239-244 | a null success response still calls `onSuccess`, with null headers and null content |
| Registry.FillerOnlyWhenFlagged | sources/easy-http/src/main/java/com/jungle/easyhttp/request/BizHttpManager.java:209-211 | the registry's filler is attached iff the descriptor's flag is set |
| Registry.TimeoutsAfterCreate | sources/easy-http/src/main/java/com/jungle/easyhttp/request/BizHttpManager.java:54-55 | after `onCreate` an upload waits 40000 ms and every other kind 20000 ms, with one retry |
| Registry.SubmitPreservesValid | sources/easy-http/src/main/java/com/jungle/easyhttp/request/BizHttpManager.java:126-139 | below the largest int, a load issues counter + 1, an id not in use, and keeps every node under its own issued id |
| Registry.SeqIdWraps | sources/easy-http/src/main/java/com/jungle/easyhttp/request/BizHttpManager.java:94 | a load at the largest int issues a negative id |
| Registry.CancelUnissuedIsNoOp | sources/easy-http/src/main/java/com/jungle/easyhttp/request/BizHttpManager.java:217-222 | cancelling an id that was never issued, 0 in particular, is a no-op |
| Registry.SecondCompletionIsNoOp | sources/easy-http/src/main/java/com/jungle/easyhttp/request/BizHttpManager.java:323-326 | once a node is gone, success, error and cancel for its id do nothing |
| RegistryTrace.StepPreservesInv | sources/easy-http/src/main/java/com/jungle/easyhttp/request/BizHttpManager.java:126-346 | every registry operation keeps: nodes under issued ids, queued ids increasing, deliveries plus "still pending" at most one per id |
| RegistryTrace.AtMostOnceDelivery | sources/easy-http/src/main/java/com/jungle/easyhttp/request/BizHttpManager.java:321-346 | over any trace, each id is delivered at most once (success XOR error), and a still-pending id has not been delivered |
| RegistryTrace.IdsStrictlyIncrease | sources/easy-http/src/main/java/com/jungle/easyhttp/request/BizHttpManager.java:228-230 | ids issued in a trace strictly increase, exceed every earlier id, and the counter grows by the number of loads |
| RegistryTrace.ClosedStaysClosed | sources/easy-http/src/main/java/com/jungle/easyhttp/request/BizHttpManager.java:217-222 | an issued id no longer pending is never pending or delivered again: a cancel suppresses the later completion |
| Model.NewModel | sources/android-major-https/src/main/java/com/jungle/majorhttps/model/base/AbstractModel.java:142-148 | a new model has a fresh descriptor and no listeners, hooks or client |
| Model.Url | sources/android-major-https/src/main/java/com/jungle/majorhttps/model/base/AbstractModel.java:151-154 | only the descriptor changes, by its `url` |
| Model.WithMethod | sources/android-major-https/src/main/java/com/jungle/majorhttps/model/base/AbstractModel.java:157-160 | only the descriptor changes, by its `method` |
| Model.Head | sources/android-major-https/src/main/java/com/jungle/majorhttps/model/base/AbstractModel.java:163-166 | only the descriptor changes, by its `head` |
| Model.Param | sources/android-major-https/src/main/java/com/jungle/majorhttps/model/base/AbstractModel.java:169-172 | only the descriptor changes, by its `param` |
| Model.Body | sources/android-major-https/src/main/java/com/jungle/majorhttps/model/base/AbstractModel.java:175-178 | only the descriptor changes, by its `body` |
| Model.ParamCheckNull | sources/android-major-https/src/main/java/com/jungle/majorhttps/model/base/AbstractModel.java:181-184 | only the descriptor changes, by its `paramCheckNull` |
| Model.AddParams | sources/android-major-https/src/main/java/com/jungle/majorhttps/model/base/AbstractModel.java:187-190 | only the descriptor changes, by its `addParams` |
| Model.Filler | sources/android-major-https/src/main/java/com/jungle/majorhttps/model/base/AbstractModel.java:193-196 | sets the filler; the identity, descriptor, listeners and client are unchanged |
| Model.Listener | sources/android-major-https/src/main/java/com/jungle/majorhttps/model/base/AbstractModel.java:199-203 | sets both the success and the error listener; nothing else changes |
| Model.Success | sources/android-major-https/src/main/java/com/jungle/majorhttps/model/base/AbstractModel.java:206-209 | sets only the success listener |
| Model.Error | sources/android-major-https/src/main/java/com/jungle/majorhttps/model/base/AbstractModel.java:212-215 | sets only the error listener |
| Model.LifeListener | sources/android-major-https/src/main/java/com/jungle/majorhttps/model/base/AbstractModel.java:218-221 | sets the life listener; the identity, descriptor, listeners, filler and client are unchanged |
| Model.FillExtraHeader | sources/android-major-https/src/main/java/com/jungle/majorhttps/model/base/AbstractModel.java:224-227 | only the descriptor changes, by its `fillExtraHeader` |
| Model.Client | sources/android-major-https/src/main/java/com/jungle/majorhttps/model/base/AbstractModel.java:230-233 | sets the client; the identity, descriptor, listeners, life listener and filler are unchanged |
| Model.ListenerIsSuccessAndError | sources/android-major-https/src/main/java/com/jungle/majorhttps/model/base/AbstractModel.java:199-215 | `listener(l)` equals `success(l)` then `error(l)`, in either order |
| Model.LaterRegistrationWins | sources/android-major-https/src/main/java/com/jungle/majorhttps/model/base/AbstractModel.java:199-215 | `success`/`error` after `listener` replace only their own listener |
| Model.GetHttpClient | sources/android-major-https/src/main/java/com/jungle/majorhttps/model/base/AbstractModel.java:339-341 | the model's own client iff one is set, otherwise the default |
| Model.ClientOverridesDefault | sources/android-major-https/src/main/java/com/jungle/majorhttps/model/base/AbstractModel.java:339-341 | after `client(c)` the client used is c; a fresh or cleared model uses the default |
| Model.DoSuccess | sources/android-major-https/src/main/java/com/jungle/majorhttps/model/base/AbstractModel.java:324-328 | one call of the success listener with the arguments unchanged iff it is set, none otherwise |
| Model.DoError | sources/android-major-https/src/main/java/com/jungle/majorhttps/model/base/AbstractModel.java:330-337 | one call of the error listener with code and message unchanged iff it is set, none otherwise |
| Model.BeforeSubmit | sources/android-major-https/src/main/java/com/jungle/majorhttps/model/base/AbstractModel.java:237-243 | the life hook sees the model first; the filler set after it then rewrites the descriptor; with neither, the model is unchanged; identity is kept |
| Model.Cancel | sources/android-major-https/src/main/java/com/jungle/majorhttps/model/base/AbstractModel.java:304-306 | cancels exactly the id on the model's descriptor, with the registry's cancel semantics |
| Model.CancelBeforeLoadIsNoOp | sources/android-major-https/src/main/java/com/jungle/majorhttps/model/base/AbstractModel.java:304-306 | `cancel()` on a never-loaded model sends 0, which changes nothing |
| TextModel.LoadInternal | sources/android-major-https/src/main/java/com/jungle/majorhttps/model/text/AbstractTextRequestModel.java:28-31 | submits this model's descriptor through the text entry point with this model as listener, with everything a load promises (counter advanced, id stamped on this model's own descriptor and returned, policy, filler iff flagged, queued, other nodes untouched); listeners and hooks are kept |
| TextModel.Load | sources/android-major-https/src/main/java/com/jungle/majorhttps/model/base/AbstractModel.java:236-246 | submits the descriptor as the life hook and filler left it, with this model as listener, with everything a load promises (counter advanced, id stamped and returned, policy, filler iff flagged, queued, other nodes untouched) |
| TextModel.LoadWithoutHooks | sources/android-major-https/src/main/java/com/jungle/majorhttps/model/base/AbstractModel.java:236-246 | with no life listener and no filler, `load()` is `loadInternal()` |
| TextModel.FillerResultIsSubmitted | sources/android-major-https/src/main/java/com/jungle/majorhttps/model/base/AbstractModel.java:241-245 | the filler's rewritten descriptor is what the registry submits |
| TextModel.LoadThenCancel | sources/android-major-https/src/main/java/com/jungle/majorhttps/model/base/AbstractModel.java:304-306 | after a load, `cancel()` removes exactly that fresh id's node and cancels its request, restoring the previous pending map, at the wrap too; below it the id is counter + 1 and the registry stays valid |
| TextModel.OnError | sources/android-major-https/src/main/java/com/jungle/majorhttps/model/text/AbstractTextRequestModel.java:33-36 | the code and message reach the error listener unchanged, once iff it is set |
| JsonObjectModel.OnSuccess | sources/major-http/src/main/java/com/jungle/majorhttp/model/text/JsonObjectRequestModel.java:29-41 | a parse failure calls only the error path with PARSE_JSON_OBJECT_FAILED and the message; a parse success calls only the success path with the same response and the parsed object |
| JsonObjectModel.ExactlyOneOutcome | sources/major-http/src/main/java/com/jungle/majorhttp/model/text/JsonObjectRequestModel.java:29-41 | with one listener for both, each text success yields exactly one call: success iff the parse succeeded |
| Dispatch.Route | sources/android-major-https/src/main/java/com/jungle/majorhttps/model/text/AbstractTextRequestModel.java:24-36 | a success delivery to a registered model calls its success listener with the headers and parsed object, or its error listener with PARSE_JSON_OBJECT_FAILED and the message when parsing throws; an error delivery calls its error listener with the code and message; each exactly when that listener is set; nothing else fires |
| Dispatch.RoutingAddsNoCalls | sources/android-major-https/src/main/java/com/jungle/majorhttps/model/text/AbstractTextRequestModel.java:24-36 | routing a log never makes more caller calls for an id than the registry's deliveries for it |
| Dispatch.AtMostOneCallerCallback | sources/easy-http/src/main/java/com/jungle/easyhttp/request/BizHttpManager.java:321-346 | over any trace, each request id causes at most one call of a caller's success or error listener |
| Dispatch.RouteFiresOnce | sources/android-major-https/src/main/java/com/jungle/majorhttps/model/text/AbstractTextRequestModel.java:24-36 | a delivery to a model with both listeners set fires exactly one call for its id; any other event fires none for it |
| Dispatch.RoutingReachesCaller | sources/android-major-https/src/main/java/com/jungle/majorhttps/model/text/AbstractTextRequestModel.java:24-36 | when the models listen, the caller calls for an id equal the registry's deliveries for it: routing loses nothing |
| Dispatch.ExactlyOneCallerCallback | sources/easy-http/src/main/java/com/jungle/easyhttp/request/BizHttpManager.java:321-346 | over any trace, an id the registry delivered to a listening model causes exactly one call of a caller's listener |

## Left out

- Volley transport internals are left out: `RequestQueue.add`, `Request.cancel` and the retry backoff. Queueing and cancelling are recorded as events. A retry policy keeps only its timeout and retry count; its float backoff multiplier is dropped.
- `CommonError.fromError`, the transport error's `toString`, the JSON parser, `onBeforeLoad` and the request filler's `fill` are not part of this model. They enter as function parameters.
- The numeric values of the `CommonError` constants are not part of this model, so error codes are symbolic (`ErrorCode`).
- `ExtraHeadersFiller` itself is not modelled. Only attaching it to the transport request is.
- The unsynchronized lazy singleton `getInstance` is not modelled. A registry is a value created by `NewRegistry` and configured by `OnCreate`.
- `setRequestQueueFactory` and `getRequestQueue` are not modelled. The queue is only the destination of `Enqueued` events.
- Thread interleaving is not modelled. The loads, cancel and completions are `synchronized`, so a trace of atomic steps covers every schedule of them.
- `onCreate`, `onTerminate` and the three setters are not `synchronized` in the code, but `Create`, `Terminate`, `SetUploadTimeout`, `SetDefaultTimeout` and `SetFiller` are modelled as atomic trace steps. A race such as `onTerminate`'s `clear()` against a locked `put` or `remove` is not modelled.
- The `NullPointerException` in `addRequestNode` when no queue factory was set is not modelled (BizHttpManager.java:213-214). Until `setRequestQueueFactory` runs the queue is null. The node is then registered and the descriptor stamped before `mRequestQueue.add` throws. `Submit` always succeeds and emits `Enqueued`.
- A null request method is not modelled. `loadTextModel` would use up an id and stamp it; `getRequestMethod()` then returns null and the call of `toVolleyMethod()` on it throws (BizHttpManager.java:132); `HttpMethod` has no null.
- `addParams(null)` is not modelled. It throws at AbstractModel.java:90; `AddParams` takes a map, never null.
- `loadWithProgress*`, `MajorProgressLoadManager`, `Context.getString` and the `Log.e` call in `doError` are Android UI and logging.
- `load(listener)` overloads and `getListener` are not modelled. They only compose `listener`/`success` with `load`, or wrap the two listeners.
- `MajorHttpClient` is not part of this model. `BizHttpManager`'s registry stands in for the client a model talks to. `GetHttpClient` only says which client is chosen; every model operation takes that client's registry as a parameter.
- Kind-specific response unwrapping (`BizTextResponse` and the other response types) is not modelled. A response is its headers plus text or byte content. `Dispatch.TextOf` hands a text model null for byte content. Only the binary kinds carry byte content.
- Aliasing between the descriptor's maps and the transport request is not modelled. After submission the descriptor is treated as read-only.
- Null map keys and null header values are not modelled.
- `ModelMethod` is not part of this model. Four methods stand in for its constants.
- RegistryTrace.StepPreservesInv: a load at the largest `int` is excluded, because the wrapped id is negative and the invariant (every node under an id between 1 and the counter) no longer holds.
- RegistryTrace.ClosedStaysClosed: assumes the 32-bit id counter does not wrap within the trace (start counter plus loads at most 2^31 - 1).
- RegistryTrace.AtMostOnceDelivery: holds only while the 32-bit id counter does not wrap within the trace (start counter plus loads at most 2^31 - 1); the code itself reuses ids after a wrap.
- RegistryTrace.IdsStrictlyIncrease: same no-wrap assumption as above.
- Dispatch.ExactlyOneCallerCallback: same no-wrap assumption, and the models are taken as fixed over the trace.
- Dispatch.AtMostOneCallerCallback: same no-wrap assumption. Listeners that are not JSON text models are outside the routing. The models' listener fields are taken as fixed over the trace.

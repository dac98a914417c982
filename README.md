# nidhogg (single-workload version): taint decision, event mapping and JSON sniffing

nidhogg is a Kubernetes controller that keeps a node tainted until the pod
of a required daemonset is ready on it. In this version there is one
daemonset: pods with an owner reference named `kiam`, listed in namespace
`kube-system`. The node carries the taint `kiam-not-ready` (effect
NoSchedule) while that pod is missing or has an unready container, and
loses it once the pod is ready.

The project models three parts of the controller:

- `handler.dfy` (module `Handler`, from `pkg/nidhogg/handler.go`):
  - the readiness scan `PodNotReady`;
  - the taint test `TaintPresent`;
  - `AddTaint` and `RemoveTaint`;
  - the pod search `GetDaemonsetPod`;
  - the decision of `HandleNode`: the new taint list, and whether the node is written back.
  The loops are methods with loop invariants. Each is proved against a
  specification predicate or function: `HasUnreadyContainer`, `Tainted`,
  `Foreign` and `FirstDaemonsetPod`. The decision is the function `Decide`.
  `Handled` describes what HandleNode returns and which node it writes.
- `node_controller.dfy` (module `NodeController`, from
  `pkg/controller/node/node_controller.go`):
  - `CanAddToQueue`;
  - the `Create`/`Update`/`Delete`/`Generic` handlers of `nodeEnqueue` and `podEnqueue`;
  - `Reconcile`.
  The work queue is a class whose `items` sequence the handlers append to.
- `decoder.dfy` (module `Decoder`, from `pkg/nidhogg/decoder.go`): `hasPrefix`, `hasJSONPrefix` and the
  pass-through branch of `toJSON`. Leading white space follows Go's `unicode.IsSpace`.
- `kube.dfy` and `wrappers.dfy` hold the Kubernetes object types and Option/Result.

The API client is not called. Its answers are parameters:
- the pod listing of `kube-system`;
- the node fetched by `Reconcile`;
- the error an update would return.

The node that `HandleNode` would pass to `Update` is an out-parameter, `written`.

One point where this version differs from a cautious reading of readiness: a pod that reports no container
statuses counts as ready, because `podNotReady` only looks for a status with
`Ready == false` (pkg/nidhogg/handler.go:84-91). The model follows the code.

## Model

| member | source | states |
|---|---|---|
| Handler.PodNotReady | pkg/nidhogg/handler.go:84-91 | true iff some container status has Ready false; a pod without container statuses is not "not ready" |
| Handler.TaintPresent | pkg/nidhogg/handler.go:93-101 | true iff some taint of the node has key `kiam-not-ready` |
| Handler.Count | pkg/nidhogg/handler.go:93-101 | the number of `kiam-not-ready` taints is at most the list length, and positive iff the list is tainted |
| Handler.AddTaint | pkg/nidhogg/handler.go:103-105 | earlier taints stay unchanged and in place, exactly one NoSchedule `kiam-not-ready` taint follows them, the foreign taints are unchanged and the managed count grows by one |
| Handler.Foreign | pkg/nidhogg/handler.go:107-122 | the kept taints contain no `kiam-not-ready` taint, contain exactly the other taints of the input, and the length drops by the managed count |
| Handler.ForeignAppend | pkg/nidhogg/handler.go:110-115 | filtering distributes over concatenation, so the kept taints stay in their original relative order |
| Handler.ForeignStep | pkg/nidhogg/handler.go:110-115 | each loop step appends the current taint when it is foreign and nothing otherwise |
| Handler.ForeignOfUntainted | pkg/nidhogg/handler.go:107-122 | a list without `kiam-not-ready` taints is returned unchanged: no other taint is ever dropped |
| Handler.RemoveTaintIdempotent | pkg/nidhogg/handler.go:107-122 | removing the managed taints a second time changes nothing |
| Handler.ForeignChangesIffTainted | pkg/nidhogg/handler.go:107-122 | removal changes the list iff the list held a `kiam-not-ready` taint |
| Handler.RemoveTaint | pkg/nidhogg/handler.go:107-122 | the loop returns exactly the foreign taints in order (an empty result standing for nil), with no `kiam-not-ready` taint |
| Handler.FirstDaemonsetPod | pkg/nidhogg/handler.go:71-81 | none iff no pod in the list has an owner named `kiam` and the requested node name; otherwise the first such pod in list order |
| Handler.GetDaemonsetPod | pkg/nidhogg/handler.go:63-82 | a failed listing is returned as the error; otherwise the nested search returns the first matching pod, or none with no error |
| Handler.PodAbsentOrNotReady | pkg/nidhogg/handler.go:38 | true for a missing pod; for a found pod true iff some container status has Ready false, so a pod with no container statuses takes the ready branch |
| Handler.Decide | pkg/nidhogg/handler.go:36-47 | pod absent or not ready: an existing taint leaves the list unchanged with no update, else exactly one taint is appended; pod ready: every `kiam-not-ready` taint is removed and the others kept; an update happens iff the list changed; foreign taints are always kept; the resulting managed count is 0, the old count, or 1 |
| Handler.DecideIdempotent | pkg/nidhogg/handler.go:38-47 | deciding again on the decided list with the same pod changes nothing and issues no update |
| Handler.DecideNoDuplicate | pkg/nidhogg/handler.go:38-45 | a list with at most one `kiam-not-ready` taint still has at most one after the decision |
| Handler.Handled | pkg/nidhogg/handler.go:28-61 | always the empty reconcile result; a listing error is wrapped and nothing is written; a node is written only when its taints changed, with every other field and every foreign taint kept; the update's error is returned only when a write was issued |
| Handler.HandleNode | pkg/nidhogg/handler.go:28-61 | the method built from the loops returns exactly what `Handled` describes |
| NodeController.NodeRequest | pkg/controller/node/node_controller.go:62-64 | a request names the node and has an empty namespace |
| NodeController.ControllerIn | pkg/controller/node/node_controller.go:77 | the controller owner is the first owner reference marked as controller, or none when no reference is so marked |
| NodeController.ControllerUnique | pkg/controller/node/node_controller.go:77 | only one owner reference can be the first one marked as controller |
| NodeController.CanAddToQueue | pkg/controller/node/node_controller.go:73-82 | false for an empty NodeName and false without a controller owner; otherwise true iff the controller owner's kind is `DaemonSet` |
| NodeController.PodRequests | pkg/controller/node/node_controller.go:85-125 | at most one request, present iff the object is a pod and `CanAddToQueue` holds, named after the pod's non-empty NodeName with an empty namespace |
| NodeController.WorkQueue.Add | pkg/controller/node/node_controller.go:93-95 | the request is appended at the end of the queue |
| NodeController.NodeEnqueue.Create | pkg/controller/node/node_controller.go:58-65 | nil metadata leaves the queue unchanged; otherwise one request named after the node is appended |
| NodeController.NodeEnqueue.Update | pkg/controller/node/node_controller.go:49 | the queue is unchanged |
| NodeController.NodeEnqueue.Delete | pkg/controller/node/node_controller.go:52 | the queue is unchanged |
| NodeController.NodeEnqueue.Generic | pkg/controller/node/node_controller.go:55 | the queue is unchanged |
| NodeController.PodEnqueue.Generic | pkg/controller/node/node_controller.go:70 | the queue is unchanged |
| NodeController.PodEnqueue.Create | pkg/controller/node/node_controller.go:85-97 | appends the `PodRequests` of the event's object: one request for a queueable pod, nothing otherwise |
| NodeController.PodEnqueue.Update | pkg/controller/node/node_controller.go:100-111 | appends the `PodRequests` of the new object (ObjectNew) |
| NodeController.PodEnqueue.Delete | pkg/controller/node/node_controller.go:114-125 | appends the `PodRequests` of the event's object |
| NodeController.Reconcile | pkg/controller/node/node_controller.go:166-180 | a not-found node gives the empty result with no error and no write; any other fetch error is returned as is; a found node gives exactly HandleNode's outcome; a node written back is the one the request named |
| Kube.IsNotFound | pkg/controller/node/node_controller.go:171 | true for the not-found error; false for a conflict or a server error |
| Decoder.IsSpace | pkg/nidhogg/decoder.go:35 | unicode.IsSpace: in ASCII exactly tab, line feed, vertical tab, form feed, carriage return and space; beyond that U+0085, U+00A0, U+1680, U+2000-U+200A, U+2028, U+2029, U+202F, U+205F and U+3000; no white-space code point lies above U+3000, and `{` is not white space |
| Decoder.SpaceEndsAtUnique | pkg/nidhogg/decoder.go:35 | the leading white space of a buffer ends at exactly one position |
| Decoder.TrimLeftSpace | pkg/nidhogg/decoder.go:35 | the result is the suffix of the buffer that starts where its leading white space ends |
| Decoder.HasPrefix | pkg/nidhogg/decoder.go:33-37 | true iff the buffer, with its leading white space removed, starts with the prefix; always true for the empty prefix |
| Decoder.HasJSONPrefix | pkg/nidhogg/decoder.go:25-31 | true iff the first non-white-space character exists and is `{` |
| Decoder.ToJSON | pkg/nidhogg/decoder.go:13-21 | a buffer with a JSON prefix is returned unchanged with no error; any other gets the YAML conversion's outcome |
| Decoder.TrimLeftSpaceSkipsSpace | pkg/nidhogg/decoder.go:35 | white space put in front of a buffer is trimmed away entirely |
| Decoder.LeadingSpaceIrrelevant | pkg/nidhogg/decoder.go:33-37 | HasPrefix(ws + buf, p) == HasPrefix(buf, p) for all-white-space ws |
| Decoder.BlankHasNoPrefix | pkg/nidhogg/decoder.go:33-37 | an empty or all-white-space buffer has no prefix that starts with a non-white-space character |
| Decoder.JsonPassesThrough | pkg/nidhogg/decoder.go:16-19 | white space, then `{`, then anything passes through toJSON unchanged |

## Left out

- Kubernetes client calls: `List`, `Get` and `Update` (pkg/nidhogg/handler.go:50, 66; pkg/controller/node/node_controller.go:169). Their answers are parameters and the written node is an out-parameter.
- Namespace scoping of the pod listing (pkg/nidhogg/handler.go:64): the listing parameter stands for the pods of `kube-system`, and the model does not filter it again.
- Event recording, logging and the UID assignment that only serves the event (pkg/nidhogg/handler.go:49, 52, 54). Because of this, the model does not capture that the `TaintsChanged` event is recorded even when the update fails.
- Handler.Decide: "changed" means the taint sequences differ. `reflect.DeepEqual` over the whole node is not modelled. `removeTaint` returns nil where Go could instead have an empty non-nil slice (pkg/nidhogg/handler.go:117-119). So a node whose taints were an empty non-nil slice would be written once by the source, and never by this model.
- Controller wiring: `Add`, `newReconciler`, `add`, `controller.New`, the watches and `MaxConcurrentReconciles` (pkg/controller/node/node_controller.go:37-44, 128-150). These are framework plumbing.
- The handler configuration: `newReconciler` passes a `nidhogg.HandlerConfig` as a third argument to `NewHandler` (pkg/controller/node/node_controller.go:43). The `NewHandler` shown takes two (pkg/nidhogg/handler.go:23), and `HandlerConfig` is not part of this model. No modelled behaviour depends on it.
- NodeController.WorkQueue.Add: the rate-limiting queue's de-duplication of pending requests, its rate limiting and its concurrency are not modelled. The queue is a plain sequence.
- The failed `*corev1.Pod` type assertion is the `Object` case that is not a pod. Event objects are otherwise opaque.
- `yaml.YAMLToJSON`, `json.Unmarshal`, `ioutil.ReadFile` and `GetConfig` (pkg/nidhogg/decoder.go:20, 39-60). These are foreign libraries and file I/O. The YAML conversion's outcome is a parameter of `ToJSON`.
- UTF-8 decoding in `bytes.TrimLeftFunc`: buffers are sequences of decoded characters, so invalid encodings are not modelled.

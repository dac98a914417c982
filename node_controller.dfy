/**
 * The event handling and reconcile entry point of
 * pkg/controller/node/node_controller.go. Node and pod events become
 * reconcile requests named after a node; the rate-limiting work queue is a
 * sequence of requests that the handlers append to.
 */
module NodeController {
  import opened Wrappers
  import opened Kube
  import opened Handler

  /** reconcile.Request: the namespaced name of a node (nodes have no namespace). */
  datatype Request = Request(namespace: string, name: string)

  /** The metadata an event carries; a nil Meta is None. */
  datatype ObjectMeta = ObjectMeta(namespace: string, name: string)

  /** runtime.Object as the handlers see it: a pod, a node, or anything else. */
  datatype Object = PodObject(pod: Pod) | NodeObject(node: Node) | OtherObject

  datatype CreateEvent = CreateEvent(meta: Option<ObjectMeta>, obj: Object)

  datatype UpdateEvent = UpdateEvent(
    metaOld: Option<ObjectMeta>, objOld: Object,
    metaNew: Option<ObjectMeta>, objNew: Object)

  datatype DeleteEvent = DeleteEvent(meta: Option<ObjectMeta>, obj: Object, deleteStateUnknown: bool)

  datatype GenericEvent = GenericEvent(meta: Option<ObjectMeta>, obj: Object)

  /** The controller's work queue, in the order requests were added. */
  class WorkQueue {
    var items: seq<Request>

    constructor()
      ensures items == []
    {
      items := [];
    }

    method Add(item: Request)
      modifies this
      ensures items == old(items) + [item]
    {
      items := items + [item];
    }
  }

  /** The request that names a node. */
  function NodeRequest(name: string): (r: Request)
    ensures r.namespace == "" && r.name == name
  {
    Request("", name)
  }

  /** metav1.GetControllerOf over a list of owner references: the first one marked as controller. */
  function ControllerIn(refs: seq<OwnerReference>): (r: Option<OwnerReference>)
    ensures r.None? <==> forall i :: 0 <= i < |refs| ==> !refs[i].controller
    ensures r.Some? ==>
      exists i :: 0 <= i < |refs| && refs[i] == r.value && refs[i].controller &&
        forall k :: 0 <= k < i ==> !refs[k].controller
  {
    if refs == [] then None
    else if refs[0].controller then Some(refs[0])
    else
      var r := ControllerIn(refs[1..]);
      assert forall i :: 0 <= i < |refs[1..]| ==> refs[1..][i] == refs[i + 1];
      assert r.Some? ==>
        exists i :: 0 <= i < |refs| && refs[i] == r.value && refs[i].controller &&
          forall k :: 0 <= k < i ==> !refs[k].controller
      by {
        if r.Some? {
          var i :| 0 <= i < |refs[1..]| && refs[1..][i] == r.value && refs[1..][i].controller &&
            forall k :: 0 <= k < i ==> !refs[1..][k].controller;
          assert forall k :: 0 <= k < i + 1 ==> !refs[k].controller by {
            forall k | 0 <= k < i + 1 ensures !refs[k].controller {
              if k > 0 {
                assert refs[k] == refs[1..][k - 1];
              }
            }
          }
        }
      }
      r
  }

  /**
   * podEnqueue.canAddToQueue: the pod is scheduled onto a node and its
   * controlling owner is a DaemonSet.
   */
  function CanAddToQueue(pod: Pod): (ok: bool)
    ensures pod.nodeName == "" ==> !ok
    ensures ControllerIn(pod.ownerReferences).None? ==> !ok
    ensures ok <==>
      pod.nodeName != "" &&
      exists i :: 0 <= i < |pod.ownerReferences| &&
        pod.ownerReferences[i].controller && pod.ownerReferences[i].kind == "DaemonSet" &&
        forall k :: 0 <= k < i ==> !pod.ownerReferences[k].controller
  {
    if pod.nodeName == "" then false
    else
      var owner := ControllerIn(pod.ownerReferences);
      ControllerUnique(pod.ownerReferences);
      if owner.None? then false
      else owner.value.kind == "DaemonSet"
  }

  /** Only one owner reference can be the first one marked as controller. */
  lemma ControllerUnique(refs: seq<OwnerReference>)
    ensures forall i, j |
      0 <= i < |refs| && 0 <= j < |refs| && refs[i].controller && refs[j].controller &&
      (forall k :: 0 <= k < i ==> !refs[k].controller) &&
      (forall k :: 0 <= k < j ==> !refs[k].controller) :: i == j
  {
  }

  /** The requests a pod handler adds for the object it reads from the event. */
  function PodRequests(obj: Object): (r: seq<Request>)
    ensures |r| <= 1
    ensures |r| == 1 <==> obj.PodObject? && CanAddToQueue(obj.pod)
    ensures forall req :: req in r ==>
      obj.PodObject? && req == NodeRequest(obj.pod.nodeName) && req.name != ""
  {
    if obj.PodObject? && CanAddToQueue(obj.pod) then [NodeRequest(obj.pod.nodeName)] else []
  }

  /** nodeEnqueue: only node creation triggers a reconcile. */
  class NodeEnqueue {
    constructor() {}

    method Create(evt: CreateEvent, q: WorkQueue)
      modifies q
      ensures evt.meta.None? ==> q.items == old(q.items)
      ensures evt.meta.Some? ==> q.items == old(q.items) + [NodeRequest(evt.meta.value.name)]
    {
      if evt.meta.None? {
        return;
      }
      q.Add(NodeRequest(evt.meta.value.name));
    }

    method Update(evt: UpdateEvent, q: WorkQueue)
      ensures q.items == old(q.items)
    {
    }

    method Delete(evt: DeleteEvent, q: WorkQueue)
      ensures q.items == old(q.items)
    {
    }

    method Generic(evt: GenericEvent, q: WorkQueue)
      ensures q.items == old(q.items)
    {
    }
  }

  /** podEnqueue: events about daemonset pods trigger a reconcile of their node. */
  class PodEnqueue {
    constructor() {}

    method Generic(evt: GenericEvent, q: WorkQueue)
      ensures q.items == old(q.items)
    {
    }

    method Create(evt: CreateEvent, q: WorkQueue)
      modifies q
      ensures q.items == old(q.items) + PodRequests(evt.obj)
    {
      if !evt.obj.PodObject? {
        return;
      }
      var pod := evt.obj.pod;
      if !CanAddToQueue(pod) {
        return;
      }
      q.Add(NodeRequest(pod.nodeName));
    }

    /** Reads the new version of the obj. */
    method Update(evt: UpdateEvent, q: WorkQueue)
      modifies q
      ensures q.items == old(q.items) + PodRequests(evt.objNew)
    {
      if !evt.objNew.PodObject? {
        return;
      }
      var pod := evt.objNew.pod;
      if !CanAddToQueue(pod) {
        return;
      }
      q.Add(NodeRequest(pod.nodeName));
    }

    method Delete(evt: DeleteEvent, q: WorkQueue)
      modifies q
      ensures q.items == old(q.items) + PodRequests(evt.obj)
    {
      if !evt.obj.PodObject? {
        return;
      }
      var pod := evt.obj.pod;
      if !CanAddToQueue(pod) {
        return;
      }
      q.Add(NodeRequest(pod.nodeName));
    }
  }

  /**
   * ReconcileNode.Reconcile: `fetched` is what the client's Get returned
   * for the request. A missing node ends the reconcile without error, any
   * other error is returned as is, and a found node goes to HandleNode.
   */
  method Reconcile(
    request: Request,
    fetched: Result<Node, ApiError>,
    listing: Result<seq<Pod>, ApiError>,
    updateError: Option<ApiError>)
    returns (result: ReconcileResult, err: Option<Error>, written: Option<Node>)
    requires fetched.Success? ==> fetched.value.name == request.name
    ensures fetched.Failure? ==> result == EmptyResult && written == None
    ensures fetched.Failure? && IsNotFound(fetched.error) ==> err == None
    ensures fetched.Failure? && !IsNotFound(fetched.error) ==> err == Some(Api(fetched.error))
    ensures fetched.Success? ==>
      Outcome(result, err, written) == Handled(fetched.value, listing, updateError)
    ensures written.Some? ==> written.value.name == request.name
  {
    if fetched.Failure? {
      if IsNotFound(fetched.error) {
        return EmptyResult, None, None;
      }
      return EmptyResult, Some(Api(fetched.error)), None;
    }
    result, err, written := HandleNode(fetched.value, listing, updateError);
  }
}

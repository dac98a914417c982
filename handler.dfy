/**
 * The taint decision of pkg/nidhogg/handler.go: a node gets the taint
 * `kiam-not-ready` (effect NoSchedule) while the pod of the `kiam`
 * daemonset on it is missing or has an unready container, and loses it
 * once that pod is ready.
 *
 * The API client is not modelled: the pod listing of `kube-system` and the
 * error an update would return are parameters, and the node the handler
 * would write is an out-parameter.
 */
module Handler {
  import opened Wrappers
  import opened Kube

  /** Owner name that identifies the watched daemonset's pods. */
  const DaemonsetOwner: string := "kiam"

  /** Namespace the pods are listed in (handler.go:64). */
  const DaemonsetNamespace: string := "kube-system"

  /** The one taint key this version manages. */
  const TaintKey: string := "kiam-not-ready"

  /** The taint addTaint appends: the key, an empty value, effect NoSchedule. */
  const NotReadyTaint: Taint := Taint(TaintKey, "", NoSchedule)

  /** The error values HandleNode returns. */
  datatype Error =
    | Api(cause: ApiError)          // returned as is by the client
    | FetchingPods(cause: ApiError) // wrapped as "error fetching pods: %v"

  /** reconcile.Result; every path of this version returns the empty one. */
  datatype ReconcileResult = ReconcileResult(requeue: bool, requeueAfter: nat)

  const EmptyResult: ReconcileResult := ReconcileResult(false, 0)

  // ---------------------------------------------------------------------
  // Readiness

  /** Some container of the pod reports Ready == false. */
  predicate HasUnreadyContainer(pod: Pod) {
    exists i :: 0 <= i < |pod.containerStatuses| && !pod.containerStatuses[i].ready
  }

  /** podNotReady: scans the container statuses and stops at the first unready one. */
  method PodNotReady(pod: Pod) returns (notReady: bool)
    ensures notReady <==> HasUnreadyContainer(pod)
    ensures pod.containerStatuses == [] ==> !notReady
  {
    var i := 0;
    while i < |pod.containerStatuses|
      invariant 0 <= i <= |pod.containerStatuses|
      invariant forall k :: 0 <= k < i ==> pod.containerStatuses[k].ready
    {
      if !pod.containerStatuses[i].ready {
        return true;
      }
      i := i + 1;
    }
    return false;
  }

  // ---------------------------------------------------------------------
  // Taint lists

  /** Some taint of the list carries the managed key. */
  predicate Tainted(taints: seq<Taint>) {
    exists i :: 0 <= i < |taints| && taints[i].key == TaintKey
  }

  /** taintPresent: scans the node's taints for the managed key. */
  method TaintPresent(node: Node) returns (present: bool)
    ensures present <==> Tainted(node.taints)
  {
    var i := 0;
    while i < |node.taints|
      invariant 0 <= i <= |node.taints|
      invariant forall k :: 0 <= k < i ==> node.taints[k].key != TaintKey
    {
      if node.taints[i].key == TaintKey {
        return true;
      }
      i := i + 1;
    }
    return false;
  }

  /** The number of taints in the list that carry the managed key. */
  function Count(taints: seq<Taint>): (n: nat)
    ensures n <= |taints|
    ensures n > 0 <==> Tainted(taints)
  {
    if taints == [] then 0
    else
      var rest := Count(taints[1..]);
      assert Tainted(taints[1..]) ==> Tainted(taints) by {
        if Tainted(taints[1..]) {
          var i :| 0 <= i < |taints[1..]| && taints[1..][i].key == TaintKey;
          assert taints[i + 1].key == TaintKey;
        }
      }
      (if taints[0].key == TaintKey then 1 else 0) + rest
  }

  /** The foreign taints of a list: those without the managed key, in their order. */
  function Foreign(taints: seq<Taint>): (r: seq<Taint>)
    ensures !Tainted(r)
    ensures forall t :: t in r <==> t in taints && t.key != TaintKey
    ensures |r| == |taints| - Count(taints)
  {
    if taints == [] then []
    else if taints[0].key == TaintKey then Foreign(taints[1..])
    else [taints[0]] + Foreign(taints[1..])
  }

  lemma {:induction false} ForeignAppend(a: seq<Taint>, b: seq<Taint>)
    ensures Foreign(a + b) == Foreign(a) + Foreign(b)
  {
    if a == [] {
      assert a + b == b;
    } else {
      assert (a + b)[0] == a[0];
      assert (a + b)[1..] == a[1..] + b;
      ForeignAppend(a[1..], b);
    }
  }

  lemma {:induction false} CountAppend(a: seq<Taint>, b: seq<Taint>)
    ensures Count(a + b) == Count(a) + Count(b)
  {
    if a == [] {
      assert a + b == b;
    } else {
      assert (a + b)[0] == a[0];
      assert (a + b)[1..] == a[1..] + b;
      CountAppend(a[1..], b);
    }
  }

  /** A list without the managed key is its own foreign part: nothing else is ever dropped. */
  lemma {:induction false} ForeignOfUntainted(taints: seq<Taint>)
    requires !Tainted(taints)
    ensures Foreign(taints) == taints
  {
    if taints != [] {
      assert taints[0].key != TaintKey;
      assert forall i :: 0 <= i < |taints[1..]| ==> taints[1..][i] == taints[i + 1];
      ForeignOfUntainted(taints[1..]);
      assert taints == [taints[0]] + taints[1..];
    }
  }

  /** Removing the managed taints twice removes nothing more the second time. */
  lemma RemoveTaintIdempotent(taints: seq<Taint>)
    ensures Foreign(Foreign(taints)) == Foreign(taints)
  {
    ForeignOfUntainted(Foreign(taints));
  }

  /** The foreign part changes exactly when the list carried the managed key. */
  lemma ForeignChangesIffTainted(taints: seq<Taint>)
    ensures Foreign(taints) != taints <==> Tainted(taints)
  {
    if !Tainted(taints) {
      ForeignOfUntainted(taints);
    }
  }

  /** addTaint: appends one managed taint after the existing ones. */
  function AddTaint(taints: seq<Taint>): (r: seq<Taint>)
    ensures |r| == |taints| + 1 && r[..|taints|] == taints
    ensures r[|taints|] == NotReadyTaint
    ensures Tainted(r)
    ensures Foreign(r) == Foreign(taints)
    ensures Count(r) == Count(taints) + 1
  {
    var r := taints + [NotReadyTaint];
    assert r[|taints|].key == TaintKey;
    ForeignAppend(taints, [NotReadyTaint]);
    assert Foreign([NotReadyTaint]) == [] by {
      assert [NotReadyTaint][1..] == [];
    }
    CountAppend(taints, [NotReadyTaint]);
    assert Count([NotReadyTaint]) == 1 by {
      assert [NotReadyTaint][1..] == [];
    }
    r
  }

  /** One more element of the list extends its foreign part by that element, or by nothing. */
  lemma ForeignStep(taints: seq<Taint>, i: nat)
    requires i < |taints|
    ensures Foreign(taints[..i + 1]) ==
      Foreign(taints[..i]) + (if taints[i].key == TaintKey then [] else [taints[i]])
  {
    assert taints[..i + 1] == taints[..i] + [taints[i]];
    ForeignAppend(taints[..i], [taints[i]]);
    assert [taints[i]][1..] == [];
  }

  /**
   * removeTaint: copies every taint without the managed key into a new
   * list. Go returns nil instead of an empty slice; both are [] here.
   */
  method RemoveTaint(taints: seq<Taint>) returns (r: seq<Taint>)
    ensures r == Foreign(taints)
    ensures !Tainted(r)
  {
    var newTaints: seq<Taint> := [];
    var i := 0;
    while i < |taints|
      invariant 0 <= i <= |taints|
      invariant newTaints == Foreign(taints[..i])
    {
      ForeignStep(taints, i);
      if taints[i].key != TaintKey {
        newTaints := newTaints + [taints[i]];
      }
      i := i + 1;
    }
    assert taints[..i] == taints;
    r := newTaints;
  }

  // ---------------------------------------------------------------------
  // Locating the daemonset pod

  /** Some owner reference of the pod is named after the daemonset. */
  predicate OwnedByDaemonset(pod: Pod) {
    exists j :: 0 <= j < |pod.ownerReferences| && pod.ownerReferences[j].name == DaemonsetOwner
  }

  /** The pod belongs to the daemonset and is scheduled onto the node. */
  predicate IsDaemonsetPodOn(pod: Pod, nodeName: string) {
    OwnedByDaemonset(pod) && pod.nodeName == nodeName
  }

  /** The first pod of the list, in list order, that is the daemonset's pod on the node. */
  function FirstDaemonsetPod(pods: seq<Pod>, nodeName: string): (r: Option<Pod>)
    ensures r.None? <==> forall i :: 0 <= i < |pods| ==> !IsDaemonsetPodOn(pods[i], nodeName)
    ensures r.Some? ==>
      exists i :: 0 <= i < |pods| && pods[i] == r.value && IsDaemonsetPodOn(pods[i], nodeName) &&
        forall k :: 0 <= k < i ==> !IsDaemonsetPodOn(pods[k], nodeName)
  {
    if pods == [] then None
    else if IsDaemonsetPodOn(pods[0], nodeName) then Some(pods[0])
    else
      var r := FirstDaemonsetPod(pods[1..], nodeName);
      assert r.Some? ==>
        exists i :: 0 <= i < |pods| && pods[i] == r.value && IsDaemonsetPodOn(pods[i], nodeName) &&
          forall k :: 0 <= k < i ==> !IsDaemonsetPodOn(pods[k], nodeName)
      by {
        if r.Some? {
          var i :| 0 <= i < |pods[1..]| && pods[1..][i] == r.value && IsDaemonsetPodOn(pods[1..][i], nodeName) &&
            forall k :: 0 <= k < i ==> !IsDaemonsetPodOn(pods[1..][k], nodeName);
          assert forall k :: 0 <= k < i + 1 ==> !IsDaemonsetPodOn(pods[k], nodeName) by {
            forall k | 0 <= k < i + 1 ensures !IsDaemonsetPodOn(pods[k], nodeName) {
              if k > 0 {
                assert pods[k] == pods[1..][k - 1];
              }
            }
          }
          assert pods[i + 1] == r.value;
        }
      }
      assert r.None? ==> forall i :: 0 <= i < |pods| ==> !IsDaemonsetPodOn(pods[i], nodeName) by {
        if r.None? {
          forall i | 0 <= i < |pods| ensures !IsDaemonsetPodOn(pods[i], nodeName) {
            if i > 0 {
              assert pods[i] == pods[1..][i - 1];
            }
          }
        }
      }
      r
  }

  /**
   * getDaemonsetPod: the listing of `kube-system` is a parameter. A failed
   * listing is passed on; otherwise the nested search returns the first
   * pod with an owner named `kiam` on the node, or none.
   */
  method GetDaemonsetPod(listing: Result<seq<Pod>, ApiError>, nodeName: string)
    returns (r: Result<Option<Pod>, ApiError>)
    ensures listing.Failure? ==> r == Failure(listing.error)
    ensures listing.Success? ==> r == Success(FirstDaemonsetPod(listing.value, nodeName))
  {
    if listing.Failure? {
      return Failure(listing.error);
    }
    var pods := listing.value;
    var i := 0;
    while i < |pods|
      invariant 0 <= i <= |pods|
      invariant FirstDaemonsetPod(pods, nodeName) == FirstDaemonsetPod(pods[i..], nodeName)
    {
      var pod := pods[i];
      var j := 0;
      while j < |pod.ownerReferences|
        invariant 0 <= j <= |pod.ownerReferences|
        invariant pod.nodeName == nodeName ==>
          forall k :: 0 <= k < j ==> pod.ownerReferences[k].name != DaemonsetOwner
      {
        var owner := pod.ownerReferences[j];
        if owner.name == DaemonsetOwner {
          if pod.nodeName == nodeName {
            return Success(Some(pod));
          }
        }
        j := j + 1;
      }
      assert !IsDaemonsetPodOn(pod, nodeName);
      assert pods[i..][1..] == pods[i + 1..];
      i := i + 1;
    }
    return Success(None);
  }

  // ---------------------------------------------------------------------
  // The decision of HandleNode

  /** The node's new taint list and whether an update is issued. */
  datatype Decision = Decision(taints: seq<Taint>, update: bool)

  /** No daemonset pod was found on the node, or it has an unready container. */
  predicate PodAbsentOrNotReady(pod: Option<Pod>)
    ensures pod.None? ==> PodAbsentOrNotReady(pod)
    ensures pod.Some? ==> (PodAbsentOrNotReady(pod) <==>
      exists i :: 0 <= i < |pod.value.containerStatuses| && !pod.value.containerStatuses[i].ready)
    ensures pod.Some? && pod.value.containerStatuses == [] ==> !PodAbsentOrNotReady(pod)
  {
    pod.None? || HasUnreadyContainer(pod.value)
  }

  /**
   * The branch of HandleNode: with the pod absent or not ready the taint is
   * added unless present (an early return without update); with the pod
   * ready every managed taint is removed. The update is issued only when
   * the taint list changed.
   */
  function Decide(taints: seq<Taint>, pod: Option<Pod>): (d: Decision)
    ensures d.update <==> d.taints != taints
    ensures Foreign(d.taints) == Foreign(taints)
    ensures PodAbsentOrNotReady(pod) && Tainted(taints) ==> d == Decision(taints, false)
    ensures PodAbsentOrNotReady(pod) && !Tainted(taints) ==> d == Decision(AddTaint(taints), true)
    ensures PodAbsentOrNotReady(pod) ==> Tainted(d.taints)
    ensures Count(d.taints) == if !PodAbsentOrNotReady(pod) then 0 else if Tainted(taints) then Count(taints) else 1
    ensures !PodAbsentOrNotReady(pod) ==> d.taints == Foreign(taints) && d.update == Tainted(taints)
  {
    if PodAbsentOrNotReady(pod) then
      if Tainted(taints) then Decision(taints, false)
      else Decision(AddTaint(taints), true)
    else
      var newTaints := Foreign(taints);
      ForeignChangesIffTainted(taints);
      RemoveTaintIdempotent(taints);
      Decision(newTaints, newTaints != taints)
  }

  /** Deciding again on the decided taint list, with the same pod, changes nothing. */
  lemma DecideIdempotent(taints: seq<Taint>, pod: Option<Pod>)
    ensures Decide(Decide(taints, pod).taints, pod) == Decision(Decide(taints, pod).taints, false)
  {
    if !PodAbsentOrNotReady(pod) {
      RemoveTaintIdempotent(taints);
    }
  }

  /** A list with at most one managed taint keeps at most one. */
  lemma DecideNoDuplicate(taints: seq<Taint>, pod: Option<Pod>)
    requires Count(taints) <= 1
    ensures Count(Decide(taints, pod).taints) <= 1
  {
  }

  /** What HandleNode returns and which node, if any, it writes. */
  datatype Outcome = Outcome(result: ReconcileResult, err: Option<Error>, written: Option<Node>)

  /**
   * HandleNode as a function of the node, the pod listing and the error
   * the update call would return.
   */
  function Handled(node: Node, listing: Result<seq<Pod>, ApiError>, updateError: Option<ApiError>): (o: Outcome)
    ensures o.result == EmptyResult
    ensures listing.Failure? ==> o.err == Some(FetchingPods(listing.error)) && o.written == None
    ensures o.written.Some? ==>
      o.written.value == node.(taints := o.written.value.taints) &&
      o.written.value.taints != node.taints &&
      Foreign(o.written.value.taints) == Foreign(node.taints)
    ensures o.err.Some? <==> listing.Failure? || (o.written.Some? && updateError.Some?)
    ensures o.err.Some? && listing.Success? ==> o.err == Some(Api(updateError.value))
    ensures listing.Success? ==>
      var pod := FirstDaemonsetPod(listing.value, node.name);
      (o.written.Some? <==> Decide(node.taints, pod).update) &&
      (PodAbsentOrNotReady(pod) ==> o.written.None? || o.written.value.taints == AddTaint(node.taints)) &&
      (!PodAbsentOrNotReady(pod) ==> o.written.None? || o.written.value.taints == Foreign(node.taints))
  {
    match listing
    case Failure(e) => Outcome(EmptyResult, Some(FetchingPods(e)), None)
    case Success(pods) =>
      var d := Decide(node.taints, FirstDaemonsetPod(pods, node.name));
      if d.update then
        Outcome(EmptyResult, if updateError.Some? then Some(Api(updateError.value)) else None, Some(node.(taints := d.taints)))
      else
        Outcome(EmptyResult, None, None)
  }

  /**
   * HandleNode: works on a copy of the node, and issues the update (the
   * out-parameter `written`) only when the copy differs from the node.
   */
  method HandleNode(node: Node, listing: Result<seq<Pod>, ApiError>, updateError: Option<ApiError>)
    returns (result: ReconcileResult, err: Option<Error>, written: Option<Node>)
    ensures Outcome(result, err, written) == Handled(node, listing, updateError)
  {
    var found := GetDaemonsetPod(listing, node.name);
    if found.Failure? {
      return EmptyResult, Some(FetchingPods(found.error)), None;
    }
    var pod := found.value;
    var copy := node;
    var notReady := false;
    if pod.Some? {
      notReady := PodNotReady(pod.value);
    }
    if pod.None? || notReady {
      var present := TaintPresent(copy);
      if present {
        return EmptyResult, None, None;
      }
      copy := copy.(taints := AddTaint(copy.taints));
    } else {
      var remaining := RemoveTaint(copy.taints);
      copy := copy.(taints := remaining);
    }
    result, err, written := EmptyResult, None, None;
    if copy != node {
      written := Some(copy);
      if updateError.Some? {
        err := Some(Api(updateError.value));
      }
    }
  }
}

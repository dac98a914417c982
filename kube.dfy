/**
 * The slice of the Kubernetes object model that the controller reads and
 * writes: nodes with their taints, pods with their owner references and
 * container statuses, and the errors the API client can report.
 */
module Kube {

  /** corev1.TaintEffect. */
  datatype TaintEffect = NoSchedule | PreferNoSchedule | NoExecute

  /**
   * corev1.Taint. TimeAdded is neither read nor set by this controller;
   * foreign taints are copied whole, so the field passes through unchanged.
   */
  datatype Taint = Taint(key: string, value: string, effect: TaintEffect)

  /**
   * metav1.OwnerReference. `controller` stands for the `*bool` field
   * Controller, with a nil pointer read as false.
   */
  datatype OwnerReference = OwnerReference(kind: string, name: string, controller: bool)

  /** corev1.ContainerStatus, reduced to the flag the controller reads. */
  datatype ContainerStatus = ContainerStatus(name: string, ready: bool)

  /** corev1.Pod: metadata, Spec.NodeName and Status.ContainerStatuses. */
  datatype Pod = Pod(
    name: string,
    namespace: string,
    ownerReferences: seq<OwnerReference>,
    nodeName: string,
    containerStatuses: seq<ContainerStatus>)

  /**
   * corev1.Node: its name, its labels (standing for every field the
   * controller never touches) and Spec.Taints.
   */
  datatype Node = Node(name: string, labels: map<string, string>, taints: seq<Taint>)

  /** Errors returned by the API client; `NotFound` is what errors.IsNotFound recognises. */
  datatype ApiError = NotFound(name: string) | Conflict(name: string) | ServerError(reason: string)

  /** errors.IsNotFound: only the not-found error qualifies. */
  predicate IsNotFound(e: ApiError)
    ensures e.NotFound? ==> IsNotFound(e)
    ensures e.Conflict? || e.ServerError? ==> !IsNotFound(e)
  {
    e.NotFound?
  }
}

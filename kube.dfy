/**
 * The Kubernetes API values the controller reads and writes: object metadata,
 * Deployments and their pod specs, object and owner references, events, and the
 * VerticalPodAutoscalerController custom resource. Go's nil maps and nil slices
 * compare equal to empty ones under equality.Semantic.DeepEqual, so maps and
 * sequences stand for them directly; only the annotations map keeps its nil
 * case (`None`), because UpdateAnnotations treats it specially.
 */
module Kube {

  datatype Option<+T> = None | Some(value: T)

  /** The two error kinds the controller tells apart: errors.IsNotFound, and every other one. */
  datatype Error = NotFound | AlreadyExists | Failed(reason: string)

  datatype Result<+T> = Ok(value: T) | Err(error: Error)

  newtype int32 = x: int | -0x8000_0000 <= x < 0x8000_0000

  datatype NamespacedName = NamespacedName(namespace: string, name: string)

  datatype OwnerReference = OwnerReference(
    apiVersion: string, kind: string, name: string, uid: string, controller: bool)

  datatype ObjectMeta = ObjectMeta(
    name: string,
    namespace: string,
    labels: map<string, string>,
    annotations: Option<map<string, string>>,
    ownerReferences: seq<OwnerReference>)

  /** The key under which an object with this metadata is stored. */
  function NameOf(meta: ObjectMeta): NamespacedName {
    NamespacedName(meta.namespace, meta.name)
  }

  datatype ObjectReference = ObjectReference(
    kind: string, apiVersion: string, name: string, namespace: string, uid: string)

  // corev1.TolerationOpExists and corev1.TaintEffectNoSchedule
  const TolerationOpExists := "Exists"
  const TaintEffectNoSchedule := "NoSchedule"

  datatype Toleration = Toleration(key: string, operator: string, value: string, effect: string)

  datatype Container = Container(name: string, image: string, command: seq<string>, args: seq<string>)

  datatype PodSpec = PodSpec(
    serviceAccountName: string,
    priorityClassName: string,
    nodeSelector: map<string, string>,
    containers: seq<Container>,
    tolerations: seq<Toleration>)

  datatype PodTemplateSpec = PodTemplateSpec(meta: ObjectMeta, spec: PodSpec)

  datatype LabelSelector = LabelSelector(matchLabels: map<string, string>)

  datatype DeploymentSpec = DeploymentSpec(
    replicas: Option<int32>,
    selector: Option<LabelSelector>,
    template: PodTemplateSpec)

  datatype Deployment = Deployment(
    apiVersion: string, kind: string, meta: ObjectMeta, spec: DeploymentSpec)

  /** The tuning parameters of the custom resource; the Go fields are optional float64s. */
  datatype VpaSpec = VpaSpec(
    safetyMarginFraction: Option<real>,
    podMinCpuMillicores: Option<real>,
    podMinMemoryMb: Option<real>)

  datatype VerticalPodAutoscalerController = VerticalPodAutoscalerController(
    apiVersion: string, kind: string, meta: ObjectMeta, spec: VpaSpec)

  datatype EventType = Normal | Warning

  /** One call of the event recorder: its type, its reason and the object it is about. */
  datatype Event = Event(eventType: EventType, reason: string, involved: Option<ObjectReference>)
}

/**
 * The slice of the Kubernetes API types (k8s.io/api core/v1, apps/v1, autoscaling/v1 and
 * apimachinery meta/v1) that the services read or build. Only the fields the services touch
 * are kept; a creation timestamp is a count of seconds.
 */
module KubeTypes {

  import opened Results

  /** Go's int32. */
  newtype int32 = x: int | -0x8000_0000 <= x < 0x8000_0000

  /** Go's conversion int32(x): keep the low 32 bits, read them as two's complement. */
  function Int32Of(x: int): (r: int32)
    ensures -0x8000_0000 <= x < 0x8000_0000 ==> r as int == x
    ensures (x - r as int) % 0x1_0000_0000 == 0
  {
    ((x + 0x8000_0000) % 0x1_0000_0000 - 0x8000_0000) as int32
  }

  /** metav1.ObjectMeta: name, namespace, labels and creationTimestamp (0 when unset). */
  datatype ObjectMeta = ObjectMeta(
    name: string,
    namespace: string,
    labels: map<string, string>,
    creationTimestamp: int)

  /** corev1.Protocol */
  datatype Protocol = TCP | UDP | SCTP

  /** corev1.ContainerPort */
  datatype ContainerPort = ContainerPort(name: string, protocol: Protocol, containerPort: int32)

  /** intstr.IntOrString: Type 0 holds IntVal, Type 1 holds StrVal. */
  datatype IntOrString = IntVal(i: int32) | StrVal(s: string)

  /** corev1.HTTPGetAction, the only probe handler the services build. */
  datatype HTTPGetAction = HTTPGetAction(path: string, port: IntOrString)

  /** corev1.Probe */
  datatype Probe = Probe(
    httpGet: HTTPGetAction,
    initialDelaySeconds: int32,
    timeoutSeconds: int32,
    periodSeconds: int32)

  /** corev1.ResourceCPU and corev1.ResourceMemory. */
  datatype ResourceName = Cpu | Memory

  /** corev1.ResourceRequirements; quantities are kept as the strings they are parsed from. */
  datatype ResourceRequirements = ResourceRequirements(
    limits: map<ResourceName, string>,
    requests: map<ResourceName, string>)

  /** corev1.Container; a nil probe pointer is None. */
  datatype Container = Container(
    name: string,
    image: string,
    ports: seq<ContainerPort>,
    readinessProbe: Option<Probe>,
    livenessProbe: Option<Probe>,
    resources: ResourceRequirements)

  /** corev1.PodSpec */
  datatype PodSpec = PodSpec(containers: seq<Container>)

  /** corev1.Pod */
  datatype Pod = Pod(meta: ObjectMeta, spec: PodSpec)

  /** corev1.PodTemplateSpec */
  datatype PodTemplateSpec = PodTemplateSpec(meta: ObjectMeta, spec: PodSpec)

  /** metav1.LabelSelector */
  datatype LabelSelector = LabelSelector(matchLabels: map<string, string>)

  /** appsv1.DeploymentSpec */
  datatype DeploymentSpec = DeploymentSpec(
    replicas: int32,
    selector: LabelSelector,
    template: PodTemplateSpec)

  /** appsv1.DeploymentStatus, reduced to the replica counters. */
  datatype DeploymentStatus = DeploymentStatus(replicas: int32, readyReplicas: int32, availableReplicas: int32)

  /** appsv1.Deployment */
  datatype Deployment = Deployment(meta: ObjectMeta, spec: DeploymentSpec, status: DeploymentStatus)

  /** autoscalingv1.Scale */
  datatype ScaleSpec = ScaleSpec(replicas: int32)
  datatype ScaleStatus = ScaleStatus(replicas: int32, selector: string)
  datatype Scale = Scale(meta: ObjectMeta, spec: ScaleSpec, status: ScaleStatus)

  /** corev1.Namespace, reduced to its name. */
  datatype Namespace = Namespace(name: string)

  /** The zero value of metav1.ObjectMeta's creation time, and of DeploymentStatus. */
  const ZeroTime: int := 0
  const EmptyStatus: DeploymentStatus := DeploymentStatus(0, 0, 0)
}

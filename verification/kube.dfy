/**
 The slice of the cluster platform's object model that the three controllers
 build and read: object metadata, label selectors, workload controllers
 (Deployment, StatefulSet), network endpoints (Service), pods, and Go's
 fixed-width integers.
 */
module Kube {

  datatype Option<+T> = None | Some(value: T)

  /** Go's `int32`. */
  type Int32 = x: int | -0x8000_0000 <= x < 0x8000_0000

  /** Go's `int` on a 64-bit platform (the type of every `Replicas` spec field). */
  type GoInt = x: int | -0x8000_0000_0000_0000 <= x < 0x8000_0000_0000_0000

  const TwoTo32: int := 0x1_0000_0000

  /** Go's conversion `int32(x)`: keeps the low 32 bits as a two's complement value. */
  function ToInt32(x: int): (r: Int32)
    ensures -0x8000_0000 <= x < 0x8000_0000 ==> r == x
    ensures (x - r) % TwoTo32 == 0
  {
    (x + 0x8000_0000) % TwoTo32 - 0x8000_0000
  }

  /** The truncation is the only 32-bit value congruent to its input. */
  lemma ToInt32Unique(x: int, y: Int32)
    requires (x - y) % TwoTo32 == 0
    ensures y == ToInt32(x)
  {
    var r := ToInt32(x);
    var k1 := (x - y) / TwoTo32;
    var k2 := (x - r) / TwoTo32;
    assert x - y == TwoTo32 * k1;
    assert x - r == TwoTo32 * k2;
    assert r - y == TwoTo32 * (k1 - k2);
  }

  /** Status words the controllers write; the Database controller adds `Ready`, the pod scan `Failed`. */
  const Pending: string := "Pending"
  const Running: string := "Running"
  const Completed: string := "Completed"

  /** `corev1.PullIfNotPresent`. */
  const PullIfNotPresent: string := "IfNotPresent"

  /** `corev1.ClusterIPNone`: a headless service. */
  const ClusterIPNone: string := "None"

  /** `corev1.ReadWriteOnce`. */
  const ReadWriteOnce: string := "ReadWriteOnce"

  /** An instant; `metav1.Time{}` (Go's zero time) is `ZeroTime`. */
  datatype Time = Time(seconds: int)

  const ZeroTime: Time := Time(0)

  datatype TypeMeta = TypeMeta(apiVersion: string, kind: string)

  datatype ObjectMeta = ObjectMeta(name: string, namespace: string, labels: map<string, string>)

  datatype ListMeta = ListMeta(resourceVersion: string, continueToken: string)

  /** Metadata carrying only a name, as every object the controllers build. */
  function Named(name: string): ObjectMeta {
    ObjectMeta(name, "", map[])
  }

  /** Metadata carrying only labels, as every pod template the controllers build. */
  function Labelled(labels: map<string, string>): ObjectMeta {
    ObjectMeta("", "", labels)
  }

  /** The `{"app": name}` label set every controller uses to tie pods to their owner. */
  function AppLabels(name: string): map<string, string> {
    map["app" := name]
  }

  /** An equality-based label selector picks an object when every selector pair is among its labels. */
  predicate Selects(selector: map<string, string>, labels: map<string, string>) {
    forall k :: k in selector ==> k in labels && labels[k] == selector[k]
  }

  /** The pull policy a container gets: the requested one, or IfNotPresent when none is requested. */
  function ResolvePullPolicy(requested: string): (policy: string)
    ensures policy != ""
    ensures requested != "" ==> policy == requested
    ensures requested == "" ==> policy == PullIfNotPresent
  {
    if requested != "" then requested else PullIfNotPresent
  }

  /**
   An environment variable value. `FormattedParams(m)` stands for Go's
   `fmt.Sprintf("%v", m)` of a parameter map, kept symbolic: equal maps give
   equal values, which is all the controllers rely on.
   */
  datatype EnvValue = Literal(text: string) | FormattedParams(params: map<string, string>)

  datatype EnvVar = EnvVar(name: string, value: EnvValue)

  datatype VolumeMount = VolumeMount(name: string, mountPath: string)

  /** A TCP-socket readiness probe. */
  datatype Probe = TcpProbe(port: int, initialDelaySeconds: int, periodSeconds: int)

  datatype Container = Container(
    name: string,
    image: string,
    imagePullPolicy: string,
    ports: seq<int>,
    env: seq<EnvVar>,
    volumeMounts: seq<VolumeMount>,
    readinessProbe: Option<Probe>)

  datatype PodTemplate = PodTemplate(meta: ObjectMeta, containers: seq<Container>)

  /**
   A Deployment. The API server defaults a missing replica count, so a stored
   Deployment always has one.
   */
  datatype Deployment = Deployment(
    meta: ObjectMeta,
    replicas: Int32,
    selector: map<string, string>,
    template: PodTemplate)

  datatype ServicePort = ServicePort(port: int, targetPort: int)

  datatype Service = Service(
    meta: ObjectMeta,
    clusterIP: string,
    selector: map<string, string>,
    ports: seq<ServicePort>)

  datatype VolumeClaim = VolumeClaim(meta: ObjectMeta, accessModes: seq<string>, storageRequest: string)

  /** A StatefulSet: the spec fields the controller sets, plus the observed ready count. */
  datatype StatefulSet = StatefulSet(
    meta: ObjectMeta,
    replicas: Option<Int32>,
    selector: map<string, string>,
    serviceName: string,
    template: PodTemplate,
    volumeClaimTemplates: seq<VolumeClaim>,
    readyReplicas: Int32)

  datatype PodPhase = PodPending | PodRunning | PodSucceeded | PodFailed | PodUnknown

  /** A container's readiness and, when it is waiting, the reason it waits. */
  datatype ContainerStatus = ContainerStatus(ready: bool, waitingReason: Option<string>)

  datatype Pod = Pod(meta: ObjectMeta, phase: PodPhase, containerStatuses: seq<ContainerStatus>)
}

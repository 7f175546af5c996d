/** The parts of a Deployment that the operator reads. */
module Kube {
  import opened Types
  import opened Quantity

  /** A nested upstream value the normalizer embeds whole without looking inside. */
  type Upstream = string

  /** A Go slice or map, which may be nil. */
  type Slice<T> = Option<seq<T>>
  type Dict<V> = Option<map<string, V>>

  function Items<T>(s: Slice<T>): seq<T> {
    if s.None? then [] else s.value
  }

  function Entries<V>(d: Dict<V>): map<string, V> {
    if d.None? then map[] else d.value
  }

  datatype Requirement = Requirement(key: string, operator: string, values: Slice<string>)

  datatype Selector = Selector(matchLabels: Dict<string>, matchExpressions: Slice<Requirement>)

  datatype EnvVar = EnvVar(name: string, value: string, valueFrom: Option<Upstream>)

  /** Quantities by their exact decimal, `AsDec`. */
  datatype Resources = Resources(requests: Dict<Dec>, limits: Dict<Dec>)

  datatype Container = Container(
    name: string,
    image: string,
    command: Slice<string>,
    args: Slice<string>,
    workingDir: string,
    env: Slice<EnvVar>,
    envFrom: Slice<Upstream>,
    ports: Slice<Upstream>,
    imagePullPolicy: string,
    resources: Resources,
    volumeMounts: Slice<Upstream>,
    volumeDevices: Slice<Upstream>,
    securityContext: Option<Upstream>,
    livenessProbe: Option<Upstream>,
    readinessProbe: Option<Upstream>,
    startupProbe: Option<Upstream>,
    lifecycle: Option<Upstream>,
    restartPolicy: Option<string>)

  datatype PodSpec = PodSpec(
    initContainers: Slice<Container>,
    containers: Slice<Container>,
    serviceAccountName: string,
    automountServiceAccountToken: Option<bool>,
    imagePullSecrets: Slice<Upstream>,
    hostNetwork: bool,
    hostPID: bool,
    hostIPC: bool,
    hostUsers: Option<bool>,
    runtimeClassName: Option<string>,
    securityContext: Option<Upstream>,
    shareProcessNamespace: Option<bool>,
    volumes: Slice<Upstream>,
    resourceClaims: Slice<Upstream>,
    hostAliases: Slice<Upstream>,
    dnsPolicy: string,
    dnsConfig: Option<Upstream>,
    hostname: string,
    subdomain: string,
    setHostnameAsFQDN: Option<bool>,
    enableServiceLinks: Option<bool>,
    nodeSelector: Dict<string>,
    nodeName: string,
    schedulerName: string,
    affinity: Option<Upstream>,
    tolerations: Slice<Upstream>,
    topologySpreadConstraints: Slice<Upstream>,
    priorityClassName: string,
    preemptionPolicy: Option<string>,
    schedulingGates: Slice<Upstream>,
    os: Option<Upstream>)

  datatype Status = Status(observedGeneration: int, updated: int, ready: int, available: int, total: int)

  datatype Deployment = Deployment(
    namespace: string,
    name: string,
    generation: int,
    labels: Dict<string>,
    annotations: Dict<string>,
    replicas: Option<int>,
    selector: Option<Selector>,
    podLabels: Dict<string>,
    pod: PodSpec,
    status: Status)
}

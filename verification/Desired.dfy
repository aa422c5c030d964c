/** The children a Function asks for, as EnsureFuncConfigMap, EnsureFuncService and EnsureFuncDeployment of
    pkg/utils/kubelessutil.go compute them. */
module Desired {
  import opened Common
  import opened Strings
  import opened Quantities
  import opened Runtimes
  import opened Provision
  import opened PodSpecs

  type Labels = map<string, string>

  /** The Deployment a user may put into the Function spec. */
  datatype UserDeployment = UserDeployment(labels: Labels, annotations: Labels, templateLabels: Labels,
                                           templateAnnotations: Labels, replicas: Option<int>, pod: PodSpec)

  datatype Port = Port(name: string, port: int, targetPort: int)

  datatype ServiceSpec = ServiceSpec(ports: seq<Port>, selector: Labels, kind: string)

  /** A metric; the text stands for everything but the target quantity. */
  datatype Metric = ObjectMetric(text: string, target: Quantity) | OtherMetric(text: string, value: Option<Quantity>)

  datatype Autoscaler = Autoscaler(name: string, target: string, metrics: seq<Metric>, text: string, owner: Option<string>)

  /** deletion stands for the address of the deletion timestamp: two decoded objects never share one. */
  datatype FunctionObj = FunctionObj(name: string, uid: string, rv: string, deletion: Option<int>, labels: Labels,
                                     annotations: Labels, code: Code, timeout: string, deployment: UserDeployment,
                                     service: ServiceSpec, scaler: Autoscaler)

  /** Controller configuration: runtime table, provision image, pull secrets, the environment variables that
      override a runtime's image, and whether the service-monitor client exists. */
  datatype Config = Config(table: Table, provisionImage: string, secrets: seq<string>,
                           imageOverride: (string, string) -> string, sha256: string -> string, monitors: bool)

  // ---- labels ----

  /** The labels every child gets: the user's, the function's name and the created-by mark. */
  function Marked(f: FunctionObj): (r: Labels) {
    f.labels["function" := f.name]["created-by" := "kubeless"]
  }

  predicate HasDefaultLabel(labels: Labels) {
    "created-by" in labels && labels["created-by"] == "kubeless"
  }

  // ---- ConfigMap and Service ----

  datatype ConfigMapObj = ConfigMapObj(labels: Labels, owner: string, data: map<string, string>)

  datatype ServiceObj = ServiceObj(labels: Labels, owner: string, spec: ServiceSpec)

  function DesiredConfigMap(cfg: Config, f: FunctionObj): (r: Result<ConfigMapObj>) {
    match ConfigMapData(f.code, cfg.table)
    case Ok(data) => Ok(ConfigMapObj(Marked(f), f.uid, data))
    case _ => Error
  }

  const DEFAULT_PORT := Port("http-function-port", 8080, 8080)

  function DesiredService(f: FunctionObj): (r: ServiceObj) {
    ServiceObj(Marked(f), f.uid,
               if f.service.ports == [] then ServiceSpec([DEFAULT_PORT], Marked(f), "ClusterIP") else f.service)
  }

  function TargetPort(service: ServiceSpec): (r: int) {
    if service.ports == [] then 8080 else service.ports[0].targetPort
  }

  // ---- Deployment ----

  datatype DeploymentObj = DeploymentObj(labels: Labels, annotations: Labels, owner: string, selector: Labels,
                                         templateLabels: Labels, templateAnnotations: Labels, replicas: Option<int>,
                                         pod: PodSpec)

  /** The part of a Function its pod is computed from. */
  datatype Workload = Workload(name: string, code: Code, timeout: string, pod: PodSpec, service: ServiceSpec)

  function WorkloadOf(f: FunctionObj): (r: Workload) { Workload(f.name, f.code, f.timeout, f.deployment.pod, f.service) }

  /** GetFunctionImage. A runtime without a runtime phase yields an empty image name and no error. */
  function FunctionImage(cfg: Config, runtime: string): (r: Result<string>) {
    match GetRuntimeInfo(cfg.table, runtime)
    case None => Error
    case Some(info) =>
      var override := cfg.imageOverride(info.id, VersionOf(runtime));
      if override != "" then Ok(override)
      else
        match FindRuntimeVersion(cfg.table, runtime)
        case None => Error
        case Some(version) =>
          Ok(match FindImage(PHASE_RUNTIME, version.images) case Some(image) => image.image case None => "")
  }

  const DEFAULT_TIMEOUT := "180"

  function HandlerEnv(w: Workload, mod: string, handler: string, memory: string): (r: seq<EnvVar>)
    ensures |r| == 5 && r[3] == EnvVar("FUNC_RUNTIME", w.code.runtime)
  {
    [EnvVar("FUNC_HANDLER", handler), EnvVar("MOD_NAME", mod),
     EnvVar("FUNC_TIMEOUT", if w.timeout == "" then DEFAULT_TIMEOUT else w.timeout),
     EnvVar("FUNC_RUNTIME", w.code.runtime), EnvVar("FUNC_MEMORY_LIMIT", memory)]
  }

  /** UpdateDeployment: environment every runtime container gets from the runtime table. */
  function RuntimeEnv(cfg: Config, runtime: string, listing: Listing): (r: seq<EnvVar>) {
    match FindRuntimeVersion(cfg.table, runtime)
    case None => []
    case Some(version) =>
      [EnvVar("KUBELESS_INSTALL_VOLUME", "/kubeless")] +
      (match FindImage(PHASE_RUNTIME, version.images) case Some(image) => listing(image.env) case None => [])
  }

  function Probe(cfg: Config, w: Workload): (r: string) {
    match ProbeEntry(cfg.table, w.code.runtime)
    case Some(entry) =>
      (match entry.probe case Some(p) => p case None => "http /healthz " + Decimal(TargetPort(w.service)))
    case None => "http /healthz " + Decimal(TargetPort(w.service))
  }

  /** The resources of the user's first init container, for the generated ones. */
  function FirstDemand(pod: PodSpec): (r: Demand) {
    if |pod.initContainers| > 0 then pod.initContainers[0].resources else NO_DEMAND
  }

  function SetupOf(cfg: Config, w: Workload, listing: Listing): (u: Setup)
  {
    Setup(w.name, w.code, cfg.table, cfg.provisionImage, cfg.secrets,
          FirstDemand(w.pod),
          cfg.sha256, listing)
  }

  /** The user's pod spec with at least one container. */
  function UserPod(w: Workload): (r: PodSpec)
    ensures |r.containers| > 0
  {
    if w.pod.containers == [] then w.pod.(containers := [EMPTY_CONTAINER]) else w.pod
  }

  function WithFirst(pod: PodSpec, c: Container): (r: PodSpec)
    requires |pod.containers| > 0
  {
    pod.(containers := pod.containers[0 := c])
  }

  /** The pod spec with code, image and handler environment, before the parts every function gets. */
  function CodePod(cfg: Config, w: Workload, prebuilt: string, listing: Listing): (r: Result<PodSpec>)
    ensures r.Ok? ==> |r.value.containers| > 0
  {
    var pod := UserPod(w);
    if w.code.handler == "" || w.code.source == "" then Ok(pod)
    else
      match SplitHandler(w.code.handler)
      case None => Error
      case Some((mod, handler)) =>
        var first := pod.containers[0];
        if first.image == "" && prebuilt == "" then
          match (Populated(SetupOf(cfg, w, listing), pod), FunctionImage(cfg, w.code.runtime))
          case (Ok(p), Ok(image)) =>
            Ok(WithFirst(p, first.(image := image, mounts := first.mounts + [RuntimeMount(w.name)],
                                   env := first.env + HandlerEnv(w, mod, handler, MemoryLimit(first.resources)))))
          case (Panic, _) => Panic
          case _ => Error
        else
          Ok(WithFirst(pod.(pullSecrets := cfg.secrets),
                       first.(image := if first.image == "" then prebuilt else first.image,
                              env := first.env + HandlerEnv(w, mod, handler, MemoryLimit(first.resources)))))
  }

  /** The parts every function gets. */
  function FinishedPod(cfg: Config, w: Workload, pod: PodSpec, listing: Listing): (r: PodSpec)
    requires |pod.containers| > 0
  {
    var c := pod.containers[0];
    WithFirst(pod,
              c.(env := c.env + [EnvVar("FUNC_PORT", Decimal(TargetPort(w.service)))] + RuntimeEnv(cfg, w.code.runtime, listing),
                 name := w.name, ports := c.ports + [TargetPort(w.service)],
                 probe := if c.probe.None? then Some(Probe(cfg, w)) else c.probe))
      .(securityContext := if pod.securityContext.None? then Some("1000") else pod.securityContext,
        affinity := if pod.affinity.None? then Some("anti-affinity " + w.name) else pod.affinity)
  }

  function PodAnnotations(f: FunctionObj): (r: Labels) {
    map["prometheus.io/scrape" := "true", "prometheus.io/path" := "/metrics",
        "prometheus.io/port" := Decimal(TargetPort(f.service))]
  }

  function LabelAt(labels: Labels, k: string): (r: string) { if k in labels then labels[k] else "" }

  function DesiredPod(cfg: Config, w: Workload, prebuilt: string, listing: Listing): (r: Result<PodSpec>) {
    match CodePod(cfg, w, prebuilt, listing)
    case Ok(pod) => Ok(FinishedPod(cfg, w, pod, listing))
    case Error => Error
    case Panic => Panic
  }

  function Assembled(f: FunctionObj, labels: Labels, pod: PodSpec): (r: DeploymentObj) {
    var d := f.deployment;
    DeploymentObj((d.labels + labels)["created-by" := "kubeless"], d.annotations + f.annotations, f.uid,
                  map["created-by" := LabelAt(labels, "created-by"), "function" := LabelAt(labels, "function")],
                  d.templateLabels + labels, d.templateAnnotations + f.annotations + PodAnnotations(f), d.replicas, pod)
  }

  /** The Deployment computed while the Function's label map holds the given labels. */
  function AssembledResult(f: FunctionObj, labels: Labels, pod: Result<PodSpec>): (r: Result<DeploymentObj>) {
    match pod
    case Ok(p) => Ok(Assembled(f, labels, p))
    case Error => Error
    case Panic => Panic
  }

  function DesiredDeployment(cfg: Config, f: FunctionObj, prebuilt: string, listing: Listing): (r: Result<DeploymentObj>)
    ensures r.Ok? ==> r.value.selector == map["created-by" := "kubeless", "function" := f.name]
  {
    AssembledResult(f, Marked(f), DesiredPod(cfg, WorkloadOf(f), prebuilt, listing))
  }

  predicate Wanted(a: Autoscaler) { a.name != "" && a.target != "" }

  function DesiredAutoscaler(f: FunctionObj): (r: Option<Autoscaler>) {
    if Wanted(f.scaler) then Some(f.scaler.(owner := Some(f.uid))) else None
  }
}

/** functionObjChanged of pkg/controller/function_controller.go, against everything the controller computes from a
    Function. Its Semantic.DeepEqual compares resource quantities by amount, whatever format they are written in. */
module EventFilter {
  import opened Common
  import opened Quantities
  import opened PodSpecs
  import opened Desired

  // ---- semantic equality ----

  function OptAmount(q: Option<Quantity>): (r: Option<Quantity>) { if q.Some? then Some(Amount(q.value)) else None }

  function ContainerAmount(c: Container): (r: Container) { c.(resources := DemandAmount(c.resources)) }

  function VolumeAmount(v: Volume): (r: Volume) {
    if v.source.EmptyDir? then v.(source := EmptyDir(OptAmount(v.source.sizeLimit))) else v
  }

  function MetricAmount(m: Metric): (r: Metric) {
    match m
    case ObjectMetric(text, target) => ObjectMetric(text, Amount(target))
    case OtherMetric(text, value) => OtherMetric(text, OptAmount(value))
  }

  predicate SameContainers(cs: seq<Container>, ds: seq<Container>) {
    |cs| == |ds| && forall i :: 0 <= i < |cs| ==> ContainerAmount(cs[i]) == ContainerAmount(ds[i])
  }

  predicate SameVolumes(vs: seq<Volume>, ws: seq<Volume>) {
    |vs| == |ws| && forall i :: 0 <= i < |vs| ==> VolumeAmount(vs[i]) == VolumeAmount(ws[i])
  }

  predicate SamePods(p: PodSpec, q: PodSpec) {
    && p.(volumes := q.volumes, initContainers := q.initContainers, containers := q.containers) == q
    && SameVolumes(p.volumes, q.volumes)
    && SameContainers(p.initContainers, q.initContainers)
    && SameContainers(p.containers, q.containers)
  }

  predicate SameDeployments(d: UserDeployment, e: UserDeployment) { d.(pod := e.pod) == e && SamePods(d.pod, e.pod) }

  predicate SameScalers(a: Autoscaler, b: Autoscaler) {
    && a.(metrics := b.metrics) == b && |a.metrics| == |b.metrics|
    && forall i :: 0 <= i < |a.metrics| ==> MetricAmount(a.metrics[i]) == MetricAmount(b.metrics[i])
  }

  // ---- the filter ----

  /** functionObjChanged */
  predicate Changed(was: FunctionObj, next: FunctionObj) {
    if was.deletion != next.deletion then true
    else if was.rv == next.rv then false
    else
      || was.code.source != next.code.source
      || was.code.checksum != next.code.checksum
      || was.code.handler != next.code.handler
      || was.code.contentType != next.code.contentType
      || was.code.deps != next.code.deps
      || was.timeout != next.timeout
      || !SameDeployments(was.deployment, next.deployment)
      || !SameScalers(was.scaler, next.scaler)
      || was.service != next.service
  }

  /** A change of the deletion timestamp is always let through: it is no part of what is desired, but without it
      nothing would be cleaned up. */
  lemma DeletionIsSeen(was: FunctionObj, next: FunctionObj)
    requires was.deletion != next.deletion
    ensures Changed(was, next)
  {
  }

  /** The fields of the spec the filter looks at are the same. */
  predicate SameSpec(was: FunctionObj, next: FunctionObj) {
    && was.code.(runtime := next.code.runtime) == next.code && was.timeout == next.timeout && was.service == next.service
    && SameDeployments(was.deployment, next.deployment) && SameScalers(was.scaler, next.scaler)
  }

  /** With the timestamp kept, an update is let through exactly when it is a new version with another spec; the
      runtime, labels, annotations and finalizers do not count. */
  lemma UpdateIsSeenIff(was: FunctionObj, next: FunctionObj)
    requires was.deletion == next.deletion
    ensures Changed(was, next) <==> was.rv != next.rv && !SameSpec(was, next)
  {
  }

  /** All children computed from f, for given build answer and env order. */
  predicate SameChildren(cfg: Config, f: FunctionObj, g: FunctionObj, prebuilt: string, listing: Listing) {
    && DesiredConfigMap(cfg, f) == DesiredConfigMap(cfg, g)
    && DesiredService(f) == DesiredService(g)
    && DesiredDeployment(cfg, f, prebuilt, listing) == DesiredDeployment(cfg, g, prebuilt, listing)
    && DesiredAutoscaler(f) == DesiredAutoscaler(g)
  }

  // ---- the quantities a pod shows ----

  predicate SameDemands(cs: seq<Container>, ds: seq<Container>) {
    |cs| == |ds| && forall i :: 0 <= i < |cs| ==> cs[i].resources == ds[i].resources
  }

  predicate SameSources(vs: seq<Volume>, ws: seq<Volume>) {
    |vs| == |ws| && forall i :: 0 <= i < |vs| ==> vs[i].source == ws[i].source
  }

  /** The user's init containers give way to generated ones. */
  predicate Replaced(w: Workload, prebuilt: string) {
    w.code.handler != "" && w.code.source != "" && UserPod(w).containers[0].image == "" && prebuilt == ""
  }

  /** The texts of the quantities that reach the Deployment are kept: those of all containers and volumes, and of
      the init containers, of which only the first counts where they are replaced. */
  predicate TextsKept(w: Workload, v: Workload, prebuilt: string) {
    && SameDemands(w.pod.containers, v.pod.containers)
    && SameSources(w.pod.volumes, v.pod.volumes)
    && if Replaced(w, prebuilt) then FirstDemand(w.pod) == FirstDemand(v.pod)
       else SameDemands(w.pod.initContainers, v.pod.initContainers)
  }

  lemma ContainersEqual(cs: seq<Container>, ds: seq<Container>)
    requires SameContainers(cs, ds) && SameDemands(cs, ds)
    ensures cs == ds
  {
    forall i | 0 <= i < |cs|
      ensures cs[i] == ds[i]
    {
      assert ContainerAmount(cs[i]) == ContainerAmount(ds[i]);
      assert cs[i] == ContainerAmount(cs[i]).(resources := cs[i].resources);
      assert ds[i] == ContainerAmount(ds[i]).(resources := ds[i].resources);
    }
  }

  lemma VolumesEqual(vs: seq<Volume>, ws: seq<Volume>)
    requires SameVolumes(vs, ws) && SameSources(vs, ws)
    ensures vs == ws
  {
    forall i | 0 <= i < |vs|
      ensures vs[i] == ws[i]
    {
      assert VolumeAmount(vs[i]) == VolumeAmount(ws[i]);
      assert vs[i].source == ws[i].source;
    }
  }

  // ---- kept texts give the same pod ----

  /** Generated init containers do not depend on the user's. */
  lemma InitsIgnored(u: Setup, pod: PodSpec, inits: seq<Container>)
    requires u.code.source != ""
    ensures Populated(u, pod) == Populated(u, pod.(initContainers := inits))
  {
  }

  lemma ReplacedSame(cfg: Config, w: Workload, inits: seq<Container>, listing: Listing)
    requires Replaced(w, "") && FirstDemand(w.pod) == FirstDemand(w.pod.(initContainers := inits))
    ensures var v := w.(pod := w.pod.(initContainers := inits));
            CodePod(cfg, w, "", listing) == CodePod(cfg, v, "", listing)
  {
    var v := w.(pod := w.pod.(initContainers := inits));
    assert SetupOf(cfg, w, listing) == SetupOf(cfg, v, listing);
    assert UserPod(v) == UserPod(w).(initContainers := inits);
    InitsIgnored(SetupOf(cfg, w, listing), UserPod(w), inits);
  }

  lemma SamePodFor(cfg: Config, w: Workload, v: Workload, prebuilt: string, listing: Listing)
    requires w.(pod := v.pod) == v && SamePods(w.pod, v.pod) && TextsKept(w, v, prebuilt)
    ensures DesiredPod(cfg, w, prebuilt, listing) == DesiredPod(cfg, v, prebuilt, listing)
  {
    ContainersEqual(w.pod.containers, v.pod.containers);
    VolumesEqual(w.pod.volumes, v.pod.volumes);
    if Replaced(w, prebuilt) {
      assert v == w.(pod := w.pod.(initContainers := v.pod.initContainers));
      ReplacedSame(cfg, w, v.pod.initContainers, listing);
      FinishedAlike(cfg, w, v, CodePod(cfg, w, "", listing), listing);
    } else {
      ContainersEqual(w.pod.initContainers, v.pod.initContainers);
      assert w == v;
    }
  }

  lemma FinishedAlike(cfg: Config, w: Workload, v: Workload, r: Result<PodSpec>, listing: Listing)
    requires w.(pod := v.pod) == v && (r.Ok? ==> |r.value.containers| > 0)
    ensures r.Ok? ==> FinishedPod(cfg, w, r.value, listing) == FinishedPod(cfg, v, r.value, listing)
  {
  }

  // ---- the same pod shows kept texts ----

  /** What of the user's pod can be read off the finished one. */
  predicate Shows(w: Workload, prebuilt: string, pod: PodSpec) {
    && SameDemands(UserPod(w).containers, pod.containers)
    && w.pod.volumes <= pod.volumes
    && if Replaced(w, prebuilt) then |pod.initContainers| > 0 && pod.initContainers[0].resources == FirstDemand(w.pod)
       else pod.initContainers == w.pod.initContainers
  }

  lemma PopulatedShows(u: Setup, pod: PodSpec)
    requires u.code.source != "" && Populated(u, pod).Ok?
    ensures var r := Populated(u, pod).value;
            && r.containers == pod.containers && pod.volumes <= r.volumes
            && |r.initContainers| > 0 && r.initContainers[0].resources == u.initResources
  {
    var inits := Inits(u, pod).value;
    assert inits[0] == PrepareInit(u, pod).value[0];
    MountFromExtends(u.table, u.code.runtime, Mounted(BaseVolumes(u, pod), inits), 0);
  }

  lemma CodePodShows(cfg: Config, w: Workload, prebuilt: string, listing: Listing)
    requires CodePod(cfg, w, prebuilt, listing).Ok?
    ensures Shows(w, prebuilt, CodePod(cfg, w, prebuilt, listing).value)
  {
    if Replaced(w, prebuilt) {
      PopulatedShows(SetupOf(cfg, w, listing), UserPod(w));
    }
  }

  lemma PodShows(cfg: Config, w: Workload, prebuilt: string, listing: Listing)
    requires DesiredPod(cfg, w, prebuilt, listing).Ok?
    ensures Shows(w, prebuilt, DesiredPod(cfg, w, prebuilt, listing).value)
  {
    CodePodShows(cfg, w, prebuilt, listing);
    FinishedShows(cfg, w, prebuilt, CodePod(cfg, w, prebuilt, listing).value, listing);
  }

  lemma FinishedShows(cfg: Config, w: Workload, prebuilt: string, pod: PodSpec, listing: Listing)
    requires |pod.containers| > 0 && Shows(w, prebuilt, pod)
    ensures Shows(w, prebuilt, FinishedPod(cfg, w, pod, listing))
  {
  }

  /** Two workloads that show in the same pod have the same texts in it. */
  lemma ShownTextsKept(w: Workload, v: Workload, prebuilt: string, pod: PodSpec)
    requires w.name == v.name && w.code.handler == v.code.handler && w.code.source == v.code.source && SamePods(w.pod, v.pod)
    requires Shows(w, prebuilt, pod) && Shows(v, prebuilt, pod)
    ensures TextsKept(w, v, prebuilt)
  {
    assert UserPod(w).containers[0].image == UserPod(v).containers[0].image by {
      if w.pod.containers != [] {
        assert ContainerAmount(w.pod.containers[0]) == ContainerAmount(v.pod.containers[0]);
      }
    }
    assert SameDemands(w.pod.containers, v.pod.containers) by {
      forall i | 0 <= i < |w.pod.containers|
        ensures w.pod.containers[i].resources == v.pod.containers[i].resources
      {
        assert UserPod(w).containers[i].resources == pod.containers[i].resources == UserPod(v).containers[i].resources;
      }
    }
    forall i | 0 <= i < |w.pod.volumes|
      ensures w.pod.volumes[i].source == v.pod.volumes[i].source
    {
      assert w.pod.volumes[i] == pod.volumes[i] == v.pod.volumes[i];
    }
  }

  // ---- the runtime a pod shows ----

  predicate ShowsRuntime(w: Workload, pod: PodSpec) {
    var n := |UserPod(w).containers[0].env|;
    |pod.containers| > 0 && n + 3 < |pod.containers[0].env| && pod.containers[0].env[n + 3] == EnvVar("FUNC_RUNTIME", w.code.runtime)
  }

  lemma CodeShowsRuntime(cfg: Config, w: Workload, prebuilt: string, listing: Listing)
    requires w.code.handler != "" && w.code.source != "" && CodePod(cfg, w, prebuilt, listing).Ok?
    ensures ShowsRuntime(w, CodePod(cfg, w, prebuilt, listing).value)
  {
  }

  /** The runtime shows up in the environment of a pod built from code. */
  lemma RuntimeVisible(cfg: Config, w: Workload, prebuilt: string, listing: Listing)
    requires w.code.handler != "" && w.code.source != "" && DesiredPod(cfg, w, prebuilt, listing).Ok?
    ensures ShowsRuntime(w, DesiredPod(cfg, w, prebuilt, listing).value)
  {
    CodeShowsRuntime(cfg, w, prebuilt, listing);
  }

  lemma OneRuntime(w: Workload, v: Workload, pod: PodSpec)
    requires ShowsRuntime(w, pod) && ShowsRuntime(v, pod) && SamePods(w.pod, v.pod)
    ensures w.code.runtime == v.code.runtime
  {
    if w.pod.containers != [] {
      assert ContainerAmount(w.pod.containers[0]) == ContainerAmount(v.pod.containers[0]);
    }
  }

  /** The pods of two versions the filter takes for the same are equal exactly when runtime and texts are kept. */
  lemma PodsSameIff(cfg: Config, w: Workload, v: Workload, prebuilt: string, listing: Listing)
    requires w.(pod := v.pod, code := w.code.(runtime := v.code.runtime)) == v && SamePods(w.pod, v.pod)
    requires w.code.handler != "" && w.code.source != ""
    requires DesiredPod(cfg, w, prebuilt, listing).Ok? && DesiredPod(cfg, v, prebuilt, listing).Ok?
    ensures DesiredPod(cfg, w, prebuilt, listing) == DesiredPod(cfg, v, prebuilt, listing) <==>
            w.code.runtime == v.code.runtime && TextsKept(w, v, prebuilt)
  {
    if w.code.runtime == v.code.runtime && TextsKept(w, v, prebuilt) {
      SamePodFor(cfg, w, v, prebuilt, listing);
    } else if DesiredPod(cfg, w, prebuilt, listing) == DesiredPod(cfg, v, prebuilt, listing) {
      SamePodShows(cfg, w, v, prebuilt, listing);
    }
  }

  lemma SamePodShows(cfg: Config, w: Workload, v: Workload, prebuilt: string, listing: Listing)
    requires w.(pod := v.pod, code := w.code.(runtime := v.code.runtime)) == v && SamePods(w.pod, v.pod)
    requires w.code.handler != "" && w.code.source != ""
    requires DesiredPod(cfg, w, prebuilt, listing).Ok? && DesiredPod(cfg, w, prebuilt, listing) == DesiredPod(cfg, v, prebuilt, listing)
    ensures w.code.runtime == v.code.runtime && TextsKept(w, v, prebuilt)
  {
    var pod := DesiredPod(cfg, w, prebuilt, listing).value;
    PodShows(cfg, w, prebuilt, listing);
    PodShows(cfg, v, prebuilt, listing);
    RuntimeVisible(cfg, w, prebuilt, listing);
    RuntimeVisible(cfg, v, prebuilt, listing);
    ShownTextsKept(w, v, prebuilt, pod);
    OneRuntime(w, v, pod);
  }

  // ---- dropped events ----

  /** The texts of the quantities of a wanted autoscaler are kept. */
  predicate ScalerTextsKept(a: Autoscaler, b: Autoscaler) { Wanted(a) ==> a.metrics == b.metrics }

  lemma ScalersSameIff(f: FunctionObj, g: FunctionObj)
    requires SameScalers(f.scaler, g.scaler) && f.uid == g.uid
    ensures DesiredAutoscaler(f) == DesiredAutoscaler(g) <==> ScalerTextsKept(f.scaler, g.scaler)
  {
  }

  /** A dropped update that keeps runtime, labels, annotations, identity and the texts of quantities would have
      changed no child. */
  lemma DroppedEventIsHarmless(cfg: Config, was: FunctionObj, next: FunctionObj, prebuilt: string, listing: Listing)
    requires !Changed(was, next)
    requires was.rv == next.rv ==> was == next
    requires was.name == next.name && was.uid == next.uid
    requires was.code.runtime == next.code.runtime && was.labels == next.labels && was.annotations == next.annotations
    requires TextsKept(WorkloadOf(was), WorkloadOf(next), prebuilt) && ScalerTextsKept(was.scaler, next.scaler)
    ensures SameChildren(cfg, was, next, prebuilt, listing)
  {
    if was.rv != next.rv {
      var w, v := WorkloadOf(was), WorkloadOf(next);
      SamePodFor(cfg, w, v, prebuilt, listing);
      ScalersSameIff(was, next);
      SameButPod(was, next, DesiredPod(cfg, w, prebuilt, listing));
    }
  }

  lemma SameButPod(f: FunctionObj, g: FunctionObj, r: Result<PodSpec>)
    requires f.name == g.name && f.uid == g.uid && f.labels == g.labels && f.annotations == g.annotations
    requires f.deployment.(pod := g.deployment.pod) == g.deployment && f.service == g.service
    ensures AssembledResult(f, Marked(f), r) == AssembledResult(g, Marked(g), r)
  {
  }

  lemma AssembledSameIff(f: FunctionObj, g: FunctionObj, p: PodSpec, q: PodSpec)
    requires f.name == g.name && f.deployment.(pod := g.deployment.pod) == g.deployment && f.service == g.service
    ensures Marked(f) == Marked(g) ==>
            (Assembled(f, Marked(f), p) == Assembled(g, Marked(g), q) <==>
             && p == q && f.uid == g.uid
             && f.deployment.annotations + f.annotations == f.deployment.annotations + g.annotations
             && f.deployment.templateAnnotations + f.annotations + PodAnnotations(f) ==
                f.deployment.templateAnnotations + g.annotations + PodAnnotations(f))
  {
    assert PodAnnotations(f) == PodAnnotations(g);
  }

  /** Exactly when a dropped update of a function with code leaves its children as they are: it kept the
      runtime, the identity, the effective labels and annotations, and the texts of quantities. */
  lemma DroppedEventHarmlessIff(cfg: Config, was: FunctionObj, next: FunctionObj, prebuilt: string, listing: Listing)
    requires !Changed(was, next) && was.rv != next.rv && was.name == next.name
    requires was.code.handler != "" && was.code.source != ""
    requires DesiredConfigMap(cfg, was).Ok? && DesiredConfigMap(cfg, next).Ok?
    requires DesiredPod(cfg, WorkloadOf(was), prebuilt, listing).Ok? && DesiredPod(cfg, WorkloadOf(next), prebuilt, listing).Ok?
    ensures SameChildren(cfg, was, next, prebuilt, listing) <==>
            && was.code.runtime == next.code.runtime && was.uid == next.uid && Marked(was) == Marked(next)
            && was.deployment.annotations + was.annotations == was.deployment.annotations + next.annotations
            && was.deployment.templateAnnotations + was.annotations + PodAnnotations(was) ==
               was.deployment.templateAnnotations + next.annotations + PodAnnotations(was)
            && TextsKept(WorkloadOf(was), WorkloadOf(next), prebuilt) && ScalerTextsKept(was.scaler, next.scaler)
  {
    var w, v := WorkloadOf(was), WorkloadOf(next);
    PodsSameIff(cfg, w, v, prebuilt, listing);
    PartsSameIff(was, next, DesiredPod(cfg, w, prebuilt, listing).value, DesiredPod(cfg, v, prebuilt, listing).value);
  }

  /** Labels, Deployment and autoscaler around two pods. */
  lemma PartsSameIff(f: FunctionObj, g: FunctionObj, p: PodSpec, q: PodSpec)
    requires f.name == g.name && f.deployment.(pod := g.deployment.pod) == g.deployment && f.service == g.service
    requires SameScalers(f.scaler, g.scaler)
    ensures Marked(f) == Marked(g) && Assembled(f, Marked(f), p) == Assembled(g, Marked(g), q) && DesiredAutoscaler(f) == DesiredAutoscaler(g) <==>
            && p == q && f.uid == g.uid && Marked(f) == Marked(g)
            && f.deployment.annotations + f.annotations == f.deployment.annotations + g.annotations
            && f.deployment.templateAnnotations + f.annotations + PodAnnotations(f) ==
               f.deployment.templateAnnotations + g.annotations + PodAnnotations(f)
            && ScalerTextsKept(f.scaler, g.scaler)
  {
    AssembledSameIff(f, g, p, q);
    if f.uid == g.uid {
      ScalersSameIff(f, g);
    }
  }

  /** An update that only switches the runtime is dropped although it changes what is desired. */
  lemma RuntimeChangeIsDropped(cfg: Config, f: FunctionObj, runtime: string, rv: string, prebuilt: string, listing: Listing)
    requires f.code.handler != "" && f.code.source != "" && runtime != f.code.runtime && rv != f.rv
    requires DesiredPod(cfg, WorkloadOf(f), prebuilt, listing).Ok?
    ensures var g := f.(rv := rv, code := f.code.(runtime := runtime));
            !Changed(f, g) && !SameChildren(cfg, f, g, prebuilt, listing)
  {
    var g := f.(rv := rv, code := f.code.(runtime := runtime));
    if DesiredPod(cfg, WorkloadOf(g), prebuilt, listing).Ok? {
      PodsSameIff(cfg, WorkloadOf(f), WorkloadOf(g), prebuilt, listing);
    }
  }

  /** f with another memory limit on its first container. */
  function WithMemory(f: FunctionObj, limit: Quantity, rv: string): (g: FunctionObj)
    requires f.deployment.pod.containers != []
  {
    var pod := f.deployment.pod;
    var c := pod.containers[0];
    f.(rv := rv, deployment := f.deployment.(pod :=
         pod.(containers := pod.containers[0 := c.(resources := c.resources.(limits := c.resources.limits["memory" := limit]))])))
  }

  lemma Reformatted(f: FunctionObj, limit: Quantity, rv: string)
    requires rv != f.rv && f.deployment.pod.containers != []
    requires var was := f.deployment.pod.containers[0].resources.limits;
             "memory" in was && was["memory"].nano == limit.nano && was["memory"].text != limit.text
    ensures var p, q := f.deployment.pod, WithMemory(f, limit, rv).deployment.pod;
            SamePods(p, q) && !SameDemands(p.containers, q.containers)
  {
    var c, d := f.deployment.pod.containers[0], WithMemory(f, limit, rv).deployment.pod.containers[0];
    assert Amounts(c.resources.limits) == Amounts(d.resources.limits);
    assert d.resources.limits["memory"] != c.resources.limits["memory"];
  }

  /** So is one that only writes the same memory limit in another format, such as 1Gi as 1073741824. */
  lemma ReformatIsDropped(cfg: Config, f: FunctionObj, limit: Quantity, rv: string, prebuilt: string, listing: Listing)
    requires f.code.handler != "" && f.code.source != "" && rv != f.rv && f.deployment.pod.containers != []
    requires var was := f.deployment.pod.containers[0].resources.limits;
             "memory" in was && was["memory"].nano == limit.nano && was["memory"].text != limit.text
    requires DesiredPod(cfg, WorkloadOf(f), prebuilt, listing).Ok?
    ensures !Changed(f, WithMemory(f, limit, rv)) && !SameChildren(cfg, f, WithMemory(f, limit, rv), prebuilt, listing)
  {
    var g := WithMemory(f, limit, rv);
    Reformatted(f, limit, rv);
    assert !TextsKept(WorkloadOf(f), WorkloadOf(g), prebuilt);
    if DesiredPod(cfg, WorkloadOf(g), prebuilt, listing).Ok? {
      PodsSameIff(cfg, WorkloadOf(f), WorkloadOf(g), prebuilt, listing);
    }
  }

  const GIBIBYTE := 1073741824 * BILLION

  /** The concrete input: 1Gi rewritten as 1073741824. */
  lemma GibibyteReformatIsDropped(cfg: Config, f: FunctionObj, rv: string, prebuilt: string, listing: Listing)
    requires f.code.handler != "" && f.code.source != "" && rv != f.rv && f.deployment.pod.containers != []
    requires var was := f.deployment.pod.containers[0].resources.limits;
             "memory" in was && was["memory"] == Parsed(GIBIBYTE, BinarySI)
    requires DesiredPod(cfg, WorkloadOf(f), prebuilt, listing).Ok?
    ensures var g := WithMemory(f, Parsed(GIBIBYTE, DecimalSI), rv);
            !Changed(f, g) && !SameChildren(cfg, f, g, prebuilt, listing)
  {
    GibibyteTwice();
    ReformatIsDropped(cfg, f, Parsed(GIBIBYTE, DecimalSI), rv, prebuilt, listing);
  }
}

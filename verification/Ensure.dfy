/** ensureK8sResources of pkg/controller/function_controller.go and the EnsureFunc* operations of
    pkg/utils/kubelessutil.go on a cluster whose API calls may fail, or be applied with the answer lost. The
    label map of the Function lives on the heap: addDefaultLabel writes into the map every later step reads. */
module Ensure {
  import opened Common
  import opened Json
  import opened Provision
  import opened PodSpecs
  import opened Desired
  import opened ImageBuild
  import opened DeploymentPatch
  import Controller

  // ---- the API server ----

  datatype Answer = Success | AlreadyExists | NotFound | Unavailable

  /** The objects of one kind. healthy: no call has failed on its own so far. */
  class Store<T> {
    var objects: map<string, T>
    ghost var healthy: bool

    constructor (objects: map<string, T>)
      ensures this.objects == objects && healthy
    {
      this.objects := objects;
      healthy := true;
    }

    method Create(name: string, x: T) returns (a: Answer)
      modifies this
      ensures a == Success || a == AlreadyExists || a == Unavailable
      ensures a == Success ==> name !in old(objects) && objects == old(objects)[name := x]
      ensures a == AlreadyExists ==> name in old(objects) && objects == old(objects)
      ensures objects == old(objects) || (name !in old(objects) && objects == old(objects)[name := x])
      ensures healthy == (old(healthy) && a != Unavailable)
    {
      var fate: Controller.Reply := *;
      healthy := healthy && fate == Controller.Done;
      if fate == Controller.Refused {
        return Unavailable;
      }
      if name in objects {
        return if fate == Controller.Done then AlreadyExists else Unavailable;
      }
      objects := objects[name := x];
      return if fate == Controller.Done then Success else Unavailable;
    }

    method Get(name: string) returns (a: Answer, x: Option<T>)
      modifies this`healthy
      ensures a == Success ==> name in objects && x == Some(objects[name])
      ensures a == NotFound ==> name !in objects
      ensures a == Success || a == NotFound || a == Unavailable
      ensures healthy == (old(healthy) && a != Unavailable)
    {
      var fate: Controller.Reply := *;
      healthy := healthy && fate == Controller.Done;
      if fate != Controller.Done {
        return Unavailable, None;
      }
      if name in objects {
        return Success, Some(objects[name]);
      }
      return NotFound, None;
    }

    method Update(name: string, x: T) returns (a: Answer)
      modifies this
      ensures a == Success || a == NotFound || a == Unavailable
      ensures a == Success ==> objects == old(objects)[name := x]
      ensures a == NotFound ==> name !in objects
      ensures objects == old(objects) || (name in old(objects) && objects == old(objects)[name := x])
      ensures healthy == (old(healthy) && a != Unavailable)
    {
      var fate: Controller.Reply := *;
      healthy := healthy && fate == Controller.Done;
      if fate == Controller.Refused {
        return Unavailable;
      }
      if name !in objects {
        return if fate == Controller.Done then NotFound else Unavailable;
      }
      objects := objects[name := x];
      return if fate == Controller.Done then Success else Unavailable;
    }

    method Delete(name: string) returns (a: Answer)
      modifies this
      ensures a == Success || a == NotFound || a == Unavailable
      ensures a != Unavailable ==> objects == old(objects) - {name}
      ensures objects == old(objects) || objects == old(objects) - {name}
      ensures healthy == (old(healthy) && a != Unavailable)
    {
      var fate: Controller.Reply := *;
      healthy := healthy && fate == Controller.Done;
      if fate == Controller.Refused {
        return Unavailable;
      }
      a := if fate != Controller.Done then Unavailable else if name in objects then Success else NotFound;
      objects := objects - {name};
    }
  }

  /** A merge patch sent to the API server, which applies it to what it holds. */
  method Patch(s: Store<Json>, name: string, p: Json) returns (a: Answer)
    modifies s
    ensures a == Success ==> name in old(s.objects) && s.objects == old(s.objects)[name := MergePatch(old(s.objects)[name], p)]
    ensures a == NotFound ==> name !in s.objects
    ensures a == Success || a == NotFound || a == Unavailable
    ensures s.objects == old(s.objects) ||
            (name in old(s.objects) && s.objects == old(s.objects)[name := MergePatch(old(s.objects)[name], p)])
    ensures s.healthy == (old(s.healthy) && a != Unavailable)
  {
    if name in s.objects {
      a := s.Update(name, MergePatch(s.objects[name], p));
    } else {
      a := NotFound;
    }
  }

  // ---- label maps ----

  /** A Go map: a reference, shared by whoever holds it. */
  class LabelMap {
    var m: Labels

    constructor (m: Labels)
      ensures this.m == m
    {
      this.m := m;
    }
  }

  ghost function Contents(l: LabelMap?): (r: Labels)
    reads l
  {
    if l == null then map[] else l.m
  }

  function Default(m: Labels): (r: Labels)
    ensures HasDefaultLabel(r)
  {
    m["created-by" := "kubeless"]
  }

  /** addDefaultLabel: writes into the caller's map, if there is one. */
  method AddDefaultLabel(l: LabelMap?) returns (r: LabelMap)
    modifies l
    ensures if l == null then fresh(r) else r == l
    ensures r.m == Default(old(Contents(l)))
  {
    if l == null {
      r := new LabelMap(map[]);
    } else {
      r := l;
    }
    r.m := r.m["created-by" := "kubeless"];
  }

  /** A map into which all entries of src but those left have been copied. */
  function Copied(dst: Labels, src: Labels, left: set<string>): (r: Labels) {
    dst + map k | k in src && k !in left :: src[k]
  }

  lemma CopyOne(dst: Labels, src: Labels, left: set<string>, k: string)
    requires k in left && k in src
    ensures Copied(dst, src, left)[k := src[k]] == Copied(dst, src, left - {k})
  {
  }

  lemma CopySelf(m: Labels, left: set<string>)
    ensures Copied(m, m, left) == m
  {
  }

  lemma CopyEnds(dst: Labels, src: Labels)
    ensures Copied(dst, src, {}) == dst + src
    ensures Copied(dst, src, src.Keys) == dst
  {
    assert (map k | k in src && k !in {} :: src[k]) == src;
  }

  /** mergeMap: entries of src win; the destination is reused unless it is empty. */
  method MergeMap(dst: LabelMap?, src: LabelMap?) returns (r: LabelMap)
    modifies dst
    ensures r.m == old(Contents(dst)) + old(Contents(src))
    ensures if old(Contents(dst)) == map[] then fresh(r) else r == dst
  {
    if dst == null || |dst.m| == 0 {
      r := new LabelMap(map[]);
    } else {
      r := dst;
    }
    if src == null {
      return;
    }
    CopyInto(r, src);
  }

  method CopyInto(r: LabelMap, src: LabelMap)
    modifies r
    ensures r.m == old(r.m) + old(src.m)
  {
    ghost var d, s := r.m, src.m;
    var left := src.m.Keys;
    CopyEnds(d, s);
    while left != {}
      invariant left <= s.Keys && src.m == s && r.m == Copied(d, s, left)
      decreases |left|
    {
      var k :| k in left;
      CopyOne(d, s, left, k);
      CopySelf(s, left - {k});
      r.m := r.m[k := src.m[k]];
      left := left - {k};
    }
  }

  /** The Function as the controller holds it: a value with a shared label map. */
  class FunctionRef {
    const obj: FunctionObj
    var labels: LabelMap?

    constructor (f: FunctionObj)
      ensures obj == f && labels != null && fresh(labels) && labels.m == f.labels
    {
      obj := f;
      labels := new LabelMap(f.labels);
    }

    ghost function Value(): (r: FunctionObj)
      reads this, labels
    {
      obj.(labels := Contents(labels))
    }
  }

  // ---- one child ----

  datatype Outcome = Done | Invalid | Conflict | Broken | Panicked

  /** What one EnsureFunc* call may do to the objects of its kind; next is None for a conflicting object. */
  ghost predicate Wrote<T(!new)>(was: map<string, T>, now: map<string, T>, name: string, next: Option<T>, o: Outcome) {
    match o
    case Done => next.Some? && now == was[name := next.value]
    case Conflict => next.None? && now == was
    case Broken => now == was || (next.Some? && now == was[name := next.value])
    case _ => now == was
  }

  function At<T>(m: map<string, T>, name: string): (r: Option<T>) { if name in m then Some(m[name]) else None }

  function NextConfigMap(cur: Option<ConfigMapObj>, d: ConfigMapObj, kept: Labels): (r: Option<ConfigMapObj>) {
    match cur
    case None => Some(d)
    case Some(c) => if HasDefaultLabel(c.labels) then Some(c.(labels := kept, owner := d.owner, data := d.data)) else None
  }

  function NextService(cur: Option<ServiceObj>, d: ServiceObj, kept: Labels): (r: Option<ServiceObj>) {
    match cur
    case None => Some(d)
    case Some(c) =>
      if HasDefaultLabel(c.labels) then Some(c.(labels := kept, owner := d.owner, spec := c.spec.(ports := d.spec.ports))) else None
  }

  /** The Deployment to create, and the update for one that is there. */
  datatype Write = Write(created: Json, update: Update)

  function NextDeployment(cur: Option<Json>, d: Write): (r: Option<Json>) {
    match cur
    case None => Some(d.created)
    case Some(live) => if LiveOwned(live) then Some(Patched(live, d.update)) else None
  }

  function Outcomes(a: Answer): (r: Outcome) { if a == Success then Done else Broken }

  method EnsureFuncConfigMap(c: Store<ConfigMapObj>, f: FunctionRef, cfg: Config) returns (o: Outcome)
    modifies c, f.labels
    ensures o == Invalid <==> !ConfigMapData(f.obj.code, cfg.table).Ok?
    ensures o == Invalid ==> c.objects == old(c.objects) && Contents(f.labels) == old(Contents(f.labels))
    ensures o != Invalid ==>
              && (f.labels != null ==> f.labels.m == Default(old(Contents(f.labels))))
              && Wrote(old(c.objects), c.objects, f.obj.name,
                       NextConfigMap(At(old(c.objects), f.obj.name),
                                     ConfigMapObj(Default(old(Contents(f.labels))), f.obj.uid, ConfigMapData(f.obj.code, cfg.table).value),
                                     Contents(f.labels)), o)
    ensures o != Panicked
    ensures c.healthy == (old(c.healthy) && o != Broken)
  {
    var data := ConfigMapData(f.obj.code, cfg.table);
    if !data.Ok? {
      return Invalid;
    }
    var labels := AddDefaultLabel(f.labels);
    var d := ConfigMapObj(labels.m, f.obj.uid, data.value);
    var a := c.Create(f.obj.name, d);
    if a == AlreadyExists {
      var b, live := c.Get(f.obj.name);
      if b != Success {
        return Broken;
      }
      if !HasDefaultLabel(live.value.labels) {
        return Conflict;
      }
      var kept := map[];
      if f.labels != null {
        kept := f.labels.m;
      }
      a := c.Update(f.obj.name, live.value.(labels := kept, owner := f.obj.uid, data := data.value));
    }
    return Outcomes(a);
  }

  /** serviceSpec: the default service selects on the label map as it stands. */
  function ServiceWith(f: FunctionObj, labels: Labels): (r: ServiceSpec) {
    if f.service.ports == [] then ServiceSpec([DEFAULT_PORT], labels, "ClusterIP") else f.service
  }

  method EnsureFuncService(s: Store<ServiceObj>, f: FunctionRef) returns (o: Outcome)
    modifies s, f.labels
    ensures f.labels != null ==> f.labels.m == Default(old(Contents(f.labels)))
    ensures Wrote(old(s.objects), s.objects, f.obj.name,
                  NextService(At(old(s.objects), f.obj.name),
                              ServiceObj(Default(old(Contents(f.labels))), f.obj.uid, ServiceWith(f.obj, Contents(f.labels))),
                              Contents(f.labels)), o)
    ensures o == Done || o == Conflict || o == Broken
    ensures s.healthy == (old(s.healthy) && o != Broken)
  {
    var labels := AddDefaultLabel(f.labels);
    var own := map[];
    if f.labels != null {
      own := f.labels.m;
    }
    var d := ServiceObj(labels.m, f.obj.uid, ServiceWith(f.obj, own));
    var a := s.Create(f.obj.name, d);
    if a == AlreadyExists {
      var b, live := s.Get(f.obj.name);
      if b != Success {
        return Broken;
      }
      if !HasDefaultLabel(live.value.labels) {
        return Conflict;
      }
      a := s.Update(f.obj.name, live.value.(labels := own, owner := f.obj.uid, spec := live.value.spec.(ports := d.spec.ports)));
    }
    return Outcomes(a);
  }

  /** What a Function with the given labels writes. */
  function WriteOf(f: FunctionObj, labels: Labels, d: DeploymentObj): (r: Write) {
    Write(Marshal(f.name, d), Update(labels, f.deployment.annotations, d.owner, MarshalTemplate(d), d.replicas))
  }

  function WriteResult(f: FunctionObj, labels: Labels, r: Result<DeploymentObj>): (w: Result<Write>) {
    match r
    case Ok(d) => Ok(WriteOf(f, labels, d))
    case Error => Error
    case Panic => Panic
  }

  /** Labels of the new Deployment and of its pod template. */
  method MergeLabels(f: FunctionRef) returns (labels: Labels, templateLabels: Labels)
    ensures labels == Default(f.obj.deployment.labels + Contents(f.labels))
    ensures templateLabels == f.obj.deployment.templateLabels + Contents(f.labels)
  {
    var l := new LabelMap(f.obj.deployment.labels);
    l := MergeMap(l, f.labels);
    l := AddDefaultLabel(l);
    var t := new LabelMap(f.obj.deployment.templateLabels);
    t := MergeMap(t, f.labels);
    return l.m, t.m;
  }

  /** Annotations of the new Deployment and of its pod template. */
  method MergeAnnotations(f: FunctionRef, scrape: Labels) returns (annotations: Labels, templateAnnotations: Labels)
    ensures annotations == f.obj.deployment.annotations + f.obj.annotations
    ensures templateAnnotations == f.obj.deployment.templateAnnotations + f.obj.annotations + scrape
  {
    var theirs := new LabelMap(f.obj.annotations);
    var a := new LabelMap(f.obj.deployment.annotations);
    a := MergeMap(a, theirs);
    var t := new LabelMap(f.obj.deployment.templateAnnotations);
    t := MergeMap(t, theirs);
    var extra := new LabelMap(scrape);
    t := MergeMap(t, extra);
    return a.m, t.m;
  }

  method Assemble(f: FunctionRef, pod: PodSpec) returns (d: DeploymentObj)
    ensures d == Assembled(f.obj, old(Contents(f.labels)), pod)
  {
    var own := map[];
    if f.labels != null {
      own := f.labels.m;
    }
    var labels, templateLabels := MergeLabels(f);
    var annotations, templateAnnotations := MergeAnnotations(f, PodAnnotations(f.obj));
    d := DeploymentObj(labels, annotations, f.obj.uid,
                       map["created-by" := LabelAt(own, "created-by"), "function" := LabelAt(own, "function")],
                       templateLabels, templateAnnotations, f.obj.deployment.replicas, pod);
  }

  ghost predicate WroteDeployment(was: map<string, Json>, now: map<string, Json>, name: string, r: Result<Write>, o: Outcome) {
    match r
    case Ok(d) => Wrote(was, now, name, NextDeployment(At(was, name), d), o) && o != Invalid && o != Panicked
    case Error => o == Invalid && now == was
    case Panic => o == Panicked && now == was
  }

  /** The API calls of EnsureFuncDeployment, once the Deployment is computed. */
  method WriteDeployment(s: Store<Json>, name: string, d: Write) returns (o: Outcome)
    modifies s
    ensures WroteDeployment(old(s.objects), s.objects, name, Ok(d), o)
    ensures s.healthy == (old(s.healthy) && o != Broken)
  {
    var u := d.update;
    var a := s.Create(name, d.created);
    if a == AlreadyExists {
      var b, live := s.Get(name);
      if b != Success {
        return Broken;
      }
      if !LiveOwned(live.value) {
        return Conflict;
      }
      var p := Overlay(live.value, PatchMeta(Meta(live.value), u.labels, u.annotations, u.owner),
                       PatchSpec(SpecOf(live.value), u.template, u.replicas));
      a := Patch(s, name, p);
    }
    return Outcomes(a);
  }

  /** pod is the computed pod spec, or the failure to compute it. */
  method EnsureFuncDeployment(s: Store<Json>, f: FunctionRef, pod: Result<PodSpec>) returns (o: Outcome)
    modifies s
    ensures WroteDeployment(old(s.objects), s.objects, f.obj.name,
                            WriteResult(f.obj, old(Contents(f.labels)), AssembledResult(f.obj, old(Contents(f.labels)), pod)), o)
    ensures s.healthy == (old(s.healthy) && o != Broken)
  {
    if !pod.Ok? {
      return if pod.Panic? then Panicked else Invalid;
    }
    var own := map[];
    if f.labels != null {
      own := f.labels.m;
    }
    var d := Assemble(f, pod.value);
    var write := WriteOf(f.obj, own, d);
    assert WriteResult(f.obj, own, AssembledResult(f.obj, own, pod)) == Ok(write);
    o := WriteDeployment(s, f.obj.name, write);
  }

  // ---- autoscaler and service monitor ----

  /** The part of a Function that autoscaling looks at. */
  datatype Scaling = Scaling(name: string, uid: string, scaler: Autoscaler, monitors: bool) {
    predicate ObjectFirst() { scaler.metrics != [] && scaler.metrics[0].ObjectMetric? }

    /** Go panics: no metric to look at, or no client for service monitors. */
    predicate Panics() { Wanted(scaler) && (scaler.metrics == [] || (ObjectFirst() && !monitors)) }

    predicate MonitorInTheWay(ms: map<string, string>) { Wanted(scaler) && ObjectFirst() && name in ms }
  }

  function ScalingOf(cfg: Config, f: FunctionObj): (r: Scaling) { Scaling(f.name, f.uid, f.scaler, cfg.monitors) }

  function NextScalers(scalers: map<string, Autoscaler>, c: Scaling): (r: map<string, Autoscaler>) {
    if Wanted(c.scaler) then scalers[c.scaler.name := c.scaler.(owner := Some(c.uid))] else scalers - {c.name}
  }

  function NextMonitors(ms: map<string, string>, c: Scaling): (r: map<string, string>) {
    if Wanted(c.scaler) then if c.ObjectFirst() then ms[c.name := c.uid] else ms
    else if c.monitors then ms - {c.name}
    else ms
  }

  /** Autoscalers and monitors after a call. A monitor may be missing if its lookup failed; one that is already
      there is left alone, and lets a call succeed only if its lookup failed. */
  ghost predicate Scaled(scalers: map<string, Autoscaler>, scalers': map<string, Autoscaler>, ms: map<string, string>,
                         ms': map<string, string>, c: Scaling, done: bool, healthy: bool)
  {
    && (scalers' == NextScalers(scalers, c) || (!done && scalers' == scalers))
    && (ms' == NextMonitors(ms, c) || ((!done || (Wanted(c.scaler) && c.ObjectFirst() && !healthy)) && ms' == ms))
    && (c.MonitorInTheWay(ms) ==> ms' == ms && (done ==> !healthy))
  }

  /** CreateServiceMonitor: an existing monitor is an error, a lookup that fails otherwise is not. */
  method CreateServiceMonitor(s: Store<string>, name: string, owner: string) returns (o: Outcome)
    modifies s
    ensures o == Done ==> s.objects == old(s.objects)[name := owner] || (!s.healthy && s.objects == old(s.objects))
    ensures o == Broken ==> !s.healthy
    ensures s.healthy ==> old(s.healthy)
    ensures o == Invalid ==> name in old(s.objects)
    ensures s.healthy && name in old(s.objects) ==> o == Invalid
    ensures name in old(s.objects) ==> s.objects == old(s.objects)
    ensures o != Done ==> s.objects == old(s.objects) || s.objects == old(s.objects)[name := owner]
    ensures o == Done || o == Invalid || o == Broken
  {
    var a, _ := s.Get(name);
    if a == Unavailable {
      return Done;
    }
    if a == Success {
      return Invalid;
    }
    a := s.Create(name, owner);
    return Outcomes(a);
  }

  /** The last part of ensureK8sResources. */
  method EnsureScaling(scalers: Store<Autoscaler>, monitors: Store<string>, c: Scaling) returns (o: Outcome)
    requires scalers as object != monitors as object
    modifies scalers, monitors
    ensures Scaled(old(scalers.objects), scalers.objects, old(monitors.objects), monitors.objects, c, o == Done, monitors.healthy)
    ensures o == Broken ==> !(scalers.healthy && monitors.healthy)
    ensures scalers.healthy ==> old(scalers.healthy)
    ensures monitors.healthy ==> old(monitors.healthy)
    ensures o == Panicked <==> c.Panics()
    ensures o == Invalid ==> c.MonitorInTheWay(old(monitors.objects))
    ensures o != Conflict
  {
    if Wanted(c.scaler) {
      if c.scaler.metrics == [] {
        return Panicked;
      }
      var hpa := c.scaler.(owner := Some(c.uid));
      if c.scaler.metrics[0].ObjectMetric? {
        if !c.monitors {
          return Panicked;
        }
        o := CreateServiceMonitor(monitors, c.name, c.uid);
        if o != Done {
          return;
        }
      }
      var a := scalers.Create(hpa.name, hpa);
      if a == AlreadyExists {
        a := scalers.Update(hpa.name, hpa);
      }
      return Outcomes(a);
    }
    if c.monitors {
      var a := monitors.Delete(c.name);
      if a == Unavailable {
        return Broken;
      }
    }
    var a := scalers.Delete(c.name);
    return if a == Unavailable then Broken else Done;
  }

  // ---- the whole of ensureK8sResources ----

  datatype World = World(configMaps: map<string, ConfigMapObj>, services: map<string, ServiceObj>, deployments: map<string, Json>,
                         scalers: map<string, Autoscaler>, monitors: map<string, string>)

  class Cluster {
    const configMaps: Store<ConfigMapObj>
    const services: Store<ServiceObj>
    const deployments: Store<Json>
    const scalers: Store<Autoscaler>
    const monitors: Store<string>

    constructor (w: World)
      ensures Apart() && Value() == w
    {
      configMaps := new Store(w.configMaps);
      services := new Store(w.services);
      deployments := new Store(w.deployments);
      scalers := new Store(w.scalers);
      monitors := new Store(w.monitors);
    }

    ghost predicate Apart() {
      var a: object, b: object, c: object, d: object, e: object := configMaps, services, deployments, scalers, monitors;
      a != b && a != c && a != d && a != e && b != c && b != d && b != e && c != d && c != e && d != e
    }

    /** No API call has failed. */
    ghost predicate Healthy()
      reads configMaps, services, deployments, scalers, monitors
    {
      configMaps.healthy && services.healthy && deployments.healthy && scalers.healthy && monitors.healthy
    }

    ghost function Value(): (w: World)
      reads configMaps, services, deployments, scalers, monitors
    {
      World(configMaps.objects, services.objects, deployments.objects, scalers.objects, monitors.objects)
    }
  }

  /** The pod for a given answer of the build step: an image, none (an empty one), or a panic. */
  function PodWith(cfg: Config, w: Workload, image: Result<string>, listing: Listing): (r: Result<PodSpec>) {
    if image.Ok? then DesiredPod(cfg, w, image.value, listing) else Panic
  }

  /** What a call is about to write, computed from the Function. */
  datatype Intent = Intent(cfg: Config, f: FunctionObj, configMap: Result<ConfigMapObj>, deployment: Result<Write>)

  /** image is the answer of the build step, listing the order of env maps. */
  function IntentOf(cfg: Config, f: FunctionObj, image: Result<string>, listing: Listing): (r: Intent) {
    Intent(cfg, f, DesiredConfigMap(cfg, f),
           WriteResult(f, Marked(f), AssembledResult(f, Marked(f), PodWith(cfg, WorkloadOf(f), image, listing))))
  }

  /** The Function's own label field plays no part beside the labels given. */
  lemma OwnLabelsIrrelevant(cfg: Config, f: FunctionObj, l: Labels, image: Result<string>, listing: Listing)
    ensures var g := f.(labels := l);
            IntentOf(cfg, g, image, listing).deployment ==
            WriteResult(f, Marked(g), AssembledResult(f, Marked(g), PodWith(cfg, WorkloadOf(f), image, listing)))
  {
    var g := f.(labels := l);
    assert WorkloadOf(g) == WorkloadOf(f);
    SameWrite(f, l, Marked(g), PodWith(cfg, WorkloadOf(f), image, listing));
  }

  lemma SameWrite(f: FunctionObj, l: Labels, labels: Labels, pod: Result<PodSpec>)
    ensures var g := f.(labels := l);
            WriteResult(g, labels, AssembledResult(g, labels, pod)) == WriteResult(f, labels, AssembledResult(f, labels, pod))
  {
    assert PodAnnotations(f.(labels := l)) == PodAnnotations(f);
  }

  function ConfigMapAfter(m: map<string, ConfigMapObj>, i: Intent): (r: Option<ConfigMapObj>) {
    if i.configMap.Ok? then NextConfigMap(At(m, i.f.name), i.configMap.value, Marked(i.f)) else None
  }

  function ServiceAfter(m: map<string, ServiceObj>, i: Intent): (r: Option<ServiceObj>) {
    NextService(At(m, i.f.name), DesiredService(i.f), Marked(i.f))
  }

  function DeploymentAfter(m: map<string, Json>, i: Intent): (r: Option<Json>) {
    if i.deployment.Ok? then NextDeployment(At(m, i.f.name), i.deployment.value) else None
  }

  /** Untouched, or written as intended. */
  ghost predicate Either<T(!new)>(was: map<string, T>, now: map<string, T>, name: string, next: Option<T>) {
    now == was || (next.Some? && now == was[name := next.value])
  }

  ghost predicate Written<T(!new)>(was: map<string, T>, now: map<string, T>, name: string, next: Option<T>) {
    next.Some? && now == was[name := next.value]
  }

  /** Everything written as intended; a monitor may be missing if its lookup failed. */
  ghost predicate Reached(w: World, v: World, i: Intent, healthy: bool) {
    && Written(w.configMaps, v.configMaps, i.f.name, ConfigMapAfter(w.configMaps, i))
    && Written(w.services, v.services, i.f.name, ServiceAfter(w.services, i))
    && Written(w.deployments, v.deployments, i.f.name, DeploymentAfter(w.deployments, i))
    && Scaled(w.scalers, v.scalers, w.monitors, v.monitors, ScalingOf(i.cfg, i.f), true, healthy)
  }

  /** Every object is untouched or written as intended. */
  ghost predicate Partial(w: World, v: World, i: Intent) {
    && Either(w.configMaps, v.configMaps, i.f.name, ConfigMapAfter(w.configMaps, i))
    && Either(w.services, v.services, i.f.name, ServiceAfter(w.services, i))
    && Either(w.deployments, v.deployments, i.f.name, DeploymentAfter(w.deployments, i))
    && Scaled(w.scalers, v.scalers, w.monitors, v.monitors, ScalingOf(i.cfg, i.f), false, false)
  }

  predicate NoOwner(f: FunctionObj) { f.name == "" || f.uid == "" }

  predicate ForeignConfigMap(m: map<string, ConfigMapObj>, name: string) { name in m && !HasDefaultLabel(m[name].labels) }

  predicate ForeignService(m: map<string, ServiceObj>, name: string) { name in m && !HasDefaultLabel(m[name].labels) }

  predicate ForeignDeployment(m: map<string, Json>, name: string) { name in m && !LiveOwned(m[name]) }

  /** A foreign object stands where the controller wants to write. */
  predicate Conflicts(w: World, name: string) {
    ForeignConfigMap(w.configMaps, name) || ForeignService(w.services, name) || ForeignDeployment(w.deployments, name)
  }

  /** Why a call ended as it did. */
  ghost predicate Explained(w: World, i: Intent, o: Outcome) {
    match o
    case Done => !NoOwner(i.f) && !Conflicts(w, i.f.name) && i.deployment.Ok? && !ScalingOf(i.cfg, i.f).Panics()
    case Conflict => Conflicts(w, i.f.name)
    case Invalid => NoOwner(i.f) || i.configMap.Error? || i.deployment.Error? ||
                    ScalingOf(i.cfg, i.f).MonitorInTheWay(w.monitors)
    case Panicked => i.deployment.Panic? || ScalingOf(i.cfg, i.f).Panics()
    case Broken => true
  }

  ghost predicate Ran(w: World, v: World, i: Intent, o: Outcome, healthy: bool) {
    && Partial(w, v, i)
    && Explained(w, i, o)
    && (o == Done ==> Reached(w, v, i, healthy))
    && (o == Broken ==> !healthy)
  }

  /** What the first two steps do. */
  ghost predicate FirstHalf(w: World, v: World, i: Intent, o: Outcome, healthy: bool) {
    && v.deployments == w.deployments && v.scalers == w.scalers && v.monitors == w.monitors
    && Either(w.configMaps, v.configMaps, i.f.name, ConfigMapAfter(w.configMaps, i))
    && Either(w.services, v.services, i.f.name, ServiceAfter(w.services, i))
    && (o == Done ==> Written(w.configMaps, v.configMaps, i.f.name, ConfigMapAfter(w.configMaps, i)))
    && (o == Done ==> Written(w.services, v.services, i.f.name, ServiceAfter(w.services, i)))
    && (o == Conflict ==> ForeignConfigMap(w.configMaps, i.f.name) || ForeignService(w.services, i.f.name))
    && (o == Invalid ==> i.configMap.Error?)
    && o != Panicked
    && (o == Broken ==> !healthy)
  }

  /** What the last two steps do. */
  ghost predicate SecondHalf(w: World, v: World, i: Intent, o: Outcome, healthy: bool) {
    && v.configMaps == w.configMaps && v.services == w.services
    && Either(w.deployments, v.deployments, i.f.name, DeploymentAfter(w.deployments, i))
    && Scaled(w.scalers, v.scalers, w.monitors, v.monitors, ScalingOf(i.cfg, i.f), o == Done, healthy)
    && (o == Done ==> Written(w.deployments, v.deployments, i.f.name, DeploymentAfter(w.deployments, i)))
    && (o == Conflict ==> ForeignDeployment(w.deployments, i.f.name))
    && (o == Invalid ==> i.deployment.Error? || ScalingOf(i.cfg, i.f).MonitorInTheWay(w.monitors))
    && (o == Panicked ==> i.deployment.Panic? || ScalingOf(i.cfg, i.f).Panics())
    && (o == Done ==> !ScalingOf(i.cfg, i.f).Panics())
    && (o == Broken ==> !healthy)
  }

  lemma Halves(w: World, m: World, v: World, i: Intent, first: Outcome, o: Outcome, before: bool, healthy: bool)
    requires FirstHalf(w, m, i, first, before) && !NoOwner(i.f) && (healthy ==> before)
    requires if first == Done then SecondHalf(m, v, i, o, healthy) else v == m && o == first
    ensures Ran(w, v, i, o, healthy)
  {
  }

  /** The first two steps, under a label map that already names the function. */
  method EnsureConfigAndService(k: Cluster, f: FunctionRef, cfg: Config, ghost i: Intent) returns (o: Outcome)
    requires k.Apart() && f.labels != null && Default(f.labels.m) == Marked(i.f)
    requires i.f == f.obj.(labels := i.f.labels) && i.configMap == DesiredConfigMap(cfg, i.f)
    modifies f.labels, k.configMaps, k.services
    ensures FirstHalf(old(k.Value()), k.Value(), i, o, k.Healthy()) && (k.Healthy() ==> old(k.Healthy()))
    ensures o == Done ==> f.labels.m == Marked(i.f)
  {
    o := EnsureFuncConfigMap(k.configMaps, f, cfg);
    if o != Done {
      return;
    }
    MarkedTwice(i.f);
    o := EnsureFuncService(k.services, f);
  }

  lemma MarkedTwice(f: FunctionObj)
    ensures Default(Marked(f)) == Marked(f)
  {
  }

  /** The last two steps. */
  method EnsureDeploymentAndScaling(k: Cluster, f: FunctionRef, cfg: Config, pod: Result<PodSpec>, ghost i: Intent) returns (o: Outcome)
    requires k.Apart() && f.labels != null && f.labels.m == Marked(i.f)
    requires i.cfg == cfg && i.f == f.obj.(labels := i.f.labels)
    requires i.deployment == WriteResult(f.obj, Marked(i.f), AssembledResult(f.obj, Marked(i.f), pod))
    modifies k.deployments, k.scalers, k.monitors
    ensures SecondHalf(old(k.Value()), k.Value(), i, o, k.Healthy()) && (k.Healthy() ==> old(k.Healthy()))
  {
    o := EnsureFuncDeployment(k.deployments, f, pod);
    ghost var third := o;
    if o == Done {
      o := EnsureScaling(k.scalers, k.monitors, ScalingOf(cfg, f.obj));
    }
    LastSteps(old(k.Value()), k.Value(), i, third, o, k.Healthy());
  }

  lemma LastSteps(w: World, v: World, i: Intent, third: Outcome, o: Outcome, healthy: bool)
    requires v.configMaps == w.configMaps && v.services == w.services
    requires WroteDeployment(w.deployments, v.deployments, i.f.name, i.deployment, third)
    requires Scaled(w.scalers, v.scalers, w.monitors, v.monitors, ScalingOf(i.cfg, i.f), o == Done, healthy)
    requires (third != Done ==> o == third) && (o == Broken ==> !healthy)
    requires third == Done ==>
               && (o == Panicked <==> ScalingOf(i.cfg, i.f).Panics())
               && (o == Invalid ==> ScalingOf(i.cfg, i.f).MonitorInTheWay(w.monitors))
               && o != Conflict
    ensures SecondHalf(w, v, i, o, healthy)
  {
  }

  method EnsureK8sResources(k: Cluster, f: FunctionRef, cfg: Config, build: Build, listing: Listing) returns (o: Outcome)
    requires k.Apart()
    modifies f, f.labels, k.configMaps, k.services, k.deployments, k.scalers, k.monitors
    ensures var image := Prebuilt(cfg, WorkloadOf(f.obj), build, listing);
            Ran(old(k.Value()), k.Value(), IntentOf(cfg, old(f.Value()), image, listing), o, k.Healthy())
    ensures o == Done ==> Contents(f.labels) == Marked(old(f.Value()))
  {
    var image := StartImageBuild(cfg, WorkloadOf(f.obj), build, listing);
    o := EnsureWithImage(k, f, cfg, image, listing);
  }

  /** ensureK8sResources, given how the build step will end: it is looked at only after ConfigMap and Service. */
  method EnsureWithImage(k: Cluster, f: FunctionRef, cfg: Config, image: Result<string>, listing: Listing) returns (o: Outcome)
    requires k.Apart()
    modifies f, f.labels, k.configMaps, k.services, k.deployments, k.scalers, k.monitors
    ensures Ran(old(k.Value()), k.Value(), IntentOf(cfg, old(f.Value()), image, listing), o, k.Healthy())
    ensures o == Done ==> Contents(f.labels) == Marked(old(f.Value()))
  {
    ghost var i, w := IntentOf(cfg, f.Value(), image, listing), k.Value();
    OwnLabelsIrrelevant(cfg, f.obj, Contents(f.labels), image, listing);
    if f.labels == null || |f.labels.m| == 0 {
      f.labels := new LabelMap(map[]);
    }
    f.labels.m := f.labels.m["function" := f.obj.name];
    if f.obj.name == "" || f.obj.uid == "" {
      return Invalid;
    }
    o := EnsureConfigAndService(k, f, cfg, i);
    ghost var first, m, before := o, k.Value(), k.Healthy();
    if o == Done {
      var pod := PodWith(cfg, WorkloadOf(f.obj), image, listing);
      o := EnsureDeploymentAndScaling(k, f, cfg, pod, i);
    }
    Halves(w, m, k.Value(), i, first, o, before, k.Healthy());
  }
}

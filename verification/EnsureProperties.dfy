/** What repeated calls of ensureK8sResources do to a cluster: ownership, convergence, idempotence and the
    frozen selector, over every history of calls, whatever Functions, labels and failures they meet. */
module EnsureProperties {
  import opened Common
  import opened Json
  import opened PodSpecs
  import opened Desired
  import opened EnvOrder
  import opened DeploymentPatch
  import opened EnvOrderJson
  import opened ImageBuild
  import opened Ensure

  /** One call of ensureK8sResources, the answer of its build step, and how it ended. */
  datatype Turn = Turn(cfg: Config, f: FunctionObj, image: Result<string>, listing: Listing, o: Outcome, healthy: bool)

  function TurnIntent(t: Turn): (i: Intent) { IntentOf(t.cfg, t.f, t.image, t.listing) }

  /** v is what the method EnsureK8sResources may leave of w. */
  ghost predicate Took(w: World, v: World, t: Turn) { Ran(w, v, TurnIntent(t), t.o, t.healthy) }

  ghost predicate History(ws: seq<World>, ts: seq<Turn>) {
    |ws| == |ts| + 1 && forall j :: 0 <= j < |ts| ==> Took(ws[j], ws[j + 1], ts[j])
  }

  // ---- what a call intends ----

  /** What the results below need to know of a computed Deployment. */
  ghost predicate Describes(d: DeploymentObj, f: FunctionObj) {
    && HasDefaultLabel(d.labels) && Contained(Marked(f), d.labels)
    && HasDefaultLabel(d.templateLabels) && "function" in d.templateLabels && d.templateLabels["function"] == f.name
    && d.selector == FrozenSelector(f.name)
    && d.annotations == f.deployment.annotations + f.annotations
  }

  function FrozenSelector(n: string): (r: Labels) { map["created-by" := "kubeless", "function" := n] }

  lemma AssembledDescribes(f: FunctionObj, pod: PodSpec)
    ensures Describes(Assembled(f, Marked(f), pod), f)
  {
  }

  /** The intent writes d, which describes its Function. */
  ghost predicate Plans(i: Intent, d: DeploymentObj) {
    i.deployment == Ok(WriteOf(i.f, Marked(i.f), d)) && Describes(d, i.f)
  }

  function TurnDeployment(t: Turn): (r: Result<DeploymentObj>) {
    AssembledResult(t.f, Marked(t.f), PodWith(t.cfg, WorkloadOf(t.f), t.image, t.listing))
  }

  lemma TurnPlans(t: Turn)
    ensures TurnIntent(t).deployment.Ok? <==> TurnDeployment(t).Ok?
    ensures TurnDeployment(t).Ok? ==> Plans(TurnIntent(t), TurnDeployment(t).value)
    ensures TurnIntent(t).configMap.Ok? ==>
              TurnIntent(t).configMap.value.labels == Marked(TurnIntent(t).f) && TurnIntent(t).configMap.value.owner == t.f.uid
  {
    var pod := PodWith(t.cfg, WorkloadOf(t.f), t.image, t.listing);
    if pod.Ok? {
      AssembledDescribes(t.f, pod.value);
    }
  }

  /** Whatever is written carries the created-by label. */
  ghost predicate Marks(i: Intent) {
    && (i.configMap.Ok? ==> HasDefaultLabel(i.configMap.value.labels))
    && (i.deployment.Ok? ==> LiveOwned(i.deployment.value.created) && HasDefaultLabel(i.deployment.value.update.labels))
  }

  lemma PlanMarks(i: Intent, d: DeploymentObj)
    requires Plans(i, d)
    ensures LiveOwned(i.deployment.value.created) && HasDefaultLabel(i.deployment.value.update.labels)
  {
    Created(i.f.name, d);
    LabelJson(d.labels, "created-by");
  }

  lemma LabelJson(m: Labels, k: string)
    requires k in m
    ensures Field(MarshalLabels(m), Key(k)) == Str(m[k])
  {
  }

  lemma IntentMarks(t: Turn)
    ensures Marks(TurnIntent(t))
  {
    TurnPlans(t);
    if TurnDeployment(t).Ok? {
      PlanMarks(TurnIntent(t), TurnDeployment(t).value);
    }
  }

  // ---- when a call can succeed ----

  /** What a call needs of the cluster and of the Function, service monitors aside. */
  predicate Feasible(w: World, i: Intent) {
    && !NoOwner(i.f) && !Conflicts(w, i.f.name)
    && i.configMap.Ok? && i.deployment.Ok? && !ScalingOf(i.cfg, i.f).Panics()
  }

  /** A call during which no API call fails succeeds exactly when name and UID are set, no foreign object is in
      the way, ConfigMap and Deployment can be computed, the build step and the autoscaler step do not panic, and
      no service monitor is there that it would have to create. */
  lemma HealthySucceedsIff(w: World, v: World, t: Turn, build: Build)
    requires Took(w, v, t) && t.healthy && t.image == Prebuilt(t.cfg, WorkloadOf(t.f), build, t.listing)
    ensures t.o == Done <==>
            && !NoOwner(t.f) && !Conflicts(w, t.f.name) && DesiredConfigMap(t.cfg, t.f).Ok?
            && !(UserImage(WorkloadOf(t.f)) == "" && build.JobMissing? && BuildPanics(t.cfg, t.f.code))
            && (t.image.Ok? ==> DesiredPod(t.cfg, WorkloadOf(t.f), t.image.value, t.listing).Ok?)
            && !ScalingOf(t.cfg, t.f).Panics() && !ScalingOf(t.cfg, t.f).MonitorInTheWay(w.monitors)
  {
    PrebuiltPanicsIff(t.cfg, WorkloadOf(t.f), build, t.listing);
    HealthyFeasible(w, v, t);
  }

  lemma HealthyFeasible(w: World, v: World, t: Turn)
    requires Took(w, v, t) && t.healthy
    ensures t.o == Done <==> Feasible(w, TurnIntent(t)) && !ScalingOf(t.cfg, t.f).MonitorInTheWay(w.monitors)
  {
  }

  /** A call that succeeds in spite of failed API calls needs the same, but for the monitor. */
  lemma SuccessIsFeasible(w: World, v: World, t: Turn)
    requires Took(w, v, t) && t.o == Done
    ensures Feasible(w, TurnIntent(t)) && (ScalingOf(t.cfg, t.f).MonitorInTheWay(w.monitors) ==> v.monitors == w.monitors)
  {
  }

  // ---- ownership ----

  /** Foreign objects named n are left as they are, and nothing named n becomes foreign. */
  ghost predicate Respects(w: World, v: World, n: string) {
    && (ForeignConfigMap(w.configMaps, n) ==> At(v.configMaps, n) == At(w.configMaps, n))
    && (ForeignService(w.services, n) ==> At(v.services, n) == At(w.services, n))
    && (ForeignDeployment(w.deployments, n) ==> At(v.deployments, n) == At(w.deployments, n))
    && (ForeignConfigMap(v.configMaps, n) ==> ForeignConfigMap(w.configMaps, n))
    && (ForeignService(v.services, n) ==> ForeignService(w.services, n))
    && (ForeignDeployment(v.deployments, n) ==> ForeignDeployment(w.deployments, n))
  }

  lemma RanRespects(w: World, v: World, i: Intent, o: Outcome, healthy: bool, n: string)
    requires Ran(w, v, i, o, healthy) && Marks(i)
    ensures Respects(w, v, n)
    ensures n != i.f.name ==> At(v.configMaps, n) == At(w.configMaps, n) && At(v.services, n) == At(w.services, n) &&
                              At(v.deployments, n) == At(w.deployments, n)
  {
    ConfigMapRespects(w.configMaps, v.configMaps, i, n);
    ServiceRespects(w.services, v.services, i, n);
    DeploymentRespects(w.deployments, v.deployments, i, n);
  }

  lemma ConfigMapRespects(was: map<string, ConfigMapObj>, now: map<string, ConfigMapObj>, i: Intent, n: string)
    requires Either(was, now, i.f.name, ConfigMapAfter(was, i)) && Marks(i)
    ensures ForeignConfigMap(was, n) ==> At(now, n) == At(was, n)
    ensures ForeignConfigMap(now, n) ==> ForeignConfigMap(was, n)
    ensures n != i.f.name ==> At(now, n) == At(was, n)
  {
  }

  lemma ServiceRespects(was: map<string, ServiceObj>, now: map<string, ServiceObj>, i: Intent, n: string)
    requires Either(was, now, i.f.name, ServiceAfter(was, i))
    ensures ForeignService(was, n) ==> At(now, n) == At(was, n)
    ensures ForeignService(now, n) ==> ForeignService(was, n)
    ensures n != i.f.name ==> At(now, n) == At(was, n)
  {
  }

  lemma DeploymentRespects(was: map<string, Json>, now: map<string, Json>, i: Intent, n: string)
    requires Either(was, now, i.f.name, DeploymentAfter(was, i)) && Marks(i)
    ensures ForeignDeployment(was, n) ==> At(now, n) == At(was, n)
    ensures ForeignDeployment(now, n) ==> ForeignDeployment(was, n)
    ensures n != i.f.name ==> At(now, n) == At(was, n)
  {
    if n == i.f.name && n in was && i.deployment.Ok? {
      PatchedLabels(was[n], i.deployment.value.update, "created-by");
    }
  }

  /** Ownership over every history: an object without the label is never modified, and every object with it,
      or created later, carries it from then on. */
  lemma {:induction false} OwnershipForever(ws: seq<World>, ts: seq<Turn>, n: string, a: nat, b: nat)
    requires History(ws, ts) && a <= b < |ws|
    ensures Respects(ws[a], ws[b], n)
    decreases b - a
  {
    if a < b {
      OwnershipForever(ws, ts, n, a, b - 1);
      assert Took(ws[b - 1], ws[b], ts[b - 1]);
      IntentMarks(ts[b - 1]);
      RanRespects(ws[b - 1], ws[b], TurnIntent(ts[b - 1]), ts[b - 1].o, ts[b - 1].healthy, n);
    }
  }

  /** Calls for other names leave the objects of a name alone: all kinds, where the autoscaler a call writes has
      the name its Function gives it. */
  lemma OthersUntouched(w: World, v: World, t: Turn, n: string)
    requires Took(w, v, t) && n != t.f.name
    ensures At(v.configMaps, n) == At(w.configMaps, n) && At(v.services, n) == At(w.services, n)
    ensures At(v.deployments, n) == At(w.deployments, n) && At(v.monitors, n) == At(w.monitors, n)
    ensures !(Wanted(t.f.scaler) && n == t.f.scaler.name) ==> At(v.scalers, n) == At(w.scalers, n)
  {
    IntentMarks(t);
    RanRespects(w, v, TurnIntent(t), t.o, t.healthy, n);
    RanScales(w, v, TurnIntent(t), t.o, t.healthy, n);
  }

  lemma RanScales(w: World, v: World, i: Intent, o: Outcome, healthy: bool, n: string)
    requires Ran(w, v, i, o, healthy) && n != i.f.name
    ensures At(v.monitors, n) == At(w.monitors, n)
    ensures !(Wanted(i.f.scaler) && n == i.f.scaler.name) ==> At(v.scalers, n) == At(w.scalers, n)
  {
  }

  /** A call ends in a conflict only over a foreign object, so where none stood at the start none of the
      calls ever aborts on an object of the controller's own. */
  lemma OwnNeverConflicts(ws: seq<World>, ts: seq<Turn>, j: nat)
    requires History(ws, ts) && j < |ts| && !Conflicts(ws[0], ts[j].f.name)
    ensures ts[j].o != Conflict
  {
    OwnershipForever(ws, ts, ts[j].f.name, 0, j);
    assert Took(ws[j], ws[j + 1], ts[j]);
  }

  // ---- convergence ----

  /** The children are those of the Function. */
  ghost predicate Converged(v: World, i: Intent, d: DeploymentObj) {
    var n := i.f.name;
    && n in v.configMaps && Ok(v.configMaps[n]) == i.configMap
    && n in v.services && v.services[n].spec.ports == DesiredService(i.f).spec.ports
    && v.services[n].labels == Marked(i.f) && v.services[n].owner == i.f.uid
    && n in v.deployments && ContainersOf(v.deployments[n]) == MarshalContainers(d.pod.containers)
    && match DesiredAutoscaler(i.f) case Some(a) => At(v.scalers, a.name) == Some(a) case None => n !in v.scalers
  }

  lemma Reaches(w: World, v: World, i: Intent, d: DeploymentObj, healthy: bool)
    requires Reached(w, v, i, healthy) && Plans(i, d) && (i.configMap.Ok? ==> i.configMap.value.labels == Marked(i.f))
    ensures Converged(v, i, d)
  {
    ConfigMapConverges(w.configMaps, v.configMaps, i);
    ServiceConverges(w.services, v.services, i);
    var n := i.f.name;
    DeploymentConverges(At(w.deployments, n), i.deployment.value, i.f, d, v.deployments[n]);
  }

  lemma ConfigMapConverges(was: map<string, ConfigMapObj>, now: map<string, ConfigMapObj>, i: Intent)
    requires Written(was, now, i.f.name, ConfigMapAfter(was, i)) && (i.configMap.Ok? ==> i.configMap.value.labels == Marked(i.f))
    ensures i.f.name in now && Ok(now[i.f.name]) == i.configMap
  {
  }

  lemma ServiceConverges(was: map<string, ServiceObj>, now: map<string, ServiceObj>, i: Intent)
    requires Written(was, now, i.f.name, ServiceAfter(was, i))
    ensures i.f.name in now
    ensures var s := now[i.f.name];
            s.spec.ports == DesiredService(i.f).spec.ports && s.labels == Marked(i.f) && s.owner == i.f.uid
  {
  }

  lemma DeploymentConverges(live: Option<Json>, w: Write, f: FunctionObj, d: DeploymentObj, r: Json)
    requires w == WriteOf(f, Marked(f), d) && NextDeployment(live, w) == Some(r)
    ensures ContainersOf(r) == MarshalContainers(d.pod.containers)
  {
    match live
    case None => Created(f.name, d);
    case Some(j) =>
      ContainersConverge(j, f, d);
      var p := Patched(j, UpdateOf(f, d));
      assert NextDeployment(live, w) == if LiveOwned(j) then Some(p) else None;
  }

  lemma RanReaches(w: World, v: World, i: Intent, d: DeploymentObj, o: Outcome, healthy: bool)
    requires Ran(w, v, i, o, healthy) && o == Done && Plans(i, d)
    requires i.configMap.Ok? ==> i.configMap.value.labels == Marked(i.f)
    ensures Converged(v, i, d)
  {
    Reaches(w, v, i, d, healthy);
  }

  /** From any owned or absent children one successful call makes ConfigMap, Service ports and Deployment
      containers those computed from the spec. */
  lemma Convergence(w: World, v: World, t: Turn)
    requires Took(w, v, t) && t.o == Done
    ensures TurnDeployment(t).Ok? && Converged(v, TurnIntent(t), TurnDeployment(t).value)
  {
    TurnPlans(t);
    RanReaches(w, v, TurnIntent(t), TurnDeployment(t).value, t.o, t.healthy);
  }

  /** The user's labels, and the two of the controller. */
  ghost predicate Labelled(labels: Labels, f: FunctionObj) {
    && "created-by" in labels && labels["created-by"] == "kubeless" && "function" in labels && labels["function"] == f.name
    && forall k :: k != "created-by" && k != "function" ==> (k in labels <==> k in f.labels) && (k in labels ==> labels[k] == f.labels[k])
  }

  lemma MarkedLabels(f: FunctionObj)
    ensures Labelled(Marked(f), f)
  {
  }

  /** Field by field: labels and owner of ConfigMap and Service; a new Service sends to the pods of the function, one
      that was there keeps all of its spec but the ports; the autoscaler is the Function's, owned by it. */
  lemma ConvergedFields(w: World, v: World, t: Turn)
    requires Took(w, v, t) && t.o == Done
    ensures var n, f := t.f.name, t.f;
            && n in v.configMaps && Labelled(v.configMaps[n].labels, f) && v.configMaps[n].owner == f.uid
            && n in v.services && Labelled(v.services[n].labels, f) && v.services[n].owner == f.uid
            && (n in w.services ==> v.services[n].spec == w.services[n].spec.(ports := v.services[n].spec.ports))
            && (n !in w.services && f.service.ports == [] ==>
                  Labelled(v.services[n].spec.selector, f) && v.services[n].spec.kind == "ClusterIP")
            && (n !in w.services && f.service.ports != [] ==> v.services[n].spec == f.service)
            && (f.scaler.name != "" && f.scaler.target != "" ==>
                  f.scaler.name in v.scalers && v.scalers[f.scaler.name] == f.scaler.(owner := Some(f.uid)))
            && (f.scaler.name == "" || f.scaler.target == "" ==> n !in v.scalers && (t.cfg.monitors ==> n !in v.monitors))
  {
    MarkedLabels(t.f);
    TurnPlans(t);
    ReachedFields(w, v, TurnIntent(t), t.healthy);
  }

  lemma ReachedFields(w: World, v: World, i: Intent, healthy: bool)
    requires Reached(w, v, i, healthy) && i.configMap.Ok? && i.configMap.value.labels == Marked(i.f) && i.configMap.value.owner == i.f.uid
    ensures var n, f := i.f.name, i.f;
            && n in v.configMaps && v.configMaps[n].labels == Marked(f) && v.configMaps[n].owner == f.uid
            && n in v.services && v.services[n].labels == Marked(f) && v.services[n].owner == f.uid
            && (n in w.services ==> v.services[n].spec == w.services[n].spec.(ports := v.services[n].spec.ports))
            && (n !in w.services ==> v.services[n].spec == DesiredService(f).spec)
            && (Wanted(f.scaler) ==> f.scaler.name in v.scalers && v.scalers[f.scaler.name] == f.scaler.(owner := Some(f.uid)))
            && (!Wanted(f.scaler) ==> n !in v.scalers && (i.cfg.monitors ==> n !in v.monitors))
  {
    ServiceConverges(w.services, v.services, i);
    ScalingFields(w, v, i, healthy);
  }

  lemma ScalingFields(w: World, v: World, i: Intent, healthy: bool)
    requires Reached(w, v, i, healthy)
    ensures Wanted(i.f.scaler) ==>
              i.f.scaler.name in v.scalers && v.scalers[i.f.scaler.name] == i.f.scaler.(owner := Some(i.f.uid))
    ensures !Wanted(i.f.scaler) ==> i.f.name !in v.scalers
  {
  }

  // ---- a second run ----

  /** The annotations of the Function override none of its Deployment template with another value. */
  predicate AnnotationsAgree(f: FunctionObj) {
    forall k :: k in f.deployment.annotations && k in f.annotations ==> f.deployment.annotations[k] == f.annotations[k]
  }

  /** Everything but the Deployment is as after the first run. */
  lemma OthersSettled(w: World, v: World, x: World, i: Intent, j: Intent, h: bool, g: bool)
    requires Reached(w, v, i, h) && Reached(v, x, j, g) && i.(deployment := j.deployment) == j
    requires i.configMap.Ok? ==> i.configMap.value.labels == Marked(i.f)
    requires !ScalingOf(i.cfg, i.f).ObjectFirst()
    ensures x == v.(deployments := x.deployments)
  {
    ScalingSettled(w.scalers, w.monitors, ScalingOf(i.cfg, i.f));
    ConfigMapSettled(w.configMaps, v.configMaps, x.configMaps, i, j);
    ServiceSettled(w.services, v.services, x.services, i, j);
  }

  lemma ConfigMapSettled(w: map<string, ConfigMapObj>, v: map<string, ConfigMapObj>, x: map<string, ConfigMapObj>, i: Intent, j: Intent)
    requires Written(w, v, i.f.name, ConfigMapAfter(w, i)) && Written(v, x, i.f.name, ConfigMapAfter(v, j))
    requires i.f == j.f && i.configMap == j.configMap && (i.configMap.Ok? ==> i.configMap.value.labels == Marked(i.f))
    ensures x == v
  {
  }

  lemma ServiceSettled(w: map<string, ServiceObj>, v: map<string, ServiceObj>, x: map<string, ServiceObj>, i: Intent, j: Intent)
    requires Written(w, v, i.f.name, ServiceAfter(w, i)) && Written(v, x, i.f.name, ServiceAfter(v, j)) && i.f == j.f
    ensures x == v
  {
  }

  lemma ScalingSettled(scalers: map<string, Autoscaler>, ms: map<string, string>, c: Scaling)
    ensures NextScalers(NextScalers(scalers, c), c) == NextScalers(scalers, c)
    ensures NextMonitors(NextMonitors(ms, c), c) == NextMonitors(ms, c)
  {
  }

  lemma UpdatedTwice(live: Json, f: FunctionObj, d: DeploymentObj, e: DeploymentObj)
    requires d.(pod := e.pod) == e && PodSame(d.pod, e.pod) && NullFree(live) && live.Obj? && Meta(live).Obj?
    ensures Patched(Patched(live, UpdateOf(f, d)), UpdateOf(f, e)) == Patched(live, UpdateOf(f, e))
  {
    TemplateNullFree(d);
    TemplateNullFree(e);
    TemplateShape(d, e);
    LastUpdateWins(live, UpdateOf(f, d), UpdateOf(f, e));
  }

  lemma CreatedTwice(f: FunctionObj, d: DeploymentObj)
    requires Describes(d, f)
    ensures Patched(Marshal(f.name, d), UpdateOf(f, d)) == Marshal(f.name, d) <==> AnnotationsAgree(f)
  {
    AgreeIff(f, d.annotations);
    UpdateAfterCreateNoOpIff(f.name, f, d);
  }

  lemma AgreeIff(f: FunctionObj, merged: Labels)
    requires merged == f.deployment.annotations + f.annotations
    ensures AnnotationsAgree(f) <==> Contained(f.deployment.annotations, merged)
    ensures f.deployment.annotations != map[] ==> merged != map[]
  {
    if k :| k in f.deployment.annotations {
      assert k in merged;
    }
  }

  /** The Deployment after a second run, whatever order Go ranges over env maps in. It is the one a single run
      with that order makes, exactly unless the first run created it and the Function overrides an annotation
      of its template. */
  lemma SecondRun(live: Option<Json>, i: Intent, j: Intent, d: DeploymentObj, e: DeploymentObj)
    requires Plans(i, d) && Plans(j, e) && i.f == j.f && d.(pod := e.pod) == e && PodSame(d.pod, e.pod)
    requires live.Some? ==> LiveOwned(live.value) && NullFree(live.value) && live.value.Obj? && Meta(live.value).Obj?
    ensures var r := NextDeployment(live, i.deployment.value);
            r.Some? && (NextDeployment(r, j.deployment.value) == NextDeployment(live, j.deployment.value) <==>
                        live.Some? || AnnotationsAgree(i.f))
  {
    PlanMarks(i, d);
    var first, second := i.deployment.value, j.deployment.value;
    if live.Some? {
      SecondUpdate(live.value, first, second, i.f, d, e);
      NextTwice(live.value, first, second);
    } else {
      SecondAfterCreate(first, second, i.f, d, e);
    }
  }

  lemma NextTwice(live: Json, first: Write, second: Write)
    requires LiveOwned(live) && LiveOwned(Patched(live, first.update))
    requires Patched(Patched(live, first.update), second.update) == Patched(live, second.update)
    ensures var r := NextDeployment(Some(live), first);
            r.Some? && NextDeployment(r, second) == NextDeployment(Some(live), second)
  {
    NextOnce(live, first);
    NextOnce(Patched(live, first.update), second);
    NextOnce(live, second);
  }

  lemma NextOnce(live: Json, d: Write)
    requires LiveOwned(live)
    ensures NextDeployment(Some(live), d) == Some(Patched(live, d.update))
  {
  }

  lemma SecondUpdate(live: Json, first: Write, second: Write, f: FunctionObj, d: DeploymentObj, e: DeploymentObj)
    requires first == WriteOf(f, Marked(f), d) && second == WriteOf(f, Marked(f), e) && HasDefaultLabel(first.update.labels)
    requires d.(pod := e.pod) == e && PodSame(d.pod, e.pod) && NullFree(live) && live.Obj? && Meta(live).Obj?
    ensures LiveOwned(Patched(live, first.update))
    ensures Patched(Patched(live, first.update), second.update) == Patched(live, second.update)
  {
    PatchedLabels(live, first.update, "created-by");
    UpdatedTwice(live, f, d, e);
  }

  lemma SecondAfterCreate(first: Write, second: Write, f: FunctionObj, d: DeploymentObj, e: DeploymentObj)
    requires first == WriteOf(f, Marked(f), d) && second == WriteOf(f, Marked(f), e) && Describes(e, f)
    requires d.(pod := e.pod) == e && PodSame(d.pod, e.pod)
    ensures Patched(first.created, second.update) == second.created <==> AnnotationsAgree(f)
  {
    OrderForgotten(f.name, f, d, e);
    CreatedTwice(f, e);
  }

  /** Two successful calls in a row, of a function without an object-metric autoscaler: the second leaves the
      cluster as it is, but for the order of environment entries, exactly unless the first call created the
      Deployment and an annotation of its template is overridden. */
  lemma SecondRunSettles(w: World, v: World, x: World, t: Turn, s: Turn)
    requires Took(w, v, t) && Took(v, x, s) && t.o == Done && s.o == Done
    requires s == t.(listing := s.listing, healthy := s.healthy) && !ScalingOf(t.cfg, t.f).ObjectFirst()
    requires Lists(t.listing) && Lists(s.listing) && ProperAt(w.deployments, t.f.name)
    ensures x == v.(deployments := x.deployments)
    ensures TurnDeployment(t).Ok? && TurnDeployment(s).Ok?
    ensures SameButEnvOrder(TurnDeployment(t).value, TurnDeployment(s).value)
    ensures TwoRuns(w.deployments, v.deployments, x.deployments, TurnIntent(t), TurnIntent(s))
  {
    TurnPlans(t);
    TurnPlans(s);
    TurnsSame(t, s);
    OthersSettled(w, v, x, TurnIntent(t), TurnIntent(s), t.healthy, s.healthy);
    TwoRunsOf(w, v, x, TurnIntent(t), TurnIntent(s), TurnDeployment(t).value, TurnDeployment(s).value, t.healthy, s.healthy);
  }

  lemma TurnsSame(t: Turn, s: Turn)
    requires s == t.(listing := s.listing, healthy := s.healthy) && Lists(t.listing) && Lists(s.listing)
    ensures TurnDeployment(t).Ok? <==> TurnDeployment(s).Ok?
    ensures TurnDeployment(t).Ok? ==> SameButEnvOrder(TurnDeployment(t).value, TurnDeployment(s).value)
  {
    if t.image.Ok? {
      DesiredSame(t.cfg, t.f, t.image.value, t.listing, s.listing);
    }
  }

  ghost predicate ProperAt(m: map<string, Json>, n: string) {
    n in m ==> NullFree(m[n]) && m[n].Obj? && Meta(m[n]).Obj?
  }

  ghost predicate SameButEnvOrder(d: DeploymentObj, e: DeploymentObj) {
    d.(pod := e.pod) == e && PodSame(d.pod, e.pod)
  }

  /** After both runs the Deployments are those the second alone would have made, exactly when the function's
      Deployment was there before or its annotations agree. Then the live Deployments after the first and after
      the second run are equal up to the order of environment entries, and equal outright if both runs intend
      the same; if both do, that too holds exactly then. */
  ghost predicate TwoRuns(w: map<string, Json>, v: map<string, Json>, x: map<string, Json>, i: Intent, j: Intent) {
    var once := DeploymentAfter(w, j);
    && once.Some?
    && (x == w[i.f.name := once.value] <==> i.f.name in w || AnnotationsAgree(i.f))
    && (i.f.name in w || AnnotationsAgree(i.f) ==>
          && x.Keys == v.Keys && x - {i.f.name} == v - {i.f.name}
          && i.f.name in v && SameUpToEnv(v[i.f.name], x[i.f.name]))
    && (i == j ==> (x == v <==> i.f.name in w || AnnotationsAgree(i.f)))
  }

  lemma TwoRunsOf(w: World, v: World, x: World, i: Intent, j: Intent, d: DeploymentObj, e: DeploymentObj, h: bool, g: bool)
    requires Reached(w, v, i, h) && Reached(v, x, j, g) && Plans(i, d) && Plans(j, e) && i.f == j.f
    requires SameButEnvOrder(d, e) && ProperAt(w.deployments, i.f.name)
    ensures TwoRuns(w.deployments, v.deployments, x.deployments, i, j)
  {
    var live := At(w.deployments, i.f.name);
    SecondRun(live, i, j, d, e);
    var r := NextDeployment(live, i.deployment.value).value;
    var s := NextDeployment(Some(r), j.deployment.value).value;
    TwoWrites(w.deployments, i.f.name, r, s, NextDeployment(live, j.deployment.value).value);
    TwoWrites(w.deployments, i.f.name, r, s, r);
    OnceSame(live, i.deployment.value, j.deployment.value, i.f, d, e);
  }

  /** One run with either order makes the same Deployment, up to the order of environment entries. */
  lemma OnceSame(live: Option<Json>, first: Write, second: Write, f: FunctionObj, d: DeploymentObj, e: DeploymentObj)
    requires first == WriteOf(f, Marked(f), d) && second == WriteOf(f, Marked(f), e) && SameButEnvOrder(d, e)
    requires live.Some? ==> LiveOwned(live.value)
    ensures SameUpToEnv(NextDeployment(live, first).value, NextDeployment(live, second).value)
  {
    if live.Some? {
      TemplateSame(d, e);
      UpdatedSame(live.value, first.update, second.update);
    } else {
      CreatedSame(f.name, d, e);
    }
  }

  lemma TwoWrites<T>(m: map<string, T>, n: string, a: T, b: T, c: T)
    ensures m[n := a][n := b] == m[n := b]
    ensures m[n := b] == m[n := c] <==> b == c
    ensures m[n := b].Keys == m[n := c].Keys && m[n := b] - {n} == m[n := c] - {n}
  {
    assert m[n := b][n] == b && m[n := c][n] == c;
  }

  // ---- the frozen selector ----

  ghost predicate Frozen(live: Json, n: string) {
    && NullFree(live) && live.Obj? && Meta(live).Obj?
    && SelectorOf(live) == MarshalSelector(FrozenSelector(n))
    && Field(TemplateLabelsOf(live), Key("created-by")) == Str("kubeless")
    && Field(TemplateLabelsOf(live), Key("function")) == Str(n)
  }

  /** A label selector matches the pod template: every label it asks for is there with that value. */
  ghost predicate SelectorMatches(live: Json) {
    var wanted := Field(SelectorOf(live), MatchLabels);
    wanted.Obj? && forall k :: k in wanted.fields ==> Field(TemplateLabelsOf(live), k) == wanted.fields[k]
  }

  lemma FrozenMatches(live: Json, n: string)
    requires Frozen(live, n)
    ensures SelectorMatches(live)
  {
  }

  lemma FrozenAtCreation(f: FunctionObj, d: DeploymentObj)
    requires Describes(d, f)
    ensures Frozen(Marshal(f.name, d), f.name)
  {
    MarshalProper(f.name, f, d);
    Created(f.name, d);
    LabelJson(d.templateLabels, "created-by");
    LabelJson(d.templateLabels, "function");
  }

  lemma FrozenAfterUpdate(live: Json, f: FunctionObj, d: DeploymentObj)
    requires Frozen(live, f.name) && Describes(d, f)
    ensures Frozen(Patched(live, UpdateOf(f, d)), f.name)
  {
    TemplateNullFree(d);
    PatchedProper(live, UpdateOf(f, d));
    PatchedSelector(live, UpdateOf(f, d));
    PatchedTemplateLabels(live, f, d, "created-by");
    PatchedTemplateLabels(live, f, d, "function");
  }

  ghost predicate AllFrozen(m: map<string, Json>, n: string) { n in m ==> Frozen(m[n], n) }

  lemma FrozenNext(live: Option<Json>, w: Write, f: FunctionObj, d: DeploymentObj, r: Json)
    requires w == WriteOf(f, Marked(f), d) && Describes(d, f) && NextDeployment(live, w) == Some(r)
    requires live.Some? ==> Frozen(live.value, f.name)
    ensures Frozen(r, f.name)
  {
    if live.Some? {
      UpdateFrozen(live.value, w, f, d);
    } else {
      FrozenAtCreation(f, d);
    }
    NextFrozen(live, w, r, f.name);
  }

  lemma UpdateFrozen(live: Json, w: Write, f: FunctionObj, d: DeploymentObj)
    requires w == WriteOf(f, Marked(f), d) && Describes(d, f) && Frozen(live, f.name)
    ensures Frozen(Patched(live, w.update), f.name)
  {
    FrozenAfterUpdate(live, f, d);
  }

  lemma NextFrozen(live: Option<Json>, w: Write, r: Json, n: string)
    requires NextDeployment(live, w) == Some(r)
    requires if live.Some? then Frozen(Patched(live.value, w.update), n) else Frozen(w.created, n)
    ensures Frozen(r, n)
  {
  }

  lemma FrozenWrite(was: map<string, Json>, now: map<string, Json>, i: Intent, d: DeploymentObj, n: string)
    requires Plans(i, d) && Either(was, now, i.f.name, DeploymentAfter(was, i)) && AllFrozen(was, n)
    ensures AllFrozen(now, n)
  {
    if n == i.f.name && now != was {
      FrozenNext(At(was, n), i.deployment.value, i.f, d, now[n]);
    }
  }

  lemma FrozenStep(w: World, v: World, t: Turn, n: string)
    requires Took(w, v, t) && AllFrozen(w.deployments, n)
    ensures AllFrozen(v.deployments, n)
  {
    TurnPlans(t);
    if TurnDeployment(t).Ok? {
      FrozenWrite(w.deployments, v.deployments, TurnIntent(t), TurnDeployment(t).value, n);
    }
  }

  /** For every history that starts without the Deployment: whenever it is there, its selector is the one
      fixed at creation and matches its pod template, whatever labels the Functions of that name carry. */
  lemma SelectorForever(ws: seq<World>, ts: seq<Turn>, n: string, j: nat)
    requires History(ws, ts) && j < |ws| && n !in ws[0].deployments
    ensures n in ws[j].deployments ==>
              SelectorOf(ws[j].deployments[n]) == MarshalSelector(FrozenSelector(n)) && SelectorMatches(ws[j].deployments[n])
  {
    FrozenForever(ws, ts, n, j);
    if n in ws[j].deployments {
      FrozenMatches(ws[j].deployments[n], n);
    }
  }

  lemma FrozenForever(ws: seq<World>, ts: seq<Turn>, n: string, j: nat)
    requires History(ws, ts) && j < |ws| && n !in ws[0].deployments
    ensures AllFrozen(ws[j].deployments, n)
  {
    forall i | 0 <= i < |ts| && AllFrozen(ws[i].deployments, n)
      ensures AllFrozen(ws[i + 1].deployments, n)
    {
      FrozenStep(ws[i], ws[i + 1], ts[i], n);
    }
    FrozenChain(ws, n, j);
  }

  lemma {:induction false} FrozenChain(ws: seq<World>, n: string, j: nat)
    requires j < |ws| && AllFrozen(ws[0].deployments, n)
    requires forall i :: 0 <= i < |ws| - 1 && AllFrozen(ws[i].deployments, n) ==> AllFrozen(ws[i + 1].deployments, n)
    ensures AllFrozen(ws[j].deployments, n)
  {
    if j > 0 {
      FrozenChain(ws, n, j - 1);
      assert AllFrozen(ws[j - 1 + 1].deployments, n);
    }
  }
}

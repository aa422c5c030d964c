/** Two computations of the same Deployment differ in nothing but the order of environment entries: the only
    freedom is the order in which Go ranges over the env maps of the runtime table. */
module EnvOrder {
  import opened Common
  import opened Quantities
  import opened Runtimes
  import opened Provision
  import opened PodSpecs
  import opened Desired

  ghost predicate SameButOrder(c: Container, d: Container) {
    c.(env := d.env) == d && multiset(c.env) == multiset(d.env)
  }

  ghost predicate AllSame(cs: seq<Container>, ds: seq<Container>) {
    |cs| == |ds| && forall i :: 0 <= i < |cs| ==> SameButOrder(cs[i], ds[i])
  }

  ghost predicate PodSame(p: PodSpec, q: PodSpec) {
    && p.(containers := q.containers, initContainers := q.initContainers) == q
    && AllSame(p.containers, q.containers)
    && AllSame(p.initContainers, q.initContainers)
  }

  ghost predicate OptSame(r: Result<Option<Container>>, s: Result<Option<Container>>) {
    && (r.Ok? <==> s.Ok?)
    && (r.Ok? ==> AllSame(OptSeq(r.value), OptSeq(s.value)))
  }

  lemma ListingsAgree(l: Listing, m: Listing, env: map<string, string>)
    requires Lists(l) && Lists(m)
    ensures multiset(l(env)) == multiset(m(env))
  {
  }

  lemma BuildSame(table: Table, runtime: string, sum: string, env: seq<EnvVar>, install: Mount, res: Demand, l: Listing, m: Listing)
    requires Lists(l) && Lists(m)
    ensures OptSame(BuildContainer(table, runtime, sum, env, install, res, l), BuildContainer(table, runtime, sum, env, install, res, m))
  {
    if FindRuntimeVersion(table, runtime).Some? {
      var image := FindImage(PHASE_INSTALLATION, FindRuntimeVersion(table, runtime).value.images);
      if image.Some? {
        ListingsAgree(l, m, image.value.env);
      }
    }
  }

  lemma CompilationSame(table: Table, runtime: string, name: string, env: seq<EnvVar>, install: Mount, res: Demand, l: Listing, m: Listing)
    requires Lists(l) && Lists(m)
    ensures OptSame(CompilationContainer(table, runtime, name, env, install, res, l),
                    CompilationContainer(table, runtime, name, env, install, res, m))
  {
    if FindRuntimeVersion(table, runtime).Some? {
      var image := FindImage(PHASE_COMPILATION, FindRuntimeVersion(table, runtime).value.images);
      if image.Some? {
        ListingsAgree(l, m, image.value.env);
      }
    }
  }

  lemma Joined(a: seq<Container>, b: seq<Container>, c: seq<Container>, d: seq<Container>)
    requires AllSame(a, c) && AllSame(b, d)
    ensures AllSame(a + b, c + d)
  {
  }

  lemma InitsSame(u: Setup, v: Setup, pod: PodSpec)
    requires u.(listing := v.listing) == v && Lists(u.listing) && Lists(v.listing)
    ensures Inits(u, pod).Ok? <==> Inits(v, pod).Ok?
    ensures Inits(u, pod).Panic? <==> Inits(v, pod).Panic?
    ensures Inits(u, pod).Ok? ==> AllSame(Inits(u, pod).value, Inits(v, pod).value)
  {
    var env := UserEnv(pod);
    assert OptSame(InstallInit(u, env), InstallInit(v, env)) by {
      BuildSame(u.table, u.code.runtime, if u.code.deps != "" then u.sha256(u.code.deps) else "", env,
                RuntimeMount(u.name), u.initResources, u.listing, v.listing);
    }
    assert OptSame(CompileInit(u, env), CompileInit(v, env)) by {
      CompilationSame(u.table, u.code.runtime, match SplitHandler(u.code.handler) case Some((_, f)) => f case None => "",
                      env, RuntimeMount(u.name), u.initResources, u.listing, v.listing);
    }
    PrepareSame(u, v, pod);
    if Inits(u, pod).Ok? {
      var prepare := PrepareInit(u, pod).value;
      Joined(prepare, OptSeq(InstallInit(u, env).value), prepare, OptSeq(InstallInit(v, env).value));
      Joined(prepare + OptSeq(InstallInit(u, env).value), OptSeq(CompileInit(u, env).value),
             prepare + OptSeq(InstallInit(v, env).value), OptSeq(CompileInit(v, env).value));
    }
  }

  lemma PrepareSame(u: Setup, v: Setup, pod: PodSpec)
    requires u.(listing := v.listing) == v
    ensures PrepareInit(u, pod) == PrepareInit(v, pod)
  {
  }

  lemma {:induction false} MountFromSame(table: Table, runtime: string, m: Mounted, n: Mounted, i: nat)
    requires m.volumes == n.volumes && AllSame(m.inits, n.inits) && i <= |m.inits|
    ensures var r, s := MountFrom(table, runtime, m, i), MountFrom(table, runtime, n, i);
            && (r.Ok? <==> s.Ok?)
            && (r.Ok? ==> r.value.volumes == s.value.volumes && AllSame(r.value.inits, s.value.inits))
    decreases |m.inits| - i
  {
    if i < |m.inits| {
      assert SameButOrder(m.inits[i], n.inits[i]);
      if MountOne(table, runtime, m, i).Ok? {
        MountFromSame(table, runtime, MountOne(table, runtime, m, i).value, MountOne(table, runtime, n, i).value, i + 1);
      }
    }
  }

  lemma PopulatedSame(u: Setup, v: Setup, pod: PodSpec)
    requires u.(listing := v.listing) == v && Lists(u.listing) && Lists(v.listing)
    ensures Populated(u, pod).Ok? <==> Populated(v, pod).Ok?
    ensures Populated(u, pod).Ok? ==> PodSame(Populated(u, pod).value, Populated(v, pod).value)
    ensures Populated(u, pod).Ok? ==> Populated(u, pod).value.containers == Populated(v, pod).value.containers == pod.containers
  {
    InitsSame(u, v, pod);
    assert BaseVolumes(u, pod) == BaseVolumes(v, pod) && PullSecrets(u, pod) == PullSecrets(v, pod);
    if Inits(u, pod).Ok? {
      MountFromSame(u.table, u.code.runtime, Mounted(BaseVolumes(u, pod), Inits(u, pod).value),
                    Mounted(BaseVolumes(v, pod), Inits(v, pod).value), 0);
    }
  }

  lemma CodePodSame(cfg: Config, w: Workload, prebuilt: string, l: Listing, m: Listing)
    requires Lists(l) && Lists(m)
    ensures CodePod(cfg, w, prebuilt, l).Ok? <==> CodePod(cfg, w, prebuilt, m).Ok?
    ensures CodePod(cfg, w, prebuilt, l).Ok? ==> PodSame(CodePod(cfg, w, prebuilt, l).value, CodePod(cfg, w, prebuilt, m).value)
  {
    PopulatedSame(SetupOf(cfg, w, l), SetupOf(cfg, w, m), UserPod(w));
  }

  lemma RuntimeEnvSame(cfg: Config, runtime: string, l: Listing, m: Listing)
    requires Lists(l) && Lists(m)
    ensures multiset(RuntimeEnv(cfg, runtime, l)) == multiset(RuntimeEnv(cfg, runtime, m))
  {
    if FindRuntimeVersion(cfg.table, runtime).Some? {
      var image := FindImage(PHASE_RUNTIME, FindRuntimeVersion(cfg.table, runtime).value.images);
      if image.Some? {
        ListingsAgree(l, m, image.value.env);
      }
    }
  }

  lemma FinishedSame(cfg: Config, w: Workload, p: PodSpec, q: PodSpec, l: Listing, m: Listing)
    requires Lists(l) && Lists(m) && PodSame(p, q) && |p.containers| > 0
    ensures PodSame(FinishedPod(cfg, w, p, l), FinishedPod(cfg, w, q, m))
  {
    RuntimeEnvSame(cfg, w.code.runtime, l, m);
    assert SameButOrder(p.containers[0], q.containers[0]);
  }

  /** Whatever order Go picks, the desired Deployment is the same but for the order of environment entries. */
  lemma DesiredSame(cfg: Config, f: FunctionObj, prebuilt: string, l: Listing, m: Listing)
    requires Lists(l) && Lists(m)
    ensures var d, e := DesiredDeployment(cfg, f, prebuilt, l), DesiredDeployment(cfg, f, prebuilt, m);
            && (d.Ok? <==> e.Ok?)
            && (d.Ok? ==> d.value.(pod := e.value.pod) == e.value && PodSame(d.value.pod, e.value.pod))
  {
    CodePodSame(cfg, WorkloadOf(f), prebuilt, l, m);
    if CodePod(cfg, WorkloadOf(f), prebuilt, l).Ok? {
      FinishedSame(cfg, WorkloadOf(f), CodePod(cfg, WorkloadOf(f), prebuilt, l).value,
                   CodePod(cfg, WorkloadOf(f), prebuilt, m).value, l, m);
    }
  }
}

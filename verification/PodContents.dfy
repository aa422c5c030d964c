/** What the containers of a function's pod are told and do, over the runtime table and the fields of the Function:
    the names of files, the install and compile containers, and the container that serves the function. */
module PodContents {
  import opened Common
  import opened Strings
  import opened Quantities
  import opened Runtimes
  import opened Provision
  import opened PodSpecs
  import opened Shell
  import opened Desired
  import opened EventFilter

  // ---- names ----

  lemma {:induction false} SplitBack(s: string, sep: char)
    ensures |Split(s, sep)| == 2 ==> s == Split(s, sep)[0] + [sep] + Split(s, sep)[1]
    ensures |Split(s, sep)| == 1 ==> s == Split(s, sep)[0]
  {
    if s != [] {
      SplitBack(s[1..], sep);
      assert s == [s[0]] + s[1..];
    }
  }

  /** A handler is a module and a function name with the one dot between them. */
  lemma HandlerParts(handler: string, mod: string, func: string)
    ensures SplitHandler(handler) == Some((mod, func)) <==> '.' !in mod && '.' !in func && handler == mod + "." + func
  {
    SplitBack(handler, '.');
    if '.' !in mod && '.' !in func && handler == mod + "." + func {
      SplitFirst(mod, '.', func);
      SplitNone(func, '.');
    }
  }

  /** The code file is called after the module, with the suffix of the runtime where the content is one file. */
  lemma CodeFileName(c: Code, table: Table, mod: string, func: string)
    requires '.' !in mod && '.' !in func && c.handler == mod + "." + func
    ensures var single := c.contentType == "text" || c.contentType == "" || c.contentType == "url" || c.contentType == "base64";
            FileName(c, table) ==
            Some(if single && GetRuntimeInfo(table, c.runtime).Some? then mod + GetRuntimeInfo(table, c.runtime).value.suffix else mod)
  {
    HandlerParts(c.handler, mod, func);
  }

  /** The ConfigMap holds the handler, unless code or dependencies take that very key. */
  lemma HandlerKept(c: Code, table: Table)
    requires c.handler != "" && ConfigMapData(c, table).Ok?
    ensures "handler" in ConfigMapData(c, table).value
    ensures FileName(c, table) != Some("handler") && DepName(c, table) != Some("handler") ==>
              ConfigMapData(c, table).value["handler"] == c.handler
  {
  }

  // ---- the install container ----

  const DEPS_SUMS := Path(Tmp, "deps.sha256")

  /** With dependencies and an installation phase there is one container that has the phase's image, runs in and
      mounts the runtime volume, and is told the dependency file. It runs the phase's command, and before it
      checks the file where the dependencies came with the spec. */
  lemma InstallContainer(u: Setup, env: seq<EnvVar>, info: RuntimeInfo, version: RuntimeVersion, image: Image)
    requires (u.code.deps != "" || Contains(u.code.contentType, "deps")) && info.depName != ""
    requires GetRuntimeInfo(u.table, u.code.runtime) == Some(info) && FindRuntimeVersion(u.table, u.code.runtime) == Some(version)
    requires FindImage("installation", version.images) == Some(image)
    ensures InstallInit(u, env).Ok? && InstallInit(u, env).value.Some?
    ensures var c := InstallInit(u, env).value.value;
            && c.name == "install" && c.image == image.image && c.workingDir == "/kubeless"
            && c.mounts == [Mount(u.name, "/kubeless", false)] && c.resources == u.initResources
            && c.env == env + [EnvVar("KUBELESS_INSTALL_VOLUME", "/kubeless"), EnvVar("KUBELESS_DEPS_FILE", "/kubeless/" + info.depName)] +
                        u.listing(image.env)
            && c.args == (if u.code.deps != "" && u.sha256(u.code.deps) != ""
                          then InstallText(u.sha256(u.code.deps), info.depName, image.command)
                          else image.command)
  {
    var sum := if u.code.deps != "" then u.sha256(u.code.deps) else "";
    BuildText(sum, info.depName, image.command);
    BuiltContainer(u, env, sum, info, version, image);
  }

  lemma BuiltContainer(u: Setup, env: seq<EnvVar>, sum: string, info: RuntimeInfo, version: RuntimeVersion, image: Image)
    requires info.depName != ""
    requires GetRuntimeInfo(u.table, u.code.runtime) == Some(info) && FindRuntimeVersion(u.table, u.code.runtime) == Some(version)
    requires FindImage("installation", version.images) == Some(image)
    ensures BuildContainer(u.table, u.code.runtime, sum, env, RuntimeMount(u.name), u.initResources, u.listing) ==
            Ok(Some(Container("install", image.image, BuildCommand(sum, "/kubeless/" + info.depName, image.command),
                              env + [EnvVar("KUBELESS_INSTALL_VOLUME", "/kubeless"), EnvVar("KUBELESS_DEPS_FILE", "/kubeless/" + info.depName)] +
                              u.listing(image.env),
                              [Mount(u.name, "/kubeless", false)], [], u.initResources, None, "/kubeless")))
  {
    assert PathJoin("/kubeless", info.depName) == "/kubeless/" + info.depName;
  }

  /** The command as the source puts it together. */
  function BuildCommand(sum: string, depsFile: string, command: string): (r: string) {
    if sum != "" then
      AppendToCommand("", ["echo '" + sum + "  " + depsFile + "' > " + "/tmp/deps.sha256", "sha256sum -c " + "/tmp/deps.sha256", command])
    else AppendToCommand("", [command])
  }

  lemma BuildText(sum: string, dep: string, command: string)
    ensures BuildCommand(sum, "/kubeless/" + dep, command) == if sum != "" then InstallText(sum, dep, command) else command
  {
    if sum != "" {
      var a := "echo '" + sum + "  " + ("/kubeless/" + dep) + "' > " + "/tmp/deps.sha256";
      ThreeJoined(a, "sha256sum -c " + "/tmp/deps.sha256", command);
      EchoLine(sum, dep);
      SumLine();
      Chained(CheckLine(sum, dep), "sha256sum -c /tmp/deps.sha256", command);
    }
  }

  function CheckLine(sum: string, dep: string): (r: string) { "echo '" + sum + "  /kubeless/" + dep + "' > /tmp/deps.sha256" }

  /** Check the dependency file, then the command. */
  function InstallText(sum: string, dep: string, command: string): (r: string) {
    CheckLine(sum, dep) + " && " + "sha256sum -c /tmp/deps.sha256" + " && " + command
  }

  lemma Chained(a: string, b: string, c: string)
    ensures a + " && " + (b + " && " + c) == a + " && " + b + " && " + c
  {
  }

  lemma ThreeJoined(a: string, b: string, c: string)
    ensures AppendToCommand("", [a, b, c]) == a + " && " + (b + " && " + c)
  {
    assert [a, b, c][1..] == [b, c] && [b, c][1..] == [c];
    assert JoinCommands([c]) == c;
    assert JoinCommands([b, c]) == b + " && " + c;
  }

  lemma EchoLine(sum: string, dep: string)
    ensures "echo '" + sum + "  " + ("/kubeless/" + dep) + "' > " + "/tmp/deps.sha256" == CheckLine(sum, dep)
  {
    assert "  " + ("/kubeless/" + dep) == "  /kubeless/" + dep;
    assert "' > " + "/tmp/deps.sha256" == "' > /tmp/deps.sha256";
  }

  lemma SumLine()
    ensures "sha256sum -c " + "/tmp/deps.sha256" == "sha256sum -c /tmp/deps.sha256"
  {
  }

  /** No such container without dependencies, or without an installation phase. */
  lemma NoInstallContainer(u: Setup, env: seq<EnvVar>, version: RuntimeVersion)
    requires FindRuntimeVersion(u.table, u.code.runtime) == Some(version)
    requires (u.code.deps == "" && !Contains(u.code.contentType, "deps")) || FindImage("installation", version.images).None?
    ensures InstallInit(u, env) == Ok(None)
  {
  }

  function DepsCheck(sum: string, dep: string): (r: seq<Cmd>) { [WriteSum(sum, Path(Vol, dep), DEPS_SUMS), CheckSum(DEPS_SUMS)] }

  lemma InstallTextIs(sum: string, dep: string, command: string)
    ensures InstallText(sum, dep, command) == JoinCommands(RenderAll(DepsCheck(sum, dep))) + " && " + command
  {
    RenderCheck(sum, dep);
    var a, b := WriteSum(sum, Path(Vol, dep), DEPS_SUMS), CheckSum(DEPS_SUMS);
    RenderTail([a, b]);
    assert [a, b][1..] == [b];
    RunSingleText(b);
  }

  lemma RenderCheck(sum: string, dep: string)
    ensures Render(WriteSum(sum, Path(Vol, dep), DEPS_SUMS)) == CheckLine(sum, dep)
    ensures Render(CheckSum(DEPS_SUMS)) == "sha256sum -c /tmp/deps.sha256"
  {
    assert Text(DEPS_SUMS) == "/tmp/deps.sha256" && Text(Path(Vol, dep)) == "/kubeless/" + dep;
    EchoLine(sum, dep);
    SumLine();
  }

  lemma RunSingleText(c: Cmd)
    ensures JoinCommands(RenderAll([c])) == Render(c)
  {
  }

  lemma RunTwo(t: Tools, a: Cmd, b: Cmd, fs: Files)
    ensures RunAll(t, [a, b], fs) == match Exec(t, a, fs) case None => None case Some(next) => Exec(t, b, next)
  {
    assert [a, b][1..] == [b];
    if Exec(t, a, fs).Some? {
      RunSingle(t, [b], Exec(t, a, fs).value);
    }
  }

  /** A shell that runs the container's text fails unless the dependency file has the recorded digest, and then
      runs exactly the command of the installation phase. */
  lemma InstallChecks(t: Tools, other: Programs, sum: string, dep: string, command: string, fs: Files)
    requires PlainName(dep) && All(Unquoted, sum)
    ensures var file := Bytes(fs, Path(Vol, dep));
            RunText(t, other, InstallText(sum, dep, command), fs) ==
            if file.Some? && SameDigest(t.sha256(file.value), sum)
            then RunText(t, other, command, fs[DEPS_SUMS := Sum(sum, Path(Vol, dep))]) else None
  {
    var cs := DepsCheck(sum, dep);
    assert PlainName("deps.sha256");
    InstallTextIs(sum, dep, command);
    RunThen(t, other, cs, command, fs);
    var mid := fs[DEPS_SUMS := Sum(sum, Path(Vol, dep))];
    RunTwo(t, cs[0], cs[1], fs);
    assert Bytes(mid, Path(Vol, dep)) == Bytes(fs, Path(Vol, dep));
  }

  /** On what the prepare container left of a spec with dependencies the check passes. */
  lemma InstallAfterPrepare(t: Tools, other: Programs, c: Code, name: string, table: Table, fs: Files, after: Files, dep: string, command: string)
    requires WantsDep(c, table, dep) && PlainName(dep) && '/' !in dep && c.deps != "" && All(Unquoted, t.sha256(c.deps))
    requires Bytes(fs, Path(Src, dep)) == Some(c.deps)
    requires Meaning(t, c, name, table, fs).Some? && Lasting(after) == Meaning(t, c, name, table, fs).value
    ensures Bytes(after, Path(Vol, dep)) == Some(c.deps)
    ensures RunText(t, other, InstallText(t.sha256(c.deps), dep, command), after) ==
            RunText(t, other, command, after[DEPS_SUMS := Sum(t.sha256(c.deps), Path(Vol, dep))])
  {
    SplitNone(dep, '/');
    assert InstalledDep(c, table, fs) == Some(map[Path(Vol, dep) := Data(c.deps)]);
    assert Lasting(after)[Path(Vol, dep)] == Data(c.deps);
    InstallChecks(t, other, t.sha256(c.deps), dep, command, after);
  }

  // ---- the compile container ----

  /** With a compilation phase there is one container that runs the phase's command and is told the name of the
      function. */
  lemma CompileContainer(u: Setup, env: seq<EnvVar>, version: RuntimeVersion, image: Image, mod: string, func: string)
    requires FindRuntimeVersion(u.table, u.code.runtime) == Some(version) && FindImage("compilation", version.images) == Some(image)
    requires '.' !in mod && '.' !in func && u.code.handler == mod + "." + func
    ensures CompileInit(u, env).Ok? && CompileInit(u, env).value.Some?
    ensures var c := CompileInit(u, env).value.value;
            && c.name == "compile" && c.image == image.image && c.args == image.command && c.workingDir == "/kubeless"
            && c.mounts == [Mount(u.name, "/kubeless", false)] && c.resources == u.initResources
            && c.env == env + [EnvVar("KUBELESS_INSTALL_VOLUME", "/kubeless"), EnvVar("KUBELESS_FUNC_NAME", func)] + u.listing(image.env)
  {
    HandlerParts(u.code.handler, mod, func);
  }

  lemma NoCompileContainer(u: Setup, env: seq<EnvVar>, version: RuntimeVersion)
    requires FindRuntimeVersion(u.table, u.code.runtime) == Some(version) && FindImage("compilation", version.images).None?
    ensures CompileInit(u, env) == Ok(None)
  {
  }

  // ---- the whole pod spec ----

  /** Order: prepare, install and compile one after the other. */
  lemma PopulatedInits(u: Setup, pod: PodSpec)
    requires u.code.source != "" && Populated(u, pod).Ok?
    ensures var r, env := Populated(u, pod).value.initContainers, UserEnv(pod);
            && InstallInit(u, env).Ok? && CompileInit(u, env).Ok?
            && var install, compile := InstallInit(u, env).value, CompileInit(u, env).value;
               && |r| == 1 + |OptSeq(install)| + |OptSeq(compile)|
               && r[0].name == "prepare" && r[0].image == u.provisionImage
               && [Mount(u.name, "/kubeless", false), Mount(u.name + "-deps", "/src", false)] <= r[0].mounts
               && (install.Some? ==> Runs(install.value, r[1]))
               && (compile.Some? ==> Runs(compile.value, r[|r| - 1]))
  {
    var inits, env := Inits(u, pod).value, UserEnv(pod);
    var install, compile := InstallInit(u, env).value, CompileInit(u, env).value;
    PrepareMounts(u, pod);
    var m := Mounted(BaseVolumes(u, pod), inits);
    MountFromExtends(u.table, u.code.runtime, m, 0);
    LaidOut(PrepareInit(u, pod).value, install, compile, m, MountFrom(u.table, u.code.runtime, m, 0).value);
  }

  lemma LaidOut(prepare: seq<Container>, install: Option<Container>, compile: Option<Container>, m: Mounted, r: Mounted)
    requires |prepare| == 1 && m.inits == prepare + OptSeq(install) + OptSeq(compile) && Extends(m, r)
    ensures |r.inits| == 1 + |OptSeq(install)| + |OptSeq(compile)| && Runs(prepare[0], r.inits[0])
    ensures install.Some? ==> Runs(install.value, r.inits[1])
    ensures compile.Some? ==> Runs(compile.value, r.inits[|r.inits| - 1])
  {
    assert m.inits[0] == prepare[0];
    assert install.Some? ==> m.inits[1] == install.value;
    assert compile.Some? ==> m.inits[|m.inits| - 1] == compile.value;
  }

  /** The pod of a function whose code is put in when it starts is the populated one, but for its containers. */
  lemma DesiredIsPopulated(cfg: Config, w: Workload, listing: Listing)
    requires Replaced(w, "") && DesiredPod(cfg, w, "", listing).Ok?
    ensures var p := Populated(SetupOf(cfg, w, listing), UserPod(w));
            p.Ok? && var pod := DesiredPod(cfg, w, "", listing).value;
            pod.initContainers == p.value.initContainers && pod.volumes == p.value.volumes && pod.pullSecrets == p.value.pullSecrets
  {
  }

  /** Wiring: an empty volume for the runtime and the function's ConfigMap as the source volume; and the pull
      secrets of the controller, or the pod's own where it has none, followed by those of the resolved version. */
  lemma PopulatedParts(u: Setup, pod: PodSpec, version: RuntimeVersion)
    requires u.code.runtime != "" && FindRuntimeVersion(u.table, u.code.runtime) == Some(version) && Populated(u, pod).Ok?
    ensures var r := Populated(u, pod).value;
            && pod.volumes + [Volume(u.name, EmptyDir(None)), Volume(u.name + "-deps", FromConfigMap(u.name))] <= r.volumes
            && r.pullSecrets == (if |u.secrets| > 0 then u.secrets else pod.pullSecrets) + version.pullSecrets
            && r.containers == pod.containers
  {
    var inits := Inits(u, pod).value;
    MountFromExtends(u.table, u.code.runtime, Mounted(BaseVolumes(u, pod), inits), 0);
  }

  lemma WiredInPod(cfg: Config, w: Workload, listing: Listing, version: RuntimeVersion)
    requires Replaced(w, "") && DesiredPod(cfg, w, "", listing).Ok?
    requires w.code.runtime != "" && FindRuntimeVersion(cfg.table, w.code.runtime) == Some(version)
    ensures var pod := DesiredPod(cfg, w, "", listing).value;
            && w.pod.volumes + [Volume(w.name, EmptyDir(None)), Volume(w.name + "-deps", FromConfigMap(w.name))] <= pod.volumes
            && pod.pullSecrets == (if |cfg.secrets| > 0 then cfg.secrets else w.pod.pullSecrets) + version.pullSecrets
  {
    DesiredIsPopulated(cfg, w, listing);
    PopulatedParts(SetupOf(cfg, w, listing), UserPod(w), version);
  }

  /** Nothing is added where the code is in an image already, or there is no code. */
  lemma NotWired(cfg: Config, w: Workload, prebuilt: string, listing: Listing)
    requires !Replaced(w, prebuilt) && DesiredPod(cfg, w, prebuilt, listing).Ok?
    ensures var pod := DesiredPod(cfg, w, prebuilt, listing).value;
            && pod.volumes == w.pod.volumes && pod.initContainers == w.pod.initContainers
            && pod.pullSecrets == if w.code.handler != "" && w.code.source != "" then cfg.secrets else w.pod.pullSecrets
  {
  }

  /** What a generated init container gets besides its own: the environment of the user's container, the resources
      of the user's first init container, and the runtime volume. */
  predicate Generated(c: Container, w: Workload, own: seq<EnvVar>) {
    && (w.pod.containers != [] ==> c.env == w.pod.containers[0].env + own) && (w.pod.containers == [] ==> c.env == own)
    && (w.pod.initContainers != [] ==> c.resources == w.pod.initContainers[0].resources)
    && (w.pod.initContainers == [] ==> c.resources == NO_DEMAND)
    && c.workingDir == "/kubeless" && Mount(w.name, "/kubeless", false) in c.mounts
  }

  lemma GeneratedWith(c: Container, d: Container, w: Workload, own: seq<EnvVar>, entries: seq<EnvVar>)
    requires Runs(c, d) && c.env == UserEnv(UserPod(w)) + own + entries && c.mounts == [Mount(w.name, "/kubeless", false)]
    requires c.resources == FirstDemand(w.pod) && c.workingDir == "/kubeless"
    ensures Generated(d, w, own + entries) && d.name == c.name && d.image == c.image && d.args == c.args
  {
    assert d.mounts[0] == c.mounts[0];
    Regrouped(c.env, UserEnv(UserPod(w)), own, entries);
    assert w.pod.containers == [] ==> UserEnv(UserPod(w)) == [] && [] + (own + entries) == own + entries;
  }

  lemma InstallSecond(u: Setup, pod: PodSpec, c: Container)
    requires u.code.source != "" && Populated(u, pod).Ok? && InstallInit(u, UserEnv(pod)) == Ok(Some(c))
    ensures var r := Populated(u, pod).value.initContainers; |r| > 1 && Runs(c, r[1])
  {
    PopulatedInits(u, pod);
  }

  lemma CompileLast(u: Setup, pod: PodSpec, c: Container)
    requires u.code.source != "" && Populated(u, pod).Ok? && CompileInit(u, UserEnv(pod)) == Ok(Some(c))
    ensures var r := Populated(u, pod).value.initContainers; |r| > 1 && Runs(c, r[|r| - 1])
  {
    PopulatedInits(u, pod);
  }

  lemma CompilePlaced(u: Setup, w: Workload, c: Container, own: seq<EnvVar>, entries: seq<EnvVar>)
    requires u.code.source != "" && Populated(u, UserPod(w)).Ok? && CompileInit(u, UserEnv(UserPod(w))) == Ok(Some(c))
    requires c.env == UserEnv(UserPod(w)) + own + entries && c.mounts == [Mount(w.name, "/kubeless", false)]
    requires c.resources == FirstDemand(w.pod) && c.workingDir == "/kubeless"
    ensures var r := Populated(u, UserPod(w)).value.initContainers;
            && |r| > 1 && var d := r[|r| - 1];
            && Generated(d, w, own + entries) && d.name == c.name && d.image == c.image && d.args == c.args
  {
    CompileLast(u, UserPod(w), c);
    var r := Populated(u, UserPod(w)).value.initContainers;
    GeneratedWith(c, r[|r| - 1], w, own, entries);
  }

  /** The second container of the pod installs the dependencies. */
  lemma InstallInPod(cfg: Config, w: Workload, listing: Listing, info: RuntimeInfo, version: RuntimeVersion, image: Image)
    requires Replaced(w, "") && DesiredPod(cfg, w, "", listing).Ok?
    requires w.code.deps != "" && cfg.sha256(w.code.deps) != "" && info.depName != ""
    requires GetRuntimeInfo(cfg.table, w.code.runtime) == Some(info) && FindRuntimeVersion(cfg.table, w.code.runtime) == Some(version)
    requires FindImage("installation", version.images) == Some(image)
    ensures var r := DesiredPod(cfg, w, "", listing).value.initContainers;
            && |r| > 1 && r[1].name == "install" && r[1].image == image.image
            && r[1].args == InstallText(cfg.sha256(w.code.deps), info.depName, image.command)
            && Generated(r[1], w, [EnvVar("KUBELESS_INSTALL_VOLUME", "/kubeless"), EnvVar("KUBELESS_DEPS_FILE", "/kubeless/" + info.depName)] +
                                  listing(image.env))
  {
    var u, pod := SetupOf(cfg, w, listing), UserPod(w);
    DesiredIsPopulated(cfg, w, listing);
    InstallContainer(u, UserEnv(pod), info, version, image);
    var c := InstallInit(u, UserEnv(pod)).value.value;
    InstallSecond(u, pod, c);
    GeneratedWith(c, Populated(u, pod).value.initContainers[1], w,
                  [EnvVar("KUBELESS_INSTALL_VOLUME", "/kubeless"), EnvVar("KUBELESS_DEPS_FILE", "/kubeless/" + info.depName)], listing(image.env));
  }

  lemma Regrouped<T>(all: seq<T>, a: seq<T>, b: seq<T>, c: seq<T>)
    requires all == a + b + c
    ensures all == a + (b + c)
  {
  }

  /** The last container of the pod compiles. */
  lemma CompileInPod(cfg: Config, w: Workload, listing: Listing, version: RuntimeVersion, image: Image, mod: string, func: string)
    requires Replaced(w, "") && DesiredPod(cfg, w, "", listing).Ok?
    requires FindRuntimeVersion(cfg.table, w.code.runtime) == Some(version) && FindImage("compilation", version.images) == Some(image)
    requires '.' !in mod && '.' !in func && w.code.handler == mod + "." + func
    ensures var r := DesiredPod(cfg, w, "", listing).value.initContainers;
            && |r| > 1 && var c := r[|r| - 1];
            && c.name == "compile" && c.image == image.image && c.args == image.command
            && Generated(c, w, [EnvVar("KUBELESS_INSTALL_VOLUME", "/kubeless"), EnvVar("KUBELESS_FUNC_NAME", func)] + listing(image.env))
  {
    DesiredIsPopulated(cfg, w, listing);
    var u, env := SetupOf(cfg, w, listing), UserEnv(UserPod(w));
    CompileContainer(u, env, version, image, mod, func);
    CompilePlaced(u, w, CompileInit(u, env).value.value,
                  [EnvVar("KUBELESS_INSTALL_VOLUME", "/kubeless"), EnvVar("KUBELESS_FUNC_NAME", func)], listing(image.env));
  }

  /** d is the container c, with mounts added. */
  predicate Runs(c: Container, d: Container) { d == c.(mounts := d.mounts) && c.mounts <= d.mounts }

  // ---- the serving container ----

  /** The image of a runtime: the override of the environment, or the runtime phase of the resolved version. */
  lemma ServingImage(cfg: Config, runtime: string, info: RuntimeInfo, version: RuntimeVersion)
    requires GetRuntimeInfo(cfg.table, runtime) == Some(info) && FindRuntimeVersion(cfg.table, runtime) == Some(version)
    ensures var forced := cfg.imageOverride(info.id, VersionOf(runtime));
            && FunctionImage(cfg, runtime).Ok?
            && (forced != "" ==> FunctionImage(cfg, runtime).value == forced)
            && (forced == "" ==>
                  forall im :: FindImage("runtime", version.images) == Some(im) ==> FunctionImage(cfg, runtime).value == im.image)
  {
  }

  /** What every serving container of a function with code is told: its handler, module, timeout, runtime, memory
      limit and port, after the user's entries. */
  predicate Told(c: Container, user: Container, w: Workload, mod: string, func: string, port: int) {
    && c.name == w.name && c.resources == user.resources && c.ports == user.ports + [port]
    && user.env + [EnvVar("FUNC_HANDLER", func), EnvVar("MOD_NAME", mod),
                   EnvVar("FUNC_TIMEOUT", if w.timeout == "" then "180" else w.timeout),
                   EnvVar("FUNC_RUNTIME", w.code.runtime), EnvVar("FUNC_MEMORY_LIMIT", MemoryLimit(user.resources)),
                   EnvVar("FUNC_PORT", Decimal(port))] <= c.env
  }

  lemma ServingContainer(cfg: Config, w: Workload, prebuilt: string, listing: Listing, mod: string, func: string)
    requires '.' !in mod && '.' !in func && w.code.handler == mod + "." + func && w.code.source != ""
    requires DesiredPod(cfg, w, prebuilt, listing).Ok?
    ensures var pod, user := DesiredPod(cfg, w, prebuilt, listing).value, UserPod(w).containers[0];
            && |pod.containers| == |UserPod(w).containers| && pod.containers[1..] == UserPod(w).containers[1..]
            && Told(pod.containers[0], user, w, mod, func, TargetPort(w.service))
            && pod.containers[0].image ==
               (if user.image != "" then user.image else if prebuilt != "" then prebuilt else FunctionImage(cfg, w.code.runtime).value)
            && pod.containers[0].mounts == user.mounts + (if Replaced(w, prebuilt) then [Mount(w.name, "/kubeless", false)] else [])
  {
    HandlerParts(w.code.handler, mod, func);
    CodeContainer(cfg, w, prebuilt, listing, mod, func);
    FinishedContainer(cfg, w, prebuilt, listing, CodePod(cfg, w, prebuilt, listing).value);
  }

  lemma CodeContainer(cfg: Config, w: Workload, prebuilt: string, listing: Listing, mod: string, func: string)
    requires SplitHandler(w.code.handler) == Some((mod, func)) && w.code.handler != "" && w.code.source != ""
    requires CodePod(cfg, w, prebuilt, listing).Ok?
    ensures var pod, user := CodePod(cfg, w, prebuilt, listing).value, UserPod(w).containers[0];
            && |pod.containers| == |UserPod(w).containers| && pod.containers[1..] == UserPod(w).containers[1..]
            && pod.containers[0].resources == user.resources && pod.containers[0].ports == user.ports
            && pod.containers[0].env ==
               user.env + [EnvVar("FUNC_HANDLER", func), EnvVar("MOD_NAME", mod),
                           EnvVar("FUNC_TIMEOUT", if w.timeout == "" then "180" else w.timeout),
                           EnvVar("FUNC_RUNTIME", w.code.runtime), EnvVar("FUNC_MEMORY_LIMIT", MemoryLimit(user.resources))]
            && pod.containers[0].image ==
               (if user.image != "" then user.image else if prebuilt != "" then prebuilt else FunctionImage(cfg, w.code.runtime).value)
            && pod.containers[0].mounts == user.mounts + (if Replaced(w, prebuilt) then [Mount(w.name, "/kubeless", false)] else [])
  {
    var user := UserPod(w).containers[0];
    assert user.mounts + [] == user.mounts;
    if Replaced(w, prebuilt) {
      PopulatedShows(SetupOf(cfg, w, listing), UserPod(w));
    }
  }

  lemma FinishedContainer(cfg: Config, w: Workload, prebuilt: string, listing: Listing, pod: PodSpec)
    requires |pod.containers| > 0
    ensures var r := FinishedPod(cfg, w, pod, listing);
            && |r.containers| == |pod.containers| && r.containers[1..] == pod.containers[1..]
            && r.containers[0] == pod.containers[0].(name := w.name, ports := pod.containers[0].ports + [TargetPort(w.service)],
                                                     env := r.containers[0].env, probe := r.containers[0].probe)
            && pod.containers[0].env + [EnvVar("FUNC_PORT", Decimal(TargetPort(w.service)))] <= r.containers[0].env
            && r.containers[0].env == pod.containers[0].env + [EnvVar("FUNC_PORT", Decimal(TargetPort(w.service)))] +
                                      RuntimeEnv(cfg, w.code.runtime, listing)
  {
  }

  /** The runtime's own entries: the volume the code is in, and those of the runtime phase. */
  lemma RuntimeEntries(cfg: Config, w: Workload, prebuilt: string, listing: Listing, version: RuntimeVersion, image: Image)
    requires DesiredPod(cfg, w, prebuilt, listing).Ok?
    requires FindRuntimeVersion(cfg.table, w.code.runtime) == Some(version) && FindImage("runtime", version.images) == Some(image)
    ensures var env := DesiredPod(cfg, w, prebuilt, listing).value.containers[0].env;
            var own := [EnvVar("KUBELESS_INSTALL_VOLUME", "/kubeless")] + listing(image.env);
            |own| <= |env| && env[|env| - |own|..] == own
  {
    var pod := CodePod(cfg, w, prebuilt, listing).value;
    FinishedContainer(cfg, w, prebuilt, listing, pod);
  }

  // ---- the port ----

  /** The service sends to the port the container declares and is told, where it is probed and scraped; by default
      that is 8080 on both sides. */
  lemma ServiceReachesContainer(cfg: Config, f: FunctionObj, prebuilt: string, listing: Listing)
    requires DesiredPod(cfg, WorkloadOf(f), prebuilt, listing).Ok?
    ensures var c := DesiredPod(cfg, WorkloadOf(f), prebuilt, listing).value.containers[0];
            var ports := DesiredService(f).spec.ports;
            && ports != [] && c.ports != [] && c.ports[|c.ports| - 1] == ports[0].targetPort
            && EnvVar("FUNC_PORT", Decimal(ports[0].targetPort)) in c.env
            && PodAnnotations(f)["prometheus.io/port"] == Decimal(ports[0].targetPort)
            && (f.service.ports == [] ==> ports == [Port("http-function-port", 8080, 8080)])
            && (f.service.ports != [] ==> DesiredService(f).spec == f.service)
  {
    var pod := CodePod(cfg, WorkloadOf(f), prebuilt, listing).value;
    FinishedContainer(cfg, WorkloadOf(f), prebuilt, listing, pod);
    var env := FinishedPod(cfg, WorkloadOf(f), pod, listing).containers[0].env;
    assert env[|pod.containers[0].env|] == EnvVar("FUNC_PORT", Decimal(TargetPort(f.service)));
  }

  /** A container without a probe of its own gets the runtime's, or asks for /healthz on that port. */
  lemma Probed(cfg: Config, w: Workload, prebuilt: string, listing: Listing)
    requires DesiredPod(cfg, w, prebuilt, listing).Ok? && UserPod(w).containers[0].probe.None?
    ensures var probe := DesiredPod(cfg, w, prebuilt, listing).value.containers[0].probe;
            var entry := ProbeEntry(cfg.table, w.code.runtime);
            && (entry.Some? && entry.value.probe.Some? ==> probe == entry.value.probe)
            && (entry.None? || entry.value.probe.None? ==> probe == Some("http /healthz " + Decimal(TargetPort(w.service))))
  {
    CodeProbe(cfg, w, prebuilt, listing);
  }

  lemma CodeProbe(cfg: Config, w: Workload, prebuilt: string, listing: Listing)
    requires CodePod(cfg, w, prebuilt, listing).Ok?
    ensures CodePod(cfg, w, prebuilt, listing).value.containers[0].probe == UserPod(w).containers[0].probe
  {
    if Replaced(w, prebuilt) {
      PopulatedShows(SetupOf(cfg, w, listing), UserPod(w));
    }
  }

  // ---- the Deployment around the pod ----

  /** The value under k when later maps win over earlier ones. */
  function Winner(a: Labels, b: Labels, k: string): (r: Option<string>) {
    if k in b then Some(b[k]) else if k in a then Some(a[k]) else None
  }

  function At(m: Labels, k: string): (r: Option<string>) { if k in m then Some(m[k]) else None }

  /** Labels and annotations of the Function win over those of its template, on the Deployment and on the pods; the
      marks of the controller and of Prometheus win over both. */
  lemma DeploymentMeta(f: FunctionObj, pod: PodSpec, k: string)
    ensures var d := Assembled(f, Marked(f), pod);
            && d.owner == f.uid && d.replicas == f.deployment.replicas && d.pod == pod
            && (k != "created-by" && k != "function" ==>
                  && At(d.labels, k) == Winner(f.deployment.labels, f.labels, k)
                  && At(d.templateLabels, k) == Winner(f.deployment.templateLabels, f.labels, k))
            && At(d.templateLabels, "function") == At(d.labels, "function") == Some(f.name)
            && At(d.templateLabels, "created-by") == At(d.labels, "created-by") == Some("kubeless")
            && At(d.annotations, k) == Winner(f.deployment.annotations, f.annotations, k)
            && (k != "prometheus.io/scrape" && k != "prometheus.io/path" && k != "prometheus.io/port" ==>
                  At(d.templateAnnotations, k) == Winner(f.deployment.templateAnnotations, f.annotations, k))
            && At(d.templateAnnotations, "prometheus.io/scrape") == Some("true")
            && At(d.templateAnnotations, "prometheus.io/path") == Some("/metrics")
            && At(d.templateAnnotations, "prometheus.io/port") == Some(Decimal(TargetPort(f.service)))
  {
    LabelMeta(f, k);
    AnnotationMeta(f, k);
  }

  lemma LabelMeta(f: FunctionObj, k: string)
    ensures var labels := (f.deployment.labels + Marked(f))["created-by" := "kubeless"];
            var template := f.deployment.templateLabels + Marked(f);
            && (k != "created-by" && k != "function" ==>
                  At(labels, k) == Winner(f.deployment.labels, f.labels, k) && At(template, k) == Winner(f.deployment.templateLabels, f.labels, k))
            && At(template, "function") == At(labels, "function") == Some(f.name)
            && At(template, "created-by") == At(labels, "created-by") == Some("kubeless")
  {
  }

  lemma AnnotationMeta(f: FunctionObj, k: string)
    ensures var template := f.deployment.templateAnnotations + f.annotations + PodAnnotations(f);
            && At(f.deployment.annotations + f.annotations, k) == Winner(f.deployment.annotations, f.annotations, k)
            && (k != "prometheus.io/scrape" && k != "prometheus.io/path" && k != "prometheus.io/port" ==>
                  At(template, k) == Winner(f.deployment.templateAnnotations, f.annotations, k))
            && At(template, "prometheus.io/scrape") == Some("true") && At(template, "prometheus.io/path") == Some("/metrics")
            && At(template, "prometheus.io/port") == Some(Decimal(TargetPort(f.service)))
  {
  }

  /** A pod without them gets the user 1000 and keeps away from others of its function. */
  lemma PodDefaults(cfg: Config, w: Workload, prebuilt: string, listing: Listing)
    requires DesiredPod(cfg, w, prebuilt, listing).Ok?
    ensures var pod := DesiredPod(cfg, w, prebuilt, listing).value;
            && pod.securityContext == Some(if w.pod.securityContext.Some? then w.pod.securityContext.value else "1000")
            && pod.affinity == Some(if w.pod.affinity.Some? then w.pod.affinity.value else "anti-affinity " + w.name)
  {
    CodeDefaults(cfg, w, prebuilt, listing);
  }

  lemma CodeDefaults(cfg: Config, w: Workload, prebuilt: string, listing: Listing)
    requires CodePod(cfg, w, prebuilt, listing).Ok?
    ensures var pod := CodePod(cfg, w, prebuilt, listing).value;
            pod.securityContext == w.pod.securityContext && pod.affinity == w.pod.affinity
  {
  }
}

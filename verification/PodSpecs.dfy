/** The pod-spec compiler: populatePodSpec of pkg/utils/kubelessutil.go and the build, compilation and secret
    lookups of pkg/langruntime/langruntime.go it relies on. */
module PodSpecs {
  import opened Common
  import opened Strings
  import opened Quantities
  import opened Runtimes
  import opened Provision

  datatype EnvVar = EnvVar(name: string, value: string)

  datatype Mount = Mount(name: string, path: string, readOnly: bool)

  datatype VolumeSource = EmptyDir(sizeLimit: Option<Quantity>) | FromConfigMap(configMap: string) | FromSecret(secret: string) | OtherSource(text: string)

  datatype Volume = Volume(name: string, source: VolumeSource)

  datatype Container = Container(name: string, image: string, args: string, env: seq<EnvVar>, mounts: seq<Mount>,
                                 ports: seq<int>, resources: Demand, probe: Option<string>, workingDir: string)

  const EMPTY_CONTAINER := Container("", "", "", [], [], [], NO_DEMAND, None, "")

  datatype PodSpec = PodSpec(volumes: seq<Volume>, initContainers: seq<Container>, containers: seq<Container>,
                             pullSecrets: seq<string>, securityContext: Option<string>, affinity: Option<string>)

  const SECRETS_PATH := "/var/run/secrets/kubeless.io"

  // ---- environment of a runtime phase ----

  /** A Go map is ranged over in any order. */
  type Listing = map<string, string> -> seq<EnvVar>

  ghost predicate Lists(listing: Listing) {
    forall m :: multiset(listing(m)) == multiset(set k | k in m :: EnvVar(k, m[k]))
  }

  function RuntimeMount(name: string): (r: Mount) { Mount(name, "/kubeless", false) }

  function PathJoin(dir: string, name: string): (r: string) { if name == "" then dir else dir + "/" + name }

  // ---- langruntime helpers ----

  /** GetBuildContainer: None when the runtime has no installation phase. */
  function BuildContainer(table: Table, runtime: string, depsChecksum: string, env: seq<EnvVar>, install: Mount,
                          resources: Demand, listing: Listing): (r: Result<Option<Container>>)
    ensures r.Ok? && r.value.Some? ==> r.value.value.name == "install" && r.value.value.mounts == [install]
  {
    match (GetRuntimeInfo(table, runtime), FindRuntimeVersion(table, runtime))
    case (Some(info), Some(version)) =>
      var depsFile := PathJoin(install.path, info.depName);
      var sums := "/tmp/deps.sha256";
      (match FindImage(PHASE_INSTALLATION, version.images)
       case None => Ok(None)
       case Some(image) =>
         var command :=
           if depsChecksum != "" then
             AppendToCommand("", ["echo '" + depsChecksum + "  " + depsFile + "' > " + sums,
                                  "sha256sum -c " + sums, image.command])
           else AppendToCommand("", [image.command]);
         Ok(Some(Container("install", image.image, command,
                           env + [EnvVar("KUBELESS_INSTALL_VOLUME", install.path), EnvVar("KUBELESS_DEPS_FILE", depsFile)]
                               + listing(image.env),
                           [install], [], resources, None, install.path))))
    case _ => Error
  }

  /** GetCompilationContainer: None when the runtime has no compilation phase. */
  function CompilationContainer(table: Table, runtime: string, funcName: string, env: seq<EnvVar>, install: Mount,
                                resources: Demand, listing: Listing): (r: Result<Option<Container>>)
    ensures r.Ok? && r.value.Some? ==> r.value.value.name == "compile" && r.value.value.mounts == [install]
  {
    match FindRuntimeVersion(table, runtime)
    case None => Error
    case Some(version) =>
      match FindImage(PHASE_COMPILATION, version.images)
      case None => Ok(None)
      case Some(image) =>
        Ok(Some(Container("compile", image.image, image.command,
                          env + [EnvVar("KUBELESS_INSTALL_VOLUME", install.path), EnvVar("KUBELESS_FUNC_NAME", funcName)]
                              + listing(image.env),
                          [install], [], resources, None, install.path)))
  }

  function PhaseOf(container: string): (r: string) {
    if container == "compile" then PHASE_COMPILATION
    else if container == "install" then PHASE_INSTALLATION
    else container
  }

  /** GetInitContainerSecrets */
  function InitSecrets(table: Table, runtime: string, container: string): (r: Result<seq<string>>) {
    match FindRuntimeVersion(table, runtime)
    case None => Error
    case Some(version) =>
      match FindImage(PhaseOf(container), version.images)
      case None => Ok([])
      case Some(image) => Ok(image.secrets)
  }

  // ---- secret volumes ----

  function FindVolume(vols: seq<Volume>, name: string): (r: Option<Volume>) {
    if vols == [] then None else if vols[0].name == name then Some(vols[0]) else FindVolume(vols[1..], name)
  }

  /** Adds the volume of one secret unless it is there; another volume of that name is an error. */
  function WithSecret(vols: seq<Volume>, secret: string): (r: Result<seq<Volume>>) {
    match FindVolume(vols, secret)
    case None => Ok(vols + [Volume(secret, FromSecret(secret))])
    case Some(v) => if v.source == FromSecret(secret) then Ok(vols) else Error
  }

  function WithSecrets(vols: seq<Volume>, secrets: seq<string>): (r: Result<seq<Volume>>) {
    if secrets == [] then Ok(vols)
    else match WithSecrets(vols, secrets[..|secrets| - 1])
         case Ok(vs) => WithSecret(vs, secrets[|secrets| - 1])
         case other => other
  }

  function SecretMount(secret: string): (r: Mount) { Mount(secret, SECRETS_PATH + "/" + secret, true) }

  function SecretMounts(secrets: seq<string>): (r: seq<Mount>) {
    seq(|secrets|, i requires 0 <= i < |secrets| => SecretMount(secrets[i]))
  }

  datatype Mounted = Mounted(volumes: seq<Volume>, inits: seq<Container>)

  /** Volumes and mounts of the secrets of init container i. */
  function MountOne(table: Table, runtime: string, m: Mounted, i: nat): (r: Result<Mounted>)
    requires i < |m.inits|
    ensures r.Ok? ==> |r.value.inits| == |m.inits| && forall j :: 0 <= j < |m.inits| && j != i ==> r.value.inits[j] == m.inits[j]
  {
    match InitSecrets(table, runtime, m.inits[i].name)
    case Ok(secrets) =>
      (match WithSecrets(m.volumes, secrets)
       case Ok(vs) => Ok(Mounted(vs, m.inits[i := m.inits[i].(mounts := m.inits[i].mounts + SecretMounts(secrets))]))
       case _ => Error)
    case _ => Error
  }

  /** The final loop, from init container i on. */
  function MountFrom(table: Table, runtime: string, m: Mounted, i: nat): (r: Result<Mounted>)
    requires i <= |m.inits|
    ensures r.Ok? ==> |r.value.inits| == |m.inits|
    decreases |m.inits| - i
  {
    if i == |m.inits| then Ok(m)
    else match MountOne(table, runtime, m, i)
         case Ok(next) => MountFrom(table, runtime, next, i + 1)
         case _ => Error
  }

  // ---- populatePodSpec ----

  /** What populatePodSpec reads besides the pod spec: the function's name and code, the runtime table, the
      controller's images and secrets, the resources of the user's first init container, a hash, and the
      order in which env maps are ranged over. */
  datatype Setup = Setup(name: string, code: Code, table: Table, provisionImage: string, secrets: seq<string>,
                         initResources: Demand, sha256: string -> string, listing: Listing)

  function DepsVolume(name: string): (r: string) { name + "-deps" }

  /** The volumes before secrets are added. */
  function BaseVolumes(u: Setup, pod: PodSpec): (r: seq<Volume>) {
    pod.volumes + [Volume(u.name, EmptyDir(None)), Volume(DepsVolume(u.name), FromConfigMap(u.name))]
  }

  function UserEnv(pod: PodSpec): (r: seq<EnvVar>) { if |pod.containers| > 0 then pod.containers[0].env else [] }

  /** The prepare container, when there is code. */
  function PrepareInit(u: Setup, pod: PodSpec): (r: Result<seq<Container>>) {
    if u.code.source == "" then Ok(pod.initContainers)
    else
      match FileName(u.code, u.table)
      case None => Error
      case Some(file) =>
        match ProvisionCommands(u.code, file, u.table)
        case Ok(commands) =>
          Ok([Container("prepare", u.provisionImage, JoinCommands(RenderAll(commands)), [],
                        [RuntimeMount(u.name), Mount(DepsVolume(u.name), "/src", false)], [], u.initResources, None, "")])
        case Error => Error
        case Panic => Panic
  }

  predicate HasDeps(c: Code) { c.deps != "" || Contains(c.contentType, "deps") }

  /** The install container, when there are dependencies to install. */
  function InstallInit(u: Setup, env: seq<EnvVar>): (r: Result<Option<Container>>) {
    if !HasDeps(u.code) then Ok(None)
    else if GetRuntimeInfo(u.table, u.code.runtime).None? then Error
    else BuildContainer(u.table, u.code.runtime, if u.code.deps != "" then u.sha256(u.code.deps) else "", env,
                        RuntimeMount(u.name), u.initResources, u.listing)
  }

  function CompileInit(u: Setup, env: seq<EnvVar>): (r: Result<Option<Container>>) {
    CompilationContainer(u.table, u.code.runtime,
                         match SplitHandler(u.code.handler) case Some((_, f)) => f case None => "",
                         env, RuntimeMount(u.name), u.initResources, u.listing)
  }

  function OptSeq(c: Option<Container>): (r: seq<Container>) { match c case Some(x) => [x] case None => [] }

  function PullSecrets(u: Setup, pod: PodSpec): (r: Result<seq<string>>) {
    var base := if |u.secrets| > 0 then u.secrets else pod.pullSecrets;
    if u.code.runtime == "" then Ok(base)
    else match FindRuntimeVersion(u.table, u.code.runtime)
         case None => Error
         case Some(version) => Ok(base + version.pullSecrets)
  }

  /** The init containers before secrets are mounted. */
  function Inits(u: Setup, pod: PodSpec): (r: Result<seq<Container>>) {
    match (PrepareInit(u, pod), InstallInit(u, UserEnv(pod)), CompileInit(u, UserEnv(pod)))
    case (Ok(prepare), Ok(install), Ok(compile)) => Ok(prepare + OptSeq(install) + OptSeq(compile))
    case (Panic, _, _) => Panic
    case _ => Error
  }

  /** The populated pod spec, or the error. */
  function Populated(u: Setup, pod: PodSpec): (r: Result<PodSpec>) {
    match (Inits(u, pod), PullSecrets(u, pod))
    case (Ok(inits), Ok(pulls)) =>
      (match MountFrom(u.table, u.code.runtime, Mounted(BaseVolumes(u, pod), inits), 0)
       case Ok(m) => Ok(pod.(volumes := m.volumes, initContainers := m.inits, pullSecrets := pulls))
       case _ => Error)
    case (Panic, _) => Panic
    case _ => Error
  }

  /** A pod spec as populatePodSpec mutates it. */
  class Pod {
    var volumes: seq<Volume>
    var initContainers: seq<Container>
    var containers: seq<Container>
    var pullSecrets: seq<string>
    const securityContext: Option<string>
    const affinity: Option<string>

    constructor (p: PodSpec)
      ensures Value() == p
    {
      volumes := p.volumes;
      initContainers := p.initContainers;
      containers := p.containers;
      pullSecrets := p.pullSecrets;
      securityContext := p.securityContext;
      affinity := p.affinity;
    }

    ghost function Value(): (p: PodSpec)
      reads this
    {
      PodSpec(volumes, initContainers, containers, pullSecrets, securityContext, affinity)
    }

    /** The inner search for one secret's volume. */
    method AddSecretVolume(secret: string) returns (ok: bool)
      modifies this`volumes
      ensures ok <==> WithSecret(old(volumes), secret).Ok?
      ensures ok ==> volumes == WithSecret(old(volumes), secret).value
    {
      var i := 0;
      while i < |volumes|
        invariant 0 <= i <= |volumes| && volumes == old(volumes)
        invariant FindVolume(volumes, secret) == FindVolume(volumes[i..], secret)
      {
        if volumes[i].name == secret && volumes[i].source != FromSecret(secret) {
          return false;
        }
        if volumes[i].name == secret && volumes[i].source == FromSecret(secret) {
          return true;
        }
        i := i + 1;
      }
      volumes := volumes + [Volume(secret, FromSecret(secret))];
      return true;
    }

    /** Volumes and mounts of the secrets of one init container. */
    method MountSecretsOf(i: nat, secrets: seq<string>) returns (ok: bool)
      requires i < |initContainers|
      modifies this`volumes, this`initContainers
      ensures ok <==> WithSecrets(old(volumes), secrets).Ok?
      ensures ok ==> volumes == WithSecrets(old(volumes), secrets).value
      ensures ok ==> initContainers == old(initContainers)[i := old(initContainers)[i].(mounts := old(initContainers)[i].mounts + SecretMounts(secrets))]
    {
      ghost var vols, c0 := volumes, initContainers[i];
      assert c0.mounts + SecretMounts(secrets[..0]) == c0.mounts;
      var j := 0;
      while j < |secrets|
        invariant 0 <= j <= |secrets|
        invariant WithSecrets(vols, secrets[..j]) == Ok(volumes)
        invariant initContainers == old(initContainers)[i := c0.(mounts := c0.mounts + SecretMounts(secrets[..j]))]
      {
        assert secrets[..j + 1][..j] == secrets[..j];
        ok := AddSecretVolume(secrets[j]);
        if !ok {
          SecretsFail(vols, secrets, j + 1);
          return false;
        }
        var c := initContainers[i];
        initContainers := initContainers[i := c.(mounts := c.mounts + [SecretMount(secrets[j])])];
        assert c0.mounts + SecretMounts(secrets[..j + 1]) == c.mounts + [SecretMount(secrets[j])];
        j := j + 1;
      }
      assert secrets[..j] == secrets;
      return true;
    }

    method MountInit(table: Table, runtime: string, i: nat) returns (ok: bool)
      requires i < |initContainers|
      modifies this`volumes, this`initContainers
      ensures var r := MountOne(table, runtime, old(Mounted(volumes, initContainers)), i);
              ok == r.Ok? && (ok ==> r.value == Mounted(volumes, initContainers))
    {
      var secrets := InitSecrets(table, runtime, initContainers[i].name);
      if !secrets.Ok? {
        return false;
      }
      ok := MountSecretsOf(i, secrets.value);
    }

    /** The last part of populatePodSpec: for each init container, volumes and mounts of its secrets. */
    method MountSecrets(table: Table, runtime: string) returns (ok: bool)
      modifies this`volumes, this`initContainers
      ensures var r := MountFrom(table, runtime, old(Mounted(volumes, initContainers)), 0);
              ok == r.Ok? && (ok ==> r.value == Mounted(volumes, initContainers))
    {
      ghost var r := MountFrom(table, runtime, Mounted(volumes, initContainers), 0);
      var i := 0;
      while i < |initContainers|
        invariant 0 <= i <= |initContainers|
        invariant r == MountFrom(table, runtime, Mounted(volumes, initContainers), i)
        decreases |initContainers| - i
      {
        ok := MountInit(table, runtime, i);
        if !ok {
          return false;
        }
        i := i + 1;
      }
      return true;
    }

    method AddPrepare(u: Setup) returns (r: Result<()>)
      modifies this`initContainers
      ensures match PrepareInit(u, old(Value()))
              case Ok(inits) => r.Ok? && initContainers == inits
              case Error => r.Error?
              case Panic => r.Panic?
    {
      if u.code.source != "" {
        var file := FileName(u.code, u.table);
        if file.None? {
          return Error;
        }
        var commands, text := GetProvisionContainer(u.code, file.value, u.table);
        if !commands.Ok? {
          return if commands.Panic? then Panic else Error;
        }
        initContainers := [Container("prepare", u.provisionImage, text, [],
                                     [RuntimeMount(u.name), Mount(DepsVolume(u.name), "/src", false)],
                                     [], u.initResources, None, "")];
      }
      return Ok(());
    }

    method AddBuild(u: Setup) returns (ok: bool)
      modifies this`initContainers
      ensures var env := UserEnv(old(Value()));
              && (ok <==> InstallInit(u, env).Ok? && CompileInit(u, env).Ok?)
              && (ok ==> initContainers ==
                         old(initContainers) + OptSeq(InstallInit(u, env).value) + OptSeq(CompileInit(u, env).value))
    {
      var env := if |containers| > 0 then containers[0].env else [];
      var install := InstallInit(u, env);
      if !install.Ok? {
        return false;
      }
      initContainers := initContainers + OptSeq(install.value);
      var compile := CompileInit(u, env);
      if !compile.Ok? {
        return false;
      }
      initContainers := initContainers + OptSeq(compile.value);
      return true;
    }

    method Populate(u: Setup) returns (r: Result<()>)
      modifies this
      ensures r.Ok? <==> Populated(u, old(Value())).Ok?
      ensures r.Panic? <==> Populated(u, old(Value())).Panic?
      ensures r.Ok? ==> Value() == Populated(u, old(Value())).value
    {
      if |u.secrets| > 0 {
        pullSecrets := u.secrets;
      }
      volumes := volumes + [Volume(u.name, EmptyDir(None)), Volume(DepsVolume(u.name), FromConfigMap(u.name))];
      r := AddPrepare(u);
      if !r.Ok? {
        return;
      }
      if u.code.runtime != "" {
        var version := FindRuntimeVersion(u.table, u.code.runtime);
        if version.None? {
          return Error;
        }
        pullSecrets := pullSecrets + version.value.pullSecrets;
      }
      var ok := AddBuild(u);
      if !ok {
        return Error;
      }
      assert Inits(u, old(Value())) == Ok(initContainers);
      ok := MountSecrets(u.table, u.code.runtime);
      return if ok then Ok(()) else Error;
    }
  }

  lemma {:induction false} SecretsFail(vols: seq<Volume>, secrets: seq<string>, j: nat)
    requires j <= |secrets| && !WithSecrets(vols, secrets[..j]).Ok?
    ensures !WithSecrets(vols, secrets).Ok?
    decreases |secrets| - j
  {
    if j < |secrets| {
      assert secrets[..j + 1][..j] == secrets[..j];
      SecretsFail(vols, secrets, j + 1);
    } else {
      assert secrets[..j] == secrets;
    }
  }

  lemma {:induction false} SecretsExtend(vols: seq<Volume>, secrets: seq<string>)
    requires WithSecrets(vols, secrets).Ok?
    ensures vols <= WithSecrets(vols, secrets).value
  {
    if secrets != [] {
      SecretsExtend(vols, secrets[..|secrets| - 1]);
    }
  }

  /** r adds volumes and mounts to m, and changes nothing else. */
  ghost predicate Extends(m: Mounted, r: Mounted) {
    && m.volumes <= r.volumes && |r.inits| == |m.inits|
    && forall j :: 0 <= j < |m.inits| ==>
         r.inits[j] == m.inits[j].(mounts := r.inits[j].mounts) && m.inits[j].mounts <= r.inits[j].mounts
  }

  lemma MountOneExtends(table: Table, runtime: string, m: Mounted, i: nat)
    requires i < |m.inits| && MountOne(table, runtime, m, i).Ok?
    ensures Extends(m, MountOne(table, runtime, m, i).value)
  {
    SecretsExtend(m.volumes, InitSecrets(table, runtime, m.inits[i].name).value);
  }

  lemma {:induction false} MountFromExtends(table: Table, runtime: string, m: Mounted, i: nat)
    requires i <= |m.inits| && MountFrom(table, runtime, m, i).Ok?
    ensures Extends(m, MountFrom(table, runtime, m, i).value)
    decreases |m.inits| - i
  {
    if i < |m.inits| {
      MountOneExtends(table, runtime, m, i);
      MountFromExtends(table, runtime, MountOne(table, runtime, m, i).value, i + 1);
    }
  }

  // ---- closure ----

  ghost predicate Distinct(vols: seq<Volume>) {
    forall i, j :: 0 <= i < j < |vols| ==> vols[i].name != vols[j].name
  }

  predicate Named(vols: seq<Volume>, name: string) {
    exists i :: 0 <= i < |vols| && vols[i].name == name
  }

  ghost predicate Closed(vols: seq<Volume>, c: Container) {
    forall i :: 0 <= i < |c.mounts| ==> Named(vols, c.mounts[i].name)
  }

  /** The secret has exactly one volume, and it is the secret's. */
  ghost predicate HasSecret(vols: seq<Volume>, secret: string) {
    exists i :: 0 <= i < |vols| && vols[i] == Volume(secret, FromSecret(secret)) &&
                forall j :: 0 <= j < |vols| && vols[j].name == secret ==> j == i
  }

  /** Every one of the secrets has. */
  ghost predicate HasSecrets(vols: seq<Volume>, secrets: seq<string>) {
    forall k :: 0 <= k < |secrets| ==> HasSecret(vols, secrets[k])
  }

  lemma SecretsStay(vols: seq<Volume>, vs: seq<Volume>, secrets: seq<string>)
    requires vols <= vs && Distinct(vs) && HasSecrets(vols, secrets)
    ensures HasSecrets(vs, secrets)
  {
    forall k | 0 <= k < |secrets|
      ensures HasSecret(vs, secrets[k])
    {
      SecretStays(vols, vs, secrets[k]);
    }
  }

  lemma {:induction false} FindVolumeSpec(vols: seq<Volume>, name: string)
    ensures FindVolume(vols, name).None? <==> !Named(vols, name)
    ensures FindVolume(vols, name).Some? ==> FindVolume(vols, name).value in vols && FindVolume(vols, name).value.name == name
  {
    if vols != [] && vols[0].name != name {
      FindVolumeSpec(vols[1..], name);
      if i :| 0 <= i < |vols| && vols[i].name == name {
        assert vols[1..][i - 1].name == name;
      }
      if i :| 0 <= i < |vols[1..]| && vols[1..][i].name == name {
        assert vols[i + 1].name == name;
      }
    }
  }

  lemma OneSecret(vols: seq<Volume>, secret: string)
    requires Distinct(vols) && WithSecret(vols, secret).Ok?
    ensures var vs := WithSecret(vols, secret).value; vols <= vs && Distinct(vs) && HasSecret(vs, secret)
  {
    FindVolumeSpec(vols, secret);
    var vs := WithSecret(vols, secret).value;
    if FindVolume(vols, secret).None? {
      assert vs[|vols|] == Volume(secret, FromSecret(secret));
    } else {
      var i :| 0 <= i < |vols| && vols[i] == FindVolume(vols, secret).value;
      assert vs[i] == Volume(secret, FromSecret(secret));
    }
  }

  lemma SecretStays(vols: seq<Volume>, vs: seq<Volume>, secret: string)
    requires vols <= vs && Distinct(vs) && HasSecret(vols, secret)
    ensures HasSecret(vs, secret)
  {
    var i :| 0 <= i < |vols| && vols[i] == Volume(secret, FromSecret(secret));
    assert vs[i] == vols[i];
  }

  lemma NamedStays(vols: seq<Volume>, vs: seq<Volume>, name: string)
    requires vols <= vs && Named(vols, name)
    ensures Named(vs, name)
  {
    var i :| 0 <= i < |vols| && vols[i].name == name;
    assert vs[i] == vols[i];
  }

  lemma {:induction false} AllSecrets(vols: seq<Volume>, secrets: seq<string>)
    requires Distinct(vols) && WithSecrets(vols, secrets).Ok?
    ensures var vs := WithSecrets(vols, secrets).value;
            vols <= vs && Distinct(vs) && HasSecrets(vs, secrets)
  {
    if secrets != [] {
      var n := |secrets| - 1;
      AllSecrets(vols, secrets[..n]);
      var mid := WithSecrets(vols, secrets[..n]).value;
      OneSecret(mid, secrets[n]);
      var vs := WithSecrets(vols, secrets).value;
      SecretsStay(mid, vs, secrets[..n]);
      LastSecret(vs, secrets);
    }
  }

  lemma LastSecret(vols: seq<Volume>, secrets: seq<string>)
    requires secrets != [] && HasSecrets(vols, secrets[..|secrets| - 1]) && HasSecret(vols, secrets[|secrets| - 1])
    ensures HasSecrets(vols, secrets)
  {
    forall k | 0 <= k < |secrets|
      ensures HasSecret(vols, secrets[k])
    {
      if k < |secrets| - 1 {
        assert secrets[..|secrets| - 1][k] == secrets[k];
      }
    }
  }

  /** The secrets an init container needs. */
  function SecretsOf(table: Table, runtime: string, c: Container): (r: seq<string>) {
    match InitSecrets(table, runtime, c.name) case Ok(s) => s case _ => []
  }

  function NeedsOf(table: Table, runtime: string, inits: seq<Container>): (r: seq<seq<string>>) {
    seq(|inits|, i requires 0 <= i < |inits| => SecretsOf(table, runtime, inits[i]))
  }

  /** The guarantee for the first n init containers, given the secrets each needs. */
  ghost predicate MountedOk(needs: seq<seq<string>>, vols: seq<Volume>, inits: seq<Container>, m: Mounted, n: nat)
    requires n <= |needs| == |inits| == |m.inits|
  {
    && vols <= m.volumes && Distinct(m.volumes)
    && (forall i :: 0 <= i < |inits| ==> m.inits[i] == inits[i].(mounts := m.inits[i].mounts))
    && (forall i :: 0 <= i < |inits| ==> Closed(m.volumes, m.inits[i]))
    && (forall i :: 0 <= i < n ==> HasSecrets(m.volumes, needs[i]))
  }

  lemma ClosedStays(vols: seq<Volume>, vs: seq<Volume>, c: Container)
    requires vols <= vs && Closed(vols, c)
    ensures Closed(vs, c)
  {
    forall i | 0 <= i < |c.mounts|
      ensures Named(vs, c.mounts[i].name)
    {
      NamedStays(vols, vs, c.mounts[i].name);
    }
  }

  lemma ClosedWithSecrets(vols: seq<Volume>, c: Container, secrets: seq<string>)
    requires Closed(vols, c) && HasSecrets(vols, secrets)
    ensures Closed(vols, c.(mounts := c.mounts + SecretMounts(secrets)))
  {
    var ms := c.mounts + SecretMounts(secrets);
    forall i | 0 <= i < |ms|
      ensures Named(vols, ms[i].name)
    {
      if i >= |c.mounts| {
        assert HasSecret(vols, secrets[i - |c.mounts|]);
      }
    }
  }

  lemma {:induction false} MountFromOk(table: Table, runtime: string, vols: seq<Volume>, inits: seq<Container>, m: Mounted, i: nat)
    requires i <= |inits| == |m.inits| && MountedOk(NeedsOf(table, runtime, inits), vols, inits, m, i)
    requires MountFrom(table, runtime, m, i).Ok?
    ensures MountedOk(NeedsOf(table, runtime, inits), vols, inits, MountFrom(table, runtime, m, i).value, |inits|)
    decreases |inits| - i
  {
    if i < |inits| {
      MountOneOk(table, runtime, NeedsOf(table, runtime, inits), vols, inits, m, i);
      MountFromOk(table, runtime, vols, inits, MountOne(table, runtime, m, i).value, i + 1);
    }
  }

  lemma MountOneOk(table: Table, runtime: string, needs: seq<seq<string>>, vols: seq<Volume>, inits: seq<Container>, m: Mounted, i: nat)
    requires i < |needs| == |inits| == |m.inits| && MountedOk(needs, vols, inits, m, i)
    requires needs[i] == SecretsOf(table, runtime, inits[i]) && MountOne(table, runtime, m, i).Ok?
    ensures MountedOk(needs, vols, inits, MountOne(table, runtime, m, i).value, i + 1)
  {
    assert m.inits[i].name == inits[i].name;
    MountedNext(needs, vols, inits, i + 1, m, MountOne(table, runtime, m, i).value.volumes);
  }

  lemma MountedNext(needs: seq<seq<string>>, vols: seq<Volume>, inits: seq<Container>, n: nat, m: Mounted, vs: seq<Volume>)
    requires 0 < n <= |needs| == |inits| == |m.inits| && MountedOk(needs, vols, inits, m, n - 1)
    requires WithSecrets(m.volumes, needs[n - 1]) == Ok(vs)
    ensures var c := m.inits[n - 1];
            MountedOk(needs, vols, inits, Mounted(vs, m.inits[n - 1 := c.(mounts := c.mounts + SecretMounts(needs[n - 1]))]), n)
  {
    var secrets := needs[n - 1];
    var c := m.inits[n - 1];
    var r := Mounted(vs, m.inits[n - 1 := c.(mounts := c.mounts + SecretMounts(secrets))]);
    AllSecrets(m.volumes, secrets);
    ClosedNext(m.volumes, m.inits, n - 1, secrets, vs);
    forall i | 0 <= i < n
      ensures HasSecrets(r.volumes, needs[i])
    {
      if i < n - 1 {
        SecretsStay(m.volumes, r.volumes, needs[i]);
      }
    }
  }

  lemma ClosedNext(vols: seq<Volume>, inits: seq<Container>, i: nat, secrets: seq<string>, vs: seq<Volume>)
    requires i < |inits| && vols <= vs && HasSecrets(vs, secrets)
    requires forall j :: 0 <= j < |inits| ==> Closed(vols, inits[j])
    ensures var cs := inits[i := inits[i].(mounts := inits[i].mounts + SecretMounts(secrets))];
            forall j :: 0 <= j < |cs| ==> Closed(vs, cs[j])
  {
    var cs := inits[i := inits[i].(mounts := inits[i].mounts + SecretMounts(secrets))];
    forall j | 0 <= j < |cs|
      ensures Closed(vs, cs[j])
    {
      ClosedStays(vols, vs, inits[j]);
      if j == i {
        ClosedWithSecrets(vs, inits[j], secrets);
      }
    }
  }

  lemma BaseDistinct(u: Setup, pod: PodSpec)
    requires Distinct(pod.volumes) && !Named(pod.volumes, u.name) && !Named(pod.volumes, DepsVolume(u.name))
    ensures Distinct(BaseVolumes(u, pod))
    ensures Named(BaseVolumes(u, pod), u.name) && Named(BaseVolumes(u, pod), DepsVolume(u.name))
  {
    assert |DepsVolume(u.name)| != |u.name|;
    var n := |pod.volumes|;
    assert BaseVolumes(u, pod)[n].name == u.name && BaseVolumes(u, pod)[n + 1].name == DepsVolume(u.name);
  }

  ghost predicate AllClosed(vols: seq<Volume>, cs: seq<Container>) {
    forall i :: 0 <= i < |cs| ==> Closed(vols, cs[i])
  }

  lemma InitsClosed(u: Setup, pod: PodSpec, vols: seq<Volume>)
    requires Inits(u, pod).Ok?
    requires Named(vols, u.name) && Named(vols, DepsVolume(u.name))
    requires u.code.source == "" ==> AllClosed(vols, pod.initContainers)
    ensures AllClosed(vols, Inits(u, pod).value)
  {
    var env := UserEnv(pod);
    var prepare, install, compile := PrepareInit(u, pod).value, InstallInit(u, env).value, CompileInit(u, env).value;
    PrepareClosed(u, pod, vols);
    GeneratedClosed(vols, install, u.name);
    GeneratedClosed(vols, compile, u.name);
    BothClosed(vols, prepare, OptSeq(install));
    BothClosed(vols, prepare + OptSeq(install), OptSeq(compile));
  }

  lemma PrepareClosed(u: Setup, pod: PodSpec, vols: seq<Volume>)
    requires PrepareInit(u, pod).Ok? && Named(vols, u.name) && Named(vols, DepsVolume(u.name))
    requires u.code.source == "" ==> AllClosed(vols, pod.initContainers)
    ensures AllClosed(vols, PrepareInit(u, pod).value)
  {
    if u.code.source != "" {
      PrepareMounts(u, pod);
    }
  }

  lemma BothClosed(vols: seq<Volume>, a: seq<Container>, b: seq<Container>)
    requires AllClosed(vols, a) && AllClosed(vols, b)
    ensures AllClosed(vols, a + b)
  {
  }

  lemma GeneratedClosed(vols: seq<Volume>, c: Option<Container>, name: string)
    requires Named(vols, name) && (c.Some? ==> c.value.mounts == [RuntimeMount(name)])
    ensures AllClosed(vols, OptSeq(c))
  {
  }

  lemma PrepareMounts(u: Setup, pod: PodSpec)
    requires u.code.source != "" && PrepareInit(u, pod).Ok?
    ensures forall c :: c in PrepareInit(u, pod).value ==>
              c.name == "prepare" && c.mounts == [RuntimeMount(u.name), Mount(DepsVolume(u.name), "/src", false)]
  {
  }

  /** Pod-spec closure. Given distinct incoming volume names that avoid the two generated ones (and, for a
      function without code, init containers of the user's whose mounts are closed), the populated spec has
      distinct volume names, the original volumes as a prefix, no dangling mount in any init container, and
      exactly one volume for each secret an init container needs. */
  lemma PopulatedClosed(u: Setup, pod: PodSpec)
    requires Distinct(pod.volumes) && !Named(pod.volumes, u.name) && !Named(pod.volumes, DepsVolume(u.name))
    requires u.code.source == "" ==> AllClosed(BaseVolumes(u, pod), pod.initContainers)
    ensures Populated(u, pod).Ok? ==>
            var r := Populated(u, pod).value;
            && pod.volumes <= r.volumes && Distinct(r.volumes)
            && AllClosed(r.volumes, r.initContainers)
            && (forall i :: 0 <= i < |r.initContainers| ==>
                  HasSecrets(r.volumes, SecretsOf(u.table, u.code.runtime, r.initContainers[i])))
  {
    if !Populated(u, pod).Ok? {
      return;
    }
    var vols, inits := BaseVolumes(u, pod), Inits(u, pod).value;
    BaseDistinct(u, pod);
    InitsClosed(u, pod, vols);
    MountFromOk(u.table, u.code.runtime, vols, inits, Mounted(vols, inits), 0);
    MountedClosed(u.table, u.code.runtime, vols, inits, MountFrom(u.table, u.code.runtime, Mounted(vols, inits), 0).value);
  }

  lemma MountedClosed(table: Table, runtime: string, vols: seq<Volume>, inits: seq<Container>, m: Mounted)
    requires |m.inits| == |inits| && MountedOk(NeedsOf(table, runtime, inits), vols, inits, m, |inits|)
    ensures forall i :: 0 <= i < |m.inits| ==> HasSecrets(m.volumes, SecretsOf(table, runtime, m.inits[i]))
  {
    forall i | 0 <= i < |m.inits|
      ensures HasSecrets(m.volumes, SecretsOf(table, runtime, m.inits[i]))
    {
      assert m.inits[i] == inits[i].(mounts := m.inits[i].mounts);
      assert HasSecrets(m.volumes, NeedsOf(table, runtime, inits)[i]);
    }
  }

  /** The container can read each of the secrets under the path functions look in. */
  ghost predicate MountsSecrets(c: Container, secrets: seq<string>) {
    forall k :: 0 <= k < |secrets| ==> Mount(secrets[k], "/var/run/secrets/kubeless.io/" + secrets[k], true) in c.mounts
  }

  lemma SecretsAppended(c: Container, secrets: seq<string>)
    ensures MountsSecrets(c.(mounts := c.mounts + SecretMounts(secrets)), secrets)
  {
    var ms := c.mounts + SecretMounts(secrets);
    forall k | 0 <= k < |secrets|
      ensures Mount(secrets[k], "/var/run/secrets/kubeless.io/" + secrets[k], true) in ms
    {
      assert ms[|c.mounts| + k] == SecretMount(secrets[k]);
      assert SECRETS_PATH + "/" + secrets[k] == "/var/run/secrets/kubeless.io/" + secrets[k];
    }
  }

  lemma MountsStayMounted(c: Container, d: Container, secrets: seq<string>)
    requires MountsSecrets(c, secrets) && c.mounts <= d.mounts
    ensures MountsSecrets(d, secrets)
  {
    forall k | 0 <= k < |secrets|
      ensures Mount(secrets[k], "/var/run/secrets/kubeless.io/" + secrets[k], true) in d.mounts
    {
      var m := Mount(secrets[k], "/var/run/secrets/kubeless.io/" + secrets[k], true);
      var j :| 0 <= j < |c.mounts| && c.mounts[j] == m;
      assert d.mounts[j] == m;
    }
  }

  lemma {:induction false} MountFromMounts(table: Table, runtime: string, m: Mounted, i: nat, j: nat)
    requires i <= j < |m.inits| && MountFrom(table, runtime, m, i).Ok?
    ensures var r := MountFrom(table, runtime, m, i).value.inits; |r| == |m.inits| && MountsSecrets(r[j], SecretsOf(table, runtime, m.inits[j]))
    decreases |m.inits| - i
  {
    var next := MountOne(table, runtime, m, i).value;
    if i < j {
      MountFromMounts(table, runtime, next, i + 1, j);
    } else {
      SecretsAppended(m.inits[i], InitSecrets(table, runtime, m.inits[i].name).value);
      MountFromExtends(table, runtime, next, i + 1);
      MountsStayMounted(next.inits[i], MountFrom(table, runtime, next, i + 1).value.inits[i], SecretsOf(table, runtime, m.inits[i]));
    }
  }

  /** Every init container mounts, read only, the secrets its phase of the runtime asks for. */
  lemma SecretsMounted(u: Setup, pod: PodSpec, i: nat)
    requires Populated(u, pod).Ok? && i < |Populated(u, pod).value.initContainers|
    ensures var c := Populated(u, pod).value.initContainers[i];
            MountsSecrets(c, SecretsOf(u.table, u.code.runtime, c))
  {
    var inits := Inits(u, pod).value;
    var m := Mounted(BaseVolumes(u, pod), inits);
    MountFromExtends(u.table, u.code.runtime, m, 0);
    MountFromMounts(u.table, u.code.runtime, m, 0, i);
    assert Populated(u, pod).value.initContainers[i].name == inits[i].name;
  }

  /** Which secrets those are: of the installation phase for the install container, of the compilation phase for
      the compile container. */
  lemma PhaseSecrets(table: Table, runtime: string, c: Container, version: RuntimeVersion)
    requires FindRuntimeVersion(table, runtime) == Some(version) && (c.name == "install" || c.name == "compile")
    ensures var phase := if c.name == "install" then "installation" else "compilation";
            SecretsOf(table, runtime, c) ==
            match FindImage(phase, version.images) case Some(image) => image.secrets case None => []
  {
  }
}

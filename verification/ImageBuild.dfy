/** The build step: startImageBuildJob of pkg/controller/function_controller.go and EnsureFuncImage of
    pkg/utils/kubelessutil.go, as far as they decide which image the Deployment gets and whether they return. */
module ImageBuild {
  import opened Common
  import opened Quantities
  import opened Runtimes
  import opened Provision
  import opened PodSpecs
  import opened Desired

  const EMPTY_POD := PodSpec([], [], [], [], None, None)

  /** How the world answers the build step. Off: not enabled. RegistryFails: credentials, registry or its address
      cannot be used. created: the API server accepts the job. */
  datatype Build =
    | Off
    | RegistryFails
    | ImageExists(image: string)
    | JobExists(image: string)
    | JobMissing(image: string, created: bool)

  /** The mounts of the last container named prepare. */
  function PrepareMountsOf(inits: seq<Container>): (r: seq<Mount>) {
    if inits == [] then []
    else if inits[|inits| - 1].name == "prepare" then inits[|inits| - 1].mounts
    else PrepareMountsOf(inits[..|inits| - 1])
  }

  method FindPrepareMounts(inits: seq<Container>) returns (mounts: seq<Mount>)
    ensures mounts == PrepareMountsOf(inits)
  {
    mounts := [];
    for i := 0 to |inits|
      invariant mounts == PrepareMountsOf(inits[..i])
    {
      assert inits[..i + 1][..i] == inits[..i];
      if inits[i].name == "prepare" {
        mounts := inits[i].mounts;
      }
    }
    assert inits[..|inits|] == inits;
  }

  function Bundle(cfg: Config, mounts: seq<Mount>): (r: Container) {
    Container("bundle", cfg.provisionImage, "tar cvf /kubeless/bundle.tar /kubeless/*", [], mounts, [], NO_DEMAND, None, "")
  }

  /** The init containers of the build job. The first mount of the first one is read without looking. */
  function BuildInits(cfg: Config, w: Workload, listing: Listing): (r: Result<seq<Container>>) {
    match Populated(SetupOf(cfg, w, listing), EMPTY_POD)
    case Panic => Panic
    case Error => Error
    case Ok(pod) =>
      if !FunctionImage(cfg, w.code.runtime).Ok? then Error
      else
        var inits := pod.initContainers + [Bundle(cfg, PrepareMountsOf(pod.initContainers))];
        if inits[0].mounts == [] then Panic else Ok(inits)
  }

  method EnsureFuncImage(cfg: Config, w: Workload, listing: Listing) returns (r: Result<seq<Container>>)
    ensures r == BuildInits(cfg, w, listing)
  {
    var pod := new Pod(EMPTY_POD);
    var populated := pod.Populate(SetupOf(cfg, w, listing));
    if !populated.Ok? {
      return if populated.Panic? then Panic else Error;
    }
    var inits := pod.initContainers;
    var mounts := FindPrepareMounts(inits);
    var image := FunctionImage(cfg, w.code.runtime);
    if !image.Ok? {
      return Error;
    }
    inits := inits + [Bundle(cfg, mounts)];
    return if inits[0].mounts == [] then Panic else Ok(inits);
  }

  function UserImage(w: Workload): (r: string) { if |w.pod.containers| > 0 then w.pod.containers[0].image else "" }

  /** The image handed to EnsureFuncDeployment: the user's, the built one, or none where the build step is off or
      fails; or the panic of the build step. */
  function Prebuilt(cfg: Config, w: Workload, build: Build, listing: Listing): (r: Result<string>) {
    if UserImage(w) != "" then Ok(UserImage(w))
    else
      match build
      case Off => Ok("")
      case RegistryFails => Ok("")
      case ImageExists(image) => Ok(image)
      case JobExists(image) => Ok(image)
      case JobMissing(image, created) =>
        match BuildInits(cfg, w, listing)
        case Panic => Panic
        case Error => Ok("")
        case Ok(_) => Ok(if created then image else "")
  }

  method StartImageBuild(cfg: Config, w: Workload, build: Build, listing: Listing) returns (r: Result<string>)
    ensures r == Prebuilt(cfg, w, build, listing)
  {
    if UserImage(w) != "" {
      return Ok(UserImage(w));
    }
    match build
    case Off => return Ok("");
    case RegistryFails => return Ok("");
    case ImageExists(image) => return Ok(image);
    case JobExists(image) => return Ok(image);
    case JobMissing(image, created) =>
      var job := EnsureFuncImage(cfg, w, listing);
      if job.Panic? {
        return Panic;
      }
      return Ok(if job.Ok? && created then image else "");
  }

  // ---- when the build step panics ----

  /** With code: a checksum without a digest. Without code: a runtime that resolves and has nothing to compile,
      and nothing to install either, so that the job has no container with a mount. */
  predicate BuildPanics(cfg: Config, c: Code) {
    if c.source != "" then
      FileName(c, cfg.table).Some? && !OriginOf(c.contentType).Unknown? && CheckOf(c.checksum).NoDigest?
    else
      match FindRuntimeVersion(cfg.table, c.runtime)
      case None => false
      case Some(version) =>
        && FindImage(PHASE_COMPILATION, version.images).None?
        && (HasDeps(c) ==> FindImage(PHASE_INSTALLATION, version.images).None?)
  }

  lemma CodelessInits(u: Setup, pod: PodSpec)
    requires u.code.source == "" && pod.initContainers == []
    ensures !Inits(u, pod).Panic?
    ensures Inits(u, pod).Ok? ==> forall i :: 0 <= i < |Inits(u, pod).value| ==> Inits(u, pod).value[i].mounts != []
    ensures Inits(u, pod) == Ok([]) <==>
            match FindRuntimeVersion(u.table, u.code.runtime)
            case None => false
            case Some(version) =>
              && FindImage(PHASE_COMPILATION, version.images).None?
              && (HasDeps(u.code) ==> FindImage(PHASE_INSTALLATION, version.images).None?)
  {
  }

  lemma CodeInits(u: Setup, pod: PodSpec)
    requires u.code.source != ""
    ensures Inits(u, pod).Panic? <==>
            FileName(u.code, u.table).Some? && !OriginOf(u.code.contentType).Unknown? && CheckOf(u.code.checksum).NoDigest?
    ensures Inits(u, pod).Ok? ==> Inits(u, pod).value != [] && Inits(u, pod).value[0].mounts != []
  {
    if Inits(u, pod).Ok? {
      assert Inits(u, pod).value[0] == PrepareInit(u, pod).value[0];
    }
  }

  /** Mounting secrets empties no list of mounts. */
  lemma MountsStay(u: Setup, inits: seq<Container>)
    requires var r := MountFrom(u.table, u.code.runtime, Mounted(BaseVolumes(u, EMPTY_POD), inits), 0); r.Ok?
    ensures var r := MountFrom(u.table, u.code.runtime, Mounted(BaseVolumes(u, EMPTY_POD), inits), 0).value.inits;
            |r| == |inits| && (inits != [] && inits[0].mounts != [] ==> r[0].mounts != [])
  {
    MountFromExtends(u.table, u.code.runtime, Mounted(BaseVolumes(u, EMPTY_POD), inits), 0);
  }

  lemma ResolvedImage(cfg: Config, runtime: string)
    requires FindRuntimeVersion(cfg.table, runtime).Some?
    ensures FunctionImage(cfg, runtime).Ok?
  {
  }

  /** The build step panics exactly on such code. */
  lemma BuildPanicsIff(cfg: Config, w: Workload, listing: Listing)
    ensures BuildInits(cfg, w, listing).Panic? <==> BuildPanics(cfg, w.code)
  {
    var u := SetupOf(cfg, w, listing);
    if w.code.source != "" {
      CodeInits(u, EMPTY_POD);
    } else {
      CodelessInits(u, EMPTY_POD);
    }
    if FindRuntimeVersion(cfg.table, w.code.runtime).Some? {
      ResolvedImage(cfg, w.code.runtime);
    }
    PanicFromInits(cfg, w, listing);
  }

  /** The job panics where computing its init containers does, or where there are none. */
  lemma PanicFromInits(cfg: Config, w: Workload, listing: Listing)
    requires var r := Inits(SetupOf(cfg, w, listing), EMPTY_POD); r.Ok? && r.value != [] ==> r.value[0].mounts != []
    requires Inits(SetupOf(cfg, w, listing), EMPTY_POD) == Ok([]) ==>
               PullSecrets(SetupOf(cfg, w, listing), EMPTY_POD).Ok? && FunctionImage(cfg, w.code.runtime).Ok?
    ensures BuildInits(cfg, w, listing).Panic? <==>
            Inits(SetupOf(cfg, w, listing), EMPTY_POD).Panic? || Inits(SetupOf(cfg, w, listing), EMPTY_POD) == Ok([])
  {
    var u := SetupOf(cfg, w, listing);
    var r := Inits(u, EMPTY_POD);
    if r.Ok? && MountFrom(u.table, u.code.runtime, Mounted(BaseVolumes(u, EMPTY_POD), r.value), 0).Ok? {
      MountsStay(u, r.value);
    }
  }

  /** Hence the whole step panics exactly when it has to make a job for such code. */
  lemma PrebuiltPanicsIff(cfg: Config, w: Workload, build: Build, listing: Listing)
    ensures Prebuilt(cfg, w, build, listing).Panic? <==> UserImage(w) == "" && build.JobMissing? && BuildPanics(cfg, w.code)
    ensures !Prebuilt(cfg, w, build, listing).Error?
  {
    BuildPanicsIff(cfg, w, listing);
  }

  // ---- what the build step gives ----

  /** The image is the user's, or the one the registry or the job is about; there is none where the step is off,
      the registry fails, or the job cannot be made or is not accepted. */
  lemma ImageReturned(cfg: Config, w: Workload, build: Build, listing: Listing)
    requires Prebuilt(cfg, w, build, listing).Ok?
    ensures var image := Prebuilt(cfg, w, build, listing).value;
            && (UserImage(w) != "" ==> image == UserImage(w))
            && (UserImage(w) == "" && (build.Off? || build.RegistryFails?) ==> image == "")
            && (UserImage(w) == "" && (build.ImageExists? || build.JobExists?) ==> image == build.image)
            && (UserImage(w) == "" && build.JobMissing? ==>
                  image == if build.created && BuildInits(cfg, w, listing).Ok? then build.image else "")
  {
  }

  /** The build container looks for the bundle under the first mount of the first init container: that is the
      runtime volume, where the bundle container puts it. */
  lemma BundleFound(cfg: Config, w: Workload, listing: Listing)
    requires BuildInits(cfg, w, listing).Ok?
    ensures var r := BuildInits(cfg, w, listing).value;
            && |r| > 1 && r[0].mounts != [] && r[0].mounts[0] == Mount(w.name, "/kubeless", false)
            && r[|r| - 1].name == "bundle" && r[|r| - 1].args == "tar cvf /kubeless/bundle.tar /kubeless/*"
            && (w.code.source != "" ==>
                  Mount(w.name, "/kubeless", false) in r[|r| - 1].mounts && Mount(w.name + "-deps", "/src", false) in r[|r| - 1].mounts)
  {
    var u := SetupOf(cfg, w, listing);
    var inits := Inits(u, EMPTY_POD).value;
    var m := Mounted(BaseVolumes(u, EMPTY_POD), inits);
    MountFromExtends(u.table, u.code.runtime, m, 0);
    InitMounts(u);
    BundleAfter(cfg, u.name, w.code.source != "", inits, MountFrom(u.table, u.code.runtime, m, 0).value.inits);
  }

  /** Adding mounts to containers laid out like that leaves the bundle container with those of prepare. */
  lemma BundleAfter(cfg: Config, name: string, code: bool, inits: seq<Container>, r: seq<Container>)
    requires Laid(inits, name, code) && |r| == |inits|
    requires forall j :: 0 <= j < |r| ==> r[j] == inits[j].(mounts := r[j].mounts) && inits[j].mounts <= r[j].mounts
    ensures r != [] ==> r[0].mounts != [] && r[0].mounts[0] == Mount(name, "/kubeless", false)
    ensures code ==> r != [] && Mount(name, "/kubeless", false) in PrepareMountsOf(r) && Mount(name + "-deps", "/src", false) in PrepareMountsOf(r)
  {
    if r != [] {
      assert inits[0].mounts <= r[0].mounts && MountsFirst(inits[0], name);
    }
    if code {
      forall i | 0 < i < |r|
        ensures r[i].name != "prepare"
      {
        assert r[i] == inits[i].(mounts := r[i].mounts);
      }
      OnePrepare(r);
      assert r[0].mounts[0] == Mount(name, "/kubeless", false) && r[0].mounts[1] == Mount(name + "-deps", "/src", false);
    }
  }

  predicate MountsFirst(c: Container, name: string) { c.mounts != [] && c.mounts[0] == Mount(name, "/kubeless", false) }

  /** Every container mounts the runtime volume first; with code the first, and only that, is the prepare container
      and has the source volume too. */
  ghost predicate Laid(inits: seq<Container>, name: string, code: bool) {
    && (forall i :: 0 <= i < |inits| ==> MountsFirst(inits[i], name))
    && (code ==> inits != [] && inits[0].name == "prepare" && |inits[0].mounts| > 1 && inits[0].mounts[1] == Mount(name + "-deps", "/src", false))
    && (code ==> forall i :: 0 < i < |inits| ==> inits[i].name != "prepare")
  }

  lemma InitMounts(u: Setup)
    requires Inits(u, EMPTY_POD).Ok?
    ensures Laid(Inits(u, EMPTY_POD).value, u.name, u.code.source != "")
  {
    var env := UserEnv(EMPTY_POD);
    if u.code.source != "" {
      PrepareMounts(u, EMPTY_POD);
    }
    LaidFrom(PrepareInit(u, EMPTY_POD).value, InstallInit(u, env).value, CompileInit(u, env).value, u.name, u.code.source != "");
  }

  lemma LaidFrom(prepare: seq<Container>, install: Option<Container>, compile: Option<Container>, name: string, code: bool)
    requires if code then |prepare| == 1 && prepare[0].name == "prepare" && prepare[0].mounts == [RuntimeMount(name), Mount(name + "-deps", "/src", false)]
             else prepare == []
    requires install.Some? ==> install.value.name == "install" && install.value.mounts == [RuntimeMount(name)]
    requires compile.Some? ==> compile.value.name == "compile" && compile.value.mounts == [RuntimeMount(name)]
    ensures Laid(prepare + OptSeq(install) + OptSeq(compile), name, code)
  {
  }

  lemma {:induction false} OnePrepare(r: seq<Container>)
    requires r != [] && r[0].name == "prepare" && forall i :: 0 < i < |r| ==> r[i].name != "prepare"
    ensures PrepareMountsOf(r) == r[0].mounts
  {
    if |r| > 1 {
      OnePrepare(r[..|r| - 1]);
    }
  }
}

/** The whole way of a function file: what the CLI stores for it, the pod the controller computes from that, and
    what the prepare container of that pod leaves in the runtime volume. */
module CliToPod {
  import opened Common
  import opened Strings
  import opened Runtimes
  import opened Provision
  import opened PodSpecs
  import opened Desired
  import opened Delivery
  import opened Shell
  import opened ProvisionText

  // ---- the prepare container ----

  /** c is the prepare container that runs the given commands. */
  predicate Prepares(cfg: Config, c: Container, commands: seq<Cmd>) {
    c.name == "prepare" && c.image == cfg.provisionImage && c.args == JoinCommands(RenderAll(commands))
  }

  /** The code is put into the pod when it starts, rather than into an image beforehand. */
  predicate BuiltInPod(w: Workload, prebuilt: string) {
    UserPod(w).containers[0].image == "" && prebuilt == ""
  }

  lemma PopulatedPrepares(u: Setup, pod: PodSpec, name: string)
    requires u.code.source != "" && FileName(u.code, u.table) == Some(name) && Populated(u, pod).Ok?
    ensures var r := Populated(u, pod).value.initContainers;
            var commands := ProvisionCommands(u.code, name, u.table);
            && commands.Ok? && |r| > 0
            && r[0].name == "prepare" && r[0].image == u.provisionImage && r[0].args == JoinCommands(RenderAll(commands.value))
  {
    var inits := Inits(u, pod).value;
    assert inits[0] == PrepareInit(u, pod).value[0];
    MountFromExtends(u.table, u.code.runtime, Mounted(BaseVolumes(u, pod), inits), 0);
  }

  /** The pod starts with the prepare container running the provision commands exactly when there is code and it
      is not in an image already; otherwise its init containers are the user's. */
  lemma PodPrepares(cfg: Config, w: Workload, prebuilt: string, listing: Listing, name: string)
    requires FileName(w.code, cfg.table) == Some(name) && DesiredPod(cfg, w, prebuilt, listing).Ok?
    ensures var r := DesiredPod(cfg, w, prebuilt, listing).value.initContainers;
            var commands := ProvisionCommands(w.code, name, cfg.table);
            if w.code.source != "" && BuiltInPod(w, prebuilt) then
              commands.Ok? && |r| > 0 && Prepares(cfg, r[0], commands.value)
            else r == w.pod.initContainers
  {
    HandlerPresent(w.code, cfg.table);
    if w.code.source != "" && BuiltInPod(w, prebuilt) {
      CodePodPrepares(cfg, w, listing, name);
    }
  }

  lemma CodePodPrepares(cfg: Config, w: Workload, listing: Listing, name: string)
    requires FileName(w.code, cfg.table) == Some(name) && CodePod(cfg, w, "", listing).Ok?
    requires w.code.handler != "" && w.code.source != "" && UserPod(w).containers[0].image == ""
    ensures var r := CodePod(cfg, w, "", listing).value.initContainers;
            var commands := ProvisionCommands(w.code, name, cfg.table);
            commands.Ok? && |r| > 0 && Prepares(cfg, r[0], commands.value)
  {
    PopulatedPrepares(SetupOf(cfg, w, listing), UserPod(w), name);
  }

  /** A shell that runs the text of the container runs the commands, unless names, URL or digest have blanks or
      quotes. */
  lemma ArgsRun(c: Code, name: string, table: Table, t: Tools, other: Programs, fs: Files)
    requires ProvisionCommands(c, name, table).Ok?
    ensures PlainCode(c, name, table) ==>
              var cs := ProvisionCommands(c, name, table).value;
              RunText(t, other, JoinCommands(RenderAll(cs)), fs) == RunAll(t, cs, fs)
  {
    if PlainCode(c, name, table) {
      CommandsPlain(c, name, table);
      TextRuns(t, other, ProvisionCommands(c, name, table).value, fs);
    }
  }

  // ---- from the command line to the pod ----

  /** A local file without bytes. */
  predicate EmptyFile(w: World, file: string) { !IsUrl(file) && file in w.files && w.files[file] == "" }

  /** What the CLI stores is empty exactly for an empty file. */
  lemma EmptySourceIff(w: World, file: string)
    requires w.Valid() && Describe(w, file).Some?
    ensures Describe(w, file).value.source == "" <==> EmptyFile(w, file)
  {
    if IsUrl(file) {
      OriginFlags("url", CompressionType(Split(file, '?')[0]));
    } else {
      OriginFlags(if w.validUtf8(w.files[file]) then "text" else "base64", CompressionType(file));
      Base64.EncodeGrows(w.files[file]);
    }
  }

  /** A file the CLI accepts reaches the pod. Unless it is empty or a text archive, the pod starts with a prepare
      container whose commands, and their text in a shell, pass exactly when the original can be unpacked and install
      exactly what the original bytes give, next to the dependency file. For an empty file no prepare container is made and
      nothing is installed. */
  lemma CliRoundTrip(w: World, file: string, cfg: Config, f: Workload, listing: Listing, name: string, t: Tools, other: Programs, fs: Files)
    requires Delivers(w, file, f.code, name, cfg.table, t, fs) && BuiltInPod(f, "")
    requires DesiredPod(cfg, f, "", listing).Ok? && !TextArchive(w, file)
    ensures var inits := DesiredPod(cfg, f, "", listing).value.initContainers;
            var commands := ProvisionCommands(f.code, name, cfg.table);
            if EmptyFile(w, file) then inits == f.pod.initContainers
            else
              && commands.Ok? && |inits| > 0 && Prepares(cfg, inits[0], commands.value)
              && InstalledDep(f.code, cfg.table, fs).Some?
              && var r := RunAll(t, commands.value, fs);
                 var files := Installed(t, f.code, name, Original(w, file));
                 && (r.Some? <==> files.Some?)
                 && (r.Some? ==> Lasting(r.value) == Lasting(fs) + files.value + InstalledDep(f.code, cfg.table, fs).value)
                 && (PlainCode(f.code, name, cfg.table) ==> RunText(t, other, inits[0].args, fs) == r)
  {
    EmptySourceIff(w, file);
    PodPrepares(cfg, f, "", listing, name);
    if !EmptyFile(w, file) {
      CommandsInstall(w, file, f.code, name, cfg.table, t, fs);
      ArgsRun(f.code, name, cfg.table, t, other, fs);
    }
  }

  /** The bytes of a file that is not an archive arrive exactly unless it is empty: then the pod has a prepare
      container that leaves the very bytes under the code file's name, and otherwise none at all. */
  lemma CliSingleFileArrives(w: World, file: string, cfg: Config, f: Workload, listing: Listing, name: string, t: Tools, other: Programs, fs: Files)
    requires Delivers(w, file, f.code, name, cfg.table, t, fs) && BuiltInPod(f, "") && DesiredPod(cfg, f, "", listing).Ok?
    requires CompressionType(if IsUrl(file) then Split(file, '?')[0] else file) == ""
    requires CopiedDep(f.code, cfg.table).Some? ==> Base(CopiedDep(f.code, cfg.table).value) != name
    ensures var inits := DesiredPod(cfg, f, "", listing).value.initContainers;
            var commands := ProvisionCommands(f.code, name, cfg.table);
            if EmptyFile(w, file) then inits == f.pod.initContainers
            else
              && commands.Ok? && |inits| > 0 && Prepares(cfg, inits[0], commands.value)
              && var r := RunAll(t, commands.value, fs);
                 && r.Some? && Bytes(r.value, Path(Vol, name)) == Some(Original(w, file))
                 && (PlainCode(f.code, name, cfg.table) ==> RunText(t, other, inits[0].args, fs) == r)
  {
    EmptySourceIff(w, file);
    PodPrepares(cfg, f, "", listing, name);
    if !EmptyFile(w, file) {
      CommandsInstallFile(w, file, f.code, name, cfg.table, t, fs);
      ArgsRun(f.code, name, cfg.table, t, other, fs);
    }
  }

  /** A text archive gets a prepare container too, and it always fails. */
  lemma TextArchivePodFails(w: World, file: string, cfg: Config, f: Workload, listing: Listing, name: string, t: Tools, other: Programs, fs: Files)
    requires Delivers(w, file, f.code, name, cfg.table, t, fs) && BuiltInPod(f, "") && DesiredPod(cfg, f, "", listing).Ok?
    requires TextArchive(w, file)
    requires var b := w.files[file]; w.sha256(Base64.Encode(b)) == w.sha256(b) ==> Base64.Encode(b) == b
    ensures var inits := DesiredPod(cfg, f, "", listing).value.initContainers;
            var commands := ProvisionCommands(f.code, name, cfg.table);
            && commands.Ok? && |inits| > 0 && Prepares(cfg, inits[0], commands.value)
            && RunAll(t, commands.value, fs).None?
            && (PlainCode(f.code, name, cfg.table) ==> RunText(t, other, inits[0].args, fs).None?)
  {
    EmptySourceIff(w, file);
    PodPrepares(cfg, f, "", listing, name);
    TextArchiveFails(w, file, f.code, name, cfg.table, t, fs);
    ArgsRun(f.code, name, cfg.table, t, other, fs);
  }
}

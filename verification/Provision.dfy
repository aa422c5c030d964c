/** The prepare init container of pkg/utils/kubelessutil.go: the commands getProvisionContainer emits, what
    they do to a file map, and the ConfigMap they read from. */
module Provision {
  import opened Common
  import opened Strings
  import opened Runtimes

  /** The mount of the function's ConfigMap, the runtime volume, and the container's scratch space. */
  datatype Dir = Src | Vol | Tmp

  datatype Path = Path(dir: Dir, name: string)

  const DECODED := Path(Tmp, "func.decoded")
  const FROM_URL := Path(Tmp, "func.fromurl")
  const SUMS := Path(Tmp, "func.sha256")

  function DirText(d: Dir): (r: string) {
    match d case Src => "/src" case Vol => "/kubeless" case Tmp => "/tmp"
  }

  function Text(p: Path): (r: string) { DirText(p.dir) + "/" + p.name }

  /** The last element of a slash-separated name. */
  function Base(name: string): (r: string) {
    var parts := Split(name, '/');
    parts[|parts| - 1]
  }

  // ---- commands ----

  datatype Cmd =
    | Decode(src: Path, dst: Path)
    | Fetch(url: string, dst: Path)
    | WriteSum(digest: string, file: Path, dst: Path)
    | CheckSum(sums: Path)
    | Unzip(src: Path, dir: Dir)
    | Untar(src: Path, dir: Dir)
    | Copy(src: Path, dst: Path)
    | CopyInto(src: Path, dir: Dir)

  function Render(c: Cmd): (r: string)
    ensures |r| > 0
  {
    match c
    case Decode(src, dst) => "base64 -d < " + Text(src) + " > " + Text(dst)
    case Fetch(url, dst) => "curl '" + url + "' -L --silent --output " + Text(dst)
    case WriteSum(digest, file, dst) => "echo '" + digest + "  " + Text(file) + "' > " + Text(dst)
    case CheckSum(sums) => "sha256sum -c " + Text(sums)
    case Unzip(src, dir) => "unzip -o " + Text(src) + " -d " + DirText(dir)
    case Untar(src, dir) => "tar xf " + Text(src) + " -C " + DirText(dir)
    case Copy(src, dst) => "cp " + Text(src) + " " + Text(dst)
    case CopyInto(src, dir) => "cp " + Text(src) + " " + DirText(dir)
  }

  function RenderAll(cs: seq<Cmd>): (r: seq<string>)
    ensures |r| == |cs| && forall i :: 0 <= i < |r| ==> r[i] == Render(cs[i])
  {
    seq(|cs|, i requires 0 <= i < |cs| => Render(cs[i]))
  }

  /** A file holds data, or the one line a checksum list is made of. */
  datatype File = Data(bytes: string) | Sum(digest: string, path: Path)

  type Files = map<Path, File>

  /** The programs the container image brings, and what the network serves. */
  datatype Tools = Tools(sha256: string -> string, unbase64: string -> Option<string>,
                         unzip: string -> Option<map<string, string>>, untar: string -> Option<map<string, string>>,
                         net: map<string, string>)

  /** The bytes of a data file. */
  function Bytes(fs: Files, path: Path): (r: Option<string>) {
    if path in fs && fs[path].Data? then Some(fs[path].bytes) else None
  }

  function Under(dir: Dir, entries: map<string, string>): (r: Files) {
    map e | e in entries :: Path(dir, e) := Data(entries[e])
  }

  function Extract(fs: Files, dir: Dir, entries: Option<map<string, string>>): (r: Option<Files>) {
    match entries case None => None case Some(es) => Some(fs + Under(dir, es))
  }

  function LowerHex(s: string): (r: string) {
    seq(|s|, i requires 0 <= i < |s| => if 'A' <= s[i] <= 'F' then s[i] - 'A' + 'a' else s[i])
  }

  /** sha256sum -c takes hexadecimal letters of either case. */
  predicate SameDigest(a: string, b: string) { LowerHex(a) == LowerHex(b) }

  /** One command; None is a non-zero exit. */
  function Exec(t: Tools, c: Cmd, fs: Files): (r: Option<Files>) {
    match c
    case Decode(src, dst) =>
      if Bytes(fs, src).None? || t.unbase64(Bytes(fs, src).value).None? then None
      else Some(fs[dst := Data(t.unbase64(Bytes(fs, src).value).value)])
    case Fetch(url, dst) => if url in t.net then Some(fs[dst := Data(t.net[url])]) else None
    case WriteSum(digest, file, dst) => Some(fs[dst := Sum(digest, file)])
    case CheckSum(sums) =>
      if sums in fs && fs[sums].Sum? && Bytes(fs, fs[sums].path).Some? &&
         SameDigest(t.sha256(Bytes(fs, fs[sums].path).value), fs[sums].digest) then Some(fs) else None
    case Unzip(src, dir) => if Bytes(fs, src).None? then None else Extract(fs, dir, t.unzip(Bytes(fs, src).value))
    case Untar(src, dir) => if Bytes(fs, src).None? then None else Extract(fs, dir, t.untar(Bytes(fs, src).value))
    case Copy(src, dst) => if Bytes(fs, src).None? then None else Some(fs[dst := fs[src]])
    case CopyInto(src, dir) => if Bytes(fs, src).None? then None else Some(fs[Path(dir, Base(src.name)) := fs[src]])
  }

  /** An &&-chain: the first failure ends it. */
  function RunAll(t: Tools, cs: seq<Cmd>, fs: Files): (r: Option<Files>) {
    if cs == [] then Some(fs)
    else match Exec(t, cs[0], fs) case None => None case Some(next) => RunAll(t, cs[1..], next)
  }

  lemma {:induction false} RunConcat(t: Tools, a: seq<Cmd>, b: seq<Cmd>, fs: Files)
    ensures RunAll(t, a + b, fs) == match RunAll(t, a, fs) case None => None case Some(mid) => RunAll(t, b, mid)
  {
    if a == [] {
      assert a + b == b;
    } else {
      assert (a + b)[1..] == a[1..] + b;
      match Exec(t, a[0], fs)
      case None =>
      case Some(next) => RunConcat(t, a[1..], b, next);
    }
  }

  // ---- file names ----

  function SplitHandler(handler: string): (r: Option<(string, string)>) {
    var parts := Split(handler, '.');
    if |parts| == 2 then Some((parts[0], parts[1])) else None
  }

  predicate GuessesSuffix(contentType: string) {
    contentType == "text" || contentType == "" || contentType == "url" || contentType == "base64"
  }

  function GetFileName(handler: string, contentType: string, runtime: string, table: Table): (r: Option<string>) {
    match SplitHandler(handler)
    case None => None
    case Some((mod, _)) =>
      Some(match GetRuntimeInfo(table, runtime)
           case Some(info) => if GuessesSuffix(contentType) then mod + info.suffix else mod
           case None => mod)
  }

  /** The parts of a Function spec that decide how its code is delivered. */
  datatype Code = Code(source: string, handler: string, contentType: string, checksum: string,
                       runtime: string, deps: string)

  function FileName(c: Code, table: Table): (r: Option<string>) {
    GetFileName(c.handler, c.contentType, c.runtime, table)
  }

  /** The dependency file of the runtime, when the runtime is known and has one. */
  function DepName(c: Code, table: Table): (r: Option<string>) {
    match GetRuntimeInfo(table, c.runtime)
    case Some(info) => if info.depName != "" then Some(info.depName) else None
    case None => None
  }

  // ---- the ConfigMap ----

  /** EnsureFuncConfigMap's data. */
  function ConfigMapData(c: Code, table: Table): (r: Result<map<string, string>>) {
    if c.handler == "" then Ok(map[])
    else
      match FileName(c, table)
      case None => Error
      case Some(name) =>
        var data := map["handler" := c.handler][name := c.source];
        Ok(match DepName(c, table) case Some(dep) => data[dep := c.deps] case None => data)
  }

  // ---- getProvisionContainer ----

  datatype Origin = FromBase64 | FromUrl | Plain | Unknown

  function OriginOf(contentType: string): (r: Origin) {
    if Contains(contentType, "base64") then FromBase64
    else if Contains(contentType, "url") then FromUrl
    else if Contains(contentType, "text") || contentType == "" then Plain
    else Unknown
  }

  datatype Check = NoCheck | Sha256(digest: string) | NoDigest | UnknownAlgorithm

  /** An empty checksum is accepted unchecked; "sha256" without a digest is an index out of range. */
  function CheckOf(checksum: string): (r: Check) {
    if checksum == "" then NoCheck
    else
      var info := Split(checksum, ':');
      if info[0] != "sha256" then UnknownAlgorithm else if |info| < 2 then NoDigest else Sha256(info[1])
  }

  function OriginFile(c: Code, fileName: string): (r: Path) {
    match OriginOf(c.contentType)
    case FromBase64 => DECODED
    case FromUrl => FROM_URL
    case _ => Path(Src, fileName)
  }

  function FetchCommands(c: Code, fileName: string): (r: seq<Cmd>) {
    match OriginOf(c.contentType)
    case FromBase64 => [Decode(Path(Src, fileName), DECODED)]
    case FromUrl => [Fetch(c.source, FROM_URL)]
    case _ => []
  }

  function CheckCommands(c: Code, origin: Path): (r: seq<Cmd>) {
    match CheckOf(c.checksum)
    case Sha256(digest) => [WriteSum(digest, origin, SUMS), CheckSum(SUMS)]
    case _ => []
  }

  function InstallCommand(c: Code, origin: Path, dest: string): (r: Cmd) {
    if Contains(c.contentType, "zip") then Unzip(origin, Vol)
    else if Contains(c.contentType, "compressedtar") then Untar(origin, Vol)
    else Copy(origin, Path(Vol, dest))
  }

  predicate Archive(contentType: string) {
    Contains(contentType, "zip") || Contains(contentType, "compressedtar")
  }

  /** The dependency file the command copies. */
  function CopiedDep(c: Code, table: Table): (r: Option<string>) {
    if Contains(c.contentType, "deps") then None else DepName(c, table)
  }

  function DepCommands(c: Code, table: Table): (r: seq<Cmd>) {
    match CopiedDep(c, table) case Some(dep) => [CopyInto(Path(Src, dep), Vol)] case None => []
  }

  /** The file a single-file function is installed as. */
  function Dest(c: Code, table: Table): (r: string) {
    match FileName(c, table) case Some(name) => name case None => ""
  }

  /** The command list of the prepare container, or why there is none. */
  function ProvisionCommands(c: Code, fileName: string, table: Table): (r: Result<seq<Cmd>>) {
    var origin := OriginFile(c, fileName);
    if OriginOf(c.contentType).Unknown? || CheckOf(c.checksum).UnknownAlgorithm? then Error
    else if CheckOf(c.checksum).NoDigest? then Panic
    else if !Archive(c.contentType) && FileName(c, table).None? then Error
    else
      Ok(FetchCommands(c, fileName) + CheckCommands(c, origin) +
         [InstallCommand(c, origin, Dest(c, table))] + DepCommands(c, table))
  }

  /** getProvisionContainer: the command text grows phase by phase while the origin file moves. */
  method GetProvisionContainer(c: Code, fileName: string, table: Table)
    returns (r: Result<seq<Cmd>>, text: string)
    ensures r == ProvisionCommands(c, fileName, table)
    ensures r.Ok? ==> text == JoinCommands(RenderAll(r.value))
  {
    var prepare: seq<Cmd>, originFile: Path;
    r, text, originFile := PrepareOrigin(c, fileName);
    if !r.Ok? {
      return;
    }
    r, text := PrepareCheck(c, originFile, r.value, text);
    if !r.Ok? {
      return;
    }
    r, text := PrepareInstall(c, originFile, table, r.value, text);
    if !r.Ok? {
      return;
    }
    prepare := r.value;
    var info := GetRuntimeInfo(table, c.runtime);
    if info.Some? && info.value.depName != "" && !Contains(c.contentType, "deps") {
      var step := [CopyInto(Path(Src, info.value.depName), Vol)];
      assert step == DepCommands(c, table);
      text := Append(prepare, text, step);
      prepare := prepare + step;
    } else {
      assert prepare + DepCommands(c, table) == prepare;
    }
    r := Ok(prepare);
  }

  method PrepareOrigin(c: Code, fileName: string) returns (r: Result<seq<Cmd>>, text: string, originFile: Path)
    ensures r == if OriginOf(c.contentType).Unknown? then Error else Ok(FetchCommands(c, fileName))
    ensures originFile == OriginFile(c, fileName)
    ensures r.Ok? ==> text == JoinCommands(RenderAll(r.value))
  {
    var prepare: seq<Cmd> := [];
    text := "";
    originFile := Path(Src, fileName);
    if Contains(c.contentType, "base64") {
      prepare := [Decode(originFile, DECODED)];
      text := AppendToCommand(text, RenderAll(prepare));
      originFile := DECODED;
    } else if Contains(c.contentType, "url") {
      prepare := [Fetch(c.source, FROM_URL)];
      text := AppendToCommand(text, RenderAll(prepare));
      originFile := FROM_URL;
    } else if Contains(c.contentType, "text") || c.contentType == "" {
    } else {
      return Error, text, originFile;
    }
    r := Ok(prepare);
  }

  method PrepareCheck(c: Code, originFile: Path, prepare: seq<Cmd>, before: string)
    returns (r: Result<seq<Cmd>>, text: string)
    requires before == JoinCommands(RenderAll(prepare))
    ensures r == match CheckOf(c.checksum)
                 case UnknownAlgorithm => Error
                 case NoDigest => Panic
                 case _ => Ok(prepare + CheckCommands(c, originFile))
    ensures r.Ok? ==> text == JoinCommands(RenderAll(r.value))
  {
    text := before;
    if c.checksum == "" {
      assert prepare + CheckCommands(c, originFile) == prepare;
      return Ok(prepare), text;
    }
    var info := Split(c.checksum, ':');
    if info[0] != "sha256" {
      return Error, text;
    }
    if |info| < 2 {
      return Panic, text;
    }
    var step := [WriteSum(info[1], originFile, SUMS), CheckSum(SUMS)];
    text := Append(prepare, text, step);
    r := Ok(prepare + step);
  }

  method PrepareInstall(c: Code, originFile: Path, table: Table, prepare: seq<Cmd>, before: string)
    returns (r: Result<seq<Cmd>>, text: string)
    requires before == JoinCommands(RenderAll(prepare))
    ensures r == if !Archive(c.contentType) && FileName(c, table).None? then Error
                 else Ok(prepare + [InstallCommand(c, originFile, Dest(c, table))])
    ensures r.Ok? ==> text == JoinCommands(RenderAll(r.value))
  {
    var step: seq<Cmd>;
    text := before;
    if Contains(c.contentType, "zip") {
      step := [Unzip(originFile, Vol)];
    } else if Contains(c.contentType, "compressedtar") {
      step := [Untar(originFile, Vol)];
    } else {
      var dest := GetFileName(c.handler, c.contentType, c.runtime, table);
      if dest.None? {
        return Error, text;
      }
      step := [Copy(originFile, Path(Vol, dest.value))];
    }
    text := Append(prepare, text, step);
    r := Ok(prepare + step);
  }

  /** appendToCommand on the text of a command list. */
  method Append(done: seq<Cmd>, text: string, more: seq<Cmd>) returns (r: string)
    requires text == JoinCommands(RenderAll(done)) && more != []
    ensures r == JoinCommands(RenderAll(done + more))
  {
    r := AppendToCommand(text, RenderAll(more));
    RenderBoth(done, more);
    AppendIsJoin(RenderAll(done), RenderAll(more));
  }

  lemma RenderBoth(a: seq<Cmd>, b: seq<Cmd>)
    ensures RenderAll(a + b) == RenderAll(a) + RenderAll(b)
  {
  }

  // ---- what provisioning means ----

  /** The files that outlive the container's own scratch space. */
  function Lasting(fs: Files): (r: Files) {
    map p | p in fs && p.dir != Tmp :: fs[p]
  }

  /** The function bytes a content type stands for. */
  function Payload(t: Tools, c: Code, fileName: string, fs: Files): (r: Option<string>) {
    match OriginOf(c.contentType)
    case FromBase64 =>
      (match Bytes(fs, Path(Src, fileName)) case None => None case Some(b) => t.unbase64(b))
    case FromUrl => if c.source in t.net then Some(t.net[c.source]) else None
    case _ => Bytes(fs, Path(Src, fileName))
  }

  /** The files the checked bytes are installed as: the members of an archive, or one file. */
  function Installed(t: Tools, c: Code, dest: string, payload: string): (r: Option<Files>) {
    if Contains(c.contentType, "zip") then Extract(map[], Vol, t.unzip(payload))
    else if Contains(c.contentType, "compressedtar") then Extract(map[], Vol, t.untar(payload))
    else Some(map[Path(Vol, dest) := Data(payload)])
  }

  /** The dependency file in the runtime volume. */
  function InstalledDep(c: Code, table: Table, fs: Files): (r: Option<Files>) {
    match CopiedDep(c, table)
    case None => Some(map[])
    case Some(dep) =>
      if Bytes(fs, Path(Src, dep)).None? then None
      else Some(map[Path(Vol, Base(dep)) := fs[Path(Src, dep)]])
  }

  predicate ChecksOut(t: Tools, c: Code, payload: string) {
    CheckOf(c.checksum).Sha256? ==> SameDigest(t.sha256(payload), CheckOf(c.checksum).digest)
  }

  /** The direct specification, without commands: take the payload, check it, install it, add dependencies. */
  function Meaning(t: Tools, c: Code, fileName: string, table: Table, fs: Files): (r: Option<Files>) {
    var dest := Dest(c, table);
    var payload := Payload(t, c, fileName, fs);
    if payload.None? || !ChecksOut(t, c, payload.value) then None
    else
      var files := Installed(t, c, dest, payload.value);
      var dep := InstalledDep(c, table, fs);
      if files.None? || dep.None? then None else Some(Lasting(fs) + files.value + dep.value)
  }

  lemma FetchRuns(t: Tools, c: Code, fileName: string, fs: Files)
    ensures var r := RunAll(t, FetchCommands(c, fileName), fs);
            var payload := Payload(t, c, fileName, fs);
            && (OriginOf(c.contentType).FromBase64? || OriginOf(c.contentType).FromUrl? ==> (r.Some? <==> payload.Some?))
            && (r.Some? ==> Bytes(r.value, OriginFile(c, fileName)) == payload && Lasting(r.value) == Lasting(fs)
                            && forall n :: Bytes(r.value, Path(Src, n)) == Bytes(fs, Path(Src, n)))
  {
    var cs := FetchCommands(c, fileName);
    if cs != [] {
      assert cs[1..] == [];
      assert RunAll(t, cs, fs) == Exec(t, cs[0], fs);
    }
  }

  lemma CheckRuns(t: Tools, c: Code, origin: Path, fs: Files)
    requires origin != SUMS
    ensures var r := RunAll(t, CheckCommands(c, origin), fs);
            && (r.Some? <==> (CheckOf(c.checksum).Sha256? ==>
                                Bytes(fs, origin).Some? && ChecksOut(t, c, Bytes(fs, origin).value)))
            && (r.Some? ==> Bytes(r.value, origin) == Bytes(fs, origin) && Lasting(r.value) == Lasting(fs)
                            && forall n :: Bytes(r.value, Path(Src, n)) == Bytes(fs, Path(Src, n)))
  {
    var cs := CheckCommands(c, origin);
    if cs != [] {
      var mid := fs[SUMS := Sum(CheckOf(c.checksum).digest, origin)];
      assert cs[1..] == [CheckSum(SUMS)] && cs[1..][1..] == [];
      assert RunAll(t, cs[1..], mid) == Exec(t, CheckSum(SUMS), mid);
      assert Lasting(mid) == Lasting(fs);
    }
  }

  lemma InstallRuns(t: Tools, c: Code, origin: Path, dest: string, fs: Files)
    ensures var r := Exec(t, InstallCommand(c, origin, dest), fs);
            && (r.Some? <==> Bytes(fs, origin).Some? && Installed(t, c, dest, Bytes(fs, origin).value).Some?)
            && (r.Some? ==>
                  && Lasting(r.value) == Lasting(fs) + Installed(t, c, dest, Bytes(fs, origin).value).value
                  && forall n :: Bytes(r.value, Path(Src, n)) == Bytes(fs, Path(Src, n)))
  {
    if Bytes(fs, origin).Some? {
      InstallExec(t, c, origin, dest, fs);
      var files := Installed(t, c, dest, Bytes(fs, origin).value);
      if files.Some? {
        Landed(fs, fs + files.value, files.value);
      }
    }
  }

  /** Installing adds the installed files, all in the runtime volume. */
  lemma InstallExec(t: Tools, c: Code, origin: Path, dest: string, fs: Files)
    requires Bytes(fs, origin).Some?
    ensures var files := Installed(t, c, dest, Bytes(fs, origin).value);
            && Exec(t, InstallCommand(c, origin, dest), fs) == (if files.Some? then Some(fs + files.value) else None)
            && (files.Some? ==> forall p :: p in files.value ==> p.dir == Vol)
  {
    var bytes := Bytes(fs, origin).value;
    if Contains(c.contentType, "zip") {
      ExtractLands(fs, t.unzip(bytes));
    } else if Contains(c.contentType, "compressedtar") {
      ExtractLands(fs, t.untar(bytes));
    } else {
      CopyLands(fs, origin, Path(Vol, dest));
    }
  }

  lemma ExtractLands(fs: Files, entries: Option<map<string, string>>)
    ensures var files := Extract(map[], Vol, entries);
            && Extract(fs, Vol, entries) == (if files.Some? then Some(fs + files.value) else None)
            && (files.Some? ==> forall p :: p in files.value ==> p.dir == Vol)
  {
    if entries.Some? {
      assert map[] + Under(Vol, entries.value) == Under(Vol, entries.value);
    }
  }

  lemma CopyLands(fs: Files, origin: Path, dest: Path)
    requires Bytes(fs, origin).Some?
    ensures fs[dest := fs[origin]] == fs + map[dest := Data(Bytes(fs, origin).value)]
  {
  }

  /** Files that land in the runtime volume last, and leave the source volume alone. */
  lemma Landed(fs: Files, r: Files, files: Files)
    requires r == fs + files && forall p :: p in files ==> p.dir == Vol
    ensures Lasting(r) == Lasting(fs) + files
    ensures forall n :: Bytes(r, Path(Src, n)) == Bytes(fs, Path(Src, n))
  {
  }

  lemma DepRuns(t: Tools, c: Code, table: Table, fs: Files)
    ensures var r := RunAll(t, DepCommands(c, table), fs);
            && (r.Some? <==> InstalledDep(c, table, fs).Some?)
            && (r.Some? ==> Lasting(r.value) == Lasting(fs) + InstalledDep(c, table, fs).value)
  {
    var cs := DepCommands(c, table);
    if cs != [] {
      assert cs[1..] == [];
      assert RunAll(t, cs, fs) == Exec(t, cs[0], fs);
    }
  }

  /** Fetching and checking leave the checked payload in the origin file, or fail. */
  lemma CheckedPayload(t: Tools, c: Code, fileName: string, fs: Files)
    ensures var origin := OriginFile(c, fileName);
            var r := RunAll(t, FetchCommands(c, fileName) + CheckCommands(c, origin), fs);
            var payload := Payload(t, c, fileName, fs);
            && (r.Some? && Bytes(r.value, origin).Some? <==> payload.Some? && ChecksOut(t, c, payload.value))
            && (r.Some? ==> Bytes(r.value, origin) == payload && Lasting(r.value) == Lasting(fs)
                            && forall n :: Bytes(r.value, Path(Src, n)) == Bytes(fs, Path(Src, n)))
  {
    var origin := OriginFile(c, fileName);
    FetchRuns(t, c, fileName, fs);
    RunConcat(t, FetchCommands(c, fileName), CheckCommands(c, origin), fs);
    var r := RunAll(t, FetchCommands(c, fileName), fs);
    if r.Some? {
      CheckRuns(t, c, origin, r.value);
    }
  }

  /** Installing and adding dependencies, from any state that holds the payload in the origin file. */
  lemma InstallTail(t: Tools, c: Code, origin: Path, dest: string, table: Table, fs: Files)
    ensures var r := RunAll(t, [InstallCommand(c, origin, dest)] + DepCommands(c, table), fs);
            && (r.Some? <==> && Bytes(fs, origin).Some?
                             && Installed(t, c, dest, Bytes(fs, origin).value).Some?
                             && InstalledDep(c, table, fs).Some?)
            && (r.Some? ==> Lasting(r.value) == Lasting(fs) + Installed(t, c, dest, Bytes(fs, origin).value).value +
                                                InstalledDep(c, table, fs).value)
  {
    var i, d := InstallCommand(c, origin, dest), DepCommands(c, table);
    assert ([i] + d)[0] == i && ([i] + d)[1..] == d;
    InstallRuns(t, c, origin, dest, fs);
    var r := Exec(t, i, fs);
    if r.Some? {
      DepRuns(t, c, table, r.value);
      if CopiedDep(c, table).Some? {
        var dep := Path(Src, CopiedDep(c, table).value);
        assert Bytes(r.value, dep) == Bytes(fs, dep);
        assert Bytes(fs, dep).Some? ==> r.value[dep] == fs[dep];
      }
    }
  }

  /** The emitted commands do what the specification says: they fail exactly when it does, and leave exactly
      the files it names outside the scratch space. */
  lemma ProvisionMeaning(t: Tools, c: Code, fileName: string, table: Table, fs: Files)
    requires ProvisionCommands(c, fileName, table).Ok?
    ensures var r := RunAll(t, ProvisionCommands(c, fileName, table).value, fs);
            var m := Meaning(t, c, fileName, table, fs);
            (r.Some? <==> m.Some?) && (r.Some? ==> Lasting(r.value) == m.value)
  {
    var origin := OriginFile(c, fileName);
    var dest := Dest(c, table);
    var a, b := FetchCommands(c, fileName) + CheckCommands(c, origin), [InstallCommand(c, origin, dest)] + DepCommands(c, table);
    assert ProvisionCommands(c, fileName, table).value == a + b;
    CheckedPayload(t, c, fileName, fs);
    RunConcat(t, a, b, fs);
    var mid := RunAll(t, a, fs);
    if mid.Some? {
      InstallTail(t, c, origin, dest, table, mid.value);
      if CopiedDep(c, table).Some? {
        var dep := Path(Src, CopiedDep(c, table).value);
        assert Bytes(mid.value, dep) == Bytes(fs, dep);
        assert Bytes(fs, dep).Some? ==> mid.value[dep] == fs[dep];
      }
    }
  }

  // ---- outcomes and files, over the fields of the spec ----

  lemma ChecksumRead(checksum: string, digest: string)
    ensures CheckOf(checksum).NoDigest? <==> checksum == "sha256"
    ensures CheckOf(checksum).Sha256? <==> "sha256:" <= checksum
    ensures ':' !in digest && checksum == "sha256:" + digest ==> CheckOf(checksum) == Sha256(digest)
  {
    SplitHead(checksum, ':');
    SplitNone("sha256", ':');
    if "sha256:" <= checksum {
      var rest := checksum[|"sha256:"|..];
      SplitFirst("sha256", ':', rest);
      assert checksum == "sha256" + [':'] + rest;
    }
    if ':' !in digest && checksum == "sha256:" + digest {
      SplitNone(digest, ':');
      assert checksum[|"sha256:"|..] == digest;
    }
  }

  /** When there is a command: for a known content type, a checksum that is empty or names SHA-256, and for a single
      file a handler that can be split. A checksum without digest panics. */
  lemma ProvisionOutcome(c: Code, fileName: string, table: Table)
    ensures var known := c.contentType == "" || Contains(c.contentType, "text") ||
                         Contains(c.contentType, "base64") || Contains(c.contentType, "url");
            var archive := Contains(c.contentType, "zip") || Contains(c.contentType, "compressedtar");
            && (ProvisionCommands(c, fileName, table).Panic? <==> known && c.checksum == "sha256")
            && (ProvisionCommands(c, fileName, table).Ok? <==>
                  && known && (c.checksum == "" || "sha256:" <= c.checksum)
                  && (archive || SplitHandler(c.handler).Some?))
  {
    ChecksumRead(c.checksum, "");
    assert CheckOf("").NoCheck?;
  }

  /** A recorded digest that the function bytes do not have fails the container. */
  lemma ChecksumDecides(t: Tools, c: Code, fileName: string, table: Table, fs: Files, digest: string)
    requires c.checksum == "sha256:" + digest && ':' !in digest
    requires ProvisionCommands(c, fileName, table).Ok?
    ensures RunAll(t, ProvisionCommands(c, fileName, table).value, fs).Some? ==>
              Payload(t, c, fileName, fs).Some? && SameDigest(t.sha256(Payload(t, c, fileName, fs).value), digest)
  {
    ChecksumRead(c.checksum, digest);
    ProvisionMeaning(t, c, fileName, table, fs);
  }

  /** The runtime's dependency file, unless the archive brings its own. */
  predicate WantsDep(c: Code, table: Table, dep: string) {
    GetRuntimeInfo(table, c.runtime).Some? && dep == GetRuntimeInfo(table, c.runtime).value.depName && dep != "" &&
    !Contains(c.contentType, "deps")
  }

  /** A passing container leaves the dependency file, which wins over a member of its name. */
  lemma DepInstalled(t: Tools, c: Code, fileName: string, table: Table, fs: Files, dep: string)
    requires Meaning(t, c, fileName, table, fs).Some? && '/' !in dep && WantsDep(c, table, dep)
    ensures var m := Meaning(t, c, fileName, table, fs).value;
            Path(Src, dep) in fs && Path(Vol, dep) in m && m[Path(Vol, dep)] == fs[Path(Src, dep)]
  {
    SplitNone(dep, '/');
    assert Path(Vol, dep) in InstalledDep(c, table, fs).value;
  }

  /** It leaves the members of the zip or tar, or the one code file, each with its bytes. */
  lemma FilesInstalled(t: Tools, c: Code, fileName: string, table: Table, fs: Files)
    requires Meaning(t, c, fileName, table, fs).Some?
    ensures var m, bytes := Meaning(t, c, fileName, table, fs).value, Payload(t, c, fileName, fs).value;
            && (Contains(c.contentType, "zip") ==>
                  t.unzip(bytes).Some? && forall e :: e in t.unzip(bytes).value && KeptFrom(c, table, e) ==>
                    Bytes(m, Path(Vol, e)) == Some(t.unzip(bytes).value[e]))
            && (!Contains(c.contentType, "zip") && Contains(c.contentType, "compressedtar") ==>
                  t.untar(bytes).Some? && forall e :: e in t.untar(bytes).value && KeptFrom(c, table, e) ==>
                    Bytes(m, Path(Vol, e)) == Some(t.untar(bytes).value[e]))
            && (!Contains(c.contentType, "zip") && !Contains(c.contentType, "compressedtar") && FileName(c, table).Some?
                && KeptFrom(c, table, FileName(c, table).value) ==>
                  Bytes(m, Path(Vol, FileName(c, table).value)) == Some(bytes))
  {
    var bytes := Payload(t, c, fileName, fs).value;
    var files, deps := Installed(t, c, Dest(c, table), bytes).value, InstalledDep(c, table, fs).value;
    Overlaid(Lasting(fs), files, deps);
  }

  /** No dependency file takes this name. */
  predicate KeptFrom(c: Code, table: Table, name: string) {
    GetRuntimeInfo(table, c.runtime).Some? ==> name != Base(GetRuntimeInfo(table, c.runtime).value.depName)
  }

  lemma Overlaid(a: Files, b: Files, d: Files)
    ensures forall p :: p in d ==> p in a + b + d && (a + b + d)[p] == d[p]
    ensures forall p :: p in b && p !in d ==> p in a + b + d && (a + b + d)[p] == b[p]
  {
  }
}

/** From the file given on the command line to the files in the pod: content types and checksums chosen by the
    CLI, the ConfigMap, and the prepare command together. */
module Delivery {
  import opened Common
  import opened Strings
  import opened Runtimes
  import opened Provision
  import Base64

  // ---- the source volume ----

  function Reads(c: Cmd): (r: set<Path>) {
    match c
    case Decode(src, _) => {src}
    case Fetch(_, _) => {}
    case WriteSum(_, file, _) => {file}
    case CheckSum(sums) => {sums}
    case Unzip(src, _) => {src}
    case Untar(src, _) => {src}
    case Copy(src, _) => {src}
    case CopyInto(src, _) => {src}
  }

  lemma HandlerPresent(c: Code, table: Table)
    requires FileName(c, table).Some?
    ensures c.handler != ""
  {
    assert Split("", '.') == [""];
  }

  lemma DataValues(c: Code, table: Table, name: string)
    requires FileName(c, table) == Some(name)
    ensures ConfigMapData(c, table).Ok?
    ensures var data := ConfigMapData(c, table).value;
            && name in data
            && (DepName(c, table).Some? ==> DepName(c, table).value in data && data[DepName(c, table).value] == c.deps)
            && (data[name] == c.source <==> DepName(c, table) != Some(name) || c.deps == c.source)
  {
    HandlerPresent(c, table);
  }

  lemma SourceReads(c: Code, table: Table, name: string, cmd: Cmd, n: string)
    requires ProvisionCommands(c, name, table).Ok? && cmd in ProvisionCommands(c, name, table).value
    requires Path(Src, n) in Reads(cmd)
    ensures CopiedDep(c, table) == Some(n) || (n == name && OriginOf(c.contentType) != FromUrl)
  {
    var origin := OriginFile(c, name);
    assert || cmd in FetchCommands(c, name) || cmd in CheckCommands(c, origin)
           || cmd == InstallCommand(c, origin, Dest(c, table)) || cmd in DepCommands(c, table);
  }

  /** Every file the prepare command takes from the source volume is a key of the ConfigMap ensured for the
      same spec. It is the dependency file, holding the dependencies, or the code file, which holds the code
      exactly unless the dependency file has taken its name with other text. */
  lemma SourceAgreement(c: Code, table: Table, name: string, cmd: Cmd, n: string)
    requires FileName(c, table) == Some(name) && ProvisionCommands(c, name, table).Ok?
    requires cmd in ProvisionCommands(c, name, table).value && Path(Src, n) in Reads(cmd)
    ensures ConfigMapData(c, table).Ok? && n in ConfigMapData(c, table).value
    ensures var data := ConfigMapData(c, table).value;
            || (CopiedDep(c, table) == Some(n) && data[n] == c.deps)
            || (&& n == name && OriginOf(c.contentType) != FromUrl
                && (data[n] == c.source <==> DepName(c, table) != Some(name) || c.deps == c.source))
  {
    DataValues(c, table, name);
    SourceReads(c, table, name, cmd, n);
  }

  // ---- the command line ----

  /** What the CLI sees: files on disk, the network, and two byte-level functions. */
  datatype World = World(files: map<string, string>, net: map<string, string>,
                         validUtf8: string -> bool, sha256: string -> string)
  {
    ghost predicate Valid() {
      && (forall f :: f in files ==> Base64.IsBytes(files[f]))
      && (forall b :: ':' !in sha256(b) && LowerHex(sha256(b)) == sha256(b))
    }
  }

  const TAR_SUFFIXES := [".tar.gz", ".taz", ".tgz", ".tar.bz2", ".tb2", ".tbz", ".tbz2", ".tz2", ".tar.xz"]

  predicate IsTar(file: string) {
    exists i :: 0 <= i < |TAR_SUFFIXES| && HasSuffix(file, TAR_SUFFIXES[i])
  }

  function CompressionType(file: string): (r: string)
    ensures r == "" || r == "+zip" || r == "+compressedtar"
  {
    if IsTar(file) then "+compressedtar" else if HasSuffix(file, ".zip") then "+zip" else ""
  }

  method GetCompressionType(file: string) returns (r: string)
    ensures r == CompressionType(file)
  {
    r := "";
    if HasSuffix(file, ".zip") {
      r := "+zip";
    }
    for i := 0 to |TAR_SUFFIXES|
      invariant forall k :: 0 <= k < i ==> !HasSuffix(file, TAR_SUFFIXES[k])
      invariant r == if HasSuffix(file, ".zip") then "+zip" else ""
    {
      if HasSuffix(file, TAR_SUFFIXES[i]) {
        r := "+compressedtar";
        break;
      }
    }
  }

  predicate IsUrl(file: string) { "http://" <= file || "https://" <= file }

  function GetContentType(w: World, file: string): (r: Option<string>) {
    if IsUrl(file) then Some("url" + CompressionType(Split(file, '?')[0]))
    else if file !in w.files then None
    else Some((if w.validUtf8(w.files[file]) then "text" else "base64") + CompressionType(file))
  }

  /** Content and checksum. Only the exact type "text" is stored as it is. */
  function ParseContent(w: World, file: string, contentType: string): (r: Option<(string, string)>)
    requires file in w.files ==> Base64.IsBytes(w.files[file])
  {
    if Contains(contentType, "url") then
      if file in w.net then Some((w.net[file], "sha256:" + w.sha256(w.net[file]))) else None
    else if file !in w.files then None
    else
      Some((if contentType == "text" then w.files[file] else Base64.Encode(w.files[file]),
            "sha256:" + w.sha256(w.files[file])))
  }

  datatype Described = Described(source: string, checksum: string, contentType: string)

  /** The code fields getFunctionDescription fills in for a file. */
  function Describe(w: World, file: string): (r: Option<Described>)
    requires file in w.files ==> Base64.IsBytes(w.files[file])
  {
    match GetContentType(w, file)
    case None => None
    case Some(ct) =>
      match ParseContent(w, file, ct)
      case None => None
      case Some((content, checksum)) => Some(Described(if Contains(ct, "url") then file else content, checksum, ct))
  }

  /** The bytes the user meant. */
  function Original(w: World, file: string): (r: string)
    requires file in (if IsUrl(file) then w.net else w.files)
  {
    if IsUrl(file) then w.net[file] else w.files[file]
  }

  /** A local archive whose bytes happen to be valid UTF-8. */
  predicate TextArchive(w: World, file: string) {
    !IsUrl(file) && file in w.files && w.validUtf8(w.files[file]) && CompressionType(file) != "" && w.files[file] != ""
  }

  // ---- reading content types ----

  lemma Missing(s: string, sub: string, c: char)
    requires c in sub && c !in s
    ensures !Contains(s, sub)
  {
  }

  lemma AtStart(a: string, b: string)
    ensures Contains(a + b, a)
  {
    assert (a + b)[0..] == a + b;
  }

  lemma AtEnd(a: string, b: string, sub: string)
    requires a + sub == b
    ensures Contains(b, sub)
  {
    assert b[|a|..] == sub;
  }

  lemma OriginFlags(base: string, ext: string)
    requires base == "text" || base == "base64" || base == "url"
    requires ext == "" || ext == "+zip" || ext == "+compressedtar"
    ensures OriginOf(base + ext) == if base == "base64" then FromBase64 else if base == "url" then FromUrl else Plain
    ensures Contains(base + ext, "url") <==> base == "url"
  {
    AtStart(base, ext);
    if base != "base64" {
      Missing(base + ext, "base64", '6');
    }
    if base != "url" {
      Missing(base + ext, "url", 'u');
    }
  }

  lemma ArchiveFlags(base: string, ext: string)
    requires base == "text" || base == "base64" || base == "url"
    requires ext == "" || ext == "+zip" || ext == "+compressedtar"
    ensures Contains(base + ext, "zip") <==> ext == "+zip"
    ensures Contains(base + ext, "compressedtar") <==> ext == "+compressedtar"
  {
    ZipFlag(base, ext);
    if ext == "+compressedtar" {
      AtEnd(base + "+", base + ext, "compressedtar");
    } else {
      Missing(base + ext, "compressedtar", 'm');
    }
  }

  lemma ZipFlag(base: string, ext: string)
    requires base == "text" || base == "base64" || base == "url"
    requires ext == "" || ext == "+zip" || ext == "+compressedtar"
    ensures Contains(base + ext, "zip") <==> ext == "+zip"
  {
    if ext == "+zip" {
      AtEnd(base + "+", base + ext, "zip");
    } else {
      Missing(base + ext, "zip", 'z');
    }
  }

  // ---- the round trip ----

  /** The ConfigMap is mounted as the source volume. */
  ghost predicate Mounted(fs: Files, data: map<string, string>) {
    forall n :: n in data ==> Path(Src, n) in fs && fs[Path(Src, n)] == Data(data[n])
  }

  lemma ChecksumParses(digest: string)
    requires ':' !in digest
    ensures CheckOf("sha256:" + digest) == Sha256(digest)
  {
    assert "sha256:" + digest == "sha256" + [':'] + digest;
    SplitFirst("sha256", ':', digest);
    SplitNone(digest, ':');
  }

  /** The spec c carries what the CLI stored for file; its ConfigMap is mounted in the pod, under a code file
      name that is not the dependency file's; the pod's tools and network agree with what the CLI used. */
  ghost predicate Delivers(w: World, file: string, c: Code, name: string, table: Table, t: Tools, fs: Files) {
    && w.Valid() && Describe(w, file).Some?
    && Describe(w, file).value == Described(c.source, c.checksum, c.contentType)
    && FileName(c, table) == Some(name) && DepName(c, table) != Some(name)
    && ConfigMapData(c, table).Ok? && Mounted(fs, ConfigMapData(c, table).value)
    && t.unbase64 == Base64.Decode && t.sha256 == w.sha256
    && (IsUrl(file) ==> file in t.net && file in w.net && t.net[file] == w.net[file])
    && file in (if IsUrl(file) then w.net else w.files)
  }

  /** What the prepare command takes as the function bytes, for whatever the CLI stored. */
  lemma StoredPayload(w: World, file: string, c: Code, name: string, table: Table, t: Tools, fs: Files)
    requires Delivers(w, file, c, name, table, t, fs)
    ensures !OriginOf(c.contentType).Unknown? && CheckOf(c.checksum) == Sha256(w.sha256(Original(w, file)))
    ensures Payload(t, c, name, fs) ==
            Some(if TextArchive(w, file) then Base64.Encode(w.files[file]) else Original(w, file))
  {
    DataValues(c, table, name);
    assert Bytes(fs, Path(Src, name)) == Some(c.source);
    if IsUrl(file) {
      OriginFlags("url", CompressionType(Split(file, '?')[0]));
      ChecksumParses(w.sha256(w.net[file]));
    } else {
      OriginFlags(if w.validUtf8(w.files[file]) then "text" else "base64", CompressionType(file));
      ChecksumParses(w.sha256(w.files[file]));
      Base64.RoundTrip(w.files[file]);
      Base64.EncodeGrows(w.files[file]);
    }
  }

  lemma DepMounted(w: World, file: string, c: Code, name: string, table: Table, t: Tools, fs: Files)
    requires Delivers(w, file, c, name, table, t, fs)
    ensures InstalledDep(c, table, fs).Some?
  {
    DataValues(c, table, name);
  }

  /** Except for text archives the stored content, type and checksum make the prepare commands, wherever they
      are run, pass exactly when the original can be unpacked, and install exactly what the original bytes give,
      next to the dependency file. */
  lemma CommandsInstall(w: World, file: string, c: Code, name: string, table: Table, t: Tools, fs: Files)
    requires Delivers(w, file, c, name, table, t, fs) && !TextArchive(w, file)
    ensures ProvisionCommands(c, name, table).Ok? && InstalledDep(c, table, fs).Some?
    ensures var r := RunAll(t, ProvisionCommands(c, name, table).value, fs);
            var files := Installed(t, c, name, Original(w, file));
            && (r.Some? <==> files.Some?)
            && (r.Some? ==> Lasting(r.value) == Lasting(fs) + files.value + InstalledDep(c, table, fs).value)
  {
    StoredPayload(w, file, c, name, table, t, fs);
    ProvisionMeaning(t, c, name, table, fs);
    DepMounted(w, file, c, name, table, t, fs);
  }

  /** For a file that is not an archive that means: they leave the very bytes of the file. */
  lemma CommandsInstallFile(w: World, file: string, c: Code, name: string, table: Table, t: Tools, fs: Files)
    requires Delivers(w, file, c, name, table, t, fs)
    requires CompressionType(if IsUrl(file) then Split(file, '?')[0] else file) == ""
    requires CopiedDep(c, table).Some? ==> Base(CopiedDep(c, table).value) != name
    ensures ProvisionCommands(c, name, table).Ok?
    ensures var r := RunAll(t, ProvisionCommands(c, name, table).value, fs);
            r.Some? && Bytes(r.value, Path(Vol, name)) == Some(Original(w, file))
  {
    CommandsInstall(w, file, c, name, table, t, fs);
    SingleFile(w, file);
    var files := Installed(t, c, name, Original(w, file));
    assert files == Some(map[Path(Vol, name) := Data(Original(w, file))]);
    var r := RunAll(t, ProvisionCommands(c, name, table).value, fs).value;
    DepElsewhere(c, table, name, fs);
    assert Lasting(r)[Path(Vol, name)] == Data(Original(w, file));
  }

  lemma SingleFile(w: World, file: string)
    requires w.Valid() && Describe(w, file).Some?
    requires CompressionType(if IsUrl(file) then Split(file, '?')[0] else file) == ""
    ensures !Archive(Describe(w, file).value.contentType)
  {
    var base := if IsUrl(file) then "url" else if w.validUtf8(w.files[file]) then "text" else "base64";
    ArchiveFlags(base, "");
    assert Describe(w, file).value.contentType == base + "";
  }

  lemma DepElsewhere(c: Code, table: Table, name: string, fs: Files)
    requires InstalledDep(c, table, fs).Some?
    requires CopiedDep(c, table).Some? ==> Base(CopiedDep(c, table).value) != name
    ensures Path(Vol, name) !in InstalledDep(c, table, fs).value
  {
  }

  /** The excluded family really fails: a non-empty local archive with valid UTF-8 bytes is stored in base 64
      but provisioned as text, so its checksum never matches. */
  lemma TextArchiveFails(w: World, file: string, c: Code, name: string, table: Table, t: Tools, fs: Files)
    requires Delivers(w, file, c, name, table, t, fs) && TextArchive(w, file)
    requires var b := w.files[file]; w.sha256(Base64.Encode(b)) == w.sha256(b) ==> Base64.Encode(b) == b
    ensures ProvisionCommands(c, name, table).Ok?
    ensures RunAll(t, ProvisionCommands(c, name, table).value, fs).None?
  {
    StoredPayload(w, file, c, name, table, t, fs);
    Base64.EncodeGrows(w.files[file]);
    ProvisionMeaning(t, c, name, table, fs);
  }

  /** The file names taken for archives. */
  lemma ArchiveNames(stem: string)
    ensures CompressionType(stem + ".zip") == "+zip"
    ensures CompressionType(stem + ".tar.gz") == CompressionType(stem + ".tgz") == CompressionType(stem + ".taz") == "+compressedtar"
    ensures CompressionType(stem + ".tar.bz2") == CompressionType(stem + ".tbz2") == CompressionType(stem + ".tbz") == "+compressedtar"
    ensures CompressionType(stem + ".tb2") == CompressionType(stem + ".tz2") == CompressionType(stem + ".tar.xz") == "+compressedtar"
  {
    Suffixed(stem, 0);
    Suffixed(stem, 1);
    Suffixed(stem, 2);
    Suffixed(stem, 3);
    Suffixed(stem, 4);
    Suffixed(stem, 5);
    Suffixed(stem, 6);
    Suffixed(stem, 7);
    Suffixed(stem, 8);
    var zip := stem + ".zip";
    assert zip[|zip| - 4..] == ".zip" && zip[|zip| - 1] == 'p';
    assert forall i :: 0 <= i < |TAR_SUFFIXES| ==> TAR_SUFFIXES[i][|TAR_SUFFIXES[i]| - 1] != 'p';
    NoTar(zip);
  }

  lemma Suffixed(stem: string, i: nat)
    requires i < |TAR_SUFFIXES|
    ensures CompressionType(stem + TAR_SUFFIXES[i]) == "+compressedtar"
  {
    var file, suffix := stem + TAR_SUFFIXES[i], TAR_SUFFIXES[i];
    assert file[|file| - |suffix|..] == suffix;
    assert HasSuffix(file, TAR_SUFFIXES[i]);
  }

  lemma NoTar(file: string)
    requires file != "" && file[|file| - 1] == 'p'
    ensures !IsTar(file)
  {
    forall i | 0 <= i < |TAR_SUFFIXES|
      ensures !HasSuffix(file, TAR_SUFFIXES[i])
    {
      var suffix := TAR_SUFFIXES[i];
      assert suffix != "" && suffix[|suffix| - 1] != 'p';
      assert |suffix| <= |file| ==> file[|file| - |suffix|..][|suffix| - 1] == file[|file| - 1];
    }
  }
}

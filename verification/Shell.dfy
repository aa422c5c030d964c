/** What the text of a container's command means: words, quotes, redirections and && of the shell, and the programs
    getProvisionContainer and GetBuildContainer call, over the file map of Provision. */
module Shell {
  import opened Common
  import opened Strings
  import opened Runtimes
  import opened Provision

  // ---- words ----

  datatype Token = Word(text: string) | And | In | Out

  predicate Unquoted(c: char) { c != ' ' && c != '\'' }

  predicate Inside(c: char) { c != '\'' }

  function Classify(w: string): (r: Token) {
    if w == "&&" then And else if w == "<" then In else if w == ">" then Out else Word(w)
  }

  lemma {:induction false} LeadingShort(p: char -> bool, s: string)
    ensures |Leading(p, s)| <= |s| && (s != "" && p(s[0]) ==> Leading(p, s) != "")
  {
    if s != [] && p(s[0]) {
      LeadingShort(p, s[1..]);
    }
  }

  /** Blanks separate words; a word in single quotes stands for what is between them. */
  function Lex(s: string): (r: seq<Token>)
    decreases |s|
  {
    if s == "" then []
    else if s[0] == ' ' then Lex(s[1..])
    else if s[0] == '\'' then
      var w := Leading(Inside, s[1..]);
      LeadingShort(Inside, s[1..]);
      [Word(w)] + (if |w| + 2 <= |s| then Lex(s[|w| + 2..]) else [])
    else
      var w := Leading(Unquoted, s);
      LeadingShort(Unquoted, s);
      [Classify(w)] + Lex(s[|w|..])
  }

  /** A word as it is written. */
  datatype Raw = Bare(text: string) | Quoted(text: string)

  function Written(r: Raw): (s: string) { if r.Bare? then r.text else "'" + r.text + "'" }

  function Meant(r: Raw): (t: Token) { if r.Bare? then Classify(r.text) else Word(r.text) }

  /** The word can be read back: a bare one has neither blanks nor quotes, a quoted one no quotes. */
  predicate Readable(r: Raw) { if r.Bare? then r.text != "" && All(Unquoted, r.text) else All(Inside, r.text) }

  function Glue(rs: seq<Raw>): (s: string) {
    if rs == [] then "" else if |rs| == 1 then Written(rs[0]) else Written(rs[0]) + " " + Glue(rs[1..])
  }

  function MeantAll(rs: seq<Raw>): (r: seq<Token>)
    ensures |r| == |rs| && forall i :: 0 <= i < |rs| ==> r[i] == Meant(rs[i])
  {
    seq(|rs|, i requires 0 <= i < |rs| => Meant(rs[i]))
  }

  ghost predicate ReadableAll(rs: seq<Raw>) { forall i :: 0 <= i < |rs| ==> Readable(rs[i]) }

  /** One word in front of the rest of a line, or of nothing. */
  lemma LexWord(r: Raw, rest: string)
    requires Readable(r)
    ensures Lex(Written(r) + " " + rest) == [Meant(r)] + Lex(rest)
    ensures Lex(Written(r)) == [Meant(r)]
  {
    if r.Bare? {
      LexBare(r.text, rest);
    } else {
      LexQuoted(r.text, rest);
    }
  }

  lemma LexBare(w: string, rest: string)
    requires w != "" && All(Unquoted, w)
    ensures Lex(w + " " + rest) == [Classify(w)] + Lex(rest)
    ensures Lex(w) == [Classify(w)]
  {
    assert Unquoted(w[0]);
    LeadingOf(Unquoted, w, " " + rest);
    assert w + " " + rest == w + (" " + rest);
    assert (w + " " + rest)[|w|..] == " " + rest && (" " + rest)[1..] == rest;
    LeadingOf(Unquoted, w, "");
    assert w + "" == w && w[|w|..] == "";
  }

  lemma LexQuoted(w: string, rest: string)
    requires All(Inside, w)
    ensures Lex("'" + w + "'" + " " + rest) == [Word(w)] + Lex(rest)
    ensures Lex("'" + w + "'") == [Word(w)]
  {
    var s := "'" + w + "'" + " " + rest;
    assert s[1..] == w + ("'" + " " + rest);
    LeadingOf(Inside, w, "'" + " " + rest);
    assert s[|w| + 2..] == " " + rest && (" " + rest)[1..] == rest;
    var e := "'" + w + "'";
    assert e[1..] == w + "'";
    LeadingOf(Inside, w, "'");
    assert e[|w| + 2..] == "";
  }

  /** Words glued together are read back one by one, whatever follows them. */
  lemma {:induction false} LexGlue(rs: seq<Raw>, rest: string)
    requires rs != [] && ReadableAll(rs)
    ensures Lex(Glue(rs) + " " + rest) == MeantAll(rs) + Lex(rest)
    ensures Lex(Glue(rs)) == MeantAll(rs)
  {
    if |rs| == 1 {
      LexWord(rs[0], rest);
      MeantCons(rs);
    } else {
      LexGlue(rs[1..], rest);
      MeantCons(rs);
      LexMore(rs[0], Glue(rs[1..]), MeantAll(rs[1..]), rest);
    }
  }

  lemma MeantCons(rs: seq<Raw>)
    requires rs != []
    ensures MeantAll(rs) == [Meant(rs[0])] + MeantAll(rs[1..])
    ensures |rs| == 1 ==> MeantAll(rs) == [Meant(rs[0])]
  {
  }

  lemma LexMore(r: Raw, tail: string, k: seq<Token>, rest: string)
    requires Readable(r) && Lex(tail) == k && Lex(tail + " " + rest) == k + Lex(rest)
    ensures Lex(Written(r) + " " + tail) == [Meant(r)] + k
    ensures Lex(Written(r) + " " + tail + " " + rest) == [Meant(r)] + k + Lex(rest)
  {
    LexWord(r, tail);
    LexLine(r, tail, rest, k, Lex(rest));
  }

  lemma LexLine(r: Raw, tail: string, rest: string, k: seq<Token>, more: seq<Token>)
    requires Readable(r) && Lex(tail + " " + rest) == k + more
    ensures Lex(Written(r) + " " + tail + " " + rest) == [Meant(r)] + k + more
  {
    Regroup(Written(r), tail, rest);
    LexWord(r, tail + " " + rest);
    assert [Meant(r)] + (k + more) == [Meant(r)] + k + more;
  }

  lemma Regroup(a: string, b: string, c: string)
    ensures a + " " + b + " " + c == a + " " + (b + " " + c)
  {
  }

  // ---- programs ----

  function PathOf(s: string): (r: Option<Path>) {
    if "/src/" <= s then Some(Path(Src, s[5..]))
    else if "/kubeless/" <= s then Some(Path(Vol, s[10..]))
    else if "/tmp/" <= s then Some(Path(Tmp, s[5..]))
    else None
  }

  function DirOf(s: string): (r: Option<Dir>) {
    if s == "/src" then Some(Src) else if s == "/kubeless" then Some(Vol) else if s == "/tmp" then Some(Tmp) else None
  }

  predicate NoBlank(c: char) { c != ' ' }

  /** A line of text in a file: if it reads as digest, two blanks and file, it is a checksum list. */
  function LineFile(s: string): (r: File) {
    var digest := Leading(NoBlank, s);
    if digest + "  " <= s && PathOf(s[|digest| + 2..]).Some? then Sum(digest, PathOf(s[|digest| + 2..]).value) else Data(s)
  }

  /** Every other program, by its words. */
  type Programs = (seq<Token>, Files) -> Option<Files>

  function Read(fs: Files, path: string): (r: Option<string>) {
    match PathOf(path) case Some(p) => Bytes(fs, p) case None => None
  }

  function Save(fs: Files, path: string, file: File): (r: Option<Files>) {
    match PathOf(path) case Some(p) => Some(fs[p := file]) case None => None
  }

  function Unpack(fs: Files, dir: string, entries: Option<map<string, string>>): (r: Option<Files>) {
    match DirOf(dir) case Some(d) => Extract(fs, d, entries) case None => None
  }

  predicate Is(k: seq<Token>, i: nat, w: string) { i < |k| && k[i] == Word(w) }

  predicate IsWord(k: seq<Token>, i: nat) { i < |k| && k[i].Word? }

  /** base64 -d < FILE > FILE */
  function Base64Decode(t: Tools, src: string, dst: string, fs: Files): (r: Option<Files>) {
    match Read(fs, src)
    case None => None
    case Some(b) => match t.unbase64(b) case None => None case Some(d) => Save(fs, dst, Data(d))
  }

  /** cp FILE FILE or cp FILE DIRECTORY */
  function CopyFile(src: string, dst: string, fs: Files): (r: Option<Files>) {
    match (Read(fs, src), PathOf(src))
    case (Some(b), Some(p)) =>
      (match DirOf(dst)
       case Some(d) => Some(fs[Path(d, Base(p.name)) := Data(b)])
       case None => Save(fs, dst, Data(b)))
    case _ => None
  }

  /** sha256sum -c FILE */
  function CheckSums(t: Tools, list: string, fs: Files): (r: Option<Files>) {
    match PathOf(list)
    case None => None
    case Some(p) =>
      if p in fs && fs[p].Sum? && Bytes(fs, fs[p].path).Some? &&
         SameDigest(t.sha256(Bytes(fs, fs[p].path).value), fs[p].digest) then Some(fs) else None
  }

  /** One simple command; None is a non-zero exit. */
  function ExecWords(t: Tools, other: Programs, k: seq<Token>, fs: Files): (r: Option<Files>) {
    if |k| == 6 && Is(k, 0, "base64") && Is(k, 1, "-d") && k[2] == In && IsWord(k, 3) && k[4] == Out && IsWord(k, 5) then
      Base64Decode(t, k[3].text, k[5].text, fs)
    else if |k| == 6 && Is(k, 0, "curl") && IsWord(k, 1) && Is(k, 2, "-L") && Is(k, 3, "--silent") && Is(k, 4, "--output") && IsWord(k, 5) then
      if k[1].text in t.net then Save(fs, k[5].text, Data(t.net[k[1].text])) else None
    else if |k| == 4 && Is(k, 0, "echo") && IsWord(k, 1) && k[2] == Out && IsWord(k, 3) then Save(fs, k[3].text, LineFile(k[1].text))
    else if |k| == 3 && Is(k, 0, "sha256sum") && Is(k, 1, "-c") && IsWord(k, 2) then CheckSums(t, k[2].text, fs)
    else if |k| == 5 && Is(k, 0, "unzip") && Is(k, 1, "-o") && IsWord(k, 2) && Is(k, 3, "-d") && IsWord(k, 4) then
      match Read(fs, k[2].text) case None => None case Some(b) => Unpack(fs, k[4].text, t.unzip(b))
    else if |k| == 5 && Is(k, 0, "tar") && Is(k, 1, "xf") && IsWord(k, 2) && Is(k, 3, "-C") && IsWord(k, 4) then
      match Read(fs, k[2].text) case None => None case Some(b) => Unpack(fs, k[4].text, t.untar(b))
    else if |k| == 3 && Is(k, 0, "cp") && IsWord(k, 1) && IsWord(k, 2) then CopyFile(k[1].text, k[2].text, fs)
    else other(k, fs)
  }

  function FirstAnd(k: seq<Token>): (n: nat)
    ensures n <= |k| && (n < |k| ==> k[n] == And) && forall i :: 0 <= i < n ==> k[i] != And
  {
    if k == [] then 0 else if k[0] == And then 0 else 1 + FirstAnd(k[1..])
  }

  function RunWords(t: Tools, other: Programs, k: seq<Token>, fs: Files): (r: Option<Files>)
    decreases |k|
  {
    var n := FirstAnd(k);
    match ExecWords(t, other, k[..n], fs)
    case None => None
    case Some(next) => if n == |k| then Some(next) else RunWords(t, other, k[n + 1..], next)
  }

  /** Running the text of a command. */
  function RunText(t: Tools, other: Programs, text: string, fs: Files): (r: Option<Files>) { RunWords(t, other, Lex(text), fs) }

  // ---- the commands of the source as words ----

  function Words(c: Cmd): (r: seq<Raw>)
    ensures r != []
  {
    match c
    case Decode(src, dst) => [Bare("base64"), Bare("-d"), Bare("<"), Bare(Text(src)), Bare(">"), Bare(Text(dst))]
    case Fetch(url, dst) => [Bare("curl"), Quoted(url), Bare("-L"), Bare("--silent"), Bare("--output"), Bare(Text(dst))]
    case WriteSum(digest, file, dst) => [Bare("echo"), Quoted(digest + "  " + Text(file)), Bare(">"), Bare(Text(dst))]
    case CheckSum(sums) => [Bare("sha256sum"), Bare("-c"), Bare(Text(sums))]
    case Unzip(src, dir) => [Bare("unzip"), Bare("-o"), Bare(Text(src)), Bare("-d"), Bare(DirText(dir))]
    case Untar(src, dir) => [Bare("tar"), Bare("xf"), Bare(Text(src)), Bare("-C"), Bare(DirText(dir))]
    case Copy(src, dst) => [Bare("cp"), Bare(Text(src)), Bare(Text(dst))]
    case CopyInto(src, dir) => [Bare("cp"), Bare(Text(src)), Bare(DirText(dir))]
  }

  /** A name the shell takes as it is. */
  predicate PlainName(s: string) { s != "" && All(Unquoted, s) }

  /** Names, URLs and digests without blanks or quotes. */
  predicate PlainCmd(c: Cmd) {
    match c
    case Decode(src, dst) => PlainName(src.name) && PlainName(dst.name)
    case Fetch(url, dst) => All(Inside, url) && PlainName(dst.name)
    case WriteSum(digest, file, dst) => All(Unquoted, digest) && PlainName(file.name) && PlainName(dst.name)
    case CheckSum(sums) => PlainName(sums.name)
    case Unzip(src, _) => PlainName(src.name)
    case Untar(src, _) => PlainName(src.name)
    case Copy(src, dst) => PlainName(src.name) && PlainName(dst.name)
    case CopyInto(src, _) => PlainName(src.name)
  }

  lemma PathRead(p: Path)
    ensures PathOf(Text(p)) == Some(p) && DirOf(Text(p)) == None
    ensures PlainName(p.name) ==> All(Unquoted, Text(p)) && Text(p) != "" && Classify(Text(p)) == Word(Text(p))
  {
    var s := Text(p);
    assert s[0] == '/';
    match p.dir
    case Src => assert s == "/src/" + p.name && s[5..] == p.name && s[1] == 's';
    case Vol => assert s == "/kubeless/" + p.name && s[10..] == p.name && s[1] == 'k';
    case Tmp => assert s == "/tmp/" + p.name && s[5..] == p.name && s[1] == 't';
  }

  lemma DirRead(d: Dir)
    ensures DirOf(DirText(d)) == Some(d) && All(Unquoted, DirText(d)) && Classify(DirText(d)) == Word(DirText(d))
  {
  }

  lemma LineRead(digest: string, p: Path)
    requires All(Unquoted, digest)
    ensures LineFile(digest + "  " + Text(p)) == Sum(digest, p)
  {
    var s := digest + "  " + Text(p);
    assert s == digest + ("  " + Text(p));
    LeadingOf(NoBlank, digest, "  " + Text(p));
    assert s[|digest| + 2..] == Text(p);
    PathRead(p);
  }

  // ---- rendered text is those words ----

  lemma {:induction false} GlueConcat(a: seq<Raw>, b: seq<Raw>)
    requires a != [] && b != []
    ensures Glue(a + b) == Glue(a) + " " + Glue(b)
  {
    if |a| == 1 {
      assert (a + b)[1..] == b;
    } else {
      assert (a + b)[1..] == a[1..] + b;
      GlueConcat(a[1..], b);
      Regroup(Written(a[0]), Glue(a[1..]), Glue(b));
    }
  }

  lemma GlueOne(r: Raw)
    ensures Glue([r]) == Written(r)
  {
  }

  lemma GlueTwo(r: Raw, s: Raw)
    ensures Glue([r, s]) == Written(r) + " " + Written(s)
  {
    assert [r, s][1..] == [s];
  }

  lemma GlueThree(r: Raw, s: Raw, u: Raw)
    ensures Glue([r, s, u]) == Written(r) + " " + Written(s) + " " + Written(u)
  {
    assert [r, s, u][1..] == [s, u];
    GlueTwo(s, u);
    Regroup(Written(r), Written(s), Written(u));
  }

  lemma DecodeText(src: Path, dst: Path)
    ensures Render(Decode(src, dst)) == Glue(Words(Decode(src, dst)))
  {
    GlueSix(Bare("base64"), Bare("-d"), Bare("<"), Bare(Text(src)), Bare(">"), Bare(Text(dst)));
  }

  lemma FetchCommandText(url: string, dst: Path)
    ensures Render(Fetch(url, dst)) == Glue(Words(Fetch(url, dst)))
  {
    GlueSix(Bare("curl"), Quoted(url), Bare("-L"), Bare("--silent"), Bare("--output"), Bare(Text(dst)));
    FetchText(url, Text(dst));
  }

  lemma WriteSumText(digest: string, file: Path, dst: Path)
    ensures Render(WriteSum(digest, file, dst)) == Glue(Words(WriteSum(digest, file, dst)))
  {
    GlueFour(Bare("echo"), Quoted(digest + "  " + Text(file)), Bare(">"), Bare(Text(dst)));
    EchoText(digest + "  " + Text(file), Text(dst));
  }

  lemma CheckSumText(sums: Path)
    ensures Render(CheckSum(sums)) == Glue(Words(CheckSum(sums)))
  {
    GlueThree(Bare("sha256sum"), Bare("-c"), Bare(Text(sums)));
  }

  lemma UnzipText(src: Path, dir: Dir)
    ensures Render(Unzip(src, dir)) == Glue(Words(Unzip(src, dir)))
  {
    GlueFive(Bare("unzip"), Bare("-o"), Bare(Text(src)), Bare("-d"), Bare(DirText(dir)));
    FiveWords("unzip -o ", "unzip", "-o", Text(src), " -d ", "-d", DirText(dir));
  }

  lemma FiveWords(ab: string, a: string, b: string, c: string, d: string, e: string, f: string)
    requires ab == a + " " + b + " " && d == " " + e + " "
    ensures ab + c + d + f == a + " " + b + " " + c + " " + e + " " + f
  {
  }

  lemma UntarText(src: Path, dir: Dir)
    ensures Render(Untar(src, dir)) == Glue(Words(Untar(src, dir)))
  {
    GlueFive(Bare("tar"), Bare("xf"), Bare(Text(src)), Bare("-C"), Bare(DirText(dir)));
    FiveWords("tar xf ", "tar", "xf", Text(src), " -C ", "-C", DirText(dir));
  }

  lemma CopyText(src: Path, dst: Path)
    ensures Render(Copy(src, dst)) == Glue(Words(Copy(src, dst)))
  {
    GlueThree(Bare("cp"), Bare(Text(src)), Bare(Text(dst)));
  }

  lemma CopyIntoText(src: Path, dir: Dir)
    ensures Render(CopyInto(src, dir)) == Glue(Words(CopyInto(src, dir)))
  {
    GlueThree(Bare("cp"), Bare(Text(src)), Bare(DirText(dir)));
  }

  /** The text the source formats for a command is its words with blanks between them. */
  lemma RenderIsGlue(c: Cmd)
    ensures Render(c) == Glue(Words(c))
  {
    match c
    case Decode(src, dst) => DecodeText(src, dst);
    case Fetch(url, dst) => FetchCommandText(url, dst);
    case WriteSum(digest, file, dst) => WriteSumText(digest, file, dst);
    case CheckSum(sums) => CheckSumText(sums);
    case Unzip(src, dir) => UnzipText(src, dir);
    case Untar(src, dir) => UntarText(src, dir);
    case Copy(src, dst) => CopyText(src, dst);
    case CopyInto(src, dir) => CopyIntoText(src, dir);
  }

  lemma FetchText(url: string, dst: string)
    ensures "curl '" + url + "' -L --silent --output " + dst ==
            "curl" + " " + ("'" + url + "'") + " " + "-L" + " " + "--silent" + " " + "--output" + " " + dst
  {
    assert "curl" + " " + ("'" + url + "'") == "curl '" + url + "'";
    assert "' -L --silent --output " == "'" + " " + "-L" + " " + "--silent" + " " + "--output" + " ";
  }

  lemma EchoText(line: string, dst: string)
    ensures "echo '" + line + "' > " + dst == "echo" + " " + ("'" + line + "'") + " " + ">" + " " + dst
  {
    assert "echo" + " " + ("'" + line + "'") == "echo '" + line + "'";
  }

  lemma GlueFour(r: Raw, s: Raw, u: Raw, v: Raw)
    ensures Glue([r, s, u, v]) == Written(r) + " " + Written(s) + " " + Written(u) + " " + Written(v)
  {
    assert [r, s, u, v] == [r, s] + [u, v];
    GlueConcat([r, s], [u, v]);
    GlueTwo(r, s);
    GlueTwo(u, v);
  }

  lemma GlueFive(r: Raw, s: Raw, u: Raw, v: Raw, w: Raw)
    ensures Glue([r, s, u, v, w]) == Written(r) + " " + Written(s) + " " + Written(u) + " " + Written(v) + " " + Written(w)
  {
    assert [r, s, u, v, w] == [r, s, u] + [v, w];
    GlueConcat([r, s, u], [v, w]);
    GlueThree(r, s, u);
    GlueTwo(v, w);
  }

  lemma GlueSix(r: Raw, s: Raw, u: Raw, v: Raw, w: Raw, x: Raw)
    ensures Glue([r, s, u, v, w, x]) ==
            Written(r) + " " + Written(s) + " " + Written(u) + " " + Written(v) + " " + Written(w) + " " + Written(x)
  {
    assert [r, s, u, v, w, x] == [r, s, u] + [v, w, x];
    GlueConcat([r, s, u], [v, w, x]);
    GlueThree(r, s, u);
    GlueThree(v, w, x);
  }

  /** A literal word of the source. */
  predicate Fixed(w: string) { Readable(Bare(w)) && Classify(w) == Word(w) }

  /** The words of a command, read. */
  function Tokens(c: Cmd): (r: seq<Token>) {
    match c
    case Decode(src, dst) => [Word("base64"), Word("-d"), In, Word(Text(src)), Out, Word(Text(dst))]
    case Fetch(url, dst) => [Word("curl"), Word(url), Word("-L"), Word("--silent"), Word("--output"), Word(Text(dst))]
    case WriteSum(digest, file, dst) => [Word("echo"), Word(digest + "  " + Text(file)), Out, Word(Text(dst))]
    case CheckSum(sums) => [Word("sha256sum"), Word("-c"), Word(Text(sums))]
    case Unzip(src, dir) => [Word("unzip"), Word("-o"), Word(Text(src)), Word("-d"), Word(DirText(dir))]
    case Untar(src, dir) => [Word("tar"), Word("xf"), Word(Text(src)), Word("-C"), Word(DirText(dir))]
    case Copy(src, dst) => [Word("cp"), Word(Text(src)), Word(Text(dst))]
    case CopyInto(src, dir) => [Word("cp"), Word(Text(src)), Word(DirText(dir))]
  }

  predicate PathWord(p: Path) { Fixed(Text(p)) }

  lemma PlainPath(p: Path)
    requires PlainName(p.name)
    ensures PathWord(p)
  {
    PathRead(p);
  }

  /** The word is read as that token. */
  predicate ReadAs(r: Raw, k: Token) { Readable(r) && Meant(r) == k }

  /** Every word is read as it was meant. */
  ghost predicate ReadAll(rs: seq<Raw>, ks: seq<Token>) {
    |rs| == |ks| && forall i :: 0 <= i < |rs| ==> ReadAs(rs[i], ks[i])
  }

  lemma Read3(r0: Raw, r1: Raw, r2: Raw, k0: Token, k1: Token, k2: Token)
    requires ReadAs(r0, k0) && ReadAs(r1, k1) && ReadAs(r2, k2)
    ensures ReadAll([r0, r1, r2], [k0, k1, k2])
  {
  }

  lemma Read4(r0: Raw, r1: Raw, r2: Raw, r3: Raw, k0: Token, k1: Token, k2: Token, k3: Token)
    requires ReadAs(r0, k0) && ReadAs(r1, k1) && ReadAs(r2, k2) && ReadAs(r3, k3)
    ensures ReadAll([r0, r1, r2, r3], [k0, k1, k2, k3])
  {
  }

  lemma Read5(r0: Raw, r1: Raw, r2: Raw, r3: Raw, r4: Raw, k0: Token, k1: Token, k2: Token, k3: Token, k4: Token)
    requires ReadAs(r0, k0) && ReadAs(r1, k1) && ReadAs(r2, k2) && ReadAs(r3, k3) && ReadAs(r4, k4)
    ensures ReadAll([r0, r1, r2, r3, r4], [k0, k1, k2, k3, k4])
  {
  }

  lemma Read6(r0: Raw, r1: Raw, r2: Raw, r3: Raw, r4: Raw, r5: Raw, k0: Token, k1: Token, k2: Token, k3: Token, k4: Token, k5: Token)
    requires ReadAs(r0, k0) && ReadAs(r1, k1) && ReadAs(r2, k2) && ReadAs(r3, k3) && ReadAs(r4, k4) && ReadAs(r5, k5)
    ensures ReadAll([r0, r1, r2, r3, r4, r5], [k0, k1, k2, k3, k4, k5])
  {
  }

  lemma DecodeRead(src: Path, dst: Path)
    requires PlainName(src.name) && PlainName(dst.name)
    ensures ReadAll(Words(Decode(src, dst)), Tokens(Decode(src, dst)))
  {
    assert Fixed("base64") && Fixed("-d");
    PlainPath(src);
    PlainPath(dst);
    assert ReadAs(Bare("<"), In) && ReadAs(Bare(">"), Out);
    Read6(Bare("base64"), Bare("-d"), Bare("<"), Bare(Text(src)), Bare(">"), Bare(Text(dst)),
          Word("base64"), Word("-d"), In, Word(Text(src)), Out, Word(Text(dst)));
  }

  lemma FetchRead(url: string, dst: Path)
    requires All(Inside, url) && PlainName(dst.name)
    ensures ReadAll(Words(Fetch(url, dst)), Tokens(Fetch(url, dst)))
  {
    assert Fixed("curl") && Fixed("-L") && Fixed("--silent") && Fixed("--output");
    PlainPath(dst);
    Read6(Bare("curl"), Quoted(url), Bare("-L"), Bare("--silent"), Bare("--output"), Bare(Text(dst)),
          Word("curl"), Word(url), Word("-L"), Word("--silent"), Word("--output"), Word(Text(dst)));
  }

  lemma WriteSumRead(digest: string, file: Path, dst: Path)
    requires All(Unquoted, digest) && PlainName(file.name) && PlainName(dst.name)
    ensures ReadAll(Words(WriteSum(digest, file, dst)), Tokens(WriteSum(digest, file, dst)))
  {
    assert Fixed("echo");
    PlainPath(file);
    PlainPath(dst);
    QuotedLine(digest, Text(file));
    assert ReadAs(Bare(">"), Out);
    var line := digest + "  " + Text(file);
    Read4(Bare("echo"), Quoted(line), Bare(">"), Bare(Text(dst)),
          Word("echo"), Word(line), Out, Word(Text(dst)));
  }

  lemma CheckSumRead(sums: Path)
    requires PlainName(sums.name)
    ensures ReadAll(Words(CheckSum(sums)), Tokens(CheckSum(sums)))
  {
    assert Fixed("sha256sum") && Fixed("-c");
    PlainPath(sums);
    Read3(Bare("sha256sum"), Bare("-c"), Bare(Text(sums)),
          Word("sha256sum"), Word("-c"), Word(Text(sums)));
  }

  lemma UnzipRead(src: Path, dir: Dir)
    requires PlainName(src.name)
    ensures ReadAll(Words(Unzip(src, dir)), Tokens(Unzip(src, dir)))
  {
    assert Fixed("unzip") && Fixed("-o") && Fixed("-d");
    PlainPath(src);
    DirRead(dir);
    Read5(Bare("unzip"), Bare("-o"), Bare(Text(src)), Bare("-d"), Bare(DirText(dir)),
          Word("unzip"), Word("-o"), Word(Text(src)), Word("-d"), Word(DirText(dir)));
  }

  lemma UntarRead(src: Path, dir: Dir)
    requires PlainName(src.name)
    ensures ReadAll(Words(Untar(src, dir)), Tokens(Untar(src, dir)))
  {
    assert Fixed("tar") && Fixed("xf") && Fixed("-C");
    PlainPath(src);
    DirRead(dir);
    Read5(Bare("tar"), Bare("xf"), Bare(Text(src)), Bare("-C"), Bare(DirText(dir)),
          Word("tar"), Word("xf"), Word(Text(src)), Word("-C"), Word(DirText(dir)));
  }

  lemma CopyRead(src: Path, dst: Path)
    requires PlainName(src.name) && PlainName(dst.name)
    ensures ReadAll(Words(Copy(src, dst)), Tokens(Copy(src, dst)))
  {
    assert Fixed("cp");
    PlainPath(src);
    PlainPath(dst);
    Read3(Bare("cp"), Bare(Text(src)), Bare(Text(dst)),
          Word("cp"), Word(Text(src)), Word(Text(dst)));
  }

  lemma CopyIntoRead(src: Path, dir: Dir)
    requires PlainName(src.name)
    ensures ReadAll(Words(CopyInto(src, dir)), Tokens(CopyInto(src, dir)))
  {
    assert Fixed("cp");
    PlainPath(src);
    DirRead(dir);
    Read3(Bare("cp"), Bare(Text(src)), Bare(DirText(dir)),
          Word("cp"), Word(Text(src)), Word(DirText(dir)));
  }

  lemma WordsRead(c: Cmd)
    requires PlainCmd(c)
    ensures ReadableAll(Words(c)) && MeantAll(Words(c)) == Tokens(c)
  {
    assert ReadAll(Words(c), Tokens(c)) by {
      match c
      case Decode(src, dst) => DecodeRead(src, dst);
      case Fetch(url, dst) => FetchRead(url, dst);
      case WriteSum(digest, file, dst) => WriteSumRead(digest, file, dst);
      case CheckSum(sums) => CheckSumRead(sums);
      case Unzip(src, dir) => UnzipRead(src, dir);
      case Untar(src, dir) => UntarRead(src, dir);
      case Copy(src, dst) => CopyRead(src, dst);
      case CopyInto(src, dir) => CopyIntoRead(src, dir);
    }
    AllRead(Words(c), Tokens(c));
  }

  lemma AllRead(rs: seq<Raw>, ks: seq<Token>)
    requires ReadAll(rs, ks)
    ensures ReadableAll(rs) && MeantAll(rs) == ks
  {
    forall i | 0 <= i < |rs|
      ensures Readable(rs[i]) && MeantAll(rs)[i] == ks[i]
    {
      assert ReadAs(rs[i], ks[i]);
    }
  }

  lemma QuotedLine(digest: string, file: string)
    requires All(Unquoted, digest) && All(Unquoted, file)
    ensures Readable(Quoted(digest + "  " + file))
  {
  }

  // ---- running the words is running the command ----

  lemma DecodeAgrees(t: Tools, other: Programs, src: Path, dst: Path, fs: Files)
    ensures ExecWords(t, other, Tokens(Decode(src, dst)), fs) == Exec(t, Decode(src, dst), fs)
  {
    PathRead(src);
    PathRead(dst);
  }

  lemma FetchAgrees(t: Tools, other: Programs, url: string, dst: Path, fs: Files)
    ensures ExecWords(t, other, Tokens(Fetch(url, dst)), fs) == Exec(t, Fetch(url, dst), fs)
  {
    PathRead(dst);
  }

  lemma WriteSumAgrees(t: Tools, other: Programs, digest: string, file: Path, dst: Path, fs: Files)
    requires All(Unquoted, digest)
    ensures ExecWords(t, other, Tokens(WriteSum(digest, file, dst)), fs) == Exec(t, WriteSum(digest, file, dst), fs)
  {
    PathRead(dst);
    LineRead(digest, file);
  }

  lemma CheckSumAgrees(t: Tools, other: Programs, sums: Path, fs: Files)
    ensures ExecWords(t, other, Tokens(CheckSum(sums)), fs) == Exec(t, CheckSum(sums), fs)
  {
    PathRead(sums);
  }

  lemma UnzipAgrees(t: Tools, other: Programs, src: Path, dir: Dir, fs: Files)
    ensures ExecWords(t, other, Tokens(Unzip(src, dir)), fs) == Exec(t, Unzip(src, dir), fs)
  {
    PathRead(src);
    DirRead(dir);
  }

  lemma UntarAgrees(t: Tools, other: Programs, src: Path, dir: Dir, fs: Files)
    ensures ExecWords(t, other, Tokens(Untar(src, dir)), fs) == Exec(t, Untar(src, dir), fs)
  {
    PathRead(src);
    DirRead(dir);
  }

  lemma CopyAgrees(t: Tools, other: Programs, src: Path, dst: Path, fs: Files)
    ensures ExecWords(t, other, Tokens(Copy(src, dst)), fs) == Exec(t, Copy(src, dst), fs)
  {
    PathRead(src);
    PathRead(dst);
  }

  lemma CopyIntoAgrees(t: Tools, other: Programs, src: Path, dir: Dir, fs: Files)
    ensures ExecWords(t, other, Tokens(CopyInto(src, dir)), fs) == Exec(t, CopyInto(src, dir), fs)
  {
    PathRead(src);
    DirRead(dir);
  }

  /** The words of a command do what the command does. */
  lemma ExecAgrees(t: Tools, other: Programs, c: Cmd, fs: Files)
    requires PlainCmd(c)
    ensures ExecWords(t, other, Tokens(c), fs) == Exec(t, c, fs)
  {
    match c
    case Decode(src, dst) => DecodeAgrees(t, other, src, dst, fs);
    case Fetch(url, dst) => FetchAgrees(t, other, url, dst, fs);
    case WriteSum(digest, file, dst) => WriteSumAgrees(t, other, digest, file, dst, fs);
    case CheckSum(sums) => CheckSumAgrees(t, other, sums, fs);
    case Unzip(src, dir) => UnzipAgrees(t, other, src, dir, fs);
    case Untar(src, dir) => UntarAgrees(t, other, src, dir, fs);
    case Copy(src, dst) => CopyAgrees(t, other, src, dst, fs);
    case CopyInto(src, dir) => CopyIntoAgrees(t, other, src, dir, fs);
  }

  lemma {:induction false} FirstAndOf(a: seq<Token>, b: seq<Token>)
    requires forall i :: 0 <= i < |a| ==> a[i] != And
    requires b == [] || b[0] == And
    ensures FirstAnd(a + b) == |a|
  {
    if a == [] {
      assert a + b == b;
    } else {
      assert (a + b)[1..] == a[1..] + b;
      FirstAndOf(a[1..], b);
    }
  }

  /** A command before &&, and the last one. */
  lemma RunFirst(t: Tools, other: Programs, k: seq<Token>, rest: seq<Token>, fs: Files)
    requires forall i :: 0 <= i < |k| ==> k[i] != And
    ensures RunWords(t, other, k, fs) == ExecWords(t, other, k, fs)
    ensures RunWords(t, other, k + [And] + rest, fs) ==
            match ExecWords(t, other, k, fs) case None => None case Some(next) => RunWords(t, other, rest, next)
  {
    FirstAndOf(k, []);
    assert k + [] == k && k[..|k|] == k;
    FirstAndOf(k, [And] + rest);
    var all := k + [And] + rest;
    assert all == k + ([And] + rest);
    assert all[..|k|] == k && all[|k| + 1..] == rest;
  }

  lemma TokensNoAnd(c: Cmd)
    ensures forall i :: 0 <= i < |Tokens(c)| ==> Tokens(c)[i] != And
  {
  }

  ghost predicate PlainAll(cs: seq<Cmd>) { forall i :: 0 <= i < |cs| ==> PlainCmd(cs[i]) }

  /** Words in front of && and any text. */
  lemma LexAnd(rs: seq<Raw>, text: string, rest: string)
    requires rs != [] && ReadableAll(rs) && text == Glue(rs)
    ensures Lex(text) == MeantAll(rs)
    ensures Lex(text + " && " + rest) == MeantAll(rs) + [And] + Lex(rest)
  {
    var all := rs + [Bare("&&")];
    LexGlue(rs, rest);
    AndReadable(rs);
    LexGlue(all, rest);
    GlueConcat(rs, [Bare("&&")]);
    GlueOne(Bare("&&"));
    AndText(text, rest);
  }

  lemma AndReadable(rs: seq<Raw>)
    requires ReadableAll(rs)
    ensures ReadableAll(rs + [Bare("&&")]) && MeantAll(rs + [Bare("&&")]) == MeantAll(rs) + [And]
  {
    assert Readable(Bare("&&"));
  }

  lemma AndText(text: string, rest: string)
    ensures text + " && " + rest == text + " " + "&&" + " " + rest
  {
  }

  lemma RunAnd(t: Tools, other: Programs, text: string, k: seq<Token>, rest: string, fs: Files)
    requires Lex(text) == k && Lex(text + " && " + rest) == k + [And] + Lex(rest)
    requires forall i :: 0 <= i < |k| ==> k[i] != And
    ensures RunText(t, other, text, fs) == ExecWords(t, other, k, fs)
    ensures RunText(t, other, text + " && " + rest, fs) ==
            match ExecWords(t, other, k, fs) case None => None case Some(next) => RunText(t, other, rest, next)
  {
    RunFirst(t, other, k, Lex(rest), fs);
  }

  /** One rendered command, alone and in front of any text. */
  lemma OneThen(t: Tools, other: Programs, c: Cmd, rest: string, fs: Files)
    requires PlainCmd(c)
    ensures RunText(t, other, Render(c), fs) == Exec(t, c, fs)
    ensures RunText(t, other, Render(c) + " && " + rest, fs) ==
            match Exec(t, c, fs) case None => None case Some(next) => RunText(t, other, rest, next)
  {
    RenderIsGlue(c);
    WordsRead(c);
    LexAnd(Words(c), Render(c), rest);
    TokensNoAnd(c);
    RunAnd(t, other, Render(c), Tokens(c), rest, fs);
    ExecAgrees(t, other, c, fs);
  }

  lemma JoinCons(first: string, text: string, rest: string)
    ensures first + " && " + text + " && " + rest == first + " && " + (text + " && " + rest)
  {
  }

  /** Commands rendered and joined, in front of any text. */
  lemma {:induction false} RunThen(t: Tools, other: Programs, cs: seq<Cmd>, rest: string, fs: Files)
    requires cs != [] && PlainAll(cs)
    ensures RunText(t, other, JoinCommands(RenderAll(cs)) + " && " + rest, fs) ==
            match RunAll(t, cs, fs) case None => None case Some(next) => RunText(t, other, rest, next)
  {
    var tail := cs[1..];
    if |cs| == 1 {
      OneThen(t, other, cs[0], rest, fs);
      RunSingle(t, cs, fs);
    } else {
      var text := JoinCommands(RenderAll(tail));
      RenderTail(cs);
      JoinCons(Render(cs[0]), text, rest);
      OneThen(t, other, cs[0], text + " && " + rest, fs);
      var next := Exec(t, cs[0], fs);
      if next.Some? {
        RunThen(t, other, tail, rest, next.value);
      }
    }
  }

  lemma RunSingle(t: Tools, cs: seq<Cmd>, fs: Files)
    requires |cs| == 1
    ensures RunAll(t, cs, fs) == Exec(t, cs[0], fs) && JoinCommands(RenderAll(cs)) == Render(cs[0])
  {
    assert cs[1..] == [];
  }

  lemma RenderTail(cs: seq<Cmd>)
    requires |cs| > 1
    ensures JoinCommands(RenderAll(cs)) == Render(cs[0]) + " && " + JoinCommands(RenderAll(cs[1..]))
  {
    assert RenderAll(cs)[1..] == RenderAll(cs[1..]);
  }

  /** Running the rendered text is running the commands. */
  lemma TextRuns(t: Tools, other: Programs, cs: seq<Cmd>, fs: Files)
    requires cs != [] && PlainAll(cs)
    ensures RunText(t, other, JoinCommands(RenderAll(cs)), fs) == RunAll(t, cs, fs)
  {
    var n := |cs| - 1;
    if n == 0 {
      OneThen(t, other, cs[0], "", fs);
      RunSingle(t, cs, fs);
    } else {
      RunThen(t, other, cs[..n], Render(cs[n]), fs);
      JoinLast(cs);
      RunLast(t, other, cs, fs);
    }
  }

  lemma RunLast(t: Tools, other: Programs, cs: seq<Cmd>, fs: Files)
    requires |cs| > 1 && PlainAll(cs)
    ensures var n := |cs| - 1;
            RunAll(t, cs, fs) ==
            match RunAll(t, cs[..n], fs) case None => None case Some(next) => RunText(t, other, Render(cs[n]), next)
  {
    var n := |cs| - 1;
    RunConcat(t, cs[..n], [cs[n]], fs);
    assert cs[..n] + [cs[n]] == cs;
    var mid := RunAll(t, cs[..n], fs);
    if mid.Some? {
      OneThen(t, other, cs[n], "", mid.value);
      RunSingle(t, [cs[n]], mid.value);
    }
  }

  lemma {:induction false} JoinLast(cs: seq<Cmd>)
    requires |cs| > 1
    ensures JoinCommands(RenderAll(cs)) == JoinCommands(RenderAll(cs[..|cs| - 1])) + " && " + Render(cs[|cs| - 1])
  {
    var n := |cs| - 1;
    AppendIsJoin(RenderAll(cs[..n]), [Render(cs[n])]);
    assert RenderAll(cs) == RenderAll(cs[..n]) + [Render(cs[n])];
    assert |JoinCommands(RenderAll(cs[..n]))| > 0;
  }
}

/** The text of the prepare container's command, run by a shell. */
module ProvisionText {
  import Strings
  import opened Runtimes
  import opened Provision
  import opened Shell

  /** File names, URL and digest of the spec without blanks or quotes. */
  predicate PlainCode(c: Code, fileName: string, table: Table) {
    && PlainName(fileName)
    && (!Archive(c.contentType) ==> PlainName(Dest(c, table)))
    && (CopiedDep(c, table).Some? ==> PlainName(CopiedDep(c, table).value))
    && (OriginOf(c.contentType).FromUrl? ==> All(Inside, c.source))
    && (CheckOf(c.checksum).Sha256? ==> All(Unquoted, CheckOf(c.checksum).digest))
  }

  lemma ScratchPlain()
    ensures PlainName(DECODED.name) && PlainName(FROM_URL.name) && PlainName(SUMS.name)
  {
  }

  lemma OriginPlain(c: Code, fileName: string)
    requires PlainName(fileName)
    ensures PlainName(OriginFile(c, fileName).name)
  {
    ScratchPlain();
  }

  lemma FetchPlain(c: Code, fileName: string, table: Table)
    requires PlainCode(c, fileName, table)
    ensures PlainAll(FetchCommands(c, fileName))
  {
    ScratchPlain();
  }

  lemma CheckPlain(c: Code, origin: Path)
    requires PlainName(origin.name) && (CheckOf(c.checksum).Sha256? ==> All(Unquoted, CheckOf(c.checksum).digest))
    ensures PlainAll(CheckCommands(c, origin))
  {
    ScratchPlain();
  }

  lemma InstallPlain(c: Code, origin: Path, table: Table)
    requires PlainName(origin.name) && (!Archive(c.contentType) ==> PlainName(Dest(c, table)))
    ensures PlainAll([InstallCommand(c, origin, Dest(c, table))])
  {
  }

  lemma DepPlain(c: Code, table: Table)
    requires CopiedDep(c, table).Some? ==> PlainName(CopiedDep(c, table).value)
    ensures PlainAll(DepCommands(c, table))
  {
  }

  lemma CommandsPlain(c: Code, fileName: string, table: Table)
    requires PlainCode(c, fileName, table) && ProvisionCommands(c, fileName, table).Ok?
    ensures PlainAll(ProvisionCommands(c, fileName, table).value) && ProvisionCommands(c, fileName, table).value != []
  {
    var origin := OriginFile(c, fileName);
    OriginPlain(c, fileName);
    FetchPlain(c, fileName, table);
    CheckPlain(c, origin);
    var f, k, i, d := FetchCommands(c, fileName), CheckCommands(c, origin), [InstallCommand(c, origin, Dest(c, table))], DepCommands(c, table);
    InstallPlain(c, origin, table);
    DepPlain(c, table);
    PlainConcat(f, k);
    PlainConcat(f + k, i);
    PlainConcat(f + k + i, d);
  }

  lemma PlainConcat(a: seq<Cmd>, b: seq<Cmd>)
    requires PlainAll(a) && PlainAll(b)
    ensures PlainAll(a + b)
  {
  }

  /** Running the emitted text of a plain spec succeeds exactly when the direct specification does, and leaves
      exactly the files it names outside the scratch space. */
  lemma TextMeaning(t: Tools, other: Programs, c: Code, fileName: string, table: Table, fs: Files, text: string)
    requires PlainCode(c, fileName, table) && ProvisionCommands(c, fileName, table).Ok?
    requires text == Strings.JoinCommands(RenderAll(ProvisionCommands(c, fileName, table).value))
    ensures var r, m := RunText(t, other, text, fs), Meaning(t, c, fileName, table, fs);
            (r.Some? <==> m.Some?) && (r.Some? ==> Lasting(r.value) == m.value)
  {
    var cs := ProvisionCommands(c, fileName, table).value;
    CommandsPlain(c, fileName, table);
    TextRuns(t, other, cs, fs);
    ProvisionMeaning(t, c, fileName, table, fs);
  }
}

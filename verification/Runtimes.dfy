/** The runtime table and its lookups, pkg/langruntime/langruntime.go. */
module Runtimes {
  import opened Common

  datatype Image = Image(phase: string, image: string, command: string, env: map<string, string>, secrets: seq<string>)

  datatype RuntimeVersion = RuntimeVersion(version: string, images: seq<Image>, pullSecrets: seq<string>)

  datatype RuntimeInfo = RuntimeInfo(id: string, versions: seq<RuntimeVersion>, probe: Option<string>,
                                     depName: string, suffix: string)

  type Table = seq<RuntimeInfo>

  const PHASE_INSTALLATION := "installation"
  const PHASE_COMPILATION := "compilation"
  const PHASE_RUNTIME := "runtime"

  predicate Alpha(c: char) { 'a' <= c <= 'z' || 'A' <= c <= 'Z' }

  /** [a-zA-Z_-] */
  predicate IdChar(c: char) { Alpha(c) || c == '_' || c == '-' }

  /** [0-9.] */
  predicate VersionChar(c: char) { '0' <= c <= '9' || c == '.' }

  predicate All(p: char -> bool, s: string) { forall i :: 0 <= i < |s| ==> p(s[i]) }

  /** The match of ^[p]+ : the longest prefix over p, empty when nothing matches. */
  function Leading(p: char -> bool, s: string): (r: string) {
    if s == [] || !p(s[0]) then [] else [s[0]] + Leading(p, s[1..])
  }

  /** The match of [p]+$ : the longest suffix over p. */
  function Trailing(p: char -> bool, s: string): (r: string) {
    if s == [] || !p(s[|s| - 1]) then [] else Trailing(p, s[..|s| - 1]) + [s[|s| - 1]]
  }

  function VersionOf(runtime: string): (r: string) { Trailing(VersionChar, runtime) }

  function IdOf(runtime: string): (r: string) { Leading(IdChar, runtime) }

  function FirstWithId(t: Table, id: string): (r: Option<RuntimeInfo>) {
    if t == [] then None else if t[0].id == id then Some(t[0]) else FirstWithId(t[1..], id)
  }

  function FirstVersion(vs: seq<RuntimeVersion>, version: string): (r: Option<RuntimeVersion>) {
    if vs == [] then None else if vs[0].version == version then Some(vs[0]) else FirstVersion(vs[1..], version)
  }

  function GetRuntimeInfo(t: Table, runtime: string): (r: Option<RuntimeInfo>) {
    FirstWithId(t, IdOf(runtime))
  }

  function FindRuntimeVersion(t: Table, runtime: string): (r: Option<RuntimeVersion>) {
    match GetRuntimeInfo(t, runtime)
    case None => None
    case Some(info) => FirstVersion(info.versions, VersionOf(runtime))
  }

  function FindImage(phase: string, images: seq<Image>): (r: Option<Image>)
    ensures r.Some? ==> r.value in images && r.value.phase == phase
    ensures r.None? ==> forall im :: im in images ==> im.phase != phase
  {
    if images == [] then None else if images[0].phase == phase then Some(images[0]) else FindImage(phase, images[1..])
  }

  /** Names listed under one entry, and under a whole table. */
  function VersionNames(id: string, vs: seq<RuntimeVersion>): (r: seq<string>) {
    if vs == [] then [] else VersionNames(id, vs[..|vs| - 1]) + [id + vs[|vs| - 1].version]
  }

  function RuntimeNames(t: Table): (r: seq<string>) {
    if t == [] then [] else RuntimeNames(t[..|t| - 1]) + VersionNames(t[|t| - 1].id, t[|t| - 1].versions)
  }

  method GetRuntimes(t: Table) returns (names: seq<string>)
    ensures names == RuntimeNames(t)
  {
    names := [];
    for i := 0 to |t|
      invariant names == RuntimeNames(t[..i])
    {
      var before := names;
      for j := 0 to |t[i].versions|
        invariant names == before + VersionNames(t[i].id, t[i].versions[..j])
      {
        assert t[i].versions[..j + 1][..j] == t[i].versions[..j];
        names := names + [t[i].id + t[i].versions[j].version];
      }
      assert t[i].versions[..|t[i].versions|] == t[i].versions;
      assert t[..i + 1][..i] == t[..i];
    }
    assert t[..|t|] == t;
  }

  /** runtime names version j of entry i. */
  predicate Names(t: Table, i: nat, j: nat, runtime: string) {
    i < |t| && j < |t[i].versions| && runtime == t[i].id + t[i].versions[j].version
  }

  ghost predicate Listed(t: Table, runtime: string) {
    exists i: nat, j: nat :: Names(t, i, j, runtime)
  }

  method IsValidRuntime(t: Table, runtime: string) returns (valid: bool)
    ensures valid <==> Listed(t, runtime)
  {
    var names := GetRuntimes(t);
    ListedIsNamed(t, runtime);
    ghost var listed := Listed(t, runtime);
    assert listed <==> runtime in names;
    for i := 0 to |names|
      invariant forall k :: 0 <= k < i ==> names[k] != runtime
    {
      if runtime == names[i] {
        return true;
      }
    }
    return false;
  }

  lemma {:induction false} VersionNamed(id: string, vs: seq<RuntimeVersion>, name: string)
    ensures name in VersionNames(id, vs) <==> exists j :: 0 <= j < |vs| && name == id + vs[j].version
  {
    if vs != [] {
      var n := |vs| - 1;
      VersionNamed(id, vs[..n], name);
      assert forall j :: 0 <= j < n ==> vs[..n][j] == vs[j];
      if name in VersionNames(id, vs[..n]) {
        var j :| 0 <= j < n && name == id + vs[..n][j].version;
        assert vs[j] == vs[..n][j];
      }
      if j :| 0 <= j < |vs| && name == id + vs[j].version {
        if j < n {
          assert vs[..n][j] == vs[j];
        }
      }
    }
  }

  lemma {:induction false} ListedIsNamed(t: Table, name: string)
    ensures name in RuntimeNames(t) <==> Listed(t, name)
  {
    if t != [] {
      var n := |t| - 1;
      ListedIsNamed(t[..n], name);
      VersionNamed(t[n].id, t[n].versions, name);
      ListedStep(t, name);
    }
  }

  /** A name is listed in a table exactly when it is listed before the last entry or in it. */
  lemma ListedStep(t: Table, name: string)
    requires t != []
    ensures var n := |t| - 1;
            Listed(t, name) <==>
            Listed(t[..n], name) || exists j :: 0 <= j < |t[n].versions| && name == t[n].id + t[n].versions[j].version
  {
    var n := |t| - 1;
    if i: nat, j: nat :| Names(t[..n], i, j, name) {
      assert Names(t, i, j, name);
    }
    if j: nat :| j < |t[n].versions| && name == t[n].id + t[n].versions[j].version {
      assert Names(t, n, j, name);
    }
    if i: nat, j: nat :| Names(t, i, j, name) {
      assert i < n ==> Names(t[..n], i, j, name);
    }
  }

  // ---- parsing a runtime name ----

  lemma {:induction false} LeadingOf(p: char -> bool, a: string, b: string)
    requires All(p, a) && (b == [] || !p(b[0]))
    ensures Leading(p, a + b) == a
  {
    if a == [] {
      assert a + b == b;
    } else {
      assert (a + b)[1..] == a[1..] + b;
      LeadingOf(p, a[1..], b);
    }
  }

  lemma {:induction false} TrailingOf(p: char -> bool, a: string, b: string)
    requires All(p, b) && (a == [] || !p(a[|a| - 1]))
    ensures Trailing(p, a + b) == b
  {
    if b == [] {
      assert a + b == a;
    } else {
      assert (a + b)[..|a + b| - 1] == a + b[..|b| - 1];
      TrailingOf(p, a, b[..|b| - 1]);
    }
  }

  lemma {:induction false} LeadingAll(p: char -> bool, s: string)
    ensures All(p, Leading(p, s)) && Leading(p, s) <= s
  {
    if s != [] && p(s[0]) {
      LeadingAll(p, s[1..]);
    }
  }

  lemma {:induction false} TrailingAll(p: char -> bool, s: string)
    ensures All(p, Trailing(p, s))
  {
    if s != [] && p(s[|s| - 1]) {
      TrailingAll(p, s[..|s| - 1]);
    }
  }

  /** Parsing ID+Version gives back both parts. */
  lemma NameRoundTrip(id: string, version: string)
    requires All(IdChar, id) && All(VersionChar, version)
    ensures IdOf(id + version) == id && VersionOf(id + version) == version
  {
    LeadingOf(IdChar, id, version);
    TrailingOf(VersionChar, id, version);
  }

  // ---- lookups against listings ----

  ghost predicate Shaped(t: Table) {
    && (forall i :: 0 <= i < |t| ==> All(IdChar, t[i].id))
    && (forall i, j :: 0 <= i < |t| && 0 <= j < |t[i].versions| ==> All(VersionChar, t[i].versions[j].version))
  }

  ghost predicate DistinctIds(t: Table) {
    forall i, j :: 0 <= i < j < |t| ==> t[i].id != t[j].id
  }

  lemma {:induction false} FirstWithIdSpec(t: Table, id: string)
    ensures match FirstWithId(t, id)
            case Some(e) => exists i :: 0 <= i < |t| && t[i] == e && e.id == id && forall k :: 0 <= k < i ==> t[k].id != id
            case None => forall i :: 0 <= i < |t| ==> t[i].id != id
  {
    if t != [] && t[0].id != id {
      FirstWithIdSpec(t[1..], id);
      match FirstWithId(t[1..], id)
      case Some(e) =>
        var i :| 0 <= i < |t[1..]| && t[1..][i] == e && e.id == id && forall k :: 0 <= k < i ==> t[1..][k].id != id;
        assert t[i + 1] == e;
        assert forall k :: 0 < k < i + 1 ==> t[k].id == t[1..][k - 1].id;
      case None =>
        assert forall i :: 0 < i < |t| ==> t[i].id == t[1..][i - 1].id;
    }
  }

  lemma {:induction false} FirstVersionSpec(vs: seq<RuntimeVersion>, v: string)
    ensures FirstVersion(vs, v).Some? <==> exists j :: 0 <= j < |vs| && vs[j].version == v
    ensures FirstVersion(vs, v).Some? ==> FirstVersion(vs, v).value in vs && FirstVersion(vs, v).value.version == v
  {
    if vs != [] && vs[0].version != v {
      FirstVersionSpec(vs[1..], v);
      if j :| 0 <= j < |vs| && vs[j].version == v {
        assert vs[1..][j - 1] == vs[j];
      }
      if j :| 0 <= j < |vs[1..]| && vs[1..][j].version == v {
        assert vs[j + 1] == vs[1..][j];
      }
    }
  }

  /** In a table with distinct IDs every listed name resolves to its own entry and version. */
  lemma ListedResolves(t: Table, i: nat, j: nat, runtime: string)
    requires Shaped(t) && DistinctIds(t) && Names(t, i, j, runtime)
    ensures GetRuntimeInfo(t, runtime) == Some(t[i])
    ensures FindRuntimeVersion(t, runtime).Some?
    ensures FindRuntimeVersion(t, runtime).value in t[i].versions
    ensures FindRuntimeVersion(t, runtime).value.version == t[i].versions[j].version
  {
    NameRoundTrip(t[i].id, t[i].versions[j].version);
    FirstWithIdSpec(t, t[i].id);
    FirstVersionSpec(t[i].versions, t[i].versions[j].version);
  }

  /** For every string at all: it resolves exactly when its ID part and version part form a listed name. What
      stands between the two parts is ignored. */
  lemma ResolvesIff(t: Table, runtime: string)
    requires Shaped(t) && DistinctIds(t)
    ensures FindRuntimeVersion(t, runtime).Some? <==> Listed(t, IdOf(runtime) + VersionOf(runtime))
  {
    var id, v := IdOf(runtime), VersionOf(runtime);
    LeadingAll(IdChar, runtime);
    TrailingAll(VersionChar, runtime);
    FirstWithIdSpec(t, id);
    if FindRuntimeVersion(t, runtime).Some? {
      var e := GetRuntimeInfo(t, runtime).value;
      var i: nat :| i < |t| && t[i] == e;
      FirstVersionSpec(e.versions, v);
      var j: nat :| j < |e.versions| && e.versions[j].version == v;
      assert Names(t, i, j, id + v);
    }
    if Listed(t, id + v) {
      var i: nat, j: nat :| Names(t, i, j, id + v);
      NameRoundTrip(id, v);
      NameRoundTrip(t[i].id, t[i].versions[j].version);
      FirstVersionSpec(t[i].versions, v);
    }
  }

  /** Hence a name of the shape ID+Version is accepted by IsValidRuntime exactly when it resolves. */
  lemma ShapedNameValidIff(t: Table, id: string, version: string)
    requires Shaped(t) && DistinctIds(t) && All(IdChar, id) && All(VersionChar, version)
    ensures Listed(t, id + version) <==> FindRuntimeVersion(t, id + version).Some?
  {
    NameRoundTrip(id, version);
    ResolvesIff(t, id + version);
  }

  /** Other names resolve without being listed: anything may stand between a listed ID and version that does
      not begin like an ID or end like a version. */
  lemma JunkInTheMiddleResolves(t: Table, i: nat, j: nat, junk: string)
    requires Shaped(t) && DistinctIds(t) && i < |t| && j < |t[i].versions|
    requires junk != [] && !IdChar(junk[0]) && !VersionChar(junk[|junk| - 1])
    ensures var name := t[i].id + junk + t[i].versions[j].version;
            FindRuntimeVersion(t, name).Some? && !Listed(t, name)
  {
    var id, v := t[i].id, t[i].versions[j].version;
    var name := id + junk + v;
    assert name == id + (junk + v);
    LeadingOf(IdChar, id, junk + v);
    TrailingOf(VersionChar, id + junk, v);
    assert Names(t, i, j, id + v);
    ResolvesIff(t, name);
    if Listed(t, name) {
      var a: nat, b: nat :| Names(t, a, b, name);
      NameRoundTrip(t[a].id, t[a].versions[b].version);
    }
  }

  /** Without distinct IDs: every listed name resolves exactly when each version listed under a repeated ID is
      also listed under the first entry of that ID. */
  lemma AllResolveIff(t: Table)
    requires Shaped(t)
    ensures (forall i: nat, j: nat, runtime :: Names(t, i, j, runtime) ==> FindRuntimeVersion(t, runtime).Some?)
            <==>
            (forall i: nat, j: nat :: i < |t| && j < |t[i].versions| ==>
               FirstWithId(t, t[i].id).Some? &&
               FirstVersion(FirstWithId(t, t[i].id).value.versions, t[i].versions[j].version).Some?)
  {
    forall i: nat | i < |t|
      ensures FirstWithId(t, t[i].id).Some?
    {
      FirstWithIdSpec(t, t[i].id);
    }
    forall i: nat, j: nat | i < |t| && j < |t[i].versions|
      ensures var name := t[i].id + t[i].versions[j].version;
              && Names(t, i, j, name)
              && FindRuntimeVersion(t, name) ==
                 FirstVersion(FirstWithId(t, t[i].id).value.versions, t[i].versions[j].version)
    {
      NameRoundTrip(t[i].id, t[i].versions[j].version);
    }
  }

  // ---- liveness probe ----

  /** GetLivenessProbeInfo parses the ID with the narrower ^[a-zA-Z]+ . */
  function ProbeEntry(t: Table, runtime: string): (r: Option<RuntimeInfo>) {
    FirstWithId(t, Leading(Alpha, runtime))
  }

  /** The liveness lookup reaches a listed runtime's own entry exactly when its ID has letters only. */
  lemma ProbeIsOwnIff(t: Table, i: nat, j: nat, runtime: string)
    requires Shaped(t) && DistinctIds(t) && Names(t, i, j, runtime)
    ensures ProbeEntry(t, runtime) == Some(t[i]) <==> All(Alpha, t[i].id)
  {
    var id, v := t[i].id, t[i].versions[j].version;
    FirstWithIdSpec(t, Leading(Alpha, runtime));
    LeadingAll(Alpha, runtime);
    if All(Alpha, id) {
      LeadingOf(Alpha, id, v);
    }
  }

  /** What the two expressions match. */
  lemma Classes(c: char)
    ensures IdChar(c) <==> 'a' <= c <= 'z' || 'A' <= c <= 'Z' || c == '_' || c == '-'
    ensures VersionChar(c) <==> '0' <= c <= '9' || c == '.'
    ensures !(IdChar(c) && VersionChar(c))
  {
  }
}

/** The layer builder, pkg/function-image-builder/layer-builder: adding a tar to a content-addressed image
    directory (Docker Image Manifest Version 2, Schema 2). File contents are of any type B: bytes, in the source. */
module LayerBuilder {
  import opened Common

  datatype Layer = Layer(size: nat, sha256: string)

  /** A descriptor of the manifest: media type, size and digest of a blob. */
  datatype Entry = Entry(mediaType: string, size: nat, digest: string)

  datatype Manifest = Manifest(schemaVersion: int, mediaType: string, config: Entry, layers: seq<Entry>)

  datatype ContainerConfig = ContainerConfig(hostname: string, image: string, rest: string)

  datatype HistoryEntry = HistoryEntry(created: string, createdBy: string, comment: string, emptyLayer: bool)

  datatype Description = Description(arch: string, config: ContainerConfig, container: string,
                                     containerConfig: ContainerConfig, created: string, dockerVersion: string,
                                     history: seq<HistoryEntry>, os: string, rootfsType: string, diffIds: seq<string>)

  type Dir<B> = map<string, B>

  const MANIFEST := "manifest.json"
  const LAYER_TYPE := "application/vnd.docker.image.rootfs.diff.tar.gzip"

  /** Length and SHA-256, in hexadecimal, of a file's contents, and the JSON encoding of the two documents. */
  datatype Codec<!B(!new)> = Codec(sha256: B -> string, size: B -> nat,
                                   marshalManifest: Manifest -> B, parseManifest: B -> Option<Manifest>,
                                   marshalDescription: Description -> B, parseDescription: B -> Option<Description>)
  {
    /** A digest is 64 hexadecimal characters; parsing undoes printing. */
    ghost predicate Lawful() {
      && (forall a :: ':' !in sha256(a) && |sha256(a)| == 64)
      && (forall m :: parseManifest(marshalManifest(m)) == Some(m))
      && (forall d :: parseDescription(marshalDescription(d)) == Some(d))
    }

    /** No two of the given contents share a digest. */
    ghost predicate Distinguishes(contents: set<B>) {
      forall a, b :: a in contents && b in contents && sha256(a) == sha256(b) ==> a == b
    }

    function LayerOf(content: B): (r: Layer) {
      Layer(size(content), sha256(content))
    }
  }

  function Digest(sha: string): (r: string) { "sha256:" + sha }

  /** strings.Replace(s, sub, "", -1) */
  function RemoveAll(s: string, sub: string): (r: string)
    requires sub != ""
    decreases |s|
  {
    if s == "" then ""
    else if sub <= s then RemoveAll(s[|sub|..], sub)
    else [s[0]] + RemoveAll(s[1..], sub)
  }

  lemma {:induction false} RemoveAbsent(s: string)
    requires ':' !in s
    ensures RemoveAll(s, "sha256:") == s
  {
    if s != "" {
      assert "sha256:"[6] == ':';
      RemoveAbsent(s[1..]);
      assert s == [s[0]] + s[1..];
    }
  }

  lemma NameOfDigest(sha: string)
    requires ':' !in sha
    ensures RemoveAll(Digest(sha), "sha256:") == sha
  {
    assert Digest(sha)[7..] == sha;
    RemoveAbsent(sha);
  }

  // ---- the documents, as the source mutates them ----

  function WithLayer(d: Description, l: Layer, now: string): (r: Description) {
    d.(config := d.config.(hostname := "", image := ""), container := "",
       containerConfig := d.containerConfig.(hostname := "", image := ""), created := now,
       history := d.history + [HistoryEntry(now, "", "Created by Kubeless", false)],
       diffIds := d.diffIds + [Digest(l.sha256)])
  }

  /** No trace of the container the image was made from. */
  predicate Anonymous(d: Description) {
    d.config.hostname == "" && d.config.image == "" && d.container == "" && d.containerConfig.hostname == "" && d.containerConfig.image == ""
  }

  /** The parts a new layer leaves alone. */
  predicate SameBase(d: Description, e: Description) {
    && d.arch == e.arch && d.os == e.os && d.dockerVersion == e.dockerVersion && d.rootfsType == e.rootfsType
    && d.config.rest == e.config.rest && d.containerConfig.rest == e.containerConfig.rest
  }

  class DescriptionDoc {
    var value: Description

    constructor (d: Description)
      ensures value == d
    {
      value := d;
    }

    method AddLayer(newLayer: Layer, now: string)
      modifies this
      ensures value == WithLayer(old(value), newLayer, now)
      ensures value.diffIds == old(value.diffIds) + ["sha256:" + newLayer.sha256]
      ensures |value.history| == |old(value.history)| + 1 && old(value.history) <= value.history
      ensures var e := value.history[|value.history| - 1]; e.created == now && e.comment == "Created by Kubeless" && !e.emptyLayer
      ensures value.created == now && Anonymous(value) && SameBase(old(value), value)
    {
      value := value.(config := value.config.(hostname := ""));
      value := value.(config := value.config.(image := ""));
      value := value.(container := "");
      value := value.(containerConfig := value.containerConfig.(hostname := ""));
      value := value.(containerConfig := value.containerConfig.(image := ""));
      value := value.(created := now);
      value := value.(history := value.history + [HistoryEntry(now, "", "Created by Kubeless", false)]);
      value := value.(diffIds := value.diffIds + [Digest(newLayer.sha256)]);
    }
  }

  function WithConfigAndLayer(m: Manifest, config: Layer, l: Layer): (r: Manifest) {
    m.(config := m.config.(size := config.size, digest := Digest(config.sha256)),
       layers := m.layers + [Entry(LAYER_TYPE, l.size, Digest(l.sha256))])
  }

  class ManifestDoc {
    var value: Manifest

    constructor (m: Manifest)
      ensures value == m
    {
      value := m;
    }

    method UpdateConfig(newConfig: Layer)
      modifies this
      ensures value == old(value).(config := Entry(old(value).config.mediaType, newConfig.size, Digest(newConfig.sha256)))
    {
      value := value.(config := value.config.(size := newConfig.size));
      value := value.(config := value.config.(digest := Digest(newConfig.sha256)));
    }

    method AddLayer(newLayer: Layer)
      modifies this
      ensures value == old(value).(layers := old(value).layers + [Entry(LAYER_TYPE, newLayer.size, Digest(newLayer.sha256))])
    {
      value := value.(layers := value.layers + [Entry(LAYER_TYPE, newLayer.size, Digest(newLayer.sha256))]);
    }
  }

  // ---- well-formed images ----

  /** The blob of e is present under its own digest with the recorded size. */
  predicate BlobOk<B(!new)>(c: Codec<B>, dir: Dir<B>, e: Entry) {
    var name := RemoveAll(e.digest, "sha256:");
    name in dir && c.sha256(dir[name]) == name && e.digest == Digest(name) && e.size == c.size(dir[name])
  }

  function NonEmpty(h: seq<HistoryEntry>): (r: nat) {
    if h == [] then 0 else NonEmpty(h[..|h| - 1]) + (if h[|h| - 1].emptyLayer then 0 else 1)
  }

  predicate HasManifest<B(!new)>(c: Codec<B>, dir: Dir<B>) {
    MANIFEST in dir && c.parseManifest(dir[MANIFEST]).Some?
  }

  function ManifestOf<B(!new)>(c: Codec<B>, dir: Dir<B>): (r: Manifest)
    requires HasManifest(c, dir)
  {
    c.parseManifest(dir[MANIFEST]).value
  }

  predicate HasDescription<B(!new)>(c: Codec<B>, dir: Dir<B>) {
    HasManifest(c, dir) &&
    var name := RemoveAll(ManifestOf(c, dir).config.digest, "sha256:");
    name in dir && c.parseDescription(dir[name]).Some?
  }

  function DescriptionOf<B(!new)>(c: Codec<B>, dir: Dir<B>): (r: Description)
    requires HasDescription(c, dir)
  {
    c.parseDescription(dir[RemoveAll(ManifestOf(c, dir).config.digest, "sha256:")]).value
  }

  ghost predicate WellFormed<B(!new)>(c: Codec<B>, dir: Dir<B>) {
    && HasDescription(c, dir)
    && BlobOk(c, dir, ManifestOf(c, dir).config)
    && (forall i :: 0 <= i < |ManifestOf(c, dir).layers| ==> BlobOk(c, dir, ManifestOf(c, dir).layers[i]))
    && |ManifestOf(c, dir).layers| == |DescriptionOf(c, dir).diffIds| == NonEmpty(DescriptionOf(c, dir).history)
  }

  /** The image a directory holds: both documents and the contents of the layers. */
  datatype Image<B> = Image(manifest: Manifest, description: Description, layers: seq<B>)

  ghost function ImageOf<B(!new)>(c: Codec<B>, dir: Dir<B>): (r: Image<B>)
    requires WellFormed(c, dir)
  {
    var m := ManifestOf(c, dir);
    Image(m, DescriptionOf(c, dir),
          seq(|m.layers|, i requires 0 <= i < |m.layers| && BlobOk(c, dir, m.layers[i]) => dir[RemoveAll(m.layers[i].digest, "sha256:")]))
  }

  // ---- AddTarToLayer ----

  function NewDescription<B(!new)>(c: Codec<B>, dir: Dir<B>, tar: B, now: string): (r: Description)
    requires HasDescription(c, dir)
  {
    WithLayer(DescriptionOf(c, dir), c.LayerOf(tar), now)
  }

  function NewManifest<B(!new)>(c: Codec<B>, dir: Dir<B>, tar: B, now: string): (r: Manifest)
    requires HasDescription(c, dir)
  {
    WithConfigAndLayer(ManifestOf(c, dir), c.LayerOf(c.marshalDescription(NewDescription(c, dir, tar, now))), c.LayerOf(tar))
  }

  function AfterTar<B(!new)>(c: Codec<B>, dir: Dir<B>, tar: B): (r: Dir<B>) { dir[c.sha256(tar) := tar] }

  function AfterDescription<B(!new)>(c: Codec<B>, dir: Dir<B>, tar: B, now: string): (r: Dir<B>)
    requires HasDescription(c, AfterTar(c, dir, tar))
  {
    var d := AfterTar(c, dir, tar);
    var content := c.marshalDescription(NewDescription(c, d, tar, now));
    d[c.sha256(content) := content]
  }

  function AfterManifest<B(!new)>(c: Codec<B>, dir: Dir<B>, tar: B, now: string): (r: Dir<B>)
    requires HasDescription(c, AfterTar(c, dir, tar))
  {
    AfterDescription(c, dir, tar, now)[MANIFEST := c.marshalManifest(NewManifest(c, AfterTar(c, dir, tar), tar, now))]
  }

  /** The directory after each single write: tar, description, manifest; without a readable image the call
      gives up after the first. */
  function Writes<B(!new)>(c: Codec<B>, dir: Dir<B>, tar: B, now: string): (r: seq<Dir<B>>)
    ensures |r| == if HasDescription(c, AfterTar(c, dir, tar)) then 4 else 2
  {
    if HasDescription(c, AfterTar(c, dir, tar)) then
      [dir, AfterTar(c, dir, tar), AfterDescription(c, dir, tar, now), AfterManifest(c, dir, tar, now)]
    else [dir, AfterTar(c, dir, tar)]
  }

  class ImageDir<B> {
    var files: Dir<B>
    ghost var states: seq<Dir<B>>

    constructor (dir: Dir<B>)
      ensures files == dir && states == [dir]
    {
      files := dir;
      states := [dir];
    }

    /** A write happens whole or, with an error, not at all. */
    method Write(name: string, content: B) returns (ok: bool)
      modifies this
      ensures ok ==> files == old(files)[name := content] && states == old(states) + [files]
      ensures !ok ==> files == old(files) && states == old(states)
    {
      ok := *;
      if ok {
        files := files[name := content];
        states := states + [files];
      }
    }
  }

  /** Reading manifest and description; None when either is missing or cannot be parsed. An unparsable manifest
      is taken for an empty one, whose description cannot be read. */
  method ReadImage<B(!new)>(c: Codec<B>, image: ImageDir<B>) returns (m: ManifestDoc?, d: DescriptionDoc?)
    ensures m != null <==> HasDescription(c, image.files)
    ensures m != null ==> d != null && fresh(m) && fresh(d)
    ensures m != null ==> m.value == ManifestOf(c, image.files) && d.value == DescriptionOf(c, image.files)
  {
    if MANIFEST !in image.files {
      return null, null;
    }
    var parsed := c.parseManifest(image.files[MANIFEST]);
    if parsed.None? {
      return null, null;
    }
    var descriptionName := RemoveAll(parsed.value.config.digest, "sha256:");
    if descriptionName !in image.files {
      return null, null;
    }
    var description := c.parseDescription(image.files[descriptionName]);
    if description.None? {
      return null, null;
    }
    m := new ManifestDoc(parsed.value);
    d := new DescriptionDoc(description.value);
  }

  /** Extending both documents and writing them, the description first. */
  method WriteImage<B(!new)>(c: Codec<B>, image: ImageDir<B>, m: ManifestDoc, d: DescriptionDoc, tarLayer: Layer, now: string)
    returns (ok: bool)
    modifies image, m, d
    ensures var content := c.marshalDescription(WithLayer(old(d.value), tarLayer, now));
            var mid := old(image.files)[c.sha256(content) := content];
            var end := mid[MANIFEST := c.marshalManifest(WithConfigAndLayer(old(m.value), c.LayerOf(content), tarLayer))];
            && image.states <= old(image.states) + [mid, end]
            && old(image.states) <= image.states
            && image.files == (if image.states == old(image.states) then old(image.files) else image.states[|image.states| - 1])
            && (ok <==> |image.states| == |old(image.states)| + 2)
  {
    d.AddLayer(tarLayer, now);
    var content := c.marshalDescription(d.value);
    var descriptionLayer := c.LayerOf(content);
    ok := image.Write(descriptionLayer.sha256, content);
    if !ok {
      return false;
    }
    m.UpdateConfig(descriptionLayer);
    m.AddLayer(tarLayer);
    ok := image.Write(MANIFEST, c.marshalManifest(m.value));
  }

  /** AddTarToLayer. tar is None when the tar file cannot be read. Whatever fails, the directory has gone
      through the first of the listed states and no others; on success through all four. */
  method AddTarToLayer<B(!new)>(c: Codec<B>, image: ImageDir<B>, tar: Option<B>, now: string) returns (ok: bool)
    requires image.states == [image.files]
    modifies image
    ensures tar.None? ==> !ok && image.files == old(image.files)
    ensures tar.Some? ==> image.states <= Writes(c, old(image.files), tar.value, now)
    ensures image.states != [] && image.files == image.states[|image.states| - 1]
    ensures ok <==> |image.states| == 4
  {
    if tar.None? {
      return false;
    }
    ghost var dir := image.files;
    var tarLayer := c.LayerOf(tar.value);
    ok := image.Write(tarLayer.sha256, tar.value);
    if !ok {
      return false;
    }
    var m, d := ReadImage(c, image);
    if m == null {
      return false;
    }
    ok := WriteImage(c, image, m, d, tarLayer, now);
    assert Writes(c, dir, tar.value, now) == [dir, AfterTar(c, dir, tar.value)] +
           [AfterDescription(c, dir, tar.value, now), AfterManifest(c, dir, tar.value, now)];
  }

  // ---- crash consistency ----

  /** The contents stored beside the manifest. */
  ghost function Blobs<B(!new)>(dir: Dir<B>): (r: set<B>) { set n | n in dir && n != MANIFEST :: dir[n] }

  /** Writing a blob under its own digest changes nothing an image refers to, unless the digest collides with
      that of another blob. */
  lemma BlobWriteKeeps<B(!new)>(c: Codec<B>, dir: Dir<B>, content: B)
    requires c.Lawful() && WellFormed(c, dir) && c.Distinguishes(Blobs(dir) + {content})
    ensures var after := dir[c.sha256(content) := content];
            WellFormed(c, after) && ImageOf(c, after) == ImageOf(c, dir)
  {
    var after := dir[c.sha256(content) := content];
    assert |MANIFEST| == 13;
    var m := ManifestOf(c, dir);
    BlobStays(c, dir, content, m.config);
    forall i | 0 <= i < |m.layers|
      ensures BlobOk(c, after, m.layers[i])
      ensures after[RemoveAll(m.layers[i].digest, "sha256:")] == dir[RemoveAll(m.layers[i].digest, "sha256:")]
    {
      BlobStays(c, dir, content, m.layers[i]);
    }
    assert ImageOf(c, after).layers == ImageOf(c, dir).layers;
  }

  lemma BlobStays<B(!new)>(c: Codec<B>, dir: Dir<B>, content: B, e: Entry)
    requires c.Lawful() && BlobOk(c, dir, e) && c.Distinguishes(Blobs(dir) + {content})
    ensures var after := dir[c.sha256(content) := content]; var name := RemoveAll(e.digest, "sha256:");
            BlobOk(c, after, e) && after[name] == dir[name] && name != MANIFEST
  {
    var name := RemoveAll(e.digest, "sha256:");
    assert |name| == 64 && |MANIFEST| == 13;
    assert dir[name] in Blobs(dir);
  }

  /** The image the completed call stands for. */
  function Extended<B(!new)>(c: Codec<B>, im: Image<B>, tar: B, now: string): (r: Image<B>) {
    var d := WithLayer(im.description, c.LayerOf(tar), now);
    Image(WithConfigAndLayer(im.manifest, c.LayerOf(c.marshalDescription(d)), c.LayerOf(tar)), d, im.layers + [tar])
  }

  lemma FreshBlobOk<B(!new)>(c: Codec<B>, dir: Dir<B>, mediaType: string, content: B)
    requires c.Lawful() && c.sha256(content) in dir && dir[c.sha256(content)] == content
    ensures BlobOk(c, dir, Entry(mediaType, c.size(content), Digest(c.sha256(content))))
    ensures RemoveAll(Digest(c.sha256(content)), "sha256:") == c.sha256(content)
  {
    NameOfDigest(c.sha256(content));
  }

  /** Replacing the manifest by one that extends it, where all its blobs are already in place. */
  lemma ManifestWrite<B(!new)>(c: Codec<B>, mid: Dir<B>, tar: B, now: string)
    requires c.Lawful() && WellFormed(c, mid)
    requires var content := c.marshalDescription(WithLayer(DescriptionOf(c, mid), c.LayerOf(tar), now));
             && c.sha256(tar) in mid && mid[c.sha256(tar)] == tar
             && c.sha256(content) in mid && mid[c.sha256(content)] == content
    ensures var e := Extended(c, ImageOf(c, mid), tar, now);
            var after := mid[MANIFEST := c.marshalManifest(e.manifest)];
            WellFormed(c, after) && ImageOf(c, after) == e
  {
    var im := ImageOf(c, mid);
    var e := Extended(c, im, tar, now);
    var after := mid[MANIFEST := c.marshalManifest(e.manifest)];
    var content := c.marshalDescription(e.description);
    assert |MANIFEST| == 13;
    assert ManifestOf(c, after) == e.manifest;
    FreshBlobOk(c, after, e.manifest.config.mediaType, content);
    FreshBlobOk(c, after, LAYER_TYPE, tar);
    assert DescriptionOf(c, after) == e.description;
    var n := |im.manifest.layers|;
    forall i | 0 <= i < n
      ensures BlobOk(c, after, im.manifest.layers[i])
      ensures after[RemoveAll(im.manifest.layers[i].digest, "sha256:")] == im.layers[i]
    {
      assert BlobOk(c, mid, im.manifest.layers[i]);
      assert |RemoveAll(im.manifest.layers[i].digest, "sha256:")| == 64;
    }
    assert e.description.history[..|e.description.history| - 1] == im.description.history;
    assert ImageOf(c, after).layers == e.layers;
  }

  /** The blobs one call writes. */
  ghost function NewBlobs<B(!new)>(c: Codec<B>, dir: Dir<B>, tar: B, now: string): (r: set<B>) {
    {tar} + if HasDescription(c, AfterTar(c, dir, tar)) then
      {c.marshalDescription(NewDescription(c, AfterTar(c, dir, tar), tar, now))} else {}
  }

  /** Stopping after any single write leaves a well-formed directory that holds the whole old image or, after
      the last write, the whole new one. */
  lemma CrashConsistent<B(!new)>(c: Codec<B>, dir: Dir<B>, tar: B, now: string, k: nat)
    requires c.Lawful() && WellFormed(c, dir) && c.Distinguishes(Blobs(dir) + NewBlobs(c, dir, tar, now)) && k < 4
    ensures |Writes(c, dir, tar, now)| == 4
    ensures WellFormed(c, Writes(c, dir, tar, now)[k])
    ensures ImageOf(c, Writes(c, dir, tar, now)[k]) ==
            if k < 3 then ImageOf(c, dir) else Extended(c, ImageOf(c, dir), tar, now)
  {
    var first := AfterTar(c, dir, tar);
    BlobWriteKeeps(c, dir, tar);
    var content := c.marshalDescription(NewDescription(c, first, tar, now));
    assert Blobs(first) <= Blobs(dir) + {tar};
    BlobWriteKeeps(c, first, content);
    var mid := AfterDescription(c, dir, tar, now);
    assert mid[c.sha256(tar)] == tar;
    ManifestWrite(c, mid, tar, now);
  }

  // ---- any number of calls, each possibly cut short ----

  /** One call that stops after `writes` writes; with three it completes. */
  datatype Call<B> = Call(tar: B, now: string, writes: nat)

  function DirAfter<B(!new)>(c: Codec<B>, dir: Dir<B>, calls: seq<Call<B>>): (r: Dir<B>) {
    if calls == [] then dir
    else
      var before := DirAfter(c, dir, calls[..|calls| - 1]);
      var last := calls[|calls| - 1];
      var ws := Writes(c, before, last.tar, last.now);
      ws[if last.writes < |ws| then last.writes else |ws| - 1]
  }

  /** The blobs a sequence of calls writes. */
  ghost function AllBlobs<B(!new)>(c: Codec<B>, dir: Dir<B>, calls: seq<Call<B>>): (r: set<B>) {
    if calls == [] then Blobs(dir)
    else
      var last := calls[|calls| - 1];
      AllBlobs(c, dir, calls[..|calls| - 1]) + NewBlobs(c, DirAfter(c, dir, calls[..|calls| - 1]), last.tar, last.now)
  }

  function CompletedTars<B>(calls: seq<Call<B>>): (r: seq<B>) {
    if calls == [] then []
    else CompletedTars(calls[..|calls| - 1]) +
         (if calls[|calls| - 1].writes >= 3 then [calls[|calls| - 1].tar] else [])
  }

  /** The manifest entries of layers. */
  function Entries<B(!new)>(c: Codec<B>, tars: seq<B>): (r: seq<Entry>)
    ensures |r| == |tars|
    ensures forall i :: 0 <= i < |tars| ==>
              r[i] == Entry("application/vnd.docker.image.rootfs.diff.tar.gzip", c.size(tars[i]), "sha256:" + c.sha256(tars[i]))
  {
    seq(|tars|, i requires 0 <= i < |tars| => Entry(LAYER_TYPE, c.size(tars[i]), Digest(c.sha256(tars[i]))))
  }

  /** The diff IDs of layers. */
  function DiffIds<B(!new)>(c: Codec<B>, tars: seq<B>): (r: seq<string>)
    ensures |r| == |tars| && forall i :: 0 <= i < |tars| ==> r[i] == "sha256:" + c.sha256(tars[i])
  {
    seq(|tars|, i requires 0 <= i < |tars| => Digest(c.sha256(tars[i])))
  }

  /** img is was with the given tars on top. Everything old is an unchanged prefix; each tar has its layer entry,
      its diff ID and its history entry; the config entry names the description by digest and size. */
  ghost predicate Grown<B(!new)>(c: Codec<B>, was: Image<B>, img: Image<B>, tars: seq<B>) {
    && img.layers == was.layers + tars
    && img.manifest.layers == was.manifest.layers + Entries(c, tars)
    && img.description.diffIds == was.description.diffIds + DiffIds(c, tars)
    && Recorded(was.description.history, img.description.history, |tars|)
    && img.manifest.(config := was.manifest.config, layers := was.manifest.layers) == was.manifest
    && SameBase(was.description, img.description)
    && if tars == [] then img == was
       else
         var content := c.marshalDescription(img.description);
         && img.manifest.config == Entry(was.manifest.config.mediaType, c.size(content), "sha256:" + c.sha256(content))
         && Anonymous(img.description)
  }

  predicate Recorded(was: seq<HistoryEntry>, now: seq<HistoryEntry>, n: nat) {
    && was <= now && |now| == |was| + n
    && forall i :: |was| <= i < |now| ==> now[i].comment == "Created by Kubeless" && !now[i].emptyLayer
  }

  lemma GrownTransitive<B(!new)>(c: Codec<B>, a: Image<B>, b: Image<B>, d: Image<B>, first: seq<B>, second: seq<B>)
    requires Grown(c, a, b, first) && Grown(c, b, d, second)
    ensures Grown(c, a, d, first + second)
  {
    if second == [] {
      assert first + second == first;
    } else {
      ListsConcat(c, first, second);
      Associates(a.layers, first, second);
      Associates(a.manifest.layers, Entries(c, first), Entries(c, second));
      Associates(a.description.diffIds, DiffIds(c, first), DiffIds(c, second));
      RecordedTransitive(a.description.history, b.description.history, d.description.history, |first|, |second|);
    }
  }

  lemma Associates<T>(a: seq<T>, b: seq<T>, d: seq<T>)
    ensures a + (b + d) == a + b + d
  {
  }

  lemma RecordedTransitive(a: seq<HistoryEntry>, b: seq<HistoryEntry>, d: seq<HistoryEntry>, m: nat, n: nat)
    requires Recorded(a, b, m) && Recorded(b, d, n)
    ensures Recorded(a, d, m + n)
  {
    forall i | |a| <= i < |d|
      ensures d[i].comment == "Created by Kubeless" && !d[i].emptyLayer
    {
      if i < |b| {
        assert d[i] == b[i];
      }
    }
  }

  lemma ListsConcat<B(!new)>(c: Codec<B>, first: seq<B>, second: seq<B>)
    ensures Entries(c, first + second) == Entries(c, first) + Entries(c, second)
    ensures DiffIds(c, first + second) == DiffIds(c, first) + DiffIds(c, second)
  {
  }

  lemma ExtendedGrows<B(!new)>(c: Codec<B>, im: Image<B>, tar: B, now: string)
    ensures Grown(c, im, Extended(c, im, tar, now), [tar])
  {
    var e := Extended(c, im, tar, now);
    assert Entries(c, [tar]) == [Entry(LAYER_TYPE, c.size(tar), Digest(c.sha256(tar)))];
    assert DiffIds(c, [tar]) == [Digest(c.sha256(tar))];
  }

  lemma NothingGrows<B(!new)>(c: Codec<B>, im: Image<B>)
    ensures Grown(c, im, im, [])
  {
    assert im.layers + [] == im.layers && im.manifest.layers + [] == im.manifest.layers;
    assert im.description.diffIds + [] == im.description.diffIds;
  }

  /** One call, stopped after k writes. */
  lemma OneCall<B(!new)>(c: Codec<B>, dir: Dir<B>, tar: B, now: string, k: nat)
    requires c.Lawful() && WellFormed(c, dir) && c.Distinguishes(Blobs(dir) + NewBlobs(c, dir, tar, now)) && k < 4
    ensures |Writes(c, dir, tar, now)| == 4 && WellFormed(c, Writes(c, dir, tar, now)[k])
    ensures Grown(c, ImageOf(c, dir), ImageOf(c, Writes(c, dir, tar, now)[k]), if k < 3 then [] else [tar])
  {
    CrashConsistent(c, dir, tar, now, k);
    NothingGrows(c, ImageOf(c, dir));
    ExtendedGrows(c, ImageOf(c, dir), tar, now);
  }

  /** Writes add no blobs but their own. */
  lemma BlobsAfter<B(!new)>(c: Codec<B>, dir: Dir<B>, tar: B, now: string, k: nat)
    requires k < |Writes(c, dir, tar, now)|
    ensures Blobs(Writes(c, dir, tar, now)[k]) <= Blobs(dir) + NewBlobs(c, dir, tar, now)
  {
  }

  /** After any number of calls, interrupted or not, the image is well-formed, the old layers are an unchanged
      prefix, and what follows them is exactly the tars of the completed calls, in order, with their entries,
      diff IDs and history. */
  lemma {:induction false} ManyCalls<B(!new)>(c: Codec<B>, dir: Dir<B>, calls: seq<Call<B>>)
    requires c.Lawful() && WellFormed(c, dir) && c.Distinguishes(AllBlobs(c, dir, calls))
    ensures WellFormed(c, DirAfter(c, dir, calls))
    ensures Grown(c, ImageOf(c, dir), ImageOf(c, DirAfter(c, dir, calls)), CompletedTars(calls))
    ensures Blobs(DirAfter(c, dir, calls)) <= AllBlobs(c, dir, calls)
  {
    if calls == [] {
      NothingGrows(c, ImageOf(c, dir));
    } else {
      var init, last := calls[..|calls| - 1], calls[|calls| - 1];
      ManyCalls(c, dir, init);
      var before := DirAfter(c, dir, init);
      var k := if last.writes < 4 then last.writes else 3;
      OneCall(c, before, last.tar, last.now, k);
      BlobsAfter(c, before, last.tar, last.now, k);
      var after := Writes(c, before, last.tar, last.now)[k];
      assert DirAfter(c, dir, calls) == after;
      GrownTransitive(c, ImageOf(c, dir), ImageOf(c, before), ImageOf(c, after), CompletedTars(init), if k < 3 then [] else [last.tar]);
    }
  }

  // ---- the laws can be met ----

  /** File contents by what they are. */
  datatype Sample = Bytes(text: string) | ManifestJson(manifest: Manifest) | DescriptionJson(description: Description)

  function SampleTag(x: Sample): (r: char) {
    match x
    case Bytes(_) => 'a'
    case ManifestJson(_) => 'b'
    case DescriptionJson(d) => if d.diffIds == [] then '0' else '1'
  }

  function SampleCodec(): (c: Codec<Sample>) {
    Codec((x: Sample) => seq(64, i => SampleTag(x)), (x: Sample) => if x.Bytes? then |x.text| else 1,
          (m: Manifest) => ManifestJson(m), (x: Sample) => if x.ManifestJson? then Some(x.manifest) else None,
          (d: Description) => DescriptionJson(d), (x: Sample) => if x.DescriptionJson? then Some(x.description) else None)
  }

  const EMPTY_CONFIG := ContainerConfig("", "", "")
  const EMPTY_DESCRIPTION := Description("", EMPTY_CONFIG, "", EMPTY_CONFIG, "", "", [], "", "", [])

  /** An image without layers. */
  function SampleDir(): (r: Dir<Sample>) {
    var sha := SampleCodec().sha256(DescriptionJson(EMPTY_DESCRIPTION));
    map[MANIFEST := ManifestJson(Manifest(2, "", Entry("", 1, Digest(sha)), [])), sha := DescriptionJson(EMPTY_DESCRIPTION)]
  }

  lemma SampleIsLawful()
    ensures SampleCodec().Lawful() && WellFormed(SampleCodec(), SampleDir())
    ensures Blobs(SampleDir()) == {DescriptionJson(EMPTY_DESCRIPTION)}
    ensures DescriptionOf(SampleCodec(), SampleDir()) == EMPTY_DESCRIPTION
  {
    var sha := SampleCodec().sha256(DescriptionJson(EMPTY_DESCRIPTION));
    assert |sha| == 64 && |MANIFEST| == 13 && ':' !in sha;
    NameOfDigest(sha);
  }

  /** Contents with different tags have different digests. */
  lemma TagsDistinguish(contents: set<Sample>)
    requires forall x, y :: x in contents && y in contents && SampleTag(x) == SampleTag(y) ==> x == y
    ensures SampleCodec().Distinguishes(contents)
  {
    var c := SampleCodec();
    forall x, y | x in contents && y in contents && c.sha256(x) == c.sha256(y)
      ensures x == y
    {
      assert c.sha256(x)[0] == SampleTag(x) && c.sha256(y)[0] == SampleTag(y);
    }
  }

  /** A codec, an image and a call that meet every condition above. */
  lemma LawsAreMet(tar: string, now: string)
    ensures var c, dir, calls := SampleCodec(), SampleDir(), [Call(Bytes(tar), now, 3)];
            c.Lawful() && WellFormed(c, dir) && c.Distinguishes(AllBlobs(c, dir, calls))
  {
    var c, dir, calls := SampleCodec(), SampleDir(), [Call(Bytes(tar), now, 3)];
    var d := DescriptionJson(EMPTY_DESCRIPTION);
    SampleIsLawful();
    TagsDistinguish({d, Bytes(tar)});
    BlobWriteKeeps(c, dir, Bytes(tar));
    assert ImageOf(c, AfterTar(c, dir, Bytes(tar))).description == EMPTY_DESCRIPTION;
    var next := NewDescription(c, AfterTar(c, dir, Bytes(tar)), Bytes(tar), now);
    assert next.diffIds != [];
    assert calls[..0] == [];
    assert AllBlobs(c, dir, calls) == {d, Bytes(tar), DescriptionJson(next)};
    TagsDistinguish({d, Bytes(tar), DescriptionJson(next)});
  }
}

/** The Deployment as JSON, and the merge patch with which EnsureFuncDeployment updates a live one. */
module DeploymentPatch {
  import opened Common
  import opened Json
  import opened Quantities
  import opened PodSpecs
  import opened Desired
  import opened EnvOrder

  // ---- marshalling ----

  function MarshalLabels(m: Labels): (r: Json) { Obj(map k | k in m :: Key(k) := Str(m[k])) }

  function MarshalVar(e: EnvVar): (r: Json) { Obj(map[Name := Str(e.name), Value := Str(e.value)]) }

  function MarshalVars(env: seq<EnvVar>): (r: seq<Json>)
    ensures |r| == |env| && forall i :: 0 <= i < |env| ==> r[i] == MarshalVar(env[i])
  {
    seq(|env|, i requires 0 <= i < |env| => MarshalVar(env[i]))
  }

  function MarshalMounts(ms: seq<Mount>): (r: Json) {
    Arr(seq(|ms|, i requires 0 <= i < |ms| =>
      Obj(With(map[Name := Str(ms[i].name), MountPath := Str(ms[i].path)], ms[i].readOnly, ReadOnly, Str("true")))))
  }

  function MarshalQuantities(m: map<string, Quantity>): (r: Json) { Obj(map k | k in m :: Key(k) := Str(m[k].text)) }

  function MarshalDemand(d: Demand): (r: Json) {
    Obj(With(With(map[], d.limits != map[], Limits, MarshalQuantities(d.limits)), d.requests != map[], Requests, MarshalQuantities(d.requests)))
  }

  function MarshalPorts(ports: seq<int>): (r: Json)
    ensures r.Arr? && |r.elems| == |ports| && forall i :: 0 <= i < |ports| ==> r.elems[i] == Num(ports[i])
  {
    Arr(seq(|ports|, i requires 0 <= i < |ports| => Num(ports[i])))
  }

  /** A container but for its environment. */
  function MarshalRest(c: Container): (r: map<Member, Json>) {
    With(map[Name := Str(c.name), Image := Str(c.image), Args := Arr([Str(c.args)]),
             VolumeMounts := MarshalMounts(c.mounts),
             Ports := MarshalPorts(c.ports), Resources := MarshalDemand(c.resources),
             WorkingDir := Str(c.workingDir)],
         c.probe.Some?, LivenessProbe, Str(if c.probe.Some? then c.probe.value else ""))
  }

  function MarshalContainer(c: Container): (r: Json) {
    Obj(MarshalRest(c.(env := []))[Env := Arr(MarshalVars(c.env))])
  }

  function MarshalContainers(cs: seq<Container>): (r: Json) {
    Arr(seq(|cs|, i requires 0 <= i < |cs| => MarshalContainer(cs[i])))
  }

  function MarshalVolume(v: Volume): (r: Json) {
    match v.source
    case EmptyDir(limit) =>
      Obj(map[Name := Str(v.name), EmptyDirM := Obj(With(map[], limit.Some?, SizeLimit, Str(if limit.Some? then limit.value.text else "")))])
    case FromConfigMap(m) => Obj(map[Name := Str(v.name), ConfigMapM := Str(m)])
    case FromSecret(s) => Obj(map[Name := Str(v.name), SecretM := Str(s)])
    case OtherSource(t) => Obj(map[Name := Str(v.name), SourceM := Str(t)])
  }

  function MarshalStrings(ss: seq<string>): (r: Json) { Arr(seq(|ss|, i requires 0 <= i < |ss| => Str(ss[i]))) }

  function MarshalVolumes(vs: seq<Volume>): (r: Json) { Arr(seq(|vs|, i requires 0 <= i < |vs| => MarshalVolume(vs[i]))) }

  function Text(t: Option<string>): (r: Json) { Str(if t.Some? then t.value else "") }

  /** Lists that are empty are left out of the JSON, except the containers. */
  function MarshalPod(p: PodSpec): (r: Json) {
    var m := map[Containers := MarshalContainers(p.containers)];
    var m := With(m, p.volumes != [], Volumes, MarshalVolumes(p.volumes));
    var m := With(m, p.initContainers != [], InitContainers, MarshalContainers(p.initContainers));
    var m := With(m, p.pullSecrets != [], ImagePullSecrets, MarshalStrings(p.pullSecrets));
    var m := With(m, p.securityContext.Some?, SecurityContext, Text(p.securityContext));
    Obj(With(m, p.affinity.Some?, Affinity, Text(p.affinity)))
  }

  function MarshalMeta(base: map<Member, Json>, labels: Labels, annotations: Labels): (r: map<Member, Json>) {
    With(With(base, labels != map[], LabelsM, MarshalLabels(labels)), annotations != map[], Annotations, MarshalLabels(annotations))
  }

  function MarshalSelector(sel: Labels): (r: Json) { Obj(map[MatchLabels := MarshalLabels(sel)]) }

  function TemplateJson(meta: Json, pod: Json): (r: Json) { Obj(map[Metadata := meta, Spec := pod]) }

  function MarshalTemplate(d: DeploymentObj): (r: Json) {
    TemplateJson(Obj(MarshalMeta(map[], d.templateLabels, d.templateAnnotations)), MarshalPod(d.pod))
  }

  /** The members of a Deployment spec other than the selector. */
  function SpecMembers(template: Json, replicas: Option<int>): (r: map<Member, Json>) {
    With(map[Template := template, Strategy := Str("rollingUpdate maxUnavailable 0")],
         replicas.Some?, Replicas, Num(if replicas.Some? then replicas.value else 0))
  }

  function Owner(uid: string): (r: Json) { Arr([Str(uid)]) }

  function Base(name: string, owner: string): (r: map<Member, Json>) { map[Name := Str(name), OwnerReferences := Owner(owner)] }

  function Document(meta: map<Member, Json>, spec: map<Member, Json>): (r: Json) { Obj(map[Metadata := Obj(meta), Spec := Obj(spec)]) }

  /** The object EnsureFuncDeployment creates. */
  function Marshal(name: string, d: DeploymentObj): (r: Json) {
    Document(MarshalMeta(Base(name, d.owner), d.labels, d.annotations),
             SpecMembers(MarshalTemplate(d), d.replicas)[Selector := MarshalSelector(d.selector)])
  }

  // ---- reading a live Deployment ----

  function Meta(live: Json): (r: Json) { Field(live, Metadata) }

  function SpecOf(live: Json): (r: Json) { Field(live, Spec) }

  function LabelsOf(live: Json): (r: Json) { Field(Meta(live), LabelsM) }

  function SelectorOf(live: Json): (r: Json) { Field(SpecOf(live), Selector) }

  function TemplateOf(live: Json): (r: Json) { Field(SpecOf(live), Template) }

  function TemplateLabelsOf(live: Json): (r: Json) { Field(Field(TemplateOf(live), Metadata), LabelsM) }

  function PodOf(live: Json): (r: Json) { Field(TemplateOf(live), Spec) }

  function ContainersOf(live: Json): (r: Json) { Field(PodOf(live), Containers) }

  predicate LiveOwned(live: Json) { Field(LabelsOf(live), Key("created-by")) == Str("kubeless") }

  /** What a created Deployment holds. */
  lemma Created(name: string, d: DeploymentObj)
    ensures ContainersOf(Marshal(name, d)) == MarshalContainers(d.pod.containers)
    ensures SelectorOf(Marshal(name, d)) == MarshalSelector(d.selector)
    ensures d.labels != map[] ==> LabelsOf(Marshal(name, d)) == MarshalLabels(d.labels)
    ensures d.templateLabels != map[] ==> TemplateLabelsOf(Marshal(name, d)) == MarshalLabels(d.templateLabels)
  {
    var meta := MarshalMeta(Base(name, d.owner), d.labels, d.annotations);
    CreatedSpec(meta, MarshalTemplate(d), d.replicas, MarshalSelector(d.selector));
    CreatedLabels(Base(name, d.owner), d.labels, d.annotations);
    CreatedTemplate(d);
  }

  lemma CreatedSpec(meta: map<Member, Json>, template: Json, replicas: Option<int>, selector: Json)
    ensures var r := Document(meta, SpecMembers(template, replicas)[Selector := selector]);
            SelectorOf(r) == selector && TemplateOf(r) == template && Meta(r) == Obj(meta)
  {
  }

  lemma CreatedLabels(base: map<Member, Json>, labels: Labels, annotations: Labels)
    ensures labels != map[] ==> Field(Obj(MarshalMeta(base, labels, annotations)), LabelsM) == MarshalLabels(labels)
  {
  }

  lemma CreatedTemplate(d: DeploymentObj)
    ensures Field(Field(MarshalTemplate(d), Spec), Containers) == MarshalContainers(d.pod.containers)
    ensures d.templateLabels != map[] ==> Field(Field(MarshalTemplate(d), Metadata), LabelsM) == MarshalLabels(d.templateLabels)
  {
    CreatedLabels(map[], d.templateLabels, d.templateAnnotations);
    CreatedPod(d.pod);
    TemplateMembers(Obj(MarshalMeta(map[], d.templateLabels, d.templateAnnotations)), MarshalPod(d.pod));
  }

  lemma CreatedPod(p: PodSpec)
    ensures Field(MarshalPod(p), Containers) == MarshalContainers(p.containers)
  {
  }

  lemma TemplateMembers(meta: Json, pod: Json)
    ensures Field(TemplateJson(meta, pod), Metadata) == meta && Field(TemplateJson(meta, pod), Spec) == pod
  {
  }

  // ---- the patch ----

  /** Metadata of newDpm: the live one with labels, annotations and owner replaced. */
  function PatchMeta(meta: Json, labels: Labels, annotations: Labels, owner: string): (r: map<Member, Json>) {
    With((Fields(meta) - {Annotations})[LabelsM := MarshalLabels(labels)][OwnerReferences := Owner(owner)],
         annotations != map[], Annotations, MarshalLabels(annotations))
  }

  /** Spec of newDpm: the desired one with the live selector. */
  function PatchSpec(spec: Json, template: Json, replicas: Option<int>): (r: map<Member, Json>) {
    With(SpecMembers(template, replicas), Selector in Fields(spec), Selector, Field(spec, Selector))
  }

  function Overlay(live: Json, meta: map<Member, Json>, spec: map<Member, Json>): (r: Json) {
    Obj(Fields(live)[Metadata := Obj(meta)][Spec := Obj(spec)])
  }

  /** What a Function contributes to an update: labels and annotations of the object, the owner, and the spec. */
  datatype Update = Update(labels: Labels, annotations: Labels, owner: string, template: Json, replicas: Option<int>)

  function UpdateOf(f: FunctionObj, d: DeploymentObj): (r: Update) {
    Update(Marked(f), f.deployment.annotations, d.owner, MarshalTemplate(d), d.replicas)
  }

  /** The live Deployment after an update by the controller. */
  function Patched(live: Json, u: Update): (r: Json) {
    MergePatch(live, Overlay(live, PatchMeta(Meta(live), u.labels, u.annotations, u.owner),
                             PatchSpec(SpecOf(live), u.template, u.replicas)))
  }

  // ---- null-freeness ----

  lemma LabelsNullFree(m: Labels)
    ensures NullFree(MarshalLabels(m))
  {
  }

  lemma MetaNullFree(base: map<Member, Json>, labels: Labels, annotations: Labels)
    requires NullFree(Obj(base))
    ensures NullFree(Obj(MarshalMeta(base, labels, annotations)))
  {
    LabelsNullFree(labels);
    LabelsNullFree(annotations);
    WithNullFree(base, labels != map[], LabelsM, MarshalLabels(labels));
    WithNullFree(With(base, labels != map[], LabelsM, MarshalLabels(labels)),
                 annotations != map[], Annotations, MarshalLabels(annotations));
  }

  lemma DocumentNullFree(meta: map<Member, Json>, spec: map<Member, Json>)
    requires NullFree(Obj(meta)) && NullFree(Obj(spec))
    ensures NullFree(Document(meta, spec))
  {
  }

  lemma TemplateNullFree(d: DeploymentObj)
    ensures NullFree(MarshalTemplate(d))
  {
    MetaNullFree(map[], d.templateLabels, d.templateAnnotations);
    PodNullFree(d.pod);
    DocumentNullFree(MarshalMeta(map[], d.templateLabels, d.templateAnnotations), MarshalPod(d.pod).fields);
  }

  lemma PodNullFree(p: PodSpec)
    ensures NullFree(MarshalPod(p))
  {
    var m0 := map[Containers := MarshalContainers(p.containers)];
    var m1 := With(m0, p.volumes != [], Volumes, MarshalVolumes(p.volumes));
    var m2 := With(m1, p.initContainers != [], InitContainers, MarshalContainers(p.initContainers));
    var m3 := With(m2, p.pullSecrets != [], ImagePullSecrets, MarshalStrings(p.pullSecrets));
    var m4 := With(m3, p.securityContext.Some?, SecurityContext, Text(p.securityContext));
    WithNullFree(map[], true, Containers, MarshalContainers(p.containers));
    WithNullFree(m0, p.volumes != [], Volumes, MarshalVolumes(p.volumes));
    WithNullFree(m1, p.initContainers != [], InitContainers, MarshalContainers(p.initContainers));
    WithNullFree(m2, p.pullSecrets != [], ImagePullSecrets, MarshalStrings(p.pullSecrets));
    WithNullFree(m3, p.securityContext.Some?, SecurityContext, Text(p.securityContext));
    WithNullFree(m4, p.affinity.Some?, Affinity, Text(p.affinity));
  }

  lemma SpecNullFree(template: Json, replicas: Option<int>)
    requires NullFree(template) && !template.Null?
    ensures NullFree(Obj(SpecMembers(template, replicas)))
  {
  }

  lemma SelectorNullFree(spec: map<Member, Json>, sel: Labels)
    requires NullFree(Obj(spec))
    ensures NullFree(Obj(spec[Selector := MarshalSelector(sel)]))
  {
    LabelsNullFree(sel);
    WithNullFree(map[], true, MatchLabels, MarshalLabels(sel));
    WithNullFree(spec, true, Selector, MarshalSelector(sel));
  }

  lemma MarshalNullFree(name: string, d: DeploymentObj)
    ensures NullFree(Marshal(name, d))
  {
    TemplateNullFree(d);
    var spec := SpecMembers(MarshalTemplate(d), d.replicas);
    SpecNullFree(MarshalTemplate(d), d.replicas);
    SelectorNullFree(spec, d.selector);
    BaseNullFree(name, d.owner);
    MetaNullFree(Base(name, d.owner), d.labels, d.annotations);
    DocumentNullFree(MarshalMeta(Base(name, d.owner), d.labels, d.annotations),
                     spec[Selector := MarshalSelector(d.selector)]);
  }

  lemma BaseNullFree(name: string, owner: string)
    ensures NullFree(Obj(Base(name, owner)))
    ensures Base(name, owner).Keys == {Name, OwnerReferences}
  {
  }

  lemma PatchMetaNullFree(meta: Json, labels: Labels, annotations: Labels, owner: string)
    requires NullFree(meta)
    ensures NullFree(Obj(PatchMeta(meta, labels, annotations, owner)))
  {
    LabelsNullFree(labels);
    LabelsNullFree(annotations);
    FieldNullFree(meta, Annotations);
    WithoutNullFree(Fields(meta), Annotations);
    var m := Fields(meta) - {Annotations};
    WithNullFree(m, true, LabelsM, MarshalLabels(labels));
    WithNullFree(m[LabelsM := MarshalLabels(labels)], true, OwnerReferences, Owner(owner));
    WithNullFree(m[LabelsM := MarshalLabels(labels)][OwnerReferences := Owner(owner)],
                 annotations != map[], Annotations, MarshalLabels(annotations));
  }

  lemma PatchSpecNullFree(spec: Json, template: Json, replicas: Option<int>)
    requires NullFree(spec) && NullFree(template) && !template.Null?
    ensures NullFree(Obj(PatchSpec(spec, template, replicas)))
  {
    SpecNullFree(template, replicas);
    FieldNullFree(spec, Selector);
    WithNullFree(SpecMembers(template, replicas), Selector in Fields(spec), Selector, Field(spec, Selector));
  }

  /** A live object the API server can hold, and an update the controller can send. */
  ghost predicate Proper(live: Json, u: Update) {
    NullFree(live) && live.Obj? && Meta(live).Obj? && NullFree(u.template) && u.template.Obj?
  }

  lemma MarshalProper(name: string, f: FunctionObj, d: DeploymentObj)
    ensures Proper(Marshal(name, d), UpdateOf(f, d))
  {
    MarshalNullFree(name, d);
    TemplateNullFree(d);
  }

  lemma PatchedProper(live: Json, u: Update)
    requires Proper(live, u)
    ensures Proper(Patched(live, u), u)
  {
    var meta, spec := PatchMeta(Meta(live), u.labels, u.annotations, u.owner), PatchSpec(SpecOf(live), u.template, u.replicas);
    FieldNullFree(live, Metadata);
    FieldNullFree(live, Spec);
    PatchMetaNullFree(Meta(live), u.labels, u.annotations, u.owner);
    PatchSpecNullFree(SpecOf(live), u.template, u.replicas);
    WithNullFree(Fields(live), true, Metadata, Obj(meta));
    WithNullFree(Fields(live)[Metadata := Obj(meta)], true, Spec, Obj(spec));
    PatchNullFree(live, Overlay(live, meta, spec));
    OverlayParts(live, meta, spec);
  }

  // ---- what an update does, part by part ----

  lemma OverlayParts(live: Json, meta: map<Member, Json>, spec: map<Member, Json>)
    ensures var r := MergePatch(live, Overlay(live, meta, spec));
            && r.Obj? && Metadata in r.fields && Spec in r.fields
            && Meta(r) == MergePatch(Meta(live), Obj(meta))
            && SpecOf(r) == MergePatch(SpecOf(live), Obj(spec))
  {
    PatchField(live, Overlay(live, meta, spec), Metadata);
    PatchField(live, Overlay(live, meta, spec), Spec);
  }

  lemma PatchedParts(live: Json, u: Update)
    ensures var r := Patched(live, u);
            && r.Obj? && Metadata in r.fields && Spec in r.fields
            && Meta(r) == MergePatch(Meta(live), Obj(PatchMeta(Meta(live), u.labels, u.annotations, u.owner)))
            && SpecOf(r) == MergePatch(SpecOf(live), Obj(PatchSpec(SpecOf(live), u.template, u.replicas)))
            && (NullFree(live) ==> SameElsewhere(r, live))
  {
    var meta, spec := PatchMeta(Meta(live), u.labels, u.annotations, u.owner), PatchSpec(SpecOf(live), u.template, u.replicas);
    OverlayParts(live, meta, spec);
    if NullFree(live) {
      PatchedElsewhere(live, meta, spec);
    }
  }

  lemma SpecTemplate(spec: Json, template: Json, replicas: Option<int>)
    requires template.Obj?
    ensures Field(MergePatch(spec, Obj(PatchSpec(spec, template, replicas))), Template) == MergePatch(Field(spec, Template), template)
  {
    var p := PatchSpec(spec, template, replicas);
    assert Template in p && p[Template] == template;
    PatchField(spec, Obj(p), Template);
  }

  lemma SpecSelector(spec: Json, template: Json, replicas: Option<int>)
    requires NullFree(spec)
    ensures var r := MergePatch(spec, Obj(PatchSpec(spec, template, replicas)));
            && Field(r, Selector) == Field(spec, Selector)
            && (Selector in Fields(r) <==> Selector in Fields(spec))
  {
    var p := PatchSpec(spec, template, replicas);
    FieldNullFree(spec, Selector);
    if Selector in Fields(spec) {
      PatchSelf(Field(spec, Selector));
      assert Selector in p && p[Selector] == Field(spec, Selector);
    } else {
      assert Selector !in p;
    }
    PatchField(spec, Obj(p), Selector);
  }

  lemma PatchedTemplate(live: Json, u: Update)
    requires u.template.Obj?
    ensures TemplateOf(Patched(live, u)) == MergePatch(TemplateOf(live), u.template)
  {
    PatchedParts(live, u);
    SpecTemplate(SpecOf(live), u.template, u.replicas);
  }

  lemma TemplateParts(t: Json, meta: Json, pod: Json)
    requires meta.Obj? && pod.Obj?
    ensures Field(MergePatch(t, TemplateJson(meta, pod)), Metadata) == MergePatch(Field(t, Metadata), meta)
    ensures Field(MergePatch(t, TemplateJson(meta, pod)), Spec) == MergePatch(Field(t, Spec), pod)
  {
    PatchField(t, TemplateJson(meta, pod), Metadata);
    PatchField(t, TemplateJson(meta, pod), Spec);
  }

  lemma PatchedPod(live: Json, u: Update, meta: Json, pod: Json)
    requires u.template == TemplateJson(meta, pod) && meta.Obj? && pod.Obj?
    ensures PodOf(Patched(live, u)) == MergePatch(PodOf(live), pod)
  {
    PatchedTemplate(live, u);
    TemplateParts(TemplateOf(live), meta, pod);
  }

  lemma PodLists(live: Json, p: PodSpec)
    ensures Field(MergePatch(live, MarshalPod(p)), Containers) == MarshalContainers(p.containers)
    ensures Field(MergePatch(live, MarshalPod(p)), InitContainers) ==
            if p.initContainers != [] then MarshalContainers(p.initContainers) else Field(live, InitContainers)
  {
    PatchField(live, MarshalPod(p), Containers);
    PatchField(live, MarshalPod(p), InitContainers);
  }

  /** Convergence of the Deployment: the containers of the result are the desired ones, whatever was live. */
  lemma ContainersConverge(live: Json, f: FunctionObj, d: DeploymentObj)
    ensures ContainersOf(Patched(live, UpdateOf(f, d))) == MarshalContainers(d.pod.containers)
  {
    PatchedPod(live, UpdateOf(f, d), Obj(MarshalMeta(map[], d.templateLabels, d.templateAnnotations)), MarshalPod(d.pod));
    PodLists(PodOf(live), d.pod);
  }

  /** The init containers converge too, exactly unless none are desired while some are live: a merge patch
      that leaves the list out does not remove it. */
  lemma InitContainersConvergeIff(live: Json, f: FunctionObj, d: DeploymentObj)
    ensures var desired := if d.pod.initContainers == [] then Null else MarshalContainers(d.pod.initContainers);
            Field(PodOf(Patched(live, UpdateOf(f, d))), InitContainers) == desired <==>
            d.pod.initContainers != [] || Field(PodOf(live), InitContainers) == Null
  {
    PatchedPod(live, UpdateOf(f, d), Obj(MarshalMeta(map[], d.templateLabels, d.templateAnnotations)), MarshalPod(d.pod));
    PodLists(PodOf(live), d.pod);
  }

  lemma PatchedSelector(live: Json, u: Update)
    requires NullFree(live)
    ensures SelectorOf(Patched(live, u)) == SelectorOf(live)
    ensures Selector in Fields(SpecOf(Patched(live, u))) <==> Selector in Fields(SpecOf(live))
  {
    PatchedParts(live, u);
    FieldNullFree(live, Spec);
    SpecSelector(SpecOf(live), u.template, u.replicas);
  }

  lemma LabelPatched(live: Json, labels: Labels, k: string)
    requires k in labels
    ensures Field(MergePatch(live, MarshalLabels(labels)), Key(k)) == Str(labels[k])
  {
    PatchField(live, MarshalLabels(labels), Key(k));
  }

  lemma PatchedTemplateLabels(live: Json, f: FunctionObj, d: DeploymentObj, k: string)
    requires k in d.templateLabels
    ensures Field(TemplateLabelsOf(Patched(live, UpdateOf(f, d))), Key(k)) == Str(d.templateLabels[k])
  {
    var meta, pod := Obj(MarshalMeta(map[], d.templateLabels, d.templateAnnotations)), MarshalPod(d.pod);
    PatchedTemplate(live, UpdateOf(f, d));
    TemplateParts(TemplateOf(live), meta, pod);
    MetaLabel(Field(TemplateOf(live), Metadata), d.templateLabels, d.templateAnnotations, k);
  }

  lemma MetaLabel(live: Json, labels: Labels, annotations: Labels, k: string)
    requires k in labels
    ensures Field(Field(MergePatch(live, Obj(MarshalMeta(map[], labels, annotations))), LabelsM), Key(k)) == Str(labels[k])
  {
    PatchField(live, Obj(MarshalMeta(map[], labels, annotations)), LabelsM);
    LabelPatched(Field(live, LabelsM), labels, k);
  }

  /** What the metadata patch does to labels, annotations and owner. */
  lemma MetaParts(meta: Json, labels: Labels, annotations: Labels, owner: string)
    ensures var r := MergePatch(meta, Obj(PatchMeta(meta, labels, annotations, owner)));
            && r.Obj? && LabelsM in r.fields && OwnerReferences in r.fields
            && r.fields[LabelsM] == MergePatch(Field(meta, LabelsM), MarshalLabels(labels))
            && r.fields[OwnerReferences] == Owner(owner)
            && (annotations != map[] ==> Annotations in r.fields)
            && (annotations != map[] ==> Field(r, Annotations) == MergePatch(Field(meta, Annotations), MarshalLabels(annotations)))
            && (annotations == map[] ==> Field(r, Annotations) == Field(meta, Annotations))
  {
    var p := Obj(PatchMeta(meta, labels, annotations, owner));
    PatchField(meta, p, LabelsM);
    PatchField(meta, p, OwnerReferences);
    PatchField(meta, p, Annotations);
  }

  lemma PatchedLabels(live: Json, u: Update, k: string)
    requires k in u.labels
    ensures Field(LabelsOf(Patched(live, u)), Key(k)) == Str(u.labels[k])
  {
    PatchedParts(live, u);
    MetaParts(Meta(live), u.labels, u.annotations, u.owner);
    LabelPatched(LabelsOf(live), u.labels, k);
  }

  // ---- a second update ----

  /** After one update another with the same function leaves what it alone would have made: nothing of the
      first survives in the parts the second writes, and with the same template nothing changes at all. */
  lemma LastUpdateWins(live: Json, u: Update, v: Update)
    requires Proper(live, u) && Proper(live, v)
    requires u.(template := v.template) == v && SameShape(u.template, v.template)
    ensures Patched(Patched(live, u), v) == Patched(live, v)
  {
    var r := Patched(live, u);
    PatchedProper(live, u);
    PatchedParts(live, u);
    MetaNoOp(live, u);
    FieldNullFree(live, Spec);
    SpecTwice(SpecOf(live), u.template, v.template, u.replicas);
    PatchedParts(live, v);
    PatchedParts(r, v);
    Elsewhere(Patched(r, v), r, live);
    Elsewhere(Patched(r, v), live, Patched(live, v));
    SameMembers(Patched(r, v), Patched(live, v));
  }

  lemma Elsewhere(a: Json, b: Json, c: Json)
    requires SameElsewhere(a, b) && (SameElsewhere(b, c) || SameElsewhere(c, b))
    ensures SameElsewhere(a, c)
  {
  }

  lemma SpecTwice(spec: Json, t: Json, s: Json, replicas: Option<int>)
    requires NullFree(spec) && SameShape(t, s) && t.Obj? && s.Obj?
    ensures var r := MergePatch(spec, Obj(PatchSpec(spec, t, replicas)));
            MergePatch(r, Obj(PatchSpec(r, s, replicas))) == MergePatch(spec, Obj(PatchSpec(spec, s, replicas)))
  {
    SpecSelector(spec, t, replicas);
    SpecShape(spec, t, s, replicas);
    LastPatchWins(spec, Obj(PatchSpec(spec, t, replicas)), Obj(PatchSpec(spec, s, replicas)));
  }

  lemma SpecShape(spec: Json, t: Json, s: Json, replicas: Option<int>)
    requires SameShape(t, s) && t.Obj? && s.Obj?
    ensures SameShape(Obj(PatchSpec(spec, t, replicas)), Obj(PatchSpec(spec, s, replicas)))
  {
    ShapeReflexive(Field(spec, Selector));
    assert SameShape(Obj(SpecMembers(t, replicas)), Obj(SpecMembers(s, replicas)));
  }

  lemma PodShape(p: PodSpec, q: PodSpec)
    requires PodSame(p, q)
    ensures SameShape(MarshalPod(p), MarshalPod(q))
  {
    var cp, cq := MarshalContainers(p.containers), MarshalContainers(q.containers);
    var vs, ip, iq := MarshalVolumes(p.volumes), MarshalContainers(p.initContainers), MarshalContainers(q.initContainers);
    var m0, n0 := map[Containers := cp], map[Containers := cq];
    WithShape(map[], map[], true, Containers, cp, cq);
    var b1, b2, b3, b4 := p.volumes != [], p.initContainers != [], p.pullSecrets != [], p.securityContext.Some?;
    var m1, n1 := With(m0, b1, Volumes, vs), With(n0, b1, Volumes, vs);
    WithShape(m0, n0, b1, Volumes, vs, vs);
    var m2, n2 := With(m1, b2, InitContainers, ip), With(n1, b2, InitContainers, iq);
    WithShape(m1, n1, b2, InitContainers, ip, iq);
    var ss, sc := MarshalStrings(p.pullSecrets), Text(p.securityContext);
    var m3, n3 := With(m2, b3, ImagePullSecrets, ss), With(n2, b3, ImagePullSecrets, ss);
    WithShape(m2, n2, b3, ImagePullSecrets, ss, ss);
    var m4, n4 := With(m3, b4, SecurityContext, sc), With(n3, b4, SecurityContext, sc);
    WithShape(m3, n3, b4, SecurityContext, sc, sc);
    WithShape(m4, n4, p.affinity.Some?, Affinity, Text(p.affinity), Text(p.affinity));
  }

  lemma TemplateShape(d: DeploymentObj, e: DeploymentObj)
    requires d.(pod := e.pod) == e && PodSame(d.pod, e.pod)
    ensures SameShape(MarshalTemplate(d), MarshalTemplate(e))
  {
    PodShape(d.pod, e.pod);
    TemplateJsonShape(Obj(MarshalMeta(map[], d.templateLabels, d.templateAnnotations)), MarshalPod(d.pod), MarshalPod(e.pod));
  }

  lemma TemplateJsonShape(meta: Json, p: Json, q: Json)
    requires meta.Obj? && p.Obj? && q.Obj? && SameShape(p, q)
    ensures SameShape(TemplateJson(meta, p), TemplateJson(meta, q))
  {
    ShapeReflexive(meta);
  }

  lemma SecondUpdateIsNoOp(live: Json, u: Update)
    requires Proper(live, u)
    ensures Patched(Patched(live, u), u) == Patched(live, u)
  {
    ShapeReflexive(u.template);
    LastUpdateWins(live, u, u);
  }

  lemma MetaNoOp(live: Json, u: Update)
    requires Proper(live, u)
    ensures var m := Meta(Patched(live, u));
            MergePatch(m, Obj(PatchMeta(m, u.labels, u.annotations, u.owner))) == m
  {
    PatchedParts(live, u);
    PatchedProper(live, u);
    FieldNullFree(Patched(live, u), Metadata);
    MetaParts(Meta(live), u.labels, u.annotations, u.owner);
    PatchIdempotent(LabelsOf(live), MarshalLabels(u.labels));
    PatchIdempotent(Field(Meta(live), Annotations), MarshalLabels(u.annotations));
    MetaFromMembers(Meta(Patched(live, u)), u.labels, u.annotations, u.owner);
  }

  /** A metadata patch is a no-op when it is one on labels, annotations and owner. */
  lemma MetaFromMembers(meta: Json, labels: Labels, annotations: Labels, owner: string)
    requires meta.Obj? && NullFree(meta)
    requires LabelsM in meta.fields && MergePatch(meta.fields[LabelsM], MarshalLabels(labels)) == meta.fields[LabelsM]
    requires OwnerReferences in meta.fields && meta.fields[OwnerReferences] == Owner(owner)
    requires annotations != map[] ==>
               Annotations in meta.fields &&
               MergePatch(meta.fields[Annotations], MarshalLabels(annotations)) == meta.fields[Annotations]
    ensures MergePatch(meta, Obj(PatchMeta(meta, labels, annotations, owner))) == meta
  {
    var q := PatchMeta(meta, labels, annotations, owner);
    PatchMetaNullFree(meta, labels, annotations, owner);
    forall k | k in q
      ensures k in meta.fields && MergePatch(meta.fields[k], q[k]) == meta.fields[k]
    {
      PatchMetaMember(meta, labels, annotations, owner, k);
      if k != LabelsM && k != Annotations && k != OwnerReferences {
        PatchSelf(meta.fields[k]);
      }
    }
    NoOpIfMembers(meta, Obj(q));
  }

  /** The members of a metadata patch. */
  lemma PatchMetaMember(meta: Json, labels: Labels, annotations: Labels, owner: string, k: Member)
    requires k in PatchMeta(meta, labels, annotations, owner)
    ensures var v := PatchMeta(meta, labels, annotations, owner)[k];
            && (k == LabelsM ==> v == MarshalLabels(labels))
            && (k == OwnerReferences ==> v == Owner(owner))
            && (k == Annotations ==> annotations != map[] && v == MarshalLabels(annotations))
            && (k != LabelsM && k != OwnerReferences && k != Annotations ==> k in Fields(meta) && v == Fields(meta)[k])
  {
  }

  /** Besides metadata and spec an update leaves every member as it is. */
  ghost predicate SameElsewhere(a: Json, b: Json) {
    forall k :: k != Metadata && k != Spec ==> (k in Fields(a) <==> k in Fields(b)) && Field(a, k) == Field(b, k)
  }

  lemma PatchedElsewhere(live: Json, meta: map<Member, Json>, spec: map<Member, Json>)
    requires NullFree(live)
    ensures SameElsewhere(MergePatch(live, Overlay(live, meta, spec)), live)
  {
    var p := Overlay(live, meta, spec);
    forall k | k != Metadata && k != Spec
      ensures k in Fields(MergePatch(live, p)) <==> k in Fields(live)
      ensures Field(MergePatch(live, p), k) == Field(live, k)
    {
      PatchElsewhere(live, p, k);
    }
  }

  lemma PatchElsewhere(live: Json, p: Json, k: Member)
    requires NullFree(live) && p.Obj? && (k in p.fields <==> k in Fields(live)) && Field(p, k) == Field(live, k)
    ensures k in Fields(MergePatch(live, p)) <==> k in Fields(live)
    ensures Field(MergePatch(live, p), k) == Field(live, k)
  {
    PatchField(live, p, k);
    if k in Fields(live) {
      PatchSelf(Fields(live)[k]);
    }
  }

  lemma SameMembers(a: Json, b: Json)
    requires a.Obj? && b.Obj? && SameElsewhere(a, b)
    requires Metadata in a.fields && Spec in a.fields && Metadata in b.fields && Spec in b.fields
    requires Meta(a) == Meta(b) && SpecOf(a) == SpecOf(b)
    ensures a == b
  {
    forall k
      ensures k in a.fields <==> k in b.fields
      ensures Field(a, k) == Field(b, k)
    {
    }
    assert forall k :: k in a.fields ==> a.fields[k] == Field(a, k);
    assert a.fields == b.fields;
  }

  lemma NoOpFromParts(live: Json, u: Update)
    requires Proper(live, u) && Metadata in live.fields && Spec in live.fields
    requires MergePatch(Meta(live), Obj(PatchMeta(Meta(live), u.labels, u.annotations, u.owner))) == Meta(live)
    requires MergePatch(SpecOf(live), Obj(PatchSpec(SpecOf(live), u.template, u.replicas))) == SpecOf(live)
    ensures Patched(live, u) == live
  {
    PatchedParts(live, u);
    SameMembers(Patched(live, u), live);
  }

  lemma LabelsAbsorbed(big: Labels, small: Labels)
    ensures MergePatch(MarshalLabels(big), MarshalLabels(small)) == MarshalLabels(big) <==> Contained(small, big)
  {
    var b, p := MarshalLabels(big), MarshalLabels(small);
    LabelsNullFree(big);
    LabelsNullFree(small);
    NoOpByMembers(b, p);
    forall k | k in small
      ensures Key(k) in p.fields && p.fields[Key(k)] == Str(small[k]) && (Key(k) in b.fields <==> k in big)
    {
    }
  }

  /** The first update after a creation changes nothing exactly when no annotation of the user's Deployment
      template was overridden by a different annotation of the Function: creation merges the two, the update
      writes back the template's alone. */
  lemma UpdateAfterCreateNoOpIff(name: string, f: FunctionObj, d: DeploymentObj)
    requires d.labels != map[] && Contained(Marked(f), d.labels)
    requires f.deployment.annotations != map[] ==> d.annotations != map[]
    ensures Patched(Marshal(name, d), UpdateOf(f, d)) == Marshal(name, d) <==> Contained(f.deployment.annotations, d.annotations)
  {
    MarshalProper(name, f, d);
    BaseNullFree(name, d.owner);
    UpdateDocument(Base(name, d.owner), UpdateOf(f, d), d.labels, d.annotations, MarshalSelector(d.selector));
  }

  predicate Contained(small: Labels, big: Labels) { forall k :: k in small ==> k in big && big[k] == small[k] }

  lemma UpdateDocument(base: map<Member, Json>, u: Update, labels: Labels, annotations: Labels, selector: Json)
    requires base.Keys == {Name, OwnerReferences} && base[OwnerReferences] == Owner(u.owner)
    requires Proper(Document(MarshalMeta(base, labels, annotations), SpecMembers(u.template, u.replicas)[Selector := selector]), u)
    requires labels != map[] && Contained(u.labels, labels)
    requires u.annotations != map[] ==> annotations != map[]
    ensures var live := Document(MarshalMeta(base, labels, annotations), SpecMembers(u.template, u.replicas)[Selector := selector]);
            Patched(live, u) == live <==> Contained(u.annotations, annotations)
  {
    var meta := MarshalMeta(base, labels, annotations);
    var spec := SpecMembers(u.template, u.replicas)[Selector := selector];
    var live := Document(meta, spec);
    FieldNullFree(live, Metadata);
    FieldNullFree(live, Spec);
    SpecUnchanged(u.template, u.replicas, selector);
    MetaUnchangedIff(base, u, labels, annotations);
    if Contained(u.annotations, annotations) {
      NoOpFromParts(live, u);
    } else {
      PatchedParts(live, u);
    }
  }

  lemma SpecUnchanged(template: Json, replicas: Option<int>, selector: Json)
    requires NullFree(Obj(SpecMembers(template, replicas)[Selector := selector]))
    ensures var spec := Obj(SpecMembers(template, replicas)[Selector := selector]);
            MergePatch(spec, Obj(PatchSpec(spec, template, replicas))) == spec
  {
    var spec := Obj(SpecMembers(template, replicas)[Selector := selector]);
    PatchSelf(spec);
    assert PatchSpec(spec, template, replicas) == spec.fields;
  }

  lemma MetaMembers(base: map<Member, Json>, labels: Labels, annotations: Labels)
    requires base.Keys == {Name, OwnerReferences} && labels != map[]
    ensures var m := MarshalMeta(base, labels, annotations);
            && LabelsM in m && m[LabelsM] == MarshalLabels(labels) && OwnerReferences in m && m[OwnerReferences] == base[OwnerReferences]
            && (Annotations in m <==> annotations != map[]) && (Annotations in m ==> m[Annotations] == MarshalLabels(annotations))
  {
  }

  lemma MetaUnchangedIff(base: map<Member, Json>, u: Update, labels: Labels, annotations: Labels)
    requires base.Keys == {Name, OwnerReferences} && base[OwnerReferences] == Owner(u.owner)
    requires NullFree(Obj(MarshalMeta(base, labels, annotations))) && labels != map[] && Contained(u.labels, labels)
    requires u.annotations != map[] ==> annotations != map[]
    ensures var meta := Obj(MarshalMeta(base, labels, annotations));
            MergePatch(meta, Obj(PatchMeta(meta, u.labels, u.annotations, u.owner))) == meta <==> Contained(u.annotations, annotations)
  {
    MetaMembers(base, labels, annotations);
    AbsorbedIff(Obj(MarshalMeta(base, labels, annotations)), u, labels, annotations);
  }

  lemma AbsorbedIff(meta: Json, u: Update, labels: Labels, annotations: Labels)
    requires NullFree(meta) && meta.Obj? && LabelsM in meta.fields && meta.fields[LabelsM] == MarshalLabels(labels)
    requires OwnerReferences in meta.fields && meta.fields[OwnerReferences] == Owner(u.owner) && Contained(u.labels, labels)
    requires u.annotations != map[] ==> Annotations in meta.fields && meta.fields[Annotations] == MarshalLabels(annotations)
    ensures MergePatch(meta, Obj(PatchMeta(meta, u.labels, u.annotations, u.owner))) == meta <==> Contained(u.annotations, annotations)
  {
    LabelsAbsorbed(labels, u.labels);
    LabelsAbsorbed(annotations, u.annotations);
    if Contained(u.annotations, annotations) {
      MetaFromMembers(meta, u.labels, u.annotations, u.owner);
    } else {
      MetaParts(meta, u.labels, u.annotations, u.owner);
    }
  }

  /** Updating a created Deployment gives what it would give had it been created with the other env order. */
  lemma OrderForgotten(name: string, f: FunctionObj, d: DeploymentObj, e: DeploymentObj)
    requires d.(pod := e.pod) == e && PodSame(d.pod, e.pod)
    ensures Patched(Marshal(name, d), UpdateOf(f, e)) == Patched(Marshal(name, e), UpdateOf(f, e))
  {
    MarshalProper(name, f, d);
    MarshalProper(name, f, e);
    TemplateShape(d, e);
    var meta := MarshalMeta(Base(name, d.owner), d.labels, d.annotations);
    TemplatesForgotten(meta, MarshalTemplate(d), MarshalTemplate(e), d.replicas, MarshalSelector(d.selector), UpdateOf(f, e));
  }

  lemma TemplatesForgotten(meta: map<Member, Json>, t: Json, s: Json, replicas: Option<int>, selector: Json, u: Update)
    requires SameShape(t, s) && t.Obj? && s.Obj? && u.template == s && u.replicas == replicas
    requires NullFree(Document(meta, SpecMembers(t, replicas)[Selector := selector]))
    requires NullFree(Document(meta, SpecMembers(s, replicas)[Selector := selector]))
    ensures Patched(Document(meta, SpecMembers(t, replicas)[Selector := selector]), u) ==
            Patched(Document(meta, SpecMembers(s, replicas)[Selector := selector]), u)
  {
    var a, b := Document(meta, SpecMembers(t, replicas)[Selector := selector]), Document(meta, SpecMembers(s, replicas)[Selector := selector]);
    CreatedSpec(meta, t, replicas, selector);
    CreatedSpec(meta, s, replicas, selector);
    FieldNullFree(a, Spec);
    FieldNullFree(b, Spec);
    SpecsForgotten(t, s, replicas, selector);
    PatchedParts(a, u);
    PatchedParts(b, u);
    DocumentElsewhere(meta, SpecMembers(t, replicas)[Selector := selector], SpecMembers(s, replicas)[Selector := selector]);
    Elsewhere(Patched(a, u), a, b);
    Elsewhere(Patched(a, u), b, Patched(b, u));
    SameMembers(Patched(a, u), Patched(b, u));
  }

  lemma DocumentElsewhere(meta: map<Member, Json>, a: map<Member, Json>, b: map<Member, Json>)
    ensures SameElsewhere(Document(meta, a), Document(meta, b))
  {
  }

  lemma SpecsForgotten(t: Json, s: Json, replicas: Option<int>, selector: Json)
    requires SameShape(t, s) && t.Obj? && s.Obj?
    requires NullFree(Obj(SpecMembers(t, replicas)[Selector := selector])) && NullFree(Obj(SpecMembers(s, replicas)[Selector := selector]))
    ensures var a, b := Obj(SpecMembers(t, replicas)[Selector := selector]), Obj(SpecMembers(s, replicas)[Selector := selector]);
            MergePatch(a, Obj(PatchSpec(a, s, replicas))) == MergePatch(b, Obj(PatchSpec(b, s, replicas)))
  {
    var a, b := Obj(SpecMembers(t, replicas)[Selector := selector]), Obj(SpecMembers(s, replicas)[Selector := selector]);
    SpecUnchanged(s, replicas, selector);
    assert PatchSpec(a, s, replicas) == b.fields;
    SpecMembersShape(t, s, replicas, selector);
    PatchSameShape(a, b);
  }

  lemma SpecMembersShape(t: Json, s: Json, replicas: Option<int>, selector: Json)
    requires SameShape(t, s) && t.Obj? && s.Obj?
    ensures SameShape(Obj(SpecMembers(t, replicas)[Selector := selector]), Obj(SpecMembers(s, replicas)[Selector := selector]))
  {
    ShapeReflexive(selector);
    assert SameShape(Obj(SpecMembers(t, replicas)), Obj(SpecMembers(s, replicas)));
  }

  // ---- what is sent, member by member ----

  /** Every part of a container stands in its own member. */
  lemma ContainerJson(c: Container)
    ensures var j := MarshalContainer(c);
            && Field(j, Name) == Str(c.name) && Field(j, Image) == Str(c.image) && Field(j, Args) == Arr([Str(c.args)])
            && Field(j, WorkingDir) == Str(c.workingDir) && Field(j, Env) == Arr(MarshalVars(c.env))
            && Field(j, VolumeMounts) == MarshalMounts(c.mounts) && Field(j, Resources) == MarshalDemand(c.resources)
            && Field(j, LivenessProbe) == (if c.probe.Some? then Str(c.probe.value) else Null)
            && Field(j, Ports) == MarshalPorts(c.ports)
  {
    var probe := Str(if c.probe.Some? then c.probe.value else "");
    EightMembers(Str(c.name), Str(c.image), Arr([Str(c.args)]), MarshalMounts(c.mounts), MarshalPorts(c.ports), MarshalDemand(c.resources),
                 Str(c.workingDir), c.probe.Some?, probe, Arr(MarshalVars(c.env)));
  }

  lemma EightMembers(name: Json, image: Json, args: Json, mounts: Json, ports: Json, res: Json, dir: Json, probed: bool, probe: Json, env: Json)
    ensures var m := With(map[Name := name, Image := image, Args := args, VolumeMounts := mounts, Ports := ports, Resources := res,
                              WorkingDir := dir], probed, LivenessProbe, probe);
            var j := Obj(m[Env := env]);
            && Field(j, Name) == name && Field(j, Image) == image && Field(j, Args) == args && Field(j, VolumeMounts) == mounts
            && Field(j, Ports) == ports && Field(j, Resources) == res && Field(j, WorkingDir) == dir && Field(j, Env) == env
            && Field(j, LivenessProbe) == if probed then probe else Null
  {
  }

  lemma EnvJson(e: EnvVar)
    ensures Field(MarshalVar(e), Name) == Str(e.name) && Field(MarshalVar(e), Value) == Str(e.value)
  {
  }

  lemma MountJson(ms: seq<Mount>, i: nat)
    requires i < |ms|
    ensures var j := MarshalMounts(ms);
            && j.Arr? && |j.elems| == |ms|
            && Field(j.elems[i], Name) == Str(ms[i].name) && Field(j.elems[i], MountPath) == Str(ms[i].path)
            && (Field(j.elems[i], ReadOnly) != Null <==> ms[i].readOnly)
  {
  }

  lemma DemandJson(d: Demand, k: string)
    ensures k in d.limits ==> Field(Field(MarshalDemand(d), Limits), Key(k)) == Str(d.limits[k].text)
    ensures k in d.requests ==> Field(Field(MarshalDemand(d), Requests), Key(k)) == Str(d.requests[k].text)
  {
    QuantitiesJson(d.limits, k);
    QuantitiesJson(d.requests, k);
  }

  lemma QuantitiesJson(m: map<string, Quantity>, k: string)
    ensures k in m ==> Field(MarshalQuantities(m), Key(k)) == Str(m[k].text)
  {
  }

  lemma VolumeJson(v: Volume)
    ensures var j := MarshalVolume(v);
            && Field(j, Name) == Str(v.name)
            && (v.source.FromConfigMap? ==> Field(j, ConfigMapM) == Str(v.source.configMap))
            && (v.source.FromSecret? ==> Field(j, SecretM) == Str(v.source.secret))
            && (v.source.OtherSource? ==> Field(j, SourceM) == Str(v.source.text))
            && (Field(j, EmptyDirM) != Null <==> v.source.EmptyDir?)
  {
  }

  /** And every part of a pod; empty lists are left out. */
  lemma PodJson(p: PodSpec)
    ensures var j := MarshalPod(p);
            && Field(j, Containers) == MarshalContainers(p.containers)
            && Field(j, InitContainers) == (if p.initContainers == [] then Null else MarshalContainers(p.initContainers))
            && Field(j, Volumes) == (if p.volumes == [] then Null else MarshalVolumes(p.volumes))
            && Field(j, ImagePullSecrets) == (if p.pullSecrets == [] then Null else MarshalStrings(p.pullSecrets))
            && Field(j, SecurityContext) == (if p.securityContext.None? then Null else Str(p.securityContext.value))
            && Field(j, Affinity) == (if p.affinity.None? then Null else Str(p.affinity.value))
  {
  }

  /** What an update leaves outside the pod: labels and annotations of the Function and its template, the owner, and
      the number of replicas where the template gives one. */
  lemma UpdatedMeta(live: Json, u: Update)
    requires u.template.Obj?
    ensures var r := Patched(live, u);
            && Field(Meta(r), OwnerReferences) == Arr([Str(u.owner)])
            && (forall k :: k in u.labels ==> Field(LabelsOf(r), Key(k)) == Str(u.labels[k]))
            && (forall k :: k in u.annotations ==> Field(Field(Meta(r), Annotations), Key(k)) == Str(u.annotations[k]))
            && (u.replicas.Some? ==> Field(SpecOf(r), Replicas) == Num(u.replicas.value))
            && (u.replicas.None? ==> Field(SpecOf(r), Replicas) == Field(SpecOf(live), Replicas))
  {
    PatchedParts(live, u);
    MetaParts(Meta(live), u.labels, u.annotations, u.owner);
    SpecReplicas(SpecOf(live), u.template, u.replicas);
    forall k | k in u.labels
      ensures Field(LabelsOf(Patched(live, u)), Key(k)) == Str(u.labels[k])
    {
      PatchedLabels(live, u, k);
    }
    forall k | k in u.annotations
      ensures Field(Field(Meta(Patched(live, u)), Annotations), Key(k)) == Str(u.annotations[k])
    {
      LabelPatched(Field(Meta(live), Annotations), u.annotations, k);
    }
  }

  lemma SpecReplicas(spec: Json, template: Json, replicas: Option<int>)
    ensures var r := MergePatch(spec, Obj(PatchSpec(spec, template, replicas)));
            Field(r, Replicas) == if replicas.Some? then Num(replicas.value) else Field(spec, Replicas)
  {
    var p := PatchSpec(spec, template, replicas);
    assert Replicas in p <==> replicas.Some?;
    PatchField(spec, Obj(p), Replicas);
  }
}

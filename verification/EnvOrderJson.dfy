/** The live Deployments of two runs that differ in the order of env maps: equal as JSON up to the order of the
    entries of environments. */
module EnvOrderJson {
  import opened Common
  import opened Json
  import opened PodSpecs
  import opened Desired
  import opened EnvOrder
  import opened DeploymentPatch

  lemma RemoveAt(b: seq<EnvVar>, j: nat)
    requires j < |b|
    ensures b == b[..j] + [b[j]] + b[j + 1..]
    ensures multiset(b[..j] + b[j + 1..]) + multiset{b[j]} == multiset(b)
  {
    assert b == b[..j] + [b[j]] + b[j + 1..];
  }

  lemma Cancel(m: multiset<EnvVar>, n: multiset<EnvVar>, x: EnvVar)
    requires m + multiset{x} == n + multiset{x}
    ensures m == n
  {
    assert m == m + multiset{x} - multiset{x};
  }

  lemma {:induction false} VarsSame(a: seq<EnvVar>, b: seq<EnvVar>)
    requires multiset(a) == multiset(b)
    ensures multiset(MarshalVars(a)) == multiset(MarshalVars(b))
  {
    assert |a| == |multiset(a)| == |multiset(b)| == |b|;
    if a != [] {
      assert a[0] in multiset(b);
      var j :| 0 <= j < |b| && b[j] == a[0];
      RemoveAt(a, 0);
      RemoveAt(b, j);
      Cancel(multiset(a[..0] + a[1..]), multiset(b[..j] + b[j + 1..]), a[0]);
      VarsSame(a[..0] + a[1..], b[..j] + b[j + 1..]);
      VarsAround(a[..0], a[0], a[1..]);
      VarsAround(b[..j], b[j], b[j + 1..]);
    }
  }

  lemma VarsAround(a: seq<EnvVar>, x: EnvVar, b: seq<EnvVar>)
    ensures multiset(MarshalVars(a + [x] + b)) == multiset(MarshalVars(a + b)) + multiset{MarshalVar(x)}
  {
    VarsConcat(a + [x], b);
    VarsConcat(a, [x]);
    VarsConcat(a, b);
    assert MarshalVars([x]) == [MarshalVar(x)];
  }

  lemma VarsConcat(a: seq<EnvVar>, b: seq<EnvVar>)
    ensures MarshalVars(a + b) == MarshalVars(a) + MarshalVars(b)
  {
  }

  lemma ContainerSame(c: Container, d: Container)
    requires SameButOrder(c, d)
    ensures SameUpToEnv(MarshalContainer(c), MarshalContainer(d))
  {
    assert c.(env := []) == d.(env := []);
    VarsSame(c.env, d.env);
    EnvReplaced(MarshalRest(c.(env := [])), MarshalVars(c.env), MarshalVars(d.env));
  }

  lemma EnvReplaced(m: map<Member, Json>, a: seq<Json>, b: seq<Json>)
    requires multiset(a) == multiset(b)
    ensures SameUpToEnv(Obj(m[Env := Arr(a)]), Obj(m[Env := Arr(b)]))
  {
    forall k | k in m
      ensures SameUpToEnv(m[k], m[k])
    {
      UpToEnvReflexive(m[k]);
    }
  }

  lemma ContainersSame(cs: seq<Container>, ds: seq<Container>)
    requires AllSame(cs, ds)
    ensures SameUpToEnv(MarshalContainers(cs), MarshalContainers(ds))
  {
    forall i | 0 <= i < |cs|
      ensures SameUpToEnv(MarshalContainer(cs[i]), MarshalContainer(ds[i]))
    {
      ContainerSame(cs[i], ds[i]);
    }
  }

  lemma PodJsonSame(p: PodSpec, q: PodSpec)
    requires PodSame(p, q)
    ensures SameUpToEnv(MarshalPod(p), MarshalPod(q))
  {
    var cp, cq := MarshalContainers(p.containers), MarshalContainers(q.containers);
    var vs, ip, iq := MarshalVolumes(p.volumes), MarshalContainers(p.initContainers), MarshalContainers(q.initContainers);
    ContainersSame(p.containers, q.containers);
    ContainersSame(p.initContainers, q.initContainers);
    var ss, sc, af := MarshalStrings(p.pullSecrets), Text(p.securityContext), Text(p.affinity);
    UpToEnvReflexive(vs);
    UpToEnvReflexive(ss);
    PodMembersSame(cp, cq, ip, iq, vs, ss, sc, af, p.volumes != [], p.initContainers != [], p.pullSecrets != [],
                   p.securityContext.Some?, p.affinity.Some?);
  }

  lemma PodMembersSame(cp: Json, cq: Json, ip: Json, iq: Json, vs: Json, ss: Json, sc: Json, af: Json,
                       b1: bool, b2: bool, b3: bool, b4: bool, b5: bool)
    requires SameUpToEnv(cp, cq) && SameUpToEnv(ip, iq) && SameUpToEnv(vs, vs) && SameUpToEnv(ss, ss) && sc.Str? && af.Str?
    ensures SameUpToEnv(
              Obj(With(With(With(With(With(map[Containers := cp], b1, Volumes, vs), b2, InitContainers, ip), b3, ImagePullSecrets, ss),
                            b4, SecurityContext, sc), b5, Affinity, af)),
              Obj(With(With(With(With(With(map[Containers := cq], b1, Volumes, vs), b2, InitContainers, iq), b3, ImagePullSecrets, ss),
                            b4, SecurityContext, sc), b5, Affinity, af)))
  {
    var m0, n0 := map[Containers := cp], map[Containers := cq];
    WithUpToEnv(map[], map[], true, Containers, cp, cq);
    var m1, n1 := With(m0, b1, Volumes, vs), With(n0, b1, Volumes, vs);
    WithUpToEnv(m0, n0, b1, Volumes, vs, vs);
    var m2, n2 := With(m1, b2, InitContainers, ip), With(n1, b2, InitContainers, iq);
    WithUpToEnv(m1, n1, b2, InitContainers, ip, iq);
    var m3, n3 := With(m2, b3, ImagePullSecrets, ss), With(n2, b3, ImagePullSecrets, ss);
    WithUpToEnv(m2, n2, b3, ImagePullSecrets, ss, ss);
    WithUpToEnv(m3, n3, b4, SecurityContext, sc, sc);
    WithUpToEnv(With(m3, b4, SecurityContext, sc), With(n3, b4, SecurityContext, sc), b5, Affinity, af, af);
  }

  lemma TemplateSame(d: DeploymentObj, e: DeploymentObj)
    requires d.(pod := e.pod) == e && PodSame(d.pod, e.pod)
    ensures SameUpToEnv(MarshalTemplate(d), MarshalTemplate(e))
  {
    PodJsonSame(d.pod, e.pod);
    TemplateJsonSame(Obj(MarshalMeta(map[], d.templateLabels, d.templateAnnotations)), MarshalPod(d.pod), MarshalPod(e.pod));
  }

  lemma TemplateJsonSame(meta: Json, p: Json, q: Json)
    requires SameUpToEnv(p, q)
    ensures SameUpToEnv(TemplateJson(meta, p), TemplateJson(meta, q))
  {
    UpToEnvReflexive(meta);
  }

  lemma SpecMembersSame(t: Json, s: Json, replicas: Option<int>)
    requires SameUpToEnv(t, s)
    ensures SameUpToEnv(Obj(SpecMembers(t, replicas)), Obj(SpecMembers(s, replicas)))
  {
    var x := Num(if replicas.Some? then replicas.value else 0);
    var y := Str("rollingUpdate maxUnavailable 0");
    WithUpToEnv(map[], map[], true, Template, t, s);
    WithUpToEnv(map[Template := t], map[Template := s], true, Strategy, y, y);
    WithUpToEnv(map[Template := t, Strategy := y], map[Template := s, Strategy := y], replicas.Some?, Replicas, x, x);
  }

  /** Created. */
  lemma CreatedSame(name: string, d: DeploymentObj, e: DeploymentObj)
    requires d.(pod := e.pod) == e && PodSame(d.pod, e.pod)
    ensures SameUpToEnv(Marshal(name, d), Marshal(name, e))
  {
    TemplateSame(d, e);
    DocumentSame(MarshalMeta(Base(name, d.owner), d.labels, d.annotations), MarshalTemplate(d), MarshalTemplate(e), d.replicas,
                 MarshalSelector(d.selector));
  }

  lemma DocumentSame(meta: map<Member, Json>, t: Json, s: Json, replicas: Option<int>, selector: Json)
    requires SameUpToEnv(t, s)
    ensures SameUpToEnv(Document(meta, SpecMembers(t, replicas)[Selector := selector]),
                        Document(meta, SpecMembers(s, replicas)[Selector := selector]))
  {
    var a, b := SpecMembers(t, replicas), SpecMembers(s, replicas);
    SpecMembersSame(t, s, replicas);
    UpToEnvReflexive(selector);
    WithUpToEnv(a, b, true, Selector, selector, selector);
    TemplateJsonSame(Obj(meta), Obj(a[Selector := selector]), Obj(b[Selector := selector]));
  }

  /** Updated. */
  lemma UpdatedSame(live: Json, u: Update, v: Update)
    requires u.(template := v.template) == v && SameUpToEnv(u.template, v.template)
    ensures SameUpToEnv(Patched(live, u), Patched(live, v))
  {
    var meta := PatchMeta(Meta(live), u.labels, u.annotations, u.owner);
    var a, b := PatchSpec(SpecOf(live), u.template, u.replicas), PatchSpec(SpecOf(live), v.template, u.replicas);
    SpecMembersSame(u.template, v.template, u.replicas);
    UpToEnvReflexive(SelectorOf(live));
    WithUpToEnv(SpecMembers(u.template, u.replicas), SpecMembers(v.template, u.replicas), Selector in Fields(SpecOf(live)),
                Selector, SelectorOf(live), SelectorOf(live));
    OverlaySame(live, meta, a, b);
    PatchUpToEnv(live, Overlay(live, meta, a), Overlay(live, meta, b));
  }

  lemma OverlaySame(live: Json, meta: map<Member, Json>, a: map<Member, Json>, b: map<Member, Json>)
    requires SameUpToEnv(Obj(a), Obj(b))
    ensures SameUpToEnv(Overlay(live, meta, a), Overlay(live, meta, b))
  {
    UpToEnvReflexive(Obj(Fields(live)));
    UpToEnvReflexive(Obj(meta));
    WithUpToEnv(Fields(live), Fields(live), true, Metadata, Obj(meta), Obj(meta));
    WithUpToEnv(Fields(live)[Metadata := Obj(meta)], Fields(live)[Metadata := Obj(meta)], true, Spec, Obj(a), Obj(b));
  }
}

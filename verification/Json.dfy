/** JSON values and the JSON merge patch of section 2 of RFC 7396, the semantics of the Deployment update. */
module Json {

  /** Member names: those of the Deployment schema, and free ones such as label keys. */
  datatype Member =
    | Metadata | Spec | Name | Value | LabelsM | Annotations | OwnerReferences
    | Selector | MatchLabels | Template | Strategy | Replicas
    | Containers | InitContainers | Volumes | ImagePullSecrets | SecurityContext | Affinity
    | Image | Args | Env | VolumeMounts | MountPath | ReadOnly | Ports | Resources | LivenessProbe | WorkingDir
    | Limits | Requests | SizeLimit | EmptyDirM | ConfigMapM | SecretM | SourceM
    | Key(name: string)

  datatype Json =
    | Null
    | Num(n: int)
    | Str(s: string)
    | Arr(elems: seq<Json>)
    | Obj(fields: map<Member, Json>)

  function Fields(t: Json): (r: map<Member, Json>) {
    if t.Obj? then t.fields else map[]
  }

  function Field(t: Json, k: Member): (r: Json) {
    if k in Fields(t) then Fields(t)[k] else Null
  }

  /** Objects merge, a null removes, everything else replaces. */
  function MergePatch(t: Json, p: Json): (r: Json)
    decreases p
  {
    if p.Obj? then
      Obj(map k | k in Fields(t).Keys + p.fields.Keys && !(k in p.fields && p.fields[k].Null?) ::
            if k in p.fields then MergePatch(Field(t, k), p.fields[k]) else Fields(t)[k])
    else p
  }

  /** No object inside holds a null member. */
  ghost predicate NullFree(t: Json) {
    t.Obj? ==> forall k :: k in t.fields ==> !t.fields[k].Null? && NullFree(t.fields[k])
  }

  /** Member by member, what a patch does to an object. */
  lemma PatchField(t: Json, p: Json, k: Member)
    requires p.Obj?
    ensures MergePatch(t, p).Obj?
    ensures k !in p.fields ==> Field(MergePatch(t, p), k) == Field(t, k)
    ensures k in p.fields ==> Field(MergePatch(t, p), k) == (if p.fields[k].Null? then Null else MergePatch(Field(t, k), p.fields[k]))
    ensures k in MergePatch(t, p).fields <==>
            (if k in p.fields then !p.fields[k].Null? else k in Fields(t))
  {
  }

  /** Two values with the same members all the way down; what is not an object may differ. */
  ghost predicate SameShape(p: Json, q: Json) {
    if p.Obj? && q.Obj? then
      && p.fields.Keys == q.fields.Keys
      && forall k :: k in p.fields ==> (p.fields[k].Null? <==> q.fields[k].Null?) && SameShape(p.fields[k], q.fields[k])
    else !p.Obj? && !q.Obj?
  }

  /** Of two patches with the same members only the last one counts. */
  lemma {:induction false} LastPatchWins(t: Json, p: Json, q: Json)
    requires SameShape(p, q)
    ensures MergePatch(MergePatch(t, p), q) == MergePatch(t, q)
    decreases q
  {
    if q.Obj? {
      var r := MergePatch(t, p);
      forall k | k in q.fields && !q.fields[k].Null?
        ensures MergePatch(r.fields[k], q.fields[k]) == MergePatch(Field(t, k), q.fields[k])
      {
        LastPatchWins(Field(t, k), p.fields[k], q.fields[k]);
      }
      assert MergePatch(r, q).fields == MergePatch(t, q).fields;
    }
  }

  lemma {:induction false} ShapeReflexive(t: Json)
    ensures SameShape(t, t)
    decreases t
  {
    if t.Obj? {
      forall k | k in t.fields
        ensures SameShape(t.fields[k], t.fields[k])
      {
        ShapeReflexive(t.fields[k]);
      }
    }
  }

  /** Patching nothing with a null-free value gives that value. */
  lemma {:induction false} PatchNothing(p: Json)
    requires NullFree(p)
    ensures MergePatch(Null, p) == p
    decreases p
  {
    if p.Obj? {
      forall k | k in p.fields
        ensures MergePatch(Null, p.fields[k]) == p.fields[k]
      {
        PatchNothing(p.fields[k]);
      }
      assert MergePatch(Null, p).fields == p.fields;
    }
  }

  /** A null-free patch with the members of the target replaces it. */
  lemma PatchSameShape(t: Json, p: Json)
    requires SameShape(t, p) && NullFree(t) && NullFree(p)
    ensures MergePatch(t, p) == p
  {
    PatchNothing(t);
    PatchNothing(p);
    LastPatchWins(Null, t, p);
  }

  /** Applying the same patch again changes nothing. */
  lemma PatchIdempotent(t: Json, p: Json)
    ensures MergePatch(MergePatch(t, p), p) == MergePatch(t, p)
  {
    ShapeReflexive(p);
    LastPatchWins(t, p, p);
  }

  /** Patching a null-free value with itself changes nothing. */
  lemma {:induction false} PatchSelf(t: Json)
    requires NullFree(t)
    ensures MergePatch(t, t) == t
    decreases t
  {
    if t.Obj? {
      forall k | k in t.fields
        ensures MergePatch(t.fields[k], t.fields[k]) == t.fields[k]
      {
        PatchSelf(t.fields[k]);
      }
      assert MergePatch(t, t).fields == t.fields;
    }
  }

  /** A null-free patch of a null-free value is null-free. */
  lemma {:induction false} PatchNullFree(t: Json, p: Json)
    requires NullFree(t) && NullFree(p)
    ensures NullFree(MergePatch(t, p))
    ensures !p.Null? ==> !MergePatch(t, p).Null?
    decreases p
  {
    if p.Obj? {
      var r := MergePatch(t, p);
      forall k | k in r.fields
        ensures !r.fields[k].Null? && NullFree(r.fields[k])
      {
        if k in p.fields {
          PatchNullFree(Field(t, k), p.fields[k]);
        }
      }
    }
  }

  /** A patch is a no-op exactly when each of its members is one. */
  lemma NoOpByMembers(t: Json, p: Json)
    requires t.Obj? && p.Obj? && NullFree(t) && NullFree(p)
    ensures MergePatch(t, p) == t <==>
            forall k :: k in p.fields ==> k in t.fields && MergePatch(t.fields[k], p.fields[k]) == t.fields[k]
  {
    if forall k :: k in p.fields ==> k in t.fields && MergePatch(t.fields[k], p.fields[k]) == t.fields[k] {
      NoOpIfMembers(t, p);
    } else {
      var k :| k in p.fields && !(k in t.fields && MergePatch(t.fields[k], p.fields[k]) == t.fields[k]);
      PatchField(t, p, k);
    }
  }

  lemma NoOpIfMembers(t: Json, p: Json)
    requires t.Obj? && p.Obj?
    requires forall k :: k in p.fields ==> !p.fields[k].Null? && k in t.fields && MergePatch(t.fields[k], p.fields[k]) == t.fields[k]
    ensures MergePatch(t, p) == t
  {
    var r := MergePatch(t, p);
    forall k
      ensures k in r.fields <==> k in t.fields
      ensures k in t.fields ==> Field(r, k) == t.fields[k]
    {
      PatchField(t, p, k);
    }
    assert r.fields == t.fields;
  }

  // ---- environments as bags ----

  /** Equal but for the order of the entries of Env lists. */
  ghost predicate SameUpToEnv(a: Json, b: Json) {
    if a.Obj? && b.Obj? then
      a.fields.Keys == b.fields.Keys &&
      forall k :: k in a.fields ==>
        if k == Env && a.fields[k].Arr? && b.fields[k].Arr? then multiset(a.fields[k].elems) == multiset(b.fields[k].elems)
        else SameUpToEnv(a.fields[k], b.fields[k])
    else if a.Arr? && b.Arr? then
      |a.elems| == |b.elems| && forall i :: 0 <= i < |a.elems| ==> SameUpToEnv(a.elems[i], b.elems[i])
    else a == b
  }

  lemma {:induction false} UpToEnvReflexive(a: Json)
    ensures SameUpToEnv(a, a)
    decreases a
  {
    match a
    case Obj(fields) =>
      forall k | k in fields
        ensures SameUpToEnv(fields[k], fields[k])
      {
        UpToEnvReflexive(fields[k]);
      }
    case Arr(elems) =>
      forall i | 0 <= i < |elems|
        ensures SameUpToEnv(elems[i], elems[i])
      {
        UpToEnvReflexive(elems[i]);
      }
    case _ =>
  }

  /** Patches that differ in the order of environments make results that do. */
  lemma {:induction false} PatchUpToEnv(t: Json, p: Json, q: Json)
    requires SameUpToEnv(p, q)
    ensures SameUpToEnv(MergePatch(t, p), MergePatch(t, q))
    decreases p
  {
    if p.Obj? {
      var r, s := MergePatch(t, p), MergePatch(t, q);
      forall k | k in Fields(t).Keys + p.fields.Keys
        ensures k in r.fields <==> k in s.fields
        ensures k in r.fields && !(k == Env && r.fields[k].Arr? && s.fields[k].Arr?) ==> SameUpToEnv(r.fields[k], s.fields[k])
        ensures k in r.fields && k == Env && r.fields[k].Arr? && s.fields[k].Arr? ==>
                  multiset(r.fields[k].elems) == multiset(s.fields[k].elems)
      {
        MemberUpToEnv(t, p, q, k);
        if k in p.fields && !p.fields[k].Null? && SameUpToEnv(p.fields[k], q.fields[k]) {
          PatchUpToEnv(Field(t, k), p.fields[k], q.fields[k]);
        } else if k in Fields(t) {
          UpToEnvReflexive(Fields(t)[k]);
        }
      }
      assert r.fields.Keys == s.fields.Keys;
    }
  }

  /** What each patch makes of one member. */
  lemma MemberUpToEnv(t: Json, p: Json, q: Json, k: Member)
    requires SameUpToEnv(p, q) && p.Obj? && q.Obj?
    ensures k in MergePatch(t, p).fields <==> k in MergePatch(t, q).fields
    ensures k in p.fields && !p.fields[k].Null? ==> k in MergePatch(t, p).fields
    ensures k in p.fields ==> (p.fields[k].Null? <==> q.fields[k].Null?)
    ensures k in MergePatch(t, p).fields ==>
              if k in p.fields then
                && MergePatch(t, p).fields[k] == MergePatch(Field(t, k), p.fields[k])
                && MergePatch(t, q).fields[k] == MergePatch(Field(t, k), q.fields[k])
              else MergePatch(t, p).fields[k] == MergePatch(t, q).fields[k] == Field(t, k) && k in Fields(t)
  {
    PatchField(t, p, k);
    PatchField(t, q, k);
  }

  // ---- building objects ----

  /** An omitempty member. */
  function With(m: map<Member, Json>, present: bool, k: Member, v: Json): (r: map<Member, Json>) {
    if present then m[k := v] else m
  }

  lemma WithNullFree(m: map<Member, Json>, present: bool, k: Member, v: Json)
    requires NullFree(Obj(m)) && (present ==> NullFree(v) && !v.Null?)
    ensures NullFree(Obj(With(m, present, k, v)))
  {
  }

  lemma WithShape(m: map<Member, Json>, n: map<Member, Json>, present: bool, k: Member, v: Json, w: Json)
    requires SameShape(Obj(m), Obj(n)) && (present ==> !v.Null? && !w.Null? && SameShape(v, w))
    ensures SameShape(Obj(With(m, present, k, v)), Obj(With(n, present, k, w)))
  {
  }

  lemma WithUpToEnv(m: map<Member, Json>, n: map<Member, Json>, present: bool, k: Member, v: Json, w: Json)
    requires SameUpToEnv(Obj(m), Obj(n)) && (present ==> SameUpToEnv(v, w)) && k != Env
    ensures SameUpToEnv(Obj(With(m, present, k, v)), Obj(With(n, present, k, w)))
  {
  }

  lemma WithoutNullFree(m: map<Member, Json>, k: Member)
    requires NullFree(Obj(m))
    ensures NullFree(Obj(m - {k}))
  {
  }

  lemma FieldNullFree(t: Json, k: Member)
    requires NullFree(t)
    ensures NullFree(Field(t, k)) && NullFree(Obj(Fields(t)))
  {
  }
}

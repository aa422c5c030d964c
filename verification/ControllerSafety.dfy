/** What every run of the controller keeps: no orphans, and ownership on the ensure path. */
module ControllerSafety {
  import opened Common
  import opened FunctionApi
  import opened Controller

  type History = seq<Functions>

  predicate SameVersion(m: Functions, n: Functions, key: Key) {
    key in m && key in n && m[key].rv == n[key].rv
  }

  /** If the version at position m is still the live one, the object has not changed in between. */
  ghost predicate Unbroken(h: History, nextRv: nat, m: nat, key: Key)
    requires m < |h|
  {
    && (key in h[m] ==> h[m][key].rv < nextRv)
    && (SameVersion(h[m], h[|h| - 1], key) ==>
          forall i :: m <= i < |h| ==> key in h[i] && h[i][key] == h[m][key])
  }

  ghost predicate Versions(h: History, nextRv: nat) {
    forall m: nat, k {:trigger Unbroken(h, nextRv, m, k)} :: m < |h| ==> Unbroken(h, nextRv, m, k)
  }

  /** Whatever the cache shows, or will show, as finalized and not being deleted is still held by the
      finalizer on the API server. This is what makes acting on a stale cache safe. */
  ghost predicate Sticky(h: History, seen: nat)
    requires |h| > 0
  {
    forall i: nat, k :: seen <= i < |h| && Active(h[i], k) ==> Held(h[|h| - 1], k)
  }

  predicate ChildOk(monitors: bool, id: ChildId, c: Child, nextRv: nat, live: Functions) {
    && c.rv < nextRv
    && (id.kind != Job ==> id.tag == "")
    && (c.managed ==>
          && (id.kind != Autoscaler ==> c.labelled)
          && (id.kind == Monitor ==> monitors)
          && Held(live, id.key))
  }

  ghost predicate ChildrenOk(monitors: bool, children: Children, nextRv: nat, live: Functions) {
    forall id :: id in children ==> ChildOk(monitors, id, children[id], nextRv, live)
  }

  /** While the object the worker read is still current, the cache shows that same object from here on. */
  ghost predicate Pinned(h: History, seen: nat, nextRv: nat, key: Key, obj: Function)
    requires |h| > 0
  {
    && obj.rv < nextRv
    && (Accepts(h[|h| - 1], key, obj) ==>
          forall i :: seen <= i < |h| ==> key in h[i] && h[i][key] == obj)
  }

  /** No managed child of the first n kinds of the delete order is left. */
  ghost predicate Cleared(children: Children, key: Key, n: nat)
    requires n <= |DELETE_ORDER|
  {
    forall id :: id in children && id.key == key && children[id].managed ==> id.kind !in DELETE_ORDER[..n]
  }

  predicate StageOk(monitors: bool, children: Children, nextRv: nat, key: Key, stage: Stage) {
    match stage
    case Create(kind) => CheckedKind(kind)
    case Inspect(kind) => CheckedKind(kind)
    case Write(kind, rv) =>
      && CheckedKind(kind)
      && rv < nextRv
      && (ChildId(kind, key, "") in children && children[ChildId(kind, key, "")].rv == rv ==>
            children[ChildId(kind, key, "")].labelled)
    case MonitorGet => monitors
    case MonitorCreate => monitors
    case _ => true
  }

  ghost predicate PcOk(monitors: bool, s: State)
    requires s.WellFormed()
  {
    match s.pc
    case AddFinalizer(key, obj) =>
      && Pinned(s.history, s.seen, s.nextRv, key, obj)
      && !obj.deleting && FUNCTION_FINALIZER !in obj.finalizers
    case Ensure(key, _, stage) => Held(s.Live(), key) && StageOk(monitors, s.children, s.nextRv, key, stage)
    case Delete(key, obj, next) =>
      && Pinned(s.history, s.seen, s.nextRv, key, obj)
      && obj.deleting && FUNCTION_FINALIZER in obj.finalizers
      && next <= |DELETE_ORDER| && Cleared(s.children, key, next)
    case DropFinalizer(key, obj) =>
      && Pinned(s.history, s.seen, s.nextRv, key, obj)
      && obj.deleting && FUNCTION_FINALIZER in obj.finalizers
      && Cleared(s.children, key, |DELETE_ORDER|)
    case _ => true
  }

  ghost predicate Inv(monitors: bool, s: State) {
    && s.WellFormed()
    && Versions(s.history, s.nextRv)
    && Sticky(s.history, s.seen)
    && ChildrenOk(monitors, s.children, s.nextRv, s.Live())
    && PcOk(monitors, s)
  }

  /** Every object the controller created or updated belongs to a Function that is on the API server and
      carries the controller's finalizer. */
  ghost predicate NoOrphans(s: State)
    requires s.WellFormed()
  {
    forall id :: id in s.children && s.children[id].managed ==> Held(s.Live(), id.key)
  }

  // ---- writes to Function objects ----

  /** One write: the object under key gets a fresh version, the other keys stay. */
  ghost predicate Extends(h: History, nextRv: nat, key: Key, h': History) {
    && |h| > 0 && |h'| == |h| + 1
    && h'[..|h|] == h
    && (forall k :: k != key ==> (k in h'[|h|] <==> k in h[|h| - 1]))
    && (forall k :: k != key && k in h[|h| - 1] ==> h'[|h|][k] == h[|h| - 1][k])
    && (key in h'[|h|] ==> h'[|h|][key].rv == nextRv)
  }

  lemma PublishExtends(s: State, key: Key, obj: Function)
    requires s.WellFormed()
    ensures Extends(s.history, s.nextRv, key, Publish(s, key, obj).history)
  {
  }

  lemma VersionsExtend(h: History, nextRv: nat, key: Key, h': History)
    requires Versions(h, nextRv) && Extends(h, nextRv, key, h')
    ensures Versions(h', nextRv + 1)
  {
    var n := |h|;
    assert forall i :: 0 <= i < n ==> h'[i] == h'[..n][i] == h[i];
    forall m: nat, k {:trigger Unbroken(h', nextRv + 1, m, k)} | m < |h'|
      ensures Unbroken(h', nextRv + 1, m, k)
    {
      assert Unbroken(h, nextRv, n - 1, k);
      if m < n {
        assert Unbroken(h, nextRv, m, k);
      }
    }
  }

  lemma StickyExtend(h: History, seen: nat, nextRv: nat, key: Key, h': History)
    requires |h| > 0 && Sticky(h, seen) && Extends(h, nextRv, key, h')
    requires (exists i :: seen <= i < |h| && Active(h[i], key)) ==> Held(h'[|h|], key)
    ensures Sticky(h', seen)
  {
    var n := |h|;
    assert forall i :: 0 <= i < n ==> h'[i] == h'[..n][i] == h[i];
    forall i: nat, k | seen <= i < |h'| && Active(h'[i], k)
      ensures Held(h'[n], k)
    {
      if i < n {
        assert Held(h[n - 1], k);
      }
    }
  }

  lemma PinnedExtend(h: History, seen: nat, nextRv: nat, key: Key, h': History, k: Key, obj: Function)
    requires seen < |h| && Pinned(h, seen, nextRv, k, obj) && Extends(h, nextRv, key, h')
    ensures Pinned(h', seen, nextRv + 1, k, obj)
  {
    assert forall i :: 0 <= i < |h| ==> h'[i] == h'[..|h|][i] == h[i];
    if Accepts(h'[|h|], k, obj) {
      assert k != key;
      assert h[|h| - 1][k] == obj;
    }
  }

  /** A Function write that keeps what was held keeps the invariant, wherever the worker stands. */
  lemma PublishKeeps(monitors: bool, s: State, key: Key, obj: Function)
    requires Inv(monitors, s)
    requires Held(s.Live(), key) ==> FUNCTION_FINALIZER in obj.finalizers
    ensures Inv(monitors, Publish(s, key, obj))
    ensures FUNCTION_FINALIZER in obj.finalizers ==> Held(Publish(s, key, obj).Live(), key)
  {
    var t := Publish(s, key, obj);
    PublishExtends(s, key, obj);
    VersionsExtend(s.history, s.nextRv, key, t.history);
    StickyExtend(s.history, s.seen, s.nextRv, key, t.history);
    assert forall k :: Held(s.Live(), k) ==> Held(t.Live(), k);
    if s.pc.AddFinalizer? || s.pc.Delete? || s.pc.DropFinalizer? {
      PinnedExtend(s.history, s.seen, s.nextRv, key, t.history, s.pc.key, s.pc.obj);
    }
  }

  // ---- outside actors, informer and queue ----

  lemma OutsideKeeps(monitors: bool, s: State, a: Action)
    requires Inv(monitors, s) && Enabled(s, a) && Outside(a)
    ensures Inv(monitors, Step(monitors, s, a))
  {
    if a.TouchChild? || a.RemoveChild? {
      ChildActionKeeps(monitors, s, a);
      return;
    }
    var u := s.(budget := s.budget - 1);
    match a
    case UserCreate(key, fs, scaling) =>
      PublishKeeps(monitors, u, key, Function(s.nextRv, s.nextRv, false, fs, scaling, s.nextRv));
    case UserUpdate(key, fs, scaling, respec) =>
      PublishKeeps(monitors, u, key, Updated(s.Live()[key], fs, scaling, respec, s.nextRv));
    case UserDelete(key) =>
      PublishKeeps(monitors, u, key, s.Live()[key].(deleting := true));
  }

  lemma ChildActionKeeps(monitors: bool, s: State, a: Action)
    requires Inv(monitors, s) && Enabled(s, a) && (a.TouchChild? || a.RemoveChild?)
    ensures Inv(monitors, Step(monitors, s, a))
  {
    FreshVersions(s.history, s.nextRv);
  }

  lemma FreshVersions(h: History, nextRv: nat)
    requires Versions(h, nextRv)
    ensures Versions(h, nextRv + 1)
  {
    forall m: nat, k {:trigger Unbroken(h, nextRv + 1, m, k)} | m < |h|
      ensures Unbroken(h, nextRv + 1, m, k)
    {
      assert Unbroken(h, nextRv, m, k);
    }
  }

  lemma QuietKeeps(monitors: bool, s: State, a: Action)
    requires Inv(monitors, s) && Enabled(s, a) && (a.Sync? || a.Ripen? || a.Take? || a.Panic? || a.Restart?)
    ensures Inv(monitors, Step(monitors, s, a))
  {
  }

  // ---- the worker ----

  lemma FetchKeeps(monitors: bool, s: State, reply: Reply)
    requires Inv(monitors, s) && s.pc.Fetch?
    ensures Inv(monitors, FetchStep(s, reply))
  {
    assert Unbroken(s.history, s.nextRv, s.seen, s.pc.key);
    assert Active(s.history[s.seen], s.pc.key) ==> Held(s.Live(), s.pc.key);
  }

  lemma AddKeeps(monitors: bool, s: State, reply: Reply, tag: string)
    requires Inv(monitors, s) && s.pc.AddFinalizer?
    ensures Inv(monitors, WorkStep(monitors, s, reply, tag))
  {
    PublishKeeps(monitors, s, s.pc.key, s.pc.obj.(finalizers := s.pc.obj.finalizers + [FUNCTION_FINALIZER]));
  }

  /** The finalizer goes only when no managed child is left, and only from an object that neither the cache
      nor anything it is yet to show presents as active. */
  lemma DropKeeps(monitors: bool, s: State, reply: Reply, tag: string)
    requires Inv(monitors, s) && s.pc.DropFinalizer?
    ensures Inv(monitors, WorkStep(monitors, s, reply, tag))
  {
    var DropFinalizer(key, obj) := s.pc;
    if reply != Refused && Accepts(s.Live(), key, obj) {
      var t := WorkStep(monitors, s, reply, tag);
      PublishExtends(s, key, obj.(finalizers := WithoutFinalizer(obj.finalizers, FUNCTION_FINALIZER)));
      VersionsExtend(s.history, s.nextRv, key, t.history);
      assert forall i :: s.seen <= i < |s.history| ==> !Active(s.history[i], key);
      StickyExtend(s.history, s.seen, s.nextRv, key, t.history);
      forall id | id in s.children && s.children[id].managed
        ensures id.key != key
      {
        EveryKindDeleted(id.kind);
      }
    }
  }

  lemma EveryKindDeleted(kind: Kind)
    ensures kind in DELETE_ORDER[..|DELETE_ORDER|]
  {
    var i := match kind case Deployment => 0 case Service => 1 case ConfigMap => 2
                        case Monitor => 3 case Autoscaler => 4 case Job => 5;
    assert DELETE_ORDER[..|DELETE_ORDER|][i] == DELETE_ORDER[i] == kind;
  }

  /** The one child an ensure stage writes, when it writes one. */
  function Target(key: Key, stage: Stage, tag: string): (id: ChildId)
    ensures id.key == key
  {
    match stage
    case Create(kind) => ChildId(kind, key, "")
    case Inspect(kind) => ChildId(kind, key, "")
    case Write(kind, _) => ChildId(kind, key, "")
    case Build => ChildId(Job, key, tag)
    case MonitorGet => ChildId(Monitor, key, "")
    case MonitorCreate => ChildId(Monitor, key, "")
    case MonitorDelete => ChildId(Monitor, key, "")
    case _ => ChildId(Autoscaler, key, "")
  }

  /** The effect of one ensure call on the children: none, one managed object written, or a delete of the
      monitor or the autoscaler. An object is overwritten only if it is an autoscaler or has the version
      that passed the ownership check. */
  predicate EnsureEffect(s: State, t: State, tag: string)
    requires s.pc.Ensure?
  {
    var id := Target(s.pc.key, s.pc.stage, tag);
    && t.history == s.history && t.seen == s.seen
    && (|| (t.children == s.children && t.nextRv == s.nextRv)
        || (&& t.children == s.children[id := Child(s.nextRv, id.kind != Autoscaler, true, Some(s.pc.obj.gen))]
            && t.nextRv == s.nextRv + 1
            && !s.pc.stage.Inspect? && !s.pc.stage.MonitorGet? && !s.pc.stage.MonitorDelete?
            && (id in s.children && id.kind != Autoscaler ==>
                  s.pc.stage.Write? && s.children[id].rv == s.pc.stage.rv))
        || (&& (s.pc.stage.MonitorDelete? || s.pc.stage.ScalerDelete?)
            && t.children == Without(s.children, id.kind, s.pc.key)
            && t.nextRv == s.nextRv))
  }

  lemma EnsureStepEffect(monitors: bool, s: State, reply: Reply, tag: string)
    requires s.pc.Ensure? && StageOk(monitors, s.children, s.nextRv, s.pc.key, s.pc.stage)
    ensures EnsureEffect(s, EnsureStep(monitors, s, reply, tag), tag)
  {
    if ObjectStage(s.pc.stage) {
      EnsureObjectEffect(monitors, s, reply, tag);
    } else {
      EnsureScalingEffect(monitors, s, reply, tag);
    }
  }

  lemma EnsureObjectEffect(monitors: bool, s: State, reply: Reply, tag: string)
    requires s.pc.Ensure? && StageOk(monitors, s.children, s.nextRv, s.pc.key, s.pc.stage) && ObjectStage(s.pc.stage)
    ensures EnsureEffect(s, EnsureObject(monitors, s, reply, tag), tag)
  {
  }

  lemma EnsureScalingEffect(monitors: bool, s: State, reply: Reply, tag: string)
    requires s.pc.Ensure? && StageOk(monitors, s.children, s.nextRv, s.pc.key, s.pc.stage) && !ObjectStage(s.pc.stage)
    ensures EnsureEffect(s, EnsureScaling(s, reply), tag)
  {
  }

  lemma EnsureStepPc(monitors: bool, s: State, reply: Reply, tag: string)
    requires s.pc.Ensure? && StageOk(monitors, s.children, s.nextRv, s.pc.key, s.pc.stage)
    requires forall id :: id in s.children ==> s.children[id].rv < s.nextRv
    ensures var t := EnsureStep(monitors, s, reply, tag);
            || t.pc.Report? || t.pc.Crashed?
            || (&& t.pc.Ensure? && t.pc.key == s.pc.key
                && StageOk(monitors, t.children, t.nextRv, t.pc.key, t.pc.stage))
  {
  }

  lemma EnsureKeeps(monitors: bool, s: State, reply: Reply, tag: string)
    requires Inv(monitors, s) && s.pc.Ensure?
    ensures Inv(monitors, EnsureStep(monitors, s, reply, tag))
  {
    FreshVersions(s.history, s.nextRv);
    EnsureStepEffect(monitors, s, reply, tag);
    EnsureStepPc(monitors, s, reply, tag);
    EnsureChildren(monitors, s, EnsureStep(monitors, s, reply, tag), tag);
  }

  lemma EnsureChildren(monitors: bool, s: State, t: State, tag: string)
    requires Inv(monitors, s) && s.pc.Ensure? && EnsureEffect(s, t, tag)
    ensures ChildrenOk(monitors, t.children, t.nextRv, s.Live())
  {
    var id := Target(s.pc.key, s.pc.stage, tag);
    forall x | x in t.children
      ensures ChildOk(monitors, x, t.children[x], t.nextRv, s.Live())
    {
      if x in s.children && t.children[x] == s.children[x] {
        assert ChildOk(monitors, x, s.children[x], s.nextRv, s.Live());
      }
    }
  }

  lemma DeleteKeeps(monitors: bool, s: State, reply: Reply)
    requires Inv(monitors, s) && s.pc.Delete?
    ensures Inv(monitors, DeleteStep(monitors, s, reply))
  {
    var next := s.pc.next;
    if next < |DELETE_ORDER| {
      assert DELETE_ORDER[..next + 1] == DELETE_ORDER[..next] + [DELETE_ORDER[next]];
    }
  }

  lemma StepKeeps(monitors: bool, s: State, a: Action)
    requires Inv(monitors, s) && Enabled(s, a)
    ensures Inv(monitors, Step(monitors, s, a))
  {
    match a
    case Work(reply, tag) =>
      match s.pc {
        case Fetch(_) => FetchKeeps(monitors, s, reply);
        case AddFinalizer(_, _) => AddKeeps(monitors, s, reply, tag);
        case Ensure(_, _, _) => EnsureKeeps(monitors, s, reply, tag);
        case Delete(_, _, _) => DeleteKeeps(monitors, s, reply);
        case DropFinalizer(_, _) => DropKeeps(monitors, s, reply, tag);
        case Report(_, _) =>
      }
    case _ =>
      if Outside(a) {
        OutsideKeeps(monitors, s, a);
      } else {
        QuietKeeps(monitors, s, a);
      }
  }

  lemma InitKeeps(monitors: bool, s: State)
    requires Init(s)
    ensures Inv(monitors, s)
  {
  }

  lemma {:induction false} RunKeeps(monitors: bool, states: seq<State>, actions: seq<Action>, i: nat)
    requires Run(monitors, states, actions) && Init(states[0]) && i < |states|
    ensures Inv(monitors, states[i])
  {
    if i == 0 {
      InitKeeps(monitors, states[0]);
    } else {
      RunKeeps(monitors, states, actions, i - 1);
      assert states[i - 1 + 1] == Step(monitors, states[i - 1], actions[i - 1]);
      StepKeeps(monitors, states[i - 1], actions[i - 1]);
    }
  }

  // ---- main results ----

  /** No orphans in any state of any run. */
  lemma NoOrphansEver(monitors: bool, states: seq<State>, actions: seq<Action>)
    requires Run(monitors, states, actions) && Init(states[0])
    ensures forall i :: 0 <= i < |states| ==> NoOrphans(states[i])
  {
    forall i | 0 <= i < |states|
      ensures NoOrphans(states[i])
    {
      RunKeeps(monitors, states, actions, i);
    }
  }

  /** While the worker is on the ensure path, no step of its own touches a ConfigMap, Service or Deployment
      that lacks the created-by label, and what it creates or updates carries the label. */
  lemma EnsureRespectsOwnership(monitors: bool, states: seq<State>, actions: seq<Action>, i: nat, id: ChildId)
    requires Run(monitors, states, actions) && Init(states[0])
    requires i < |actions| && actions[i].Work? && states[i].pc.Ensure?
    requires CheckedKind(id.kind)
    ensures id in states[i].children && !states[i].children[id].labelled ==>
              id in states[i + 1].children && states[i + 1].children[id] == states[i].children[id]
    ensures id in states[i + 1].children &&
            (id in states[i].children ==> states[i + 1].children[id] != states[i].children[id]) ==>
              states[i + 1].children[id].labelled && states[i + 1].children[id].managed
  {
    RunKeeps(monitors, states, actions, i);
    assert states[i + 1] == Step(monitors, states[i], actions[i]);
    EnsureStepEffect(monitors, states[i], actions[i].reply, actions[i].tag);
  }

  /** An object the controller manages never makes a later ensure abort as foreign: at the ownership check
      the worker goes on to the update. */
  lemma OwnObjectNeverConflicts(monitors: bool, states: seq<State>, actions: seq<Action>, i: nat)
    requires Run(monitors, states, actions) && Init(states[0])
    requires i < |actions| && actions[i].Work? && actions[i].reply == Done
    requires states[i].pc.Ensure? && states[i].pc.stage.Inspect?
    requires var id := ChildId(states[i].pc.stage.kind, states[i].pc.key, "");
             id in states[i].children && states[i].children[id].managed
    ensures states[i + 1].pc.Ensure? && states[i + 1].pc.stage.Write?
  {
    RunKeeps(monitors, states, actions, i);
    assert states[i + 1] == Step(monitors, states[i], actions[i]);
  }
}

/** What a controller that has come to rest has achieved: every live Function has its children, written from the
    spec that is live, and no Function being deleted still waits for the controller. */
module ControllerQuiescence {
  import opened Common
  import opened FunctionApi
  import opened Controller
  import opened ControllerSafety
  import opened ControllerProgress

  // ---- what is asked of a run ----

  /** strict: nobody else writes the children. answered: lookups of service monitors are answered. monitors: there
      is a client for service monitors. */
  datatype Mode = Mode(strict: bool, answered: bool, monitors: bool)

  /** Changes every handler enqueues: the object came or went, or functionObjChanged sees it, because one of the
      two versions carries a deletion timestamp or the spec differs. Other updates may be dropped. */
  predicate MustEnqueue(m: Functions, n: Functions, key: Key) {
    || (key in m <==> key !in n)
    || (key in m && key in n && m[key] != n[key] && (m[key].deleting || n[key].deleting || m[key].scaling != n[key].scaling || m[key].gen != n[key].gen))
  }

  predicate Faithful(s: State, a: Action, key: Key)
    requires s.WellFormed() && Enabled(s, a)
  {
    a.Sync? && MustEnqueue(s.history[s.seen], s.history[s.seen + 1], key) ==> a.event == Some(key)
  }

  /** The controller gives the key up after too many failures. */
  predicate GivesUp(s: State, a: Action, key: Key) {
    a.Work? && s.pc == Report(key, true) && s.requeues[key] >= MAX_RETRIES
  }

  /** Nobody else removes children of the key, which the controller does not watch; if strict, nobody else
      writes them either. */
  predicate Undisturbed(q: Mode, a: Action, key: Key) {
    a.RemoveChild? || (q.strict && a.TouchChild?) ==> a.id.key != key
  }

  predicate Answers(q: Mode, s: State, a: Action, key: Key) {
    q.answered && a.Work? && s.pc.Ensure? && s.pc.key == key && s.pc.stage.MonitorGet? ==> a.reply == Done
  }

  // ---- the invariant ----

  /** The controller has written the child, and if strict, last of all and from the given generation. */
  predicate Managed(q: Mode, children: Children, kind: Kind, key: Key, gen: nat) {
    var id := ChildId(kind, key, "");
    id in children && children[id].managed && (q.strict ==> children[id].gen == Some(gen))
  }

  predicate AllManaged(q: Mode, children: Children, key: Key, gen: nat) {
    && Managed(q, children, ConfigMap, key, gen)
    && Managed(q, children, Service, key, gen)
    && Managed(q, children, Deployment, key, gen)
  }

  predicate Absent(children: Children, kind: Kind, key: Key) { ChildId(kind, key, "") !in children }

  /** Autoscaler and monitor are as the Function asks; on one that makes the worker panic they never are. */
  predicate ScalingDone(q: Mode, children: Children, key: Key, obj: Function) {
    match obj.scaling
    case NoAutoscaler => q.strict ==> Absent(children, Autoscaler, key) && (q.monitors ==> Absent(children, Monitor, key))
    case NoMetrics => false
    case ResourceMetric => Managed(q, children, Autoscaler, key, obj.gen)
    case ObjectMetric =>
      && q.monitors && Managed(q, children, Autoscaler, key, obj.gen)
      && (q.strict && q.answered ==> Managed(q, children, Monitor, key, obj.gen))
  }

  function Cache(s: State): (r: Functions)
    requires s.WellFormed()
  {
    s.history[s.seen]
  }

  predicate Queued(s: State, key: Key) { key in s.dirty || key in s.delayed }

  /** The cache is yet to show another version of the key. */
  ghost predicate News(h: seq<Functions>, seen: nat, key: Key)
    requires seen < |h|
  {
    exists j :: seen < j < |h| && ChangedBetween(h[seen], h[j], key)
  }

  /** Nothing is left to do for what the cache shows of the key. */
  ghost predicate Settled(q: Mode, s: State, key: Key)
    requires s.WellFormed()
  {
    key in Cache(s) ==>
      if Cache(s)[key].deleting then HasFinalizer(Cache(s)[key].finalizers, FUNCTION_FINALIZER) ==> News(s.history, s.seen, key)
      else AllManaged(q, s.children, key, Cache(s)[key].gen) && ScalingDone(q, s.children, key, Cache(s)[key])
  }

  /** Either the key will be looked at again, or the cache agrees on the spec and on whether it is being deleted. */
  predicate Current(s: State, key: Key, obj: Function)
    requires s.WellFormed()
  {
    || Queued(s, key)
    || (key in Cache(s) ==>
          Cache(s)[key].deleting == obj.deleting && Cache(s)[key].gen == obj.gen && Cache(s)[key].scaling == obj.scaling)
  }

  /** What the stages before this one have done. */
  predicate StageDone(q: Mode, children: Children, key: Key, stage: Stage, obj: Function) {
    match stage
    case Create(kind) => KindDone(q, children, key, kind, obj.gen)
    case Inspect(kind) => KindDone(q, children, key, kind, obj.gen)
    case Write(kind, _) => KindDone(q, children, key, kind, obj.gen)
    case Build => KindDone(q, children, key, Deployment, obj.gen)
    case _ => AllManaged(q, children, key, obj.gen) && ScalingStage(q, children, key, stage, obj)
  }

  /** Each scaling stage belongs to the kind of autoscaler asked for. */
  predicate ScalingStage(q: Mode, children: Children, key: Key, stage: Stage, obj: Function) {
    if stage.MonitorGet? || stage.MonitorCreate? then obj.scaling == ObjectMetric && q.monitors
    else if stage.MonitorDelete? then obj.scaling == NoAutoscaler && q.monitors
    else if stage.ScalerDelete? then
      obj.scaling == NoAutoscaler && (q.strict && q.monitors ==> Absent(children, Monitor, key))
    else if stage.ScalerCreate? || stage.ScalerUpdate? then
      || obj.scaling == ResourceMetric
      || (&& obj.scaling == ObjectMetric && q.monitors
          && (q.strict && q.answered ==> Managed(q, children, Monitor, key, obj.gen)))
    else true
  }

  predicate KindDone(q: Mode, children: Children, key: Key, kind: Kind, gen: nat) {
    match kind
    case ConfigMap => true
    case Service => Managed(q, children, ConfigMap, key, gen)
    case Deployment => Managed(q, children, ConfigMap, key, gen) && Managed(q, children, Service, key, gen)
    case _ => false
  }

  ghost predicate Working(q: Mode, s: State)
    requires s.WellFormed() && s.pc != Idle
  {
    match s.pc
    case AddFinalizer(key, obj) => !obj.deleting && Current(s, key, obj)
    case Ensure(key, obj, stage) => !obj.deleting && Current(s, key, obj) && StageDone(q, s.children, key, stage, obj)
    case Delete(key, obj, _) => obj.deleting && Current(s, key, obj)
    case DropFinalizer(key, obj) => obj.deleting && Current(s, key, obj)
    case Report(key, failed) => failed || Queued(s, key) || Settled(q, s, key)
    case _ => true
  }

  ghost predicate Attended(q: Mode, s: State, key: Key) {
    && s.WellFormed()
    && if s.pc != Idle && s.pc.key == key then Working(q, s) else Queued(s, key) || Settled(q, s, key)
  }

  // ---- steps around the worker ----

  /** What the controller has done for the key stays done. */
  ghost predicate Preserved(q: Mode, c: Children, d: Children, key: Key) {
    && (forall kind, gen :: Managed(q, c, kind, key, gen) ==> Managed(q, d, kind, key, gen))
    && (q.strict ==> forall kind :: Absent(c, kind, key) ==> Absent(d, kind, key))
  }

  lemma StaysDone(q: Mode, c: Children, d: Children, key: Key, stage: Stage, obj: Function)
    requires Preserved(q, c, d, key)
    ensures AllManaged(q, c, key, obj.gen) ==> AllManaged(q, d, key, obj.gen)
    ensures ScalingDone(q, c, key, obj) ==> ScalingDone(q, d, key, obj)
    ensures StageDone(q, c, key, stage, obj) ==> StageDone(q, d, key, stage, obj)
  {
  }

  lemma NewsStays(h: seq<Functions>, h': seq<Functions>, seen: nat, key: Key)
    requires seen < |h| && h <= h' && News(h, seen, key)
    ensures News(h', seen, key)
  {
    var j :| seen < j < |h| && ChangedBetween(h[seen], h[j], key);
    assert h'[j] == h[j];
  }

  /** A step that keeps the queue, the worker, the children of the key and what the cache shows keeps it attended. */
  lemma Unmoved(q: Mode, s: State, t: State, key: Key)
    requires Attended(q, s, key) && s.history <= t.history && t.seen == s.seen && t.pc == s.pc
    requires Queued(s, key) ==> Queued(t, key)
    requires Preserved(q, s.children, t.children, key)
    ensures Attended(q, t, key)
  {
    assert Cache(t) == Cache(s);
    if s.pc.Ensure? {
      StaysDone(q, s.children, t.children, key, s.pc.stage, s.pc.obj);
    }
    if key in Cache(s) {
      StaysDone(q, s.children, t.children, key, Build, Cache(s)[key]);
    }
    if News(s.history, s.seen, key) {
      NewsStays(s.history, t.history, s.seen, key);
    }
  }

  lemma OutsideAttended(q: Mode, s: State, a: Action, key: Key)
    requires Attended(q, s, key) && Enabled(s, a) && Outside(a) && Undisturbed(q, a, key)
    ensures Attended(q, Step(q.monitors, s, a), key)
  {
    Unmoved(q, s, Step(q.monitors, s, a), key);
  }

  lemma SyncAttended(q: Mode, s: State, a: Action, key: Key)
    requires Attended(q, s, key) && Enabled(s, a) && a.Sync? && Faithful(s, a, key)
    ensures Attended(q, Step(q.monitors, s, a), key)
  {
    var t := Step(q.monitors, s, a);
    assert Queued(s, key) ==> Queued(t, key);
    if News(s.history, s.seen, key) && !Queued(t, key) {
      var j :| s.seen < j < |s.history| && ChangedBetween(s.history[s.seen], s.history[j], key);
      if key in Cache(s) && Cache(s)[key].deleting {
        assert !ChangedBetween(Cache(s), Cache(t), key);
        assert ChangedBetween(t.history[t.seen], t.history[j], key);
      }
    }
  }

  lemma QueueAttended(q: Mode, s: State, a: Action, key: Key)
    requires Attended(q, s, key) && Enabled(s, a) && (a.Ripen? || a.Take? || a.Panic? || a.Restart?)
    ensures Attended(q, Step(q.monitors, s, a), key)
  {
  }

  // ---- the worker, on another key ----

  lemma OtherAttended(q: Mode, s: State, reply: Reply, tag: string, key: Key)
    requires Attended(q, s, key) && s.pc != Idle && !s.pc.Crashed? && s.pc.key != key && Inv(q.monitors, s)
    ensures Attended(q, WorkStep(q.monitors, s, reply, tag), key)
  {
    var t := WorkStep(q.monitors, s, reply, tag);
    if !s.pc.Report? {
      WorkKeepsKey(q.monitors, s, reply, tag);
    }
    OthersKept(q, s, reply, tag, key);
    if key in Cache(s) {
      StaysDone(q, s.children, t.children, key, Build, Cache(s)[key]);
    }
    if News(s.history, s.seen, key) {
      NewsStays(s.history, t.history, s.seen, key);
    }
  }

  lemma OthersKept(q: Mode, s: State, reply: Reply, tag: string, key: Key)
    requires s.WellFormed() && s.pc != Idle && !s.pc.Crashed? && s.pc.key != key && Inv(q.monitors, s)
    ensures var t := WorkStep(q.monitors, s, reply, tag);
            && t.WellFormed() && t.seen == s.seen && s.history <= t.history && (Queued(s, key) ==> Queued(t, key))
            && Preserved(q, s.children, t.children, key)
  {
    if s.pc.Ensure? {
      EnsureOthersKept(q, s, reply, tag, key);
    } else if s.pc.Delete? {
      DeleteOthersKept(q, s, reply, key);
    }
  }

  lemma EnsureOthersKept(q: Mode, s: State, reply: Reply, tag: string, key: Key)
    requires s.pc.Ensure? && s.pc.key != key && Inv(q.monitors, s)
    ensures var t := EnsureStep(q.monitors, s, reply, tag);
            && t.seen == s.seen && t.history == s.history && t.dirty == s.dirty && t.delayed == s.delayed
            && Preserved(q, s.children, t.children, key)
  {
    EnsureStepEffect(q.monitors, s, reply, tag);
    EnsureKeepsKey(q.monitors, s, reply, tag);
  }

  lemma DeleteOthersKept(q: Mode, s: State, reply: Reply, key: Key)
    requires s.pc.Delete? && s.pc.key != key
    ensures Preserved(q, s.children, DeleteStep(q.monitors, s, reply).children, key)
  {
  }

  // ---- the worker, on the key itself ----

  lemma EnsureAttended(q: Mode, s: State, reply: Reply, tag: string)
    requires s.WellFormed() && s.pc.Ensure? && Working(q, s) && Answers(q, s, Work(reply, tag), s.pc.key)
    ensures Attended(q, EnsureStep(q.monitors, s, reply, tag), s.pc.key)
  {
    if ObjectStage(s.pc.stage) {
      EnsureObjectAttended(q, s, reply, tag);
    } else {
      EnsureScalingAttended(q, s, reply, tag);
    }
  }

  lemma EnsureObjectAttended(q: Mode, s: State, reply: Reply, tag: string)
    requires s.WellFormed() && s.pc.Ensure? && Working(q, s) && ObjectStage(s.pc.stage)
    ensures Attended(q, EnsureObject(q.monitors, s, reply, tag), s.pc.key)
  {
    if s.pc.stage.Create? || s.pc.stage.Write? {
      var id := ChildId(s.pc.stage.kind, s.pc.key, "");
      WrittenAttended(q, s, id, reply);
    }
  }

  /** Once the object of a stage is written, the next stage may begin. */
  lemma WrittenAttended(q: Mode, s: State, id: ChildId, reply: Reply)
    requires s.WellFormed() && s.pc.Ensure? && !s.pc.obj.deleting && Current(s, s.pc.key, s.pc.obj) && KindDone(q, s.children, s.pc.key, id.kind, s.pc.obj.gen)
    requires id.key == s.pc.key && id.tag == ""
    ensures var t := Put(s, id, true, true, Some(s.pc.obj.gen)); Attended(q, Answer(t, reply, AfterEnsure(q.monitors, t, id.kind)), s.pc.key)
  {
    var t := Put(s, id, true, true, Some(s.pc.obj.gen));
    assert Managed(q, t.children, id.kind, s.pc.key, s.pc.obj.gen);
    assert Current(t, s.pc.key, s.pc.obj);
  }

  lemma EnsureScalingAttended(q: Mode, s: State, reply: Reply, tag: string)
    requires s.WellFormed() && s.pc.Ensure? && Working(q, s) && !ObjectStage(s.pc.stage)
    requires q.answered && s.pc.stage.MonitorGet? ==> reply == Done
    ensures Attended(q, EnsureScaling(s, reply), s.pc.key)
  {
    var t := EnsureScaling(s, reply);
    ScalingKeepsOthers(q, s, reply);
    ScalingGoesOn(s, reply);
    ScalingAdvances(q, s, reply);
    assert Cache(t) == Cache(s);
  }

  lemma ScalingKeepsOthers(q: Mode, s: State, reply: Reply)
    requires s.pc.Ensure? && !ObjectStage(s.pc.stage) && AllManaged(q, s.children, s.pc.key, s.pc.obj.gen)
    ensures AllManaged(q, EnsureScaling(s, reply).children, s.pc.key, s.pc.obj.gen)
  {
    PartsKept(q, s.children, s.pc.key, s.nextRv, s.pc.obj.gen);
  }

  /** Each scaling stage leads to the next of its kind, and the last ones to what was asked for. */
  lemma ScalingAdvances(q: Mode, s: State, reply: Reply)
    requires s.pc.Ensure? && !ObjectStage(s.pc.stage) && ScalingStage(q, s.children, s.pc.key, s.pc.stage, s.pc.obj)
    requires q.answered && s.pc.stage.MonitorGet? ==> reply == Done
    ensures var t := EnsureScaling(s, reply);
            && (t.pc.Ensure? ==> t.pc.obj == s.pc.obj && ScalingStage(q, t.children, s.pc.key, t.pc.stage, s.pc.obj))
            && (t.pc == Report(s.pc.key, false) ==> ScalingDone(q, t.children, s.pc.key, s.pc.obj))
  {
  }

  lemma ScalingGoesOn(s: State, reply: Reply)
    requires s.pc.Ensure? && !ObjectStage(s.pc.stage)
    ensures var t := EnsureScaling(s, reply);
            && t.history == s.history && t.seen == s.seen && t.dirty == s.dirty && t.delayed == s.delayed
            && ((t.pc.Report? && t.pc.key == s.pc.key) ||
                (t.pc.Ensure? && t.pc.key == s.pc.key && !ObjectStage(t.pc.stage)))
  {
  }

  /** Writing or deleting a monitor or an autoscaler leaves the other children. */
  lemma PartsKept(q: Mode, children: Children, key: Key, rv: nat, gen: nat)
    requires AllManaged(q, children, key, gen)
    ensures AllManaged(q, Without(children, Monitor, key), key, gen) && AllManaged(q, Without(children, Autoscaler, key), key, gen)
    ensures AllManaged(q, children[ChildId(Monitor, key, "") := Child(rv, true, true, Some(gen))], key, gen)
    ensures AllManaged(q, children[ChildId(Autoscaler, key, "") := Child(rv, false, true, Some(gen))], key, gen)
  {
  }

  lemma DropAttended(q: Mode, s: State, reply: Reply, tag: string)
    requires s.WellFormed() && s.pc.DropFinalizer? && Working(q, s)
    ensures Attended(q, WorkStep(q.monitors, s, reply, tag), s.pc.key)
  {
    var t := WorkStep(q.monitors, s, reply, tag);
    var key := s.pc.key;
    if t.history != s.history && key in Cache(s) && HasFinalizer(Cache(s)[key].finalizers, FUNCTION_FINALIZER) {
      var j := |s.history|;
      assert t.history[s.seen] == s.history[s.seen];
      assert ChangedBetween(t.history[t.seen], t.history[j], key);
    }
  }

  lemma OwnAttended(q: Mode, s: State, reply: Reply, tag: string)
    requires s.WellFormed() && s.pc != Idle && !s.pc.Crashed? && Working(q, s) && Answers(q, s, Work(reply, tag), s.pc.key)
    requires !GivesUp(s, Work(reply, tag), s.pc.key)
    ensures Attended(q, WorkStep(q.monitors, s, reply, tag), s.pc.key)
  {
    if s.pc.Ensure? {
      EnsureAttended(q, s, reply, tag);
    } else if s.pc.DropFinalizer? {
      DropAttended(q, s, reply, tag);
    }
  }

  // ---- whole runs ----

  lemma StepAttended(q: Mode, s: State, a: Action, key: Key)
    requires Inv(q.monitors, s) && Attended(q, s, key) && GoodStep(q, s, a, key)
    ensures Attended(q, Step(q.monitors, s, a), key)
  {
    if Outside(a) {
      OutsideAttended(q, s, a, key);
    } else if a.Sync? {
      SyncAttended(q, s, a, key);
    } else if !a.Work? {
      QueueAttended(q, s, a, key);
    } else if s.pc.key == key {
      OwnAttended(q, s, a.reply, a.tag);
    } else {
      OtherAttended(q, s, a.reply, a.tag, key);
    }
  }

  /** A run that starts with every Function in the queue, enqueues every change the handlers let through, never
      gives the key up, and whose outside actors leave its children in place. */
  ghost predicate GoodRun(q: Mode, states: seq<State>, actions: seq<Action>, key: Key) {
    && Run(q.monitors, states, actions) && Init(states[0])
    && states[0].history[0].Keys <= states[0].dirty
    && forall i :: 0 <= i < |actions| ==> GoodStep(q, states[i], actions[i], key)
  }

  predicate GoodStep(q: Mode, s: State, a: Action, key: Key) {
    s.WellFormed() && Enabled(s, a) && Faithful(s, a, key) && Undisturbed(q, a, key) && Answers(q, s, a, key) && !GivesUp(s, a, key)
  }

  lemma StartAttended(q: Mode, s: State, key: Key)
    requires Init(s) && s.history[0].Keys <= s.dirty
    ensures Attended(q, s, key)
  {
  }

  lemma {:induction false} RunAttended(q: Mode, states: seq<State>, actions: seq<Action>, key: Key, n: nat)
    requires GoodRun(q, states, actions, key) && n < |states|
    ensures Attended(q, states[n], key)
  {
    if n == 0 {
      StartAttended(q, states[0], key);
    } else {
      RunAttended(q, states, actions, key, n - 1);
      RunKeeps(q.monitors, states, actions, n - 1);
      var s, a := states[n - 1], actions[n - 1];
      assert GoodStep(q, s, a, key);
      assert states[n - 1 + 1] == Step(q.monitors, s, a);
      StepAttended(q, s, a, key);
    }
  }

  /** Wherever such a run comes to rest, a live Function has its ConfigMap, Service and Deployment, written by
      the controller, and is held by its finalizer; and one being deleted is not held any more. An autoscaler it
      asks for is there too; if strict, none is there that it does not ask for, nor a monitor; and the monitor of
      an object metric is there if its lookups were answered. If strict, all these were last written from the
      spec that is live. */
  lemma DrainedMeansDone(q: Mode, states: seq<State>, actions: seq<Action>, key: Key, n: nat)
    requires GoodRun(q, states, actions, key) && n < |states| && Drained(states[n])
    requires key in states[n].Live()
    ensures var f, children := states[n].Live()[key], states[n].children;
            if f.deleting then !Held(states[n].Live(), key)
            else
              && Held(states[n].Live(), key)
              && AllManaged(q, children, key, f.gen)
              && (f.scaling == ResourceMetric || f.scaling == ObjectMetric ==> Managed(q, children, Autoscaler, key, f.gen))
              && (f.scaling == ObjectMetric && q.strict && q.answered ==> Managed(q, children, Monitor, key, f.gen))
              && (f.scaling == NoAutoscaler && q.strict ==> Absent(children, Autoscaler, key))
              && (f.scaling == NoAutoscaler && q.strict && q.monitors ==> Absent(children, Monitor, key))
              && f.scaling != NoMetrics && (f.scaling == ObjectMetric ==> q.monitors)
  {
    RunAttended(q, states, actions, key, n);
    RunKeeps(q.monitors, states, actions, n);
    assert Cache(states[n]) == states[n].Live();
  }
}

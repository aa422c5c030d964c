/** The function controller of pkg/controller/function_controller.go as a step system.

    The API server keeps the history of its Function objects; the informer cache is a position in that
    history that only moves forward, so a cache read is stale but monotone. One worker runs processItem one
    API call at a time, and outside actors may act between any two calls. A call is answered (Done), applied
    with its answer lost (Lost), or refused without effect (Refused, which also stands for an error raised
    locally before the call). */
module Controller {
  import opened Common
  import opened FunctionApi

  const MAX_RETRIES: nat := 5

  datatype Kind = ConfigMap | Service | Deployment | Monitor | Autoscaler | Job

  /** The tag tells the build jobs of one function apart; it is empty for the other kinds. */
  datatype ChildId = ChildId(kind: Kind, key: Key, tag: string)

  /** labelled: carries created-by=kubeless. managed: the controller has created or updated it. gen: what it was
      last written from, if by the controller. */
  datatype Child = Child(rv: nat, labelled: bool, managed: bool, gen: Option<nat>)

  type Children = map<ChildId, Child>

  datatype Stage =
    | Create(kind: Kind)
    | Inspect(kind: Kind)
    | Write(kind: Kind, rv: nat)
    | Build
    | MonitorGet
    | MonitorCreate
    | ScalerCreate
    | ScalerUpdate
    | MonitorDelete
    | ScalerDelete

  /** Where the worker stands; obj is the object it read from the cache. */
  datatype Pc =
    | Idle
    | Fetch(key: Key)
    | AddFinalizer(key: Key, obj: Function)
    | Ensure(key: Key, obj: Function, stage: Stage)
    | Delete(key: Key, obj: Function, next: nat)
    | DropFinalizer(key: Key, obj: Function)
    | Report(key: Key, failed: bool)
    | Crashed(key: Key)

  datatype State = State(
    history: seq<Functions>,
    nextRv: nat,
    children: Children,
    seen: nat,
    dirty: set<Key>,
    delayed: set<Key>,
    requeues: multiset<Key>,
    pc: Pc,
    budget: nat)
  {
    predicate WellFormed() {
      seen < |history|
    }

    /** The Functions the API server holds now. */
    function Live(): (r: Functions)
      requires WellFormed()
    {
      history[|history| - 1]
    }
  }

  datatype Reply = Done | Lost | Refused

  datatype Action =
    | UserCreate(key: Key, finalizers: seq<string>, scaling: Autoscaling)
    | UserUpdate(key: Key, finalizers: seq<string>, scaling: Autoscaling, respec: bool)
    | UserDelete(key: Key)
    | TouchChild(id: ChildId, labelled: bool)
    | RemoveChild(id: ChildId)
    | Sync(event: Option<Key>)
    | Ripen(key: Key)
    | Take(key: Key)
    | Work(reply: Reply, tag: string)
    | Panic
    | Restart(pos: nat)

  predicate Outside(a: Action) {
    a.UserCreate? || a.UserUpdate? || a.UserDelete? || a.TouchChild? || a.RemoveChild?
  }

  // ---- shorthands ----

  predicate Held(m: Functions, key: Key) {
    key in m && FUNCTION_FINALIZER in m[key].finalizers
  }

  predicate Active(m: Functions, key: Key) {
    Held(m, key) && !m[key].deleting
  }

  function Publish(s: State, key: Key, obj: Function): (r: State)
    requires s.WellFormed()
  {
    s.(history := s.history + [Stored(s.Live(), key, obj.(rv := s.nextRv))], nextRv := s.nextRv + 1)
  }

  function Put(s: State, id: ChildId, labelled: bool, managed: bool, gen: Option<nat>): (r: State) {
    s.(children := s.children[id := Child(s.nextRv, labelled, managed, gen)], nextRv := s.nextRv + 1)
  }

  /** What a delete call removes: the object of that kind, or every build job selected by its labels. */
  function Without(children: Children, kind: Kind, key: Key): (r: Children) {
    map id | id in children && !(id.kind == kind && id.key == key && (kind == Job ==> children[id].labelled))
      :: children[id]
  }

  predicate CheckedKind(kind: Kind) {
    kind == ConfigMap || kind == Service || kind == Deployment
  }

  // ---- the worker ----

  function Failed(s: State): (r: State)
    requires s.pc != Idle && !s.pc.Crashed?
  {
    s.(pc := Report(s.pc.key, true))
  }

  function Goto(s: State, stage: Stage): (r: State)
    requires s.pc.Ensure?
  {
    s.(pc := s.pc.(stage := stage))
  }

  /** Answer a call whose effect has been applied. */
  function Answer(effect: State, reply: Reply, next: State): (r: State)
    requires effect.pc != Idle && !effect.pc.Crashed?
  {
    if reply == Done then next else Failed(effect)
  }

  function AfterEnsure(monitors: bool, s: State, kind: Kind): (r: State)
    requires s.pc.Ensure?
  {
    match kind
    case ConfigMap => Goto(s, Create(Service))
    case Service => Goto(s, Build)
    case _ =>
      match s.pc.obj.scaling
      case NoAutoscaler => Goto(s, if monitors then MonitorDelete else ScalerDelete)
      case NoMetrics => s.(pc := Crashed(s.pc.key))
      case ResourceMetric => Goto(s, ScalerCreate)
      case ObjectMetric => if monitors then Goto(s, MonitorGet) else s.(pc := Crashed(s.pc.key))
  }

  predicate ObjectStage(stage: Stage) {
    stage.Create? || stage.Inspect? || stage.Write? || stage.Build?
  }

  /** Creating or updating the ConfigMap, Service and Deployment, and starting a build job. A build that
      cannot be started is only logged. */
  function EnsureObject(monitors: bool, s: State, reply: Reply, tag: string): (r: State)
    requires s.pc.Ensure? && ObjectStage(s.pc.stage)
  {
    var key := s.pc.key;
    match s.pc.stage
    case Create(kind) =>
      var id := ChildId(kind, key, "");
      if reply == Refused then Failed(s)
      else if id in s.children then Answer(s, reply, Goto(s, Inspect(kind)))
      else var t := Put(s, id, true, true, Some(s.pc.obj.gen)); Answer(t, reply, AfterEnsure(monitors, t, kind))
    case Inspect(kind) =>
      var id := ChildId(kind, key, "");
      if reply != Done || id !in s.children || !s.children[id].labelled then Failed(s)
      else Goto(s, Write(kind, s.children[id].rv))
    case Write(kind, rv) =>
      var id := ChildId(kind, key, "");
      if reply == Refused || id !in s.children || s.children[id].rv != rv then Failed(s)
      else var t := Put(s, id, true, true, Some(s.pc.obj.gen)); Answer(t, reply, AfterEnsure(monitors, t, kind))
    case Build =>
      var id := ChildId(Job, key, tag);
      var t := if reply == Refused || id in s.children then s else Put(s, id, true, true, Some(s.pc.obj.gen));
      Goto(t, Create(Deployment))
  }

  /** Service monitor and autoscaler. A failed lookup of the monitor, other than not finding it, is taken
      for success; an existing monitor is an error. */
  function EnsureScaling(s: State, reply: Reply): (r: State)
    requires s.pc.Ensure? && !ObjectStage(s.pc.stage)
  {
    var key := s.pc.key;
    match s.pc.stage
    case MonitorGet =>
      if reply != Done then Goto(s, ScalerCreate)
      else if ChildId(Monitor, key, "") in s.children then Failed(s)
      else Goto(s, MonitorCreate)
    case MonitorCreate =>
      var id := ChildId(Monitor, key, "");
      if reply == Refused || id in s.children then Failed(s)
      else var t := Put(s, id, true, true, Some(s.pc.obj.gen)); Answer(t, reply, Goto(t, ScalerCreate))
    case ScalerCreate =>
      var id := ChildId(Autoscaler, key, "");
      if reply == Refused then Failed(s)
      else if id in s.children then Answer(s, reply, Goto(s, ScalerUpdate))
      else var t := Put(s, id, false, true, Some(s.pc.obj.gen)); Answer(t, reply, t.(pc := Report(key, false)))
    case ScalerUpdate =>
      var id := ChildId(Autoscaler, key, "");
      if reply == Refused || id !in s.children then Failed(s)
      else var t := Put(s, id, false, true, Some(s.pc.obj.gen)); Answer(t, reply, t.(pc := Report(key, false)))
    case MonitorDelete =>
      if reply == Refused then Failed(s)
      else
        var t := s.(children := Without(s.children, Monitor, key));
        Answer(t, reply, Goto(t, ScalerDelete))
    case ScalerDelete =>
      if reply == Refused then Failed(s)
      else
        var t := s.(children := Without(s.children, Autoscaler, key));
        Answer(t, reply, t.(pc := Report(key, false)))
  }

  function EnsureStep(monitors: bool, s: State, reply: Reply, tag: string): (r: State)
    requires s.pc.Ensure?
  {
    if ObjectStage(s.pc.stage) then EnsureObject(monitors, s, reply, tag) else EnsureScaling(s, reply)
  }

  /** The order of deleteK8sResources. */
  const DELETE_ORDER: seq<Kind> := [Deployment, Service, ConfigMap, Monitor, Autoscaler, Job]

  function DeleteStep(monitors: bool, s: State, reply: Reply): (r: State)
    requires s.pc.Delete?
  {
    var Delete(key, obj, next) := s.pc;
    if next >= |DELETE_ORDER| then s.(pc := DropFinalizer(key, obj))
    else
      var kind := DELETE_ORDER[next];
      if kind == Monitor && !monitors then s.(pc := Delete(key, obj, next + 1))
      else if reply == Refused then Failed(s)
      else
        var t := s.(children := Without(s.children, kind, key));
        Answer(t, reply, t.(pc := Delete(key, obj, next + 1)))
  }

  /** processItem up to its first API call: everything is decided on the cached object. */
  function FetchStep(s: State, reply: Reply): (r: State)
    requires s.WellFormed() && s.pc.Fetch?
  {
    var key := s.pc.key;
    var cache := s.history[s.seen];
    if reply != Done then Failed(s)
    else if key !in cache then s.(pc := Report(key, false))
    else
      var obj := cache[key];
      if obj.deleting then
        if HasFinalizer(obj.finalizers, FUNCTION_FINALIZER) then s.(pc := Delete(key, obj, 0))
        else s.(pc := Report(key, false))
      else if HasFinalizer(obj.finalizers, FUNCTION_FINALIZER) then s.(pc := Ensure(key, obj, Create(ConfigMap)))
      else s.(pc := AddFinalizer(key, obj))
  }

  /** The tail of processNextItem: forget, requeue with a delay, or give up. */
  function ReportStep(s: State): (r: State)
    requires s.pc.Report?
  {
    var key := s.pc.key;
    if s.pc.failed && s.requeues[key] < MAX_RETRIES then
      s.(requeues := s.requeues[key := s.requeues[key] + 1], delayed := s.delayed + {key}, pc := Idle)
    else
      s.(requeues := s.requeues[key := 0], pc := Idle)
  }

  function WorkStep(monitors: bool, s: State, reply: Reply, tag: string): (r: State)
    requires s.WellFormed() && s.pc != Idle && !s.pc.Crashed?
  {
    match s.pc
    case Fetch(_) => FetchStep(s, reply)
    case AddFinalizer(key, obj) =>
      if reply == Refused || !Accepts(s.Live(), key, obj) then Failed(s)
      else
        var t := Publish(s, key, obj.(finalizers := obj.finalizers + [FUNCTION_FINALIZER]));
        Answer(t, reply, t.(pc := Ensure(key, obj, Create(ConfigMap))))
    case Ensure(_, _, _) => EnsureStep(monitors, s, reply, tag)
    case Delete(_, _, _) => DeleteStep(monitors, s, reply)
    case DropFinalizer(key, obj) =>
      if reply == Refused || !Accepts(s.Live(), key, obj) then Failed(s)
      else
        var t := Publish(s, key, obj.(finalizers := WithoutFinalizer(obj.finalizers, FUNCTION_FINALIZER)));
        Answer(t, reply, t.(pc := Report(key, false)))
    case Report(_, _) => ReportStep(s)
  }

  // ---- the whole system ----

  /** Assumptions on outside actors: nobody strips the controller's finalizer from a Function, or the
      created-by label from an object the controller manages. The API server itself refuses new finalizers on
      an object being deleted. */
  predicate Enabled(s: State, a: Action)
    requires s.WellFormed()
  {
    match a
    case UserCreate(key, _, _) => s.budget > 0 && key !in s.Live()
    case UserUpdate(key, fs, _, _) =>
      && s.budget > 0
      && key in s.Live()
      && (FUNCTION_FINALIZER in s.Live()[key].finalizers ==> FUNCTION_FINALIZER in fs)
      && (s.Live()[key].deleting ==> forall f :: f in fs ==> f in s.Live()[key].finalizers)
    case UserDelete(key) => s.budget > 0 && key in s.Live() && !s.Live()[key].deleting
    case TouchChild(id, labelled) =>
      && s.budget > 0
      && (id.kind != Job ==> id.tag == "")
      && (id in s.children && s.children[id].managed && id.kind != Autoscaler ==> labelled)
    case RemoveChild(id) => s.budget > 0 && id in s.children
    case Sync(event) =>
      && s.seen + 1 < |s.history|
      && (event.Some? ==> ChangedBetween(s.history[s.seen], s.history[s.seen + 1], event.value))
    case Ripen(key) => key in s.delayed
    case Take(key) => s.pc == Idle && key in s.dirty
    case Work(_, _) => s.pc != Idle && !s.pc.Crashed?
    case Panic => s.pc != Idle && !s.pc.Crashed?
    case Restart(pos) => s.seen <= pos < |s.history|
  }

  /** The autoscaler is part of the spec. */
  function Updated(obj: Function, fs: seq<string>, scaling: Autoscaling, respec: bool, rv: nat): (r: Function) {
    obj.(finalizers := fs, scaling := scaling, gen := if respec || scaling != obj.scaling then rv else obj.gen)
  }

  predicate ChangedBetween(m: Functions, n: Functions, key: Key) {
    (key in m <==> key !in n) || (key in m && key in n && m[key] != n[key])
  }

  /** One step of the whole system. The worker may panic anywhere, which ends the process. A restarted process lists some state, no older than its predecessor's cache,
      and enqueues every Function in it. An informer event may or may not be enqueued, which covers the
      event filter and the events a relist skips. */
  function Step(monitors: bool, s: State, a: Action): (r: State)
    requires s.WellFormed() && Enabled(s, a)
  {
    match a
    case UserCreate(key, fs, scaling) =>
      Publish(s.(budget := s.budget - 1), key, Function(s.nextRv, s.nextRv, false, fs, scaling, s.nextRv))
    case UserUpdate(key, fs, scaling, respec) =>
      Publish(s.(budget := s.budget - 1), key, Updated(s.Live()[key], fs, scaling, respec, s.nextRv))
    case UserDelete(key) =>
      Publish(s.(budget := s.budget - 1), key, s.Live()[key].(deleting := true))
    case TouchChild(id, labelled) =>
      Put(s.(budget := s.budget - 1), id, labelled, id in s.children && s.children[id].managed, None)
    case RemoveChild(id) => s.(budget := s.budget - 1, children := s.children - {id})
    case Sync(event) => s.(seen := s.seen + 1, dirty := if event.Some? then s.dirty + {event.value} else s.dirty)
    case Ripen(key) => s.(delayed := s.delayed - {key}, dirty := s.dirty + {key})
    case Take(key) => s.(dirty := s.dirty - {key}, pc := Fetch(key))
    case Work(reply, tag) => WorkStep(monitors, s, reply, tag)
    case Panic => s.(pc := Crashed(s.pc.key))
    case Restart(pos) =>
      s.(pc := Idle, seen := pos, dirty := s.history[pos].Keys, delayed := {}, requeues := multiset{})
  }

  predicate Init(s: State) {
    && |s.history| == 1
    && s.seen == 0
    && (forall k :: k in s.history[0] ==> s.history[0][k].rv < s.nextRv)
    && (forall id :: id in s.children ==>
          !s.children[id].managed && s.children[id].rv < s.nextRv && (id.kind != Job ==> id.tag == ""))
    && s.requeues == multiset{}
    && s.delayed == {}
    && s.pc == Idle
  }

  /** states is a run of the system under the given actions. */
  ghost predicate Run(monitors: bool, states: seq<State>, actions: seq<Action>) {
    && |states| == |actions| + 1
    && (forall i :: 0 <= i < |states| ==> states[i].WellFormed())
    && (forall i :: 0 <= i < |actions| ==>
          Enabled(states[i], actions[i]) && states[i + 1] == Step(monitors, states[i], actions[i]))
  }
}

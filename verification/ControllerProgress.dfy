/** Retry bound and quiescence of the controller: counters, the number of its own Function writes, and the
    length of every run with finitely many outside events. */
module ControllerProgress {
  import opened Common
  import opened FunctionApi
  import opened Controller
  import opened ControllerSafety

  // ---- requeue counters ----

  /** The key the worker is busy with, if any. */
  function Busy(s: State): (r: set<Key>) {
    if s.pc == Idle then {} else {s.pc.key}
  }

  /** Counters stay within the limit, and only keys that will be tried again have one. */
  ghost predicate QueueOk(s: State) {
    && (forall k :: s.requeues[k] <= MAX_RETRIES)
    && (forall k :: k in s.requeues ==> k in s.dirty + s.delayed + Busy(s))
  }

  /** The parts of the state that working on a key leaves alone. */
  predicate SameQueue(s: State, t: State) {
    && t.requeues == s.requeues && t.dirty == s.dirty && t.delayed == s.delayed
    && t.budget == s.budget && t.seen == s.seen && |s.history| <= |t.history|
  }

  predicate Advanced(s: State, t: State)
    requires s.pc != Idle
  {
    t.pc != Idle && t.pc.key == s.pc.key && SameQueue(s, t) && t.history == s.history && Rank(t.pc) < Rank(s.pc)
  }

  lemma EnsureObjectAdvances(monitors: bool, s: State, reply: Reply, tag: string)
    requires s.pc.Ensure? && ObjectStage(s.pc.stage)
    ensures Advanced(s, EnsureObject(monitors, s, reply, tag))
  {
  }

  lemma EnsureScalingAdvances(s: State, reply: Reply)
    requires s.pc.Ensure? && !ObjectStage(s.pc.stage)
    ensures Advanced(s, EnsureScaling(s, reply))
  {
  }

  lemma EnsureKeepsKey(monitors: bool, s: State, reply: Reply, tag: string)
    requires s.pc.Ensure?
    ensures Advanced(s, EnsureStep(monitors, s, reply, tag))
  {
    if ObjectStage(s.pc.stage) {
      EnsureObjectAdvances(monitors, s, reply, tag);
    } else {
      EnsureScalingAdvances(s, reply);
    }
  }

  lemma WorkKeepsKey(monitors: bool, s: State, reply: Reply, tag: string)
    requires s.WellFormed() && s.pc != Idle && !s.pc.Crashed? && !s.pc.Report?
    ensures var t := WorkStep(monitors, s, reply, tag);
            && t.pc != Idle && t.pc.key == s.pc.key && SameQueue(s, t)
  {
    if s.pc.Ensure? {
      EnsureKeepsKey(monitors, s, reply, tag);
    }
  }

  lemma StepKeepsQueue(monitors: bool, s: State, a: Action)
    requires s.WellFormed() && QueueOk(s) && Enabled(s, a)
    ensures QueueOk(Step(monitors, s, a))
  {
    if a.Work? && !s.pc.Report? {
      WorkKeepsKey(monitors, s, a.reply, a.tag);
    }
  }

  lemma {:induction false} RunKeepsQueue(monitors: bool, states: seq<State>, actions: seq<Action>, i: nat)
    requires Run(monitors, states, actions) && Init(states[0]) && i < |states|
    ensures QueueOk(states[i])
  {
    if i > 0 {
      RunKeepsQueue(monitors, states, actions, i - 1);
      assert states[i - 1 + 1] == Step(monitors, states[i - 1], actions[i - 1]);
      StepKeepsQueue(monitors, states[i - 1], actions[i - 1]);
    }
  }

  /** The requeue counter of every key stays at most MAX_RETRIES in every state of every run. */
  lemma RetriesBounded(monitors: bool, states: seq<State>, actions: seq<Action>, key: Key)
    requires Run(monitors, states, actions) && Init(states[0])
    ensures forall i :: 0 <= i < |states| ==> states[i].requeues[key] <= 5
  {
    forall i | 0 <= i < |states|
      ensures states[i].requeues[key] <= 5
    {
      RunKeepsQueue(monitors, states, actions, i);
    }
  }

  predicate AttemptEnds(s: State, a: Action, key: Key, failed: bool) {
    a.Work? && s.pc == Report(key, failed)
  }

  /** Failed attempts of key among the first n actions. */
  function Failures(states: seq<State>, actions: seq<Action>, key: Key, n: nat): (r: nat)
    requires n <= |actions| < |states|
  {
    if n == 0 then 0
    else Failures(states, actions, key, n - 1) + (if AttemptEnds(states[n - 1], actions[n - 1], key, true) then 1 else 0)
  }

  /** How often the controller gave key up among the first n actions: it failed and was not queued again. */
  function GiveUps(states: seq<State>, actions: seq<Action>, key: Key, n: nat): (r: nat)
    requires n <= |actions| < |states|
  {
    if n == 0 then 0
    else GiveUps(states, actions, key, n - 1) +
         (if AttemptEnds(states[n - 1], actions[n - 1], key, true) &&
             states[n].requeues[key] == 0 then 1 else 0)
  }

  /** A key whose attempts all fail is given up on every sixth failure exactly: failures, give-ups and the
      counter obey failures == 6 * give-ups + counter. */
  lemma {:induction false} SixTriesThenDropped(monitors: bool, states: seq<State>, actions: seq<Action>, key: Key, n: nat)
    requires Run(monitors, states, actions) && Init(states[0]) && n <= |actions|
    requires forall i :: 0 <= i < n ==> !actions[i].Restart? && !AttemptEnds(states[i], actions[i], key, false)
    ensures Failures(states, actions, key, n) == 6 * GiveUps(states, actions, key, n) + states[n].requeues[key]
    ensures states[n].requeues[key] <= 5
  {
    if n > 0 {
      SixTriesThenDropped(monitors, states, actions, key, n - 1);
      var s, a := states[n - 1], actions[n - 1];
      assert states[n - 1 + 1] == Step(monitors, s, a);
      CounterStep(monitors, s, a, key);
    }
  }

  /** What a step does to the counter of a key whose attempts do not succeed. */
  lemma CounterStep(monitors: bool, s: State, a: Action, key: Key)
    requires s.WellFormed() && Enabled(s, a) && !a.Restart? && !AttemptEnds(s, a, key, false)
    ensures Step(monitors, s, a).requeues[key] ==
            if !AttemptEnds(s, a, key, true) then s.requeues[key]
            else if s.requeues[key] < 5 then s.requeues[key] + 1 else 0
  {
    if a.Work? && !s.pc.Report? {
      WorkKeepsKey(monitors, s, a.reply, a.tag);
    }
  }

  // ---- the controller's own writes to Function objects ----

  /** Writes the controller may still make on the object under key: an add and a remove of its finalizer. */
  function Phase(m: Functions, key: Key): (r: nat)
    ensures r <= 2
  {
    if key !in m then 0
    else if Held(m, key) then 1
    else if m[key].deleting then 0
    else 2
  }

  /** A Function write by the worker. */
  predicate OwnWrite(monitors: bool, s: State, a: Action)
    requires s.WellFormed() && Enabled(s, a)
  {
    a.Work? && |Step(monitors, s, a).history| > |s.history|
  }

  /** Per incarnation the phase never rises, and each write of the controller's own lowers it: at most one
      finalizer add and then at most one remove. */
  lemma PhaseStep(monitors: bool, s: State, a: Action, key: Key)
    requires Inv(monitors, s) && Enabled(s, a)
    ensures var t := Step(monitors, s, a);
            && t.WellFormed()
            && (!a.UserCreate? || a.key != key ==> Phase(t.Live(), key) <= Phase(s.Live(), key))
            && (OwnWrite(monitors, s, a) && s.pc.key == key ==> Phase(t.Live(), key) < Phase(s.Live(), key))
            && (OwnWrite(monitors, s, a) && s.pc.key != key ==> Phase(t.Live(), key) == Phase(s.Live(), key))
  {
    if a.Work? {
      OwnPhase(monitors, s, a.reply, a.tag, key);
    }
  }

  lemma OwnPhase(monitors: bool, s: State, reply: Reply, tag: string, key: Key)
    requires Inv(monitors, s) && s.pc != Idle && !s.pc.Crashed?
    ensures var t := WorkStep(monitors, s, reply, tag);
            && t.WellFormed()
            && (t.history == s.history || |t.history| == |s.history| + 1)
            && (t.history != s.history && s.pc.key == key ==> Phase(t.Live(), key) < Phase(s.Live(), key))
            && (s.pc.key != key ==> Phase(t.Live(), key) == Phase(s.Live(), key))
  {
    match s.pc
    case Ensure(_, _, _) => EnsureKeepsKey(monitors, s, reply, tag);
    case AddFinalizer(k, obj) =>
      if Accepts(s.Live(), k, obj) { assert s.Live()[k] == obj; }
    case DropFinalizer(k, obj) =>
      if Accepts(s.Live(), k, obj) { assert s.Live()[k] == obj; }
    case _ =>
  }

  function FreshKeys(m: Functions): (r: set<Key>) {
    set k | k in m && Phase(m, k) == 2
  }

  function HeldKeys(m: Functions): (r: set<Key>) {
    set k | k in m && Phase(m, k) == 1
  }

  /** All writes the controller may still make on the live objects. */
  function Remaining(m: Functions): (r: nat) {
    2 * |FreshKeys(m)| + |HeldKeys(m)|
  }

  lemma CardWithout(a: set<Key>, b: set<Key>, key: Key)
    requires a - {key} == b - {key}
    ensures |a| - (if key in a then 1 else 0) == |b| - (if key in b then 1 else 0)
  {
    assert key in a ==> a == (a - {key}) + {key};
    assert key !in a ==> a == a - {key};
    assert key in b ==> b == (b - {key}) + {key};
    assert key !in b ==> b == b - {key};
  }

  /** Changing one object changes the total by the change of its own phase. */
  lemma RemainingChanges(m: Functions, n: Functions, key: Key)
    requires forall k :: k != key ==> Phase(m, k) == Phase(n, k)
    ensures Remaining(n) == Remaining(m) - Phase(m, key) + Phase(n, key)
  {
    assert FreshKeys(m) - {key} == FreshKeys(n) - {key};
    assert HeldKeys(m) - {key} == HeldKeys(n) - {key};
    CardWithout(FreshKeys(m), FreshKeys(n), key);
    CardWithout(HeldKeys(m), HeldKeys(n), key);
  }

  lemma HistoryGrowth(monitors: bool, s: State, a: Action)
    requires Inv(monitors, s) && Enabled(s, a)
    ensures var t := Step(monitors, s, a);
            && t.WellFormed()
            && (t.history == s.history || |t.history| == |s.history| + 1)
            && (t.history != s.history ==> Outside(a) || a.Work?)
  {
    if a.Work? {
      OwnPhase(monitors, s, a.reply, a.tag, s.pc.key);
    }
  }

  /** How one step changes the history and the writes still open. */
  lemma StepWrites(monitors: bool, s: State, a: Action)
    requires Inv(monitors, s) && Enabled(s, a)
    ensures var t := Step(monitors, s, a);
            && t.WellFormed()
            && |s.history| <= |t.history| <= |s.history| + 1
            && Remaining(t.Live()) <= Remaining(s.Live()) + (if a.UserCreate? then 2 else 0)
            && (OwnWrite(monitors, s, a) ==> Remaining(t.Live()) < Remaining(s.Live()))
            && (|t.history| > |s.history| ==> Outside(a) || OwnWrite(monitors, s, a))
  {
    var t := Step(monitors, s, a);
    HistoryGrowth(monitors, s, a);
    if |t.history| > |s.history| {
      var key := if a.Work? then s.pc.key else a.key;
      OtherPhases(monitors, s, a, key);
      PhaseStep(monitors, s, a, key);
      RemainingChanges(s.Live(), t.Live(), key);
    }
  }

  /** A step that writes a Function leaves the others in their phase. */
  lemma OtherPhases(monitors: bool, s: State, a: Action, key: Key)
    requires Inv(monitors, s) && Enabled(s, a) && |Step(monitors, s, a).history| > |s.history|
    requires Step(monitors, s, a).WellFormed() && key == if a.Work? then s.pc.key else a.key
    ensures forall k :: k != key ==> Phase(s.Live(), k) == Phase(Step(monitors, s, a).Live(), k)
  {
    forall k | k != key
      ensures Phase(s.Live(), k) == Phase(Step(monitors, s, a).Live(), k)
    {
      if a.Work? {
        OwnPhase(monitors, s, a.reply, a.tag, k);
      } else {
        UserPhase(monitors, s, a, k);
      }
    }
  }

  lemma UserPhase(monitors: bool, s: State, a: Action, k: Key)
    requires s.WellFormed() && Enabled(s, a) && !a.Work? && |Step(monitors, s, a).history| > |s.history|
    requires Step(monitors, s, a).WellFormed() && k != a.key
    ensures Phase(s.Live(), k) == Phase(Step(monitors, s, a).Live(), k)
  {
  }

  /** Own writes among the first n actions. */
  ghost function OwnWrites(monitors: bool, states: seq<State>, actions: seq<Action>, n: nat): (r: nat)
    requires Run(monitors, states, actions) && n <= |actions|
  {
    if n == 0 then 0
    else OwnWrites(monitors, states, actions, n - 1) + (if OwnWrite(monitors, states[n - 1], actions[n - 1]) then 1 else 0)
  }

  function Creates(actions: seq<Action>, n: nat): (r: nat)
    requires n <= |actions|
  {
    if n == 0 then 0 else Creates(actions, n - 1) + (if actions[n - 1].UserCreate? then 1 else 0)
  }

  /** Over a whole run the controller writes at most twice per Function incarnation. */
  lemma {:induction false} OwnWritesBounded(monitors: bool, states: seq<State>, actions: seq<Action>, n: nat)
    requires Run(monitors, states, actions) && Init(states[0]) && n <= |actions|
    ensures OwnWrites(monitors, states, actions, n) + Remaining(states[n].Live())
            <= Remaining(states[0].Live()) + 2 * Creates(actions, n)
  {
    if n > 0 {
      OwnWritesBounded(monitors, states, actions, n - 1);
      RunKeeps(monitors, states, actions, n - 1);
      assert states[n - 1 + 1] == Step(monitors, states[n - 1], actions[n - 1]);
      StepWrites(monitors, states[n - 1], actions[n - 1]);
    }
  }

  // ---- quiescence ----

  function KindRank(kind: Kind): (r: nat) {
    match kind case ConfigMap => 13 case Service => 10 case _ => 6
  }

  /** Worker steps left at most until the attempt is reported. */
  function Rank(pc: Pc): (r: nat)
    ensures r <= 17
  {
    match pc
    case Idle => 0
    case Crashed(_) => 0
    case Report(_, _) => 1
    case DropFinalizer(_, _) => 2
    case Delete(_, _, next) => 3 + (if next < 6 then 6 - next else 0)
    case AddFinalizer(_, _) => 16
    case Fetch(_) => 17
    case Ensure(_, _, stage) =>
      match stage
      case Create(kind) => KindRank(kind) + 2
      case Inspect(kind) => KindRank(kind) + 1
      case Write(kind, _) => KindRank(kind)
      case Build => 9
      case MonitorGet => 5
      case MonitorCreate => 4
      case ScalerCreate => 3
      case ScalerUpdate => 2
      case MonitorDelete => 3
      case ScalerDelete => 2
  }

  lemma WorkLowersRank(monitors: bool, s: State, reply: Reply, tag: string)
    requires s.WellFormed() && s.pc != Idle && !s.pc.Crashed?
    ensures Rank(WorkStep(monitors, s, reply, tag).pc) < Rank(s.pc)
  {
    if s.pc.Ensure? {
      EnsureKeepsKey(monitors, s, reply, tag);
    }
  }

  /** What the work queue can still demand of the worker. */
  function Energy(s: State): (r: int) {
    4 * (6 * (|s.dirty| + |s.delayed| + |Busy(s)|) - |s.requeues|) + 2 * |s.delayed| + |s.dirty|
  }

  lemma {:induction false} CountersFit(r: multiset<Key>, keys: set<Key>)
    requires forall k :: r[k] <= MAX_RETRIES
    requires forall k :: k in r ==> k in keys
    ensures |r| <= 5 * |keys|
  {
    if keys == {} {
      assert r == multiset{};
    } else {
      var k :| k in keys;
      CountersFit(r[k := 0], keys - {k});
    }
  }

  lemma EnergyNonNegative(s: State)
    requires QueueOk(s)
    ensures Energy(s) >= 0
  {
    CountersFit(s.requeues, s.dirty + s.delayed + Busy(s));
  }

  /** Bounds the steps still possible without a restart. */
  function Potential(s: State): (r: int)
    requires s.WellFormed()
  {
    3007 * s.budget + 1002 * Remaining(s.Live()) + 1002 * (|s.history| - 1 - s.seen) + 40 * Energy(s) + Rank(s.pc)
  }

  lemma PotentialNonNegative(s: State)
    requires s.WellFormed() && QueueOk(s)
    ensures Potential(s) >= 0
  {
    EnergyNonNegative(s);
  }

  lemma WorkSpends(monitors: bool, s: State, reply: Reply, tag: string)
    requires Inv(monitors, s) && QueueOk(s) && Enabled(s, Work(reply, tag))
    ensures var t := Step(monitors, s, Work(reply, tag)); t.WellFormed() && Potential(t) < Potential(s)
  {
    var t := Step(monitors, s, Work(reply, tag));
    StepWrites(monitors, s, Work(reply, tag));
    WorkLowersRank(monitors, s, reply, tag);
    if s.pc.Report? {
      var key := s.pc.key;
      assert |t.requeues| == |s.requeues| - s.requeues[key] + t.requeues[key];
      assert |t.delayed| <= |s.delayed| + 1;
      assert t.history == s.history;
    } else {
      WorkKeepsKey(monitors, s, reply, tag);
    }
  }

  lemma QueueSpends(monitors: bool, s: State, a: Action)
    requires s.WellFormed() && Enabled(s, a) && (a.Sync? || a.Ripen? || a.Take? || a.Panic?)
    ensures var t := Step(monitors, s, a); t.WellFormed() && Potential(t) < Potential(s)
  {
    var t := Step(monitors, s, a);
    match a
    case Sync(event) => assert |t.dirty| <= |s.dirty| + 1;
    case Ripen(key) => assert |t.delayed| == |s.delayed| - 1 && |t.dirty| <= |s.dirty| + 1;
    case Take(key) => assert |t.dirty| == |s.dirty| - 1;
    case Panic =>
  }

  /** Every step but a restart spends potential. */
  lemma StepSpends(monitors: bool, s: State, a: Action)
    requires Inv(monitors, s) && QueueOk(s) && Enabled(s, a) && !a.Restart?
    ensures var t := Step(monitors, s, a); t.WellFormed() && Potential(t) < Potential(s)
  {
    if a.Work? {
      WorkSpends(monitors, s, a.reply, a.tag);
    } else if Outside(a) {
      StepWrites(monitors, s, a);
    } else {
      QueueSpends(monitors, s, a);
    }
  }

  /** Every stretch of a run without restarts is no longer than a bound computed from its first state, so a run
      with finitely many restarts and outside events ends. */
  lemma {:induction false} RunsEnd(monitors: bool, states: seq<State>, actions: seq<Action>, a: nat, b: nat)
    requires Run(monitors, states, actions) && Init(states[0]) && a <= b <= |actions|
    requires forall i :: a <= i < b ==> !actions[i].Restart?
    ensures b - a <= Potential(states[a]) - Potential(states[b]) && b - a <= Potential(states[a])
    decreases b - a
  {
    RunKeepsQueue(monitors, states, actions, b);
    PotentialNonNegative(states[b]);
    if a < b {
      RunsEnd(monitors, states, actions, a, b - 1);
      RunKeeps(monitors, states, actions, b - 1);
      RunKeepsQueue(monitors, states, actions, b - 1);
      assert states[b - 1 + 1] == Step(monitors, states[b - 1], actions[b - 1]);
      StepSpends(monitors, states[b - 1], actions[b - 1]);
    }
  }

  /** Nothing left to do but wait for outside events: the queue is empty, no counter is held, and the cache
      has caught up with the live objects. */
  ghost predicate Drained(s: State)
    requires s.WellFormed()
  {
    s.pc == Idle && s.dirty == {} && s.delayed == {} && s.requeues == multiset{} && s.seen == |s.history| - 1
  }

  /** A run can stop only drained (or in a crash): where no step of the controller, its queue or its informer
      is possible, the queue is empty. */
  lemma StuckMeansDrained(monitors: bool, states: seq<State>, actions: seq<Action>)
    requires Run(monitors, states, actions) && Init(states[0])
    requires var s := states[|actions|];
             forall a :: Enabled(s, a) ==> Outside(a) || a.Restart?
    ensures states[|actions|].pc.Crashed? || Drained(states[|actions|])
  {
    var s := states[|actions|];
    RunKeepsQueue(monitors, states, actions, |actions|);
    assert !Enabled(s, Sync(None));
    assert !Enabled(s, Work(Done, ""));
    if s.delayed != {} {
      var k :| k in s.delayed;
      assert Enabled(s, Ripen(k));
    }
    if s.pc == Idle && s.dirty != {} {
      var k :| k in s.dirty;
      assert Enabled(s, Take(k));
    }
  }
}

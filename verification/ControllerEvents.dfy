/** The informer's event handlers over the step system: what functionObjChanged lets through is what a run needs
    to come to rest with everything done. */
module ControllerEvents {
  import opened Common
  import opened FunctionApi
  import opened Controller
  import opened ControllerSafety
  import opened ControllerProgress
  import opened ControllerQuiescence
  import Desired
  import EventFilter
  import PodSpecs
  import Provision
  import Quantities

  // ---- concrete versions ----

  function ScalingKind(a: Desired.Autoscaler): (r: Autoscaling) {
    if !Desired.Wanted(a) then NoAutoscaler
    else if a.metrics == [] then NoMetrics
    else if a.metrics[0].ObjectMetric? then ObjectMetric
    else ResourceMetric
  }

  type Decoder = Function -> Desired.FunctionObj

  /** The objects the informer decodes for the versions of one Function: a deletion timestamp has another address
      each time, resource versions tell versions apart, and generations tell specs apart. */
  ghost predicate Decodes(decode: Decoder) {
    forall a, b ::
      && decode(a).deletion == (if a.deleting then Some(a.rv) else None)
      && ScalingKind(decode(a).scaler) == a.scaling
      && (decode(a).rv == decode(b).rv ==> a.rv == b.rv)
      && (a.gen != b.gen ==> !EventFilter.SameSpec(decode(a), decode(b)))
  }

  lemma KindsAgree(a: Desired.Autoscaler, b: Desired.Autoscaler)
    requires EventFilter.SameScalers(a, b)
    ensures ScalingKind(a) == ScalingKind(b)
  {
    if a.metrics != [] {
      assert EventFilter.MetricAmount(a.metrics[0]) == EventFilter.MetricAmount(b.metrics[0]);
    }
  }

  /** Two versions that differ in deletion, autoscaling or generation pass the filter. */
  lemma ChangesPass(decode: Decoder, a: Function, b: Function)
    requires Decodes(decode) && a.rv != b.rv
    requires a.deleting || b.deleting || a.scaling != b.scaling || a.gen != b.gen
    ensures EventFilter.Changed(decode(a), decode(b))
  {
    var was, next := decode(a), decode(b);
    if a.deleting || b.deleting {
      EventFilter.DeletionIsSeen(was, next);
    } else {
      EventFilter.UpdateIsSeenIff(was, next);
      if EventFilter.SameScalers(was.scaler, next.scaler) {
        KindsAgree(was.scaler, next.scaler);
      }
    }
  }

  // ---- the handlers ----

  /** AddFunc and DeleteFunc always enqueue, UpdateFunc what functionObjChanged lets through. */
  predicate Enqueues(decode: Decoder, m: Functions, n: Functions, key: Key) {
    || (key in m <==> key !in n)
    || (key in m && key in n && m[key] != n[key] && EventFilter.Changed(decode(m[key]), decode(n[key])))
  }

  predicate Handled(decode: Decoder, s: State, a: Action, key: Key)
    requires s.WellFormed() && Enabled(s, a)
  {
    a.Sync? && Enqueues(decode, s.history[s.seen], s.history[s.seen + 1], key) ==> a.event == Some(key)
  }

  /** Two versions of an object next to each other have different resource versions. */
  ghost predicate Stamped(h: seq<Functions>) {
    forall i: nat, k {:trigger StampedAt(h, i, k)} :: i + 1 < |h| ==> StampedAt(h, i, k)
  }

  predicate StampedAt(h: seq<Functions>, i: nat, k: Key)
    requires i + 1 < |h|
  {
    k in h[i] && k in h[i + 1] && h[i][k] != h[i + 1][k] ==> h[i][k].rv != h[i + 1][k].rv
  }

  lemma HandledIsFaithful(decode: Decoder, s: State, a: Action, key: Key)
    requires s.WellFormed() && Enabled(s, a) && Decodes(decode) && Stamped(s.history) && Handled(decode, s, a, key)
    ensures Faithful(s, a, key)
  {
    if a.Sync? && MustEnqueue(s.history[s.seen], s.history[s.seen + 1], key) {
      var m, n := s.history[s.seen], s.history[s.seen + 1];
      assert StampedAt(s.history, s.seen, key);
      if key in m && key in n {
        ChangesPass(decode, m[key], n[key]);
      }
    }
  }

  // ---- versions over a run ----

  lemma StepExtends(monitors: bool, s: State, a: Action)
    requires Inv(monitors, s) && Enabled(s, a)
    ensures var t := Step(monitors, s, a);
            t.history == s.history || exists key :: Extends(s.history, s.nextRv, key, t.history)
  {
    var t := Step(monitors, s, a);
    if a.UserCreate? || a.UserUpdate? || a.UserDelete? {
      assert Extends(s.history, s.nextRv, a.key, t.history);
    } else if a.Work? {
      WorkExtends(monitors, s, a.reply, a.tag);
    }
  }

  lemma WorkExtends(monitors: bool, s: State, reply: Reply, tag: string)
    requires Inv(monitors, s) && s.pc != Idle && !s.pc.Crashed?
    ensures var t := WorkStep(monitors, s, reply, tag);
            t.history == s.history || Extends(s.history, s.nextRv, s.pc.key, t.history)
  {
    match s.pc
    case Ensure(_, _, _) => EnsureKeepsKey(monitors, s, reply, tag);
    case AddFinalizer(key, obj) => PublishExtends(s, key, obj.(finalizers := obj.finalizers + [FUNCTION_FINALIZER]));
    case DropFinalizer(key, obj) =>
      PublishExtends(s, key, obj.(finalizers := WithoutFinalizer(obj.finalizers, FUNCTION_FINALIZER)));
    case _ =>
  }

  lemma StampedExtends(h: seq<Functions>, nextRv: nat, key: Key, h': seq<Functions>)
    requires Stamped(h) && Versions(h, nextRv) && Extends(h, nextRv, key, h')
    ensures Stamped(h')
  {
    var n := |h|;
    forall i: nat, k {:trigger StampedAt(h', i, k)} | i + 1 < |h'|
      ensures StampedAt(h', i, k)
    {
      assert h'[i] == h'[..n][i] == h[i];
      if i + 1 < n {
        assert h'[i + 1] == h'[..n][i + 1] == h[i + 1];
        assert StampedAt(h, i, k);
      } else {
        assert Unbroken(h, nextRv, i, k);
      }
    }
  }

  lemma {:induction false} RunStamped(monitors: bool, states: seq<State>, actions: seq<Action>, n: nat)
    requires Run(monitors, states, actions) && Init(states[0]) && n < |states|
    ensures Stamped(states[n].history)
  {
    if n > 0 {
      RunStamped(monitors, states, actions, n - 1);
      RunKeeps(monitors, states, actions, n - 1);
      var s, a := states[n - 1], actions[n - 1];
      assert states[n - 1 + 1] == Step(monitors, s, a);
      StepExtends(monitors, s, a);
      if states[n].history != s.history {
        var key :| Extends(s.history, s.nextRv, key, states[n].history);
        StampedExtends(s.history, s.nextRv, key, states[n].history);
      }
    }
  }

  // ---- runs with the real handlers ----

  /** Like a good run, with the handlers themselves in place of what is asked of them. */
  ghost predicate HandledRun(q: Mode, decode: Decoder, states: seq<State>, actions: seq<Action>, key: Key) {
    && Run(q.monitors, states, actions) && Init(states[0]) && Decodes(decode)
    && states[0].history[0].Keys <= states[0].dirty
    && forall i :: 0 <= i < |actions| ==> HandledStep(q, decode, states[i], actions[i], key)
  }

  predicate HandledStep(q: Mode, decode: Decoder, s: State, a: Action, key: Key) {
    && s.WellFormed() && Enabled(s, a) && Handled(decode, s, a, key)
    && Undisturbed(q, a, key) && Answers(q, s, a, key) && !GivesUp(s, a, key)
  }

  /** The handlers enqueue all that is needed. */
  lemma HandledRunIsGood(q: Mode, decode: Decoder, states: seq<State>, actions: seq<Action>, key: Key)
    requires HandledRun(q, decode, states, actions, key)
    ensures GoodRun(q, states, actions, key)
  {
    forall i | 0 <= i < |actions|
      ensures GoodStep(q, states[i], actions[i], key)
    {
      assert HandledStep(q, decode, states[i], actions[i], key);
      RunStamped(q.monitors, states, actions, i);
      HandledIsFaithful(decode, states[i], actions[i], key);
    }
  }

  // ---- such versions exist ----

  function Unary(n: nat): (r: string)
    ensures |r| == n
  {
    seq(n, i => 'x')
  }

  function SampleScaler(kind: Autoscaling): (r: Desired.Autoscaler) {
    var q := Quantities.Quantity(0, "0");
    match kind
    case NoAutoscaler => Desired.Autoscaler("", "", [], "", None)
    case NoMetrics => Desired.Autoscaler("f", "f", [], "", None)
    case ResourceMetric => Desired.Autoscaler("f", "f", [Desired.OtherMetric("cpu", None)], "", None)
    case ObjectMetric => Desired.Autoscaler("f", "f", [Desired.ObjectMetric("qps", q)], "", None)
  }

  function Sample(a: Function): (r: Desired.FunctionObj) {
    var pod := PodSpecs.PodSpec([], [], [], [], None, None);
    Desired.FunctionObj("f", "u", Unary(a.rv), if a.deleting then Some(a.rv) else None, map[], map[],
                        Provision.Code(Unary(a.gen), "", "", "", "", ""), "",
                        Desired.UserDeployment(map[], map[], map[], map[], None, pod),
                        Desired.ServiceSpec([], map[], ""), SampleScaler(a.scaling))
  }

  lemma DecodersExist()
    ensures Decodes(Sample)
  {
    forall a: Function, b: Function
      ensures Sample(a).rv == Sample(b).rv ==> a.rv == b.rv
      ensures a.gen != b.gen ==> Sample(a).code.source != Sample(b).code.source
    {
      assert |Sample(a).rv| == a.rv && |Sample(b).rv| == b.rv;
      assert |Sample(a).code.source| == a.gen && |Sample(b).code.source| == b.gen;
    }
  }
}

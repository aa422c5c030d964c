/** The timeout handler of pkg/function-proxy/utils/proxy-utils.go under every interleaving of any number of
    requests. Each request has the serving goroutine, which waits in the select, and a worker goroutine, which
    calls the user function and sends its result on a channel with one slot. */
module TimeoutHandler {
  import opened Common

  datatype Outcome = Success(body: string) | Failure(err: string)

  datatype Response = Status200(body: string) | Status500(err: string) | Status408

  datatype Worker =
    | Spawned                  // the goroutine has not run yet
    | Running                  // call counted, user function running
    | Returned(out: Outcome)   // user function returned
    | Sending(out: Outcome)    // duration observed, about to send
    | Finished(out: Outcome)

  datatype Server =
    | Waiting                  // in the select
    | Received(out: Outcome)
    | GaveUp                   // the context was done
    | Ready(resp: Response)    // failure counted where there is one
    | Answered(resp: Response)

  datatype Request = Request(verb: string, worker: Worker, slot: Option<Outcome>, expired: bool,
                             server: Server, sent: seq<Response>)

  /** The three Prometheus vectors count per method. */
  datatype State = State(requests: seq<Request>, calls: multiset<string>, durations: multiset<string>,
                         failures: multiset<string>)

  datatype Action =
    | Arrive(m: string)
    | Start(i: nat)
    | Return(i: nat, out: Outcome)
    | Observe(i: nat)
    | Send(i: nat)
    | Expire(i: nat)
    | Receive(i: nat)
    | GiveUp(i: nat)
    | Count(i: nat)
    | Respond(i: nat)

  predicate Enabled(s: State, a: Action) {
    a.Arrive? ||
    (a.i < |s.requests| &&
     var r := s.requests[a.i];
     match a
     case Arrive(_) => true
     case Start(_) => r.worker.Spawned?
     case Return(_, _) => r.worker.Running?
     case Observe(_) => r.worker.Returned?
     case Send(_) => r.worker.Sending? && r.slot.None?
     case Expire(_) => !r.expired
     case Receive(_) => r.server.Waiting? && r.slot.Some?
     case GiveUp(_) => r.server.Waiting? && r.expired
     case Count(_) => r.server.Received? || r.server.GaveUp?
     case Respond(_) => r.server.Ready?)
  }

  predicate Bad(resp: Response) { !resp.Status200? }

  /** The answer the select leads to. */
  function AnswerOf(server: Server): (resp: Response)
    requires server.Received? || server.GaveUp?
  {
    match server
    case GaveUp => Status408
    case Received(Success(body)) => Status200(body)
    case Received(Failure(err)) => Status500(err)
  }

  function Advance(r: Request, a: Action): (q: Request)
    requires !a.Arrive?
  {
    match a
    case Start(_) => r.(worker := Running)
    case Return(_, out) => r.(worker := Returned(out))
    case Observe(_) => if r.worker.Returned? then r.(worker := Sending(r.worker.out)) else r
    case Send(_) => if r.worker.Sending? then r.(worker := Finished(r.worker.out), slot := Some(r.worker.out)) else r
    case Expire(_) => r.(expired := true)
    case Receive(_) => if r.slot.Some? then r.(server := Received(r.slot.value), slot := None) else r
    case GiveUp(_) => r.(server := GaveUp)
    case Count(_) => if r.server.Received? || r.server.GaveUp? then r.(server := Ready(AnswerOf(r.server))) else r
    case Respond(_) => if r.server.Ready? then r.(server := Answered(r.server.resp), sent := r.sent + [r.server.resp]) else r
    case Arrive(_) => r
  }

  function Step(s: State, a: Action): (t: State)
    requires Enabled(s, a)
  {
    if a.Arrive? then s.(requests := s.requests + [Request(a.m, Spawned, None, false, Waiting, [])])
    else
      var r := s.requests[a.i];
      var q := Advance(r, a);
      var one := multiset{r.verb};
      s.(requests := s.requests[a.i := q],
         calls := if a.Start? then s.calls + one else s.calls,
         durations := if a.Observe? then s.durations + one else s.durations,
         failures := if a.Count? && Bad(AnswerOf(r.server)) then s.failures + one else s.failures)
  }

  const INIT := State([], multiset{}, multiset{}, multiset{})

  ghost predicate Run(states: seq<State>, actions: seq<Action>) {
    && |states| == |actions| + 1 && states[0] == INIT
    && (forall i :: 0 <= i < |actions| ==> Enabled(states[i], actions[i]) && states[i + 1] == Step(states[i], actions[i]))
  }

  // ---- counting requests per method ----

  function Bit(b: bool): (n: nat) { if b then 1 else 0 }

  /** How many requests of method m satisfy p. */
  function Tally(rs: seq<Request>, p: Request -> bool, m: string): (n: nat) {
    if rs == [] then 0
    else Tally(rs[..|rs| - 1], p, m) + Bit(p(rs[|rs| - 1]) && rs[|rs| - 1].verb == m)
  }

  lemma TallyAppend(rs: seq<Request>, r: Request, p: Request -> bool, m: string)
    ensures Tally(rs + [r], p, m) == Tally(rs, p, m) + Bit(p(r) && r.verb == m)
  {
    assert (rs + [r])[..|rs|] == rs;
  }

  lemma {:induction false} TallyUpdate(rs: seq<Request>, i: nat, q: Request, p: Request -> bool, m: string)
    requires i < |rs| && q.verb == rs[i].verb
    ensures Tally(rs[i := q], p, m) == Tally(rs, p, m) + (if q.verb == m then Bit(p(q)) - Bit(p(rs[i])) else 0)
  {
    var n := |rs| - 1;
    if i == n {
      assert rs[i := q][..n] == rs[..n];
    } else {
      assert rs[i := q][..n] == rs[..n][i := q];
      TallyUpdate(rs[..n], i, q, p, m);
    }
  }

  lemma {:induction false} TallyMonotone(rs: seq<Request>, p: Request -> bool, q: Request -> bool, m: string)
    requires forall i :: 0 <= i < |rs| && p(rs[i]) ==> q(rs[i])
    ensures Tally(rs, p, m) <= Tally(rs, q, m)
  {
    if rs != [] {
      TallyMonotone(rs[..|rs| - 1], p, q, m);
    }
  }

  // ---- invariant ----

  predicate Called(r: Request) { !r.worker.Spawned? }

  predicate Observed(r: Request) { r.worker.Sending? || r.worker.Finished? }

  predicate Counted(r: Request) { (r.server.Ready? || r.server.Answered?) && Bad(r.server.resp) }

  /** An answer with content comes from this request's own worker; a timeout from its own deadline. */
  predicate Honest(r: Request, resp: Response) {
    match resp
    case Status200(body) => r.worker == Finished(Success(body))
    case Status500(err) => r.worker == Finished(Failure(err))
    case Status408 => r.expired
  }

  predicate RequestOk(r: Request) {
    && (r.slot.Some? ==> r.worker == Finished(r.slot.value))
    && (!r.worker.Finished? ==> r.slot.None?)
    && (r.server.Received? ==> r.worker == Finished(r.server.out))
    && (r.server.GaveUp? ==> r.expired)
    && (r.server.Waiting? && r.worker.Finished? ==> r.slot.Some?)
    && (r.server.Ready? ==> Honest(r, r.server.resp))
    && r.sent == (if r.server.Answered? then [r.server.resp] else [])
    && (r.server.Answered? ==> Honest(r, r.server.resp))
  }

  ghost predicate Inv(s: State) {
    && (forall i :: 0 <= i < |s.requests| ==> RequestOk(s.requests[i]))
    && (forall m :: CountsOf(s, m))
  }

  /** The three counters of a method. */
  ghost predicate CountsOf(t: State, m: string) {
    && t.calls[m] == Tally(t.requests, Called, m)
    && t.durations[m] == Tally(t.requests, Observed, m)
    && t.failures[m] == Tally(t.requests, Counted, m)
  }

  lemma AdvanceKeeps(s: State, a: Action)
    requires !a.Arrive? && Enabled(s, a) && RequestOk(s.requests[a.i])
    ensures var r, q := s.requests[a.i], Advance(s.requests[a.i], a);
            && RequestOk(q) && q.verb == r.verb
            && (Called(q) <==> Called(r) || a.Start?) && (a.Start? ==> !Called(r))
            && (Observed(q) <==> Observed(r) || a.Observe?) && (a.Observe? ==> !Observed(r))
            && (Counted(q) <==> Counted(r) || (a.Count? && Bad(AnswerOf(r.server)))) && (a.Count? ==> !Counted(r))
  {
  }

  lemma ArriveCounts(s: State, a: Action, m: string)
    requires CountsOf(s, m) && Enabled(s, a) && a.Arrive?
    ensures CountsOf(Step(s, a), m)
  {
    var r := Request(a.m, Spawned, None, false, Waiting, []);
    TallyAppend(s.requests, r, Called, m);
    TallyAppend(s.requests, r, Observed, m);
    TallyAppend(s.requests, r, Counted, m);
  }

  lemma AdvanceCounts(s: State, a: Action, m: string)
    requires CountsOf(s, m) && Enabled(s, a) && !a.Arrive? && RequestOk(s.requests[a.i])
    ensures CountsOf(Step(s, a), m)
  {
    AdvanceCalls(s, a, m);
    AdvanceKeeps(s, a);
    TallyUpdate(s.requests, a.i, Advance(s.requests[a.i], a), Observed, m);
    AdvanceFailures(s, a, m);
  }

  lemma AdvanceCalls(s: State, a: Action, m: string)
    requires CountsOf(s, m) && Enabled(s, a) && !a.Arrive? && RequestOk(s.requests[a.i])
    ensures Step(s, a).calls[m] == Tally(Step(s, a).requests, Called, m)
  {
    AdvanceKeeps(s, a);
    TallyUpdate(s.requests, a.i, Advance(s.requests[a.i], a), Called, m);
  }

  lemma AdvanceFailures(s: State, a: Action, m: string)
    requires CountsOf(s, m) && Enabled(s, a) && !a.Arrive? && RequestOk(s.requests[a.i])
    ensures Step(s, a).failures[m] == Tally(Step(s, a).requests, Counted, m)
  {
    AdvanceKeeps(s, a);
    TallyUpdate(s.requests, a.i, Advance(s.requests[a.i], a), Counted, m);
  }

  lemma StepKeeps(s: State, a: Action)
    requires Inv(s) && Enabled(s, a)
    ensures Inv(Step(s, a))
  {
    forall m
      ensures CountsOf(Step(s, a), m)
    {
      assert CountsOf(s, m);
      if a.Arrive? {
        ArriveCounts(s, a, m);
      } else {
        AdvanceCounts(s, a, m);
      }
    }
    if !a.Arrive? {
      AdvanceKeeps(s, a);
    }
  }

  lemma {:induction false} RunKeeps(states: seq<State>, actions: seq<Action>, n: nat)
    requires Run(states, actions) && n < |states|
    ensures Inv(states[n])
  {
    if n > 0 {
      RunKeeps(states, actions, n - 1);
      assert states[n - 1 + 1] == Step(states[n - 1], actions[n - 1]);
      StepKeeps(states[n - 1], actions[n - 1]);
    }
  }

  // ---- main results ----

  /** In every reachable state: no request has more than one response; the response is its own worker's result
      or its own timeout; a worker about to send finds the slot free, even after a timeout; and durations
      never outnumber calls, method by method. */
  lemma AlwaysSound(states: seq<State>, actions: seq<Action>, n: nat)
    requires Run(states, actions) && n < |states|
    ensures forall i :: 0 <= i < |states[n].requests| ==>
              var r := states[n].requests[i];
              && |r.sent| <= 1
              && (r.server.Answered? <==> |r.sent| == 1)
              && (|r.sent| == 1 ==> Honest(r, r.sent[0]))
              && (r.worker.Sending? ==> Enabled(states[n], Send(i)))
    ensures forall m :: states[n].durations[m] <= states[n].calls[m]
  {
    RunKeeps(states, actions, n);
    forall m
      ensures states[n].durations[m] <= states[n].calls[m]
    {
      assert CountsOf(states[n], m);
      TallyMonotone(states[n].requests, Observed, Called, m);
    }
  }

  predicate Over(r: Request) { r.worker.Finished? && r.server.Answered? }

  predicate AnsweredBadly(r: Request) { |r.sent| == 1 && Bad(r.sent[0]) }

  predicate Any(r: Request) { true }

  /** Once every goroutine has finished, calls and durations equal the requests and failures equal the 500 and
      408 answers, per method, and every request has exactly one response. */
  lemma FinalCounts(states: seq<State>, actions: seq<Action>, m: string)
    requires Run(states, actions)
    requires var s := states[|actions|];
             forall i :: 0 <= i < |s.requests| ==> Over(s.requests[i])
    ensures var s := states[|actions|];
            && s.calls[m] == s.durations[m] == Tally(s.requests, Any, m)
            && s.failures[m] == Tally(s.requests, AnsweredBadly, m)
            && forall i :: 0 <= i < |s.requests| ==> |s.requests[i].sent| == 1
  {
    var rs := states[|actions|].requests;
    RunKeeps(states, actions, |actions|);
    assert CountsOf(states[|actions|], m);
    TallyMonotone(rs, Called, Any, m);
    TallyMonotone(rs, Any, Called, m);
    TallyMonotone(rs, Any, Observed, m);
    TallyMonotone(rs, Observed, Any, m);
    TallyMonotone(rs, Counted, AnsweredBadly, m);
    TallyMonotone(rs, AnsweredBadly, Counted, m);
  }

  // ---- every run ends ----

  /** Steps a request may still take. */
  function Left(r: Request): (n: nat) {
    (match r.worker case Spawned => 4 case Running => 3 case Returned(_) => 2 case Sending(_) => 1 case Finished(_) => 0) +
    (match r.server case Waiting => 3 case Received(_) => 2 case GaveUp => 2 case Ready(_) => 1 case Answered(_) => 0) +
    (if r.expired then 0 else 1)
  }

  function LeftAll(rs: seq<Request>): (n: nat) {
    if rs == [] then 0 else LeftAll(rs[..|rs| - 1]) + Left(rs[|rs| - 1])
  }

  lemma {:induction false} LeftUpdate(rs: seq<Request>, i: nat, q: Request)
    requires i < |rs|
    ensures LeftAll(rs[i := q]) == LeftAll(rs) - Left(rs[i]) + Left(q)
  {
    var n := |rs| - 1;
    if i == n {
      assert rs[i := q][..n] == rs[..n];
    } else {
      assert rs[i := q][..n] == rs[..n][i := q];
      LeftUpdate(rs[..n], i, q);
    }
  }

  lemma StepLeft(s: State, a: Action)
    requires Enabled(s, a)
    ensures var t := Step(s, a);
            LeftAll(t.requests) - 9 * |t.requests| == LeftAll(s.requests) - 9 * |s.requests| - 1
  {
    if a.Arrive? {
      assert Step(s, a).requests[..|s.requests|] == s.requests;
    } else {
      LeftUpdate(s.requests, a.i, Advance(s.requests[a.i], a));
    }
  }

  /** Each request takes nine actions in all, arrival included, so a run cannot be longer than that. */
  lemma {:induction false} RunsEnd(states: seq<State>, actions: seq<Action>, n: nat)
    requires Run(states, actions) && n < |states|
    ensures n + LeftAll(states[n].requests) == 9 * |states[n].requests|
  {
    if n > 0 {
      RunsEnd(states, actions, n - 1);
      assert states[n - 1 + 1] == Step(states[n - 1], actions[n - 1]);
      StepLeft(states[n - 1], actions[n - 1]);
    }
  }

  /** Nothing ever blocks for good: a request that is not over can take a step. */
  lemma NeverStuck(states: seq<State>, actions: seq<Action>, n: nat, i: nat)
    requires Run(states, actions) && n < |states| && i < |states[n].requests| && !Over(states[n].requests[i])
    ensures exists a :: Enabled(states[n], a) && !a.Arrive? && a.i == i
  {
    RunKeeps(states, actions, n);
    var s := states[n];
    var r := s.requests[i];
    assert Enabled(s, Start(i)) || Enabled(s, Return(i, Success(""))) || Enabled(s, Observe(i)) || Enabled(s, Send(i))
           || Enabled(s, Expire(i)) || Enabled(s, Receive(i)) || Enabled(s, GiveUp(i)) || Enabled(s, Count(i))
           || Enabled(s, Respond(i));
  }
}

/** The exec channel multiplexer of pkg/utils/exec.go: a goroutine that frames standard input, a goroutine that
    demultiplexes what the server sends, a shared error channel with three slots, and the caller that waits for
    both. The reader, the connection and the writers answer as they like. */
module ExecChannel {
  import opened Common

  type byte = x: int | 0 <= x < 256

  type Bytes = seq<byte>

  const STDIN: byte := 0
  const STDOUT: byte := 1
  const STDERR: byte := 2
  const ERRORS: byte := 3

  const CHANNEL_SLOTS := 3

  datatype Err = Nil | EOF | Broken(code: int) | Remote(text: Bytes)

  // ---- framing with the reused buffer ----

  datatype ReadResult = ReadResult(data: Bytes, err: Err)

  function Frame(data: Bytes): (r: Bytes) { [STDIN] + data }

  /** The error that decides how the stdin loop goes on. */
  function Decisive(read: Err, send: Err): (r: Err) { if read == Nil then send else read }

  /** How many rounds the loop makes on the given answers. */
  function Rounds(inputs: seq<ReadResult>, sends: seq<Err>): (n: nat)
    requires |inputs| == |sends|
    ensures n <= |inputs|
  {
    if inputs == [] then 0
    else if Decisive(inputs[0].err, sends[0]) != Nil then 1
    else 1 + Rounds(inputs[1..], sends[1..])
  }

  function Payloads(frames: seq<Bytes>): (r: Bytes) {
    if frames == [] then []
    else Payloads(frames[..|frames| - 1]) +
         (if frames[|frames| - 1] == [] then [] else frames[|frames| - 1][1..])
  }

  lemma PayloadsAppend(frames: seq<Bytes>, data: Bytes)
    ensures Payloads(frames + [Frame(data)]) == Payloads(frames) + data
  {
    assert (frames + [Frame(data)])[..|frames|] == frames;
  }

  /** The bytes the first n reads delivered. */
  function BytesRead(inputs: seq<ReadResult>, n: nat): (r: Bytes)
    requires n <= |inputs|
  {
    if n == 0 then [] else BytesRead(inputs, n - 1) + inputs[n - 1].data
  }

  /** Frames cut from reads carry exactly the bytes read. */
  lemma {:induction false} FramesCarry(inputs: seq<ReadResult>, frames: seq<Bytes>)
    requires |frames| <= |inputs| && forall i :: 0 <= i < |frames| ==> frames[i] == Frame(inputs[i].data)
    ensures Payloads(frames) == BytesRead(inputs, |frames|)
  {
    if frames != [] {
      var n := |frames| - 1;
      FramesCarry(inputs, frames[..n]);
      assert frames == frames[..n] + [Frame(inputs[n].data)];
      PayloadsAppend(frames[..n], inputs[n].data);
    }
  }

  lemma {:induction false} RoundsStep(inputs: seq<ReadResult>, sends: seq<Err>, i: nat)
    requires |inputs| == |sends| && i < |inputs|
    requires forall k :: 0 <= k < i ==> Decisive(inputs[k].err, sends[k]) == Nil
    ensures Rounds(inputs, sends) > i
    ensures Decisive(inputs[i].err, sends[i]) != Nil || i + 1 == |inputs| ==> Rounds(inputs, sends) == i + 1
  {
    if i > 0 {
      assert Decisive(inputs[0].err, sends[0]) == Nil;
      RoundsStep(inputs[1..], sends[1..], i - 1);
    }
  }

  /** Read(buf[1:]): the data lands after the fixed first byte. */
  method Fill(buf: array<byte>, data: Bytes)
    requires |data| < buf.Length
    modifies buf
    ensures buf[0] == old(buf[0]) && buf[..|data| + 1] == [buf[0]] + data
  {
    for j := 0 to |data|
      invariant buf[0] == old(buf[0])
      invariant forall k :: 0 <= k < j ==> buf[1 + k] == data[k]
    {
      buf[1 + j] := data[j];
    }
  }

  /** The loop over one 1025-byte buffer whose first byte is fixed: every frame sent is the channel byte and
      exactly what that round read, whatever earlier rounds left in the buffer. */
  method StdinLoop(inputs: seq<ReadResult>, sends: seq<Err>) returns (frames: seq<Bytes>)
    requires |inputs| == |sends|
    requires forall i :: 0 <= i < |inputs| ==> |inputs[i].data| <= 1024
    ensures |frames| == Rounds(inputs, sends)
    ensures forall i :: 0 <= i < |frames| ==> frames[i] == Frame(inputs[i].data)
    ensures Payloads(frames) == BytesRead(inputs, |frames|)
  {
    var buf := new byte[1025];
    buf[0] := STDIN;
    frames := [];
    var i := 0;
    while i < |inputs|
      invariant 0 <= i <= |inputs| && |frames| == i
      invariant buf[0] == STDIN
      invariant forall k :: 0 <= k < i ==> frames[k] == Frame(inputs[k].data)
      invariant forall k :: 0 <= k < i ==> Decisive(inputs[k].err, sends[k]) == Nil
      invariant i > 0 && i == |inputs| ==> Rounds(inputs, sends) == i
    {
      var n := |inputs[i].data|;
      Fill(buf, inputs[i].data);
      RoundsStep(inputs, sends, i);
      frames := frames + [buf[..n + 1]];
      var err := inputs[i].err;
      if err == Nil && sends[i] != Nil {
        err := sends[i];
      }
      i := i + 1;
      if err != Nil {
        break;
      }
    }
    FramesCarry(inputs, frames);
  }

  // ---- the two goroutines and the caller, interleaved ----

  datatype Stdin =
    | Reading
    | Sending(data: Bytes, err: Err)
    | StdinReporting(err: Err)
    | Closing
    | StdinDone

  datatype Receiver =
    | Receiving
    | Writing(channel: byte, payload: Bytes)
    | ReceiverReporting(err: Err)
    | ReceiverDone

  datatype Cut = Cut(channel: byte, rest: Bytes)

  datatype Caller = Waiting | Returned(err: Option<Err>)

  /** taken: the bytes read from standard input; received: the messages received; cut: the channel and the
      unwritten rest of a write that failed. */
  datatype State = State(stdin: Stdin, receiver: Receiver, caller: Caller,
                         taken: Bytes, frames: seq<Bytes>, closed: bool,
                         received: seq<Bytes>, out: Bytes, err: Bytes, cut: Option<Cut>,
                         errors: seq<Err>, hasStdin: bool, hasOut: bool, hasErr: bool)

  datatype Action =
    | Read(data: Bytes, err: Err)
    | Send(err: Err)
    | ReportStdin
    | Close
    | Receive(buf: Bytes, err: Err)
    | Write(written: nat, err: Err)
    | ReportReceiver
    | Return

  predicate Init(s: State) {
    && s.stdin == (if s.hasStdin then Reading else StdinDone)
    && s.receiver == Receiving && s.caller == Waiting
    && s.taken == [] && s.frames == [] && !s.closed && s.received == [] && s.out == [] && s.err == []
    && s.cut == None && s.errors == []
  }

  /** A writer that writes less than it was given reports an error; the wait group is the two goroutines. */
  predicate Enabled(s: State, a: Action) {
    match a
    case Read(data, _) => s.stdin.Reading? && |data| <= 1024
    case Send(_) => s.stdin.Sending?
    case ReportStdin => s.stdin.StdinReporting? && |s.errors| < CHANNEL_SLOTS
    case Close => s.stdin.Closing?
    case Receive(_, _) => s.receiver.Receiving?
    case Write(written, err) =>
      s.receiver.Writing? && written <= |s.receiver.payload| && (err == Nil ==> written == |s.receiver.payload|)
    case ReportReceiver => s.receiver.ReceiverReporting? && |s.errors| < CHANNEL_SLOTS
    case Return => s.caller.Waiting? && s.stdin.StdinDone? && s.receiver.ReceiverDone?
  }

  function AfterSend(err: Err): (r: Stdin)
    ensures !r.Sending? && (r.StdinReporting? ==> r.err != Nil)
  {
    match err case Nil => Reading case EOF => Closing case _ => StdinReporting(err)
  }

  function AfterReceive(s: State, buf: Bytes, err: Err): (r: Receiver) {
    if err == EOF then ReceiverDone
    else if err != Nil then ReceiverReporting(err)
    else if buf == [] then Receiving
    else if buf[0] == STDOUT && s.hasOut then Writing(STDOUT, buf[1..])
    else if buf[0] == STDERR && s.hasErr then Writing(STDERR, buf[1..])
    else if buf[0] == ERRORS then ReceiverReporting(Remote(buf[1..]))
    else Receiving
  }

  function Step(s: State, a: Action): (t: State)
    requires Enabled(s, a)
  {
    match a
    case Read(data, err) => s.(stdin := Sending(data, err), taken := s.taken + data)
    case Send(err) =>
      s.(stdin := AfterSend(Decisive(s.stdin.err, err)), frames := s.frames + [Frame(s.stdin.data)])
    case ReportStdin => s.(stdin := StdinDone, errors := s.errors + [s.stdin.err])
    case Close => s.(stdin := StdinDone, closed := true)
    case Receive(buf, err) =>
      s.(receiver := AfterReceive(s, buf, err), received := if err == Nil then s.received + [buf] else s.received)
    case Write(written, err) =>
      s.(receiver := if err == Nil then Receiving else ReceiverReporting(err),
         out := if s.receiver.channel == STDOUT then s.out + s.receiver.payload[..written] else s.out,
         err := if s.receiver.channel == STDERR then s.err + s.receiver.payload[..written] else s.err,
         cut := if err == Nil then None else Some(Cut(s.receiver.channel, s.receiver.payload[written..])))
    case ReportReceiver => s.(receiver := ReceiverDone, errors := s.errors + [s.receiver.err])
    case Return => s.(caller := Returned(if s.errors == [] then None else Some(s.errors[0])))
  }

  ghost predicate Run(states: seq<State>, actions: seq<Action>) {
    && |states| == |actions| + 1 && Init(states[0])
    && (forall i :: 0 <= i < |actions| ==> Enabled(states[i], actions[i]) && states[i + 1] == Step(states[i], actions[i]))
  }

  /** The payloads of the messages on one channel, in order. */
  function OnChannel(msgs: seq<Bytes>, channel: byte): (r: Bytes) {
    if msgs == [] then []
    else
      var m := msgs[|msgs| - 1];
      OnChannel(msgs[..|msgs| - 1], channel) + (if m != [] && m[0] == channel then m[1..] else [])
  }

  lemma OnChannelAppend(msgs: seq<Bytes>, m: Bytes, channel: byte)
    ensures OnChannel(msgs + [m], channel) == OnChannel(msgs, channel) + (if m != [] && m[0] == channel then m[1..] else [])
  {
    assert (msgs + [m])[..|msgs|] == msgs;
  }

  /** The bytes of the last message that its failed write left out. */
  function Missing(cut: Option<Cut>, channel: byte): (r: Bytes) {
    if cut.Some? && cut.value.channel == channel then cut.value.rest else []
  }

  /** What is due on a channel is what was written, what is being written, and what a failed write left out. */
  predicate StreamOk(r: Receiver, received: seq<Bytes>, cut: Option<Cut>, channel: byte, has: bool, written: Bytes) {
    if !has then written == []
    else if r.Writing? && r.channel == channel then written + r.payload == OnChannel(received, channel)
    else written + Missing(cut, channel) == OnChannel(received, channel)
  }

  /** The rest is the end of the last message, which was on that channel. */
  predicate CutOk(received: seq<Bytes>, c: Cut) {
    received != [] &&
    var last := received[|received| - 1];
    0 < |last| && last[0] == c.channel && |c.rest| < |last| && c.rest == last[|last| - |c.rest|..]
  }

  predicate StdinOk(stdin: Stdin, frames: seq<Bytes>, taken: Bytes) {
    && (if stdin.Sending? then Payloads(frames) + stdin.data == taken else Payloads(frames) == taken)
    && (forall i :: 0 <= i < |frames| ==> 0 < |frames[i]| <= 1025 && frames[i][0] == STDIN)
    && (stdin.Sending? ==> |stdin.data| <= 1024)
    && (stdin.StdinReporting? ==> stdin.err != Nil)
  }

  predicate ReceiverOk(r: Receiver, received: seq<Bytes>, cut: Option<Cut>, hasOut: bool, hasErr: bool) {
    && (cut.Some? ==> CutOk(received, cut.value) && (r.ReceiverReporting? || r.ReceiverDone?))
    && (r.Writing? ==> (r.channel == STDOUT && hasOut) || (r.channel == STDERR && hasErr))
    && (r.Writing? ==> received != [] && received[|received| - 1] == [r.channel] + r.payload)
    && (r.ReceiverReporting? ==> r.err != Nil)
  }

  predicate ErrorsOk(s: State) {
    && (forall i :: 0 <= i < |s.errors| ==> s.errors[i] != Nil)
    && |s.errors| <= (if s.stdin.StdinDone? then 1 else 0) + (if s.receiver.ReceiverDone? then 1 else 0)
    && (s.caller.Returned? ==>
          && s.stdin.StdinDone? && s.receiver.ReceiverDone?
          && s.caller.err == (if s.errors == [] then None else Some(s.errors[0])))
  }

  predicate Inv(s: State) {
    && StdinOk(s.stdin, s.frames, s.taken)
    && ReceiverOk(s.receiver, s.received, s.cut, s.hasOut, s.hasErr)
    && StreamOk(s.receiver, s.received, s.cut, STDOUT, s.hasOut, s.out)
    && StreamOk(s.receiver, s.received, s.cut, STDERR, s.hasErr, s.err)
    && ErrorsOk(s)
  }

  lemma ReceiveStream(s: State, buf: Bytes, err: Err, channel: byte, has: bool, written: Bytes)
    requires s.receiver.Receiving? && s.cut == None && StreamOk(s.receiver, s.received, s.cut, channel, has, written)
    requires (channel == STDOUT && has == s.hasOut) || (channel == STDERR && has == s.hasErr)
    ensures var t := Step(s, Receive(buf, err)); StreamOk(t.receiver, t.received, t.cut, channel, has, written)
  {
    OnChannelAppend(s.received, buf, channel);
    assert written + [] == written;
  }

  lemma ReceiveKeeps(s: State, buf: Bytes, err: Err)
    requires Inv(s) && Enabled(s, Receive(buf, err))
    ensures Inv(Step(s, Receive(buf, err)))
  {
    ReceiveStream(s, buf, err, STDOUT, s.hasOut, s.out);
    ReceiveStream(s, buf, err, STDERR, s.hasErr, s.err);
    ReceiveReceiver(s, buf, err);
  }

  lemma ReceiveReceiver(s: State, buf: Bytes, err: Err)
    requires Inv(s) && Enabled(s, Receive(buf, err))
    ensures var t := Step(s, Receive(buf, err)); ReceiverOk(t.receiver, t.received, t.cut, t.hasOut, t.hasErr)
  {
    if buf != [] {
      assert buf == [buf[0]] + buf[1..];
    }
  }

  lemma WriteKeeps(s: State, written: nat, err: Err)
    requires Inv(s) && Enabled(s, Write(written, err))
    ensures Inv(Step(s, Write(written, err)))
  {
    WriteStream(s, written, err);
    WriteReceiver(s, written, err);
  }

  lemma WriteStream(s: State, written: nat, err: Err)
    requires Inv(s) && Enabled(s, Write(written, err))
    ensures var t := Step(s, Write(written, err));
            && StreamOk(t.receiver, t.received, t.cut, STDOUT, t.hasOut, t.out)
            && StreamOk(t.receiver, t.received, t.cut, STDERR, t.hasErr, t.err)
  {
    var p := s.receiver.payload;
    assert p == p[..written] + p[written..];
    if s.receiver.channel == STDOUT {
      assert s.out + p == s.out + p[..written] + p[written..];
    } else {
      assert s.err + p == s.err + p[..written] + p[written..];
    }
  }

  lemma WriteReceiver(s: State, written: nat, err: Err)
    requires Inv(s) && Enabled(s, Write(written, err))
    ensures var t := Step(s, Write(written, err)); ReceiverOk(t.receiver, t.received, t.cut, t.hasOut, t.hasErr)
  {
    var p, last := s.receiver.payload, s.received[|s.received| - 1];
    assert last[1 + written..] == p[written..];
  }

  lemma SendKeeps(s: State, err: Err)
    requires Inv(s) && Enabled(s, Send(err))
    ensures Inv(Step(s, Send(err)))
  {
    SendStdin(s.stdin, s.frames, s.taken, err);
  }

  lemma SendStdin(stdin: Stdin, frames: seq<Bytes>, taken: Bytes, err: Err)
    requires StdinOk(stdin, frames, taken) && stdin.Sending?
    ensures StdinOk(AfterSend(Decisive(stdin.err, err)), frames + [Frame(stdin.data)], taken)
  {
    PayloadsAppend(frames, stdin.data);
    FramesGrow(frames, stdin.data);
  }

  lemma FramesGrow(frames: seq<Bytes>, data: Bytes)
    requires |data| <= 1024 && forall i :: 0 <= i < |frames| ==> 0 < |frames[i]| <= 1025 && frames[i][0] == STDIN
    ensures var next := frames + [Frame(data)];
            forall i :: 0 <= i < |next| ==> 0 < |next[i]| <= 1025 && next[i][0] == STDIN
  {
  }

  lemma StepKeeps(s: State, a: Action)
    requires Inv(s) && Enabled(s, a)
    ensures Inv(Step(s, a))
  {
    match a
    case Read(data, err) => ReadKeeps(s, data, err);
    case Send(err) => SendKeeps(s, err);
    case Receive(buf, err) => ReceiveKeeps(s, buf, err);
    case Write(written, err) => WriteKeeps(s, written, err);
    case _ => EndKeeps(s, a);
  }

  lemma ReadKeeps(s: State, data: Bytes, err: Err)
    requires Inv(s) && Enabled(s, Read(data, err))
    ensures Inv(Step(s, Read(data, err)))
  {
  }

  lemma EndKeeps(s: State, a: Action)
    requires Inv(s) && Enabled(s, a) && (a.ReportStdin? || a.Close? || a.ReportReceiver? || a.Return?)
    ensures Inv(Step(s, a))
  {
  }

  lemma {:induction false} RunKeeps(states: seq<State>, actions: seq<Action>, n: nat)
    requires Run(states, actions) && n < |states|
    ensures Inv(states[n])
  {
    if n > 0 {
      RunKeeps(states, actions, n - 1);
      assert states[n - 1 + 1] == Step(states[n - 1], actions[n - 1]);
      StepKeeps(states[n - 1], actions[n - 1]);
    }
  }

  // ---- main results ----

  /** Standard input: between two rounds the payloads of the frames are exactly the bytes read, and every frame
      is on the stdin channel. */
  lemma StdinFramed(states: seq<State>, actions: seq<Action>, n: nat)
    requires Run(states, actions) && n < |states| && !states[n].stdin.Sending?
    ensures Payloads(states[n].frames) == states[n].taken
    ensures forall i :: 0 <= i < |states[n].frames| ==>
              0 < |states[n].frames[i]| <= 1025 && states[n].frames[i][0] == 0
  {
    RunKeeps(states, actions, n);
  }

  /** Standard output and error: each writer gets exactly the payloads of its own channel, up to the first stop.
      A failed write leaves out only an end of the last message received, on the channel of that message; the
      other writer has everything. */
  lemma StreamsDemultiplexed(states: seq<State>, actions: seq<Action>, n: nat)
    requires Run(states, actions) && n < |states| && !states[n].receiver.Writing?
    ensures var s := states[n];
            && (if s.hasOut then s.out + Missing(s.cut, 1) == OnChannel(s.received, 1) else s.out == [])
            && (if s.hasErr then s.err + Missing(s.cut, 2) == OnChannel(s.received, 2) else s.err == [])
            && (s.cut.Some? ==> CutOk(s.received, s.cut.value))
  {
    RunKeeps(states, actions, n);
  }

  /** Neither goroutine ever blocks on the error channel. */
  lemma ErrorsNeverBlock(states: seq<State>, actions: seq<Action>, n: nat)
    requires Run(states, actions) && n < |states|
    ensures states[n].stdin.StdinReporting? ==> Enabled(states[n], ReportStdin)
    ensures states[n].receiver.ReceiverReporting? ==> Enabled(states[n], ReportReceiver)
    ensures |states[n].errors| <= 2
  {
    RunKeeps(states, actions, n);
  }

  predicate Reports(a: Action) { a == ReportStdin || a == ReportReceiver }

  function FirstReport(states: seq<State>, actions: seq<Action>, n: nat): (r: Option<Err>)
    requires n <= |actions| < |states|
  {
    if n == 0 then None
    else
      var before := FirstReport(states, actions, n - 1);
      if before.Some? then before
      else if actions[n - 1] == ReportStdin && states[n - 1].stdin.StdinReporting? then Some(states[n - 1].stdin.err)
      else if actions[n - 1] == ReportReceiver && states[n - 1].receiver.ReceiverReporting? then
        Some(states[n - 1].receiver.err)
      else None
  }

  lemma {:induction false} FirstReportIsHead(states: seq<State>, actions: seq<Action>, n: nat)
    requires Run(states, actions) && n <= |actions|
    ensures FirstReport(states, actions, n) == (if states[n].errors == [] then None else Some(states[n].errors[0]))
  {
    if n > 0 {
      FirstReportIsHead(states, actions, n - 1);
      assert states[n - 1 + 1] == Step(states[n - 1], actions[n - 1]);
    }
  }

  /** The caller returns the first error reported, and nil exactly when none was. */
  lemma ResultIsFirstReport(states: seq<State>, actions: seq<Action>)
    requires Run(states, actions) && states[|actions|].caller.Returned?
    ensures states[|actions|].caller.err == FirstReport(states, actions, |actions|)
    ensures states[|actions|].caller.err == None <==>
            forall i :: 0 <= i < |actions| ==> !Reports(actions[i])
  {
    RunKeeps(states, actions, |actions|);
    FirstReportIsHead(states, actions, |actions|);
    NoneReported(states, actions, |actions|);
  }

  lemma {:induction false} NoneReported(states: seq<State>, actions: seq<Action>, n: nat)
    requires Run(states, actions) && n <= |actions|
    ensures FirstReport(states, actions, n) == None <==> forall i :: 0 <= i < n ==> !Reports(actions[i])
  {
    if n > 0 {
      NoneReported(states, actions, n - 1);
      assert Enabled(states[n - 1], actions[n - 1]);
    }
  }

  // ---- every error is reported ----

  /** The error an answer of reader, connection or writer calls for: anything but the end of the stream, and the
      message of channel 3. */
  function Due(s: State, a: Action): (r: Option<Err>)
    requires Enabled(s, a)
  {
    match a
    case Send(err) =>
      var e := Decisive(s.stdin.err, err);
      if e == Nil || e == EOF then None else Some(e)
    case Receive(buf, err) =>
      if err == EOF then None
      else if err != Nil then Some(err)
      else if buf != [] && buf[0] == 3 then Some(Remote(buf[1..]))
      else None
    case Write(_, err) => if err == Nil then None else Some(err)
    case _ => None
  }

  /** Reported, or about to be. */
  predicate Noted(s: State, e: Err) {
    e in s.errors || s.stdin == StdinReporting(e) || s.receiver == ReceiverReporting(e)
  }

  lemma NotedStep(s: State, a: Action, e: Err)
    requires Enabled(s, a)
    ensures Noted(Step(s, a), e) <==> Noted(s, e) || Due(s, a) == Some(e)
  {
    var t := Step(s, a);
    if a.ReportStdin? || a.ReportReceiver? {
      assert forall x :: x in t.errors <==> x in s.errors || x == t.errors[|s.errors|];
    }
  }

  /** The first n answers called for e. */
  ghost predicate CalledFor(states: seq<State>, actions: seq<Action>, n: nat, e: Err)
    requires Run(states, actions) && n <= |actions|
  {
    exists i :: 0 <= i < n && Due(states[i], actions[i]) == Some(e)
  }

  lemma {:induction false} NotedIff(states: seq<State>, actions: seq<Action>, n: nat, e: Err)
    requires Run(states, actions) && n <= |actions|
    ensures Noted(states[n], e) <==> CalledFor(states, actions, n, e)
  {
    if n > 0 {
      NotedIff(states, actions, n - 1, e);
      NotedStep(states[n - 1], actions[n - 1], e);
      assert states[n - 1 + 1] == Step(states[n - 1], actions[n - 1]);
      if CalledFor(states, actions, n - 1, e) {
        var i :| 0 <= i < n - 1 && Due(states[i], actions[i]) == Some(e);
      }
    }
  }

  /** When the caller returns, the errors reported are exactly those called for, and it returns nil exactly when none
      was: neither a failed read, send, receive or write, nor a message on channel 3. */
  lemma ErrorsAreThoseDue(states: seq<State>, actions: seq<Action>, e: Err)
    requires Run(states, actions) && states[|actions|].caller.Returned?
    ensures e in states[|actions|].errors <==> CalledFor(states, actions, |actions|, e)
    ensures states[|actions|].caller.err == Some(e) ==> CalledFor(states, actions, |actions|, e)
    ensures states[|actions|].caller.err == None <==> forall i :: 0 <= i < |actions| ==> Due(states[i], actions[i]) == None
  {
    var s := states[|actions|];
    RunKeeps(states, actions, |actions|);
    NotedIff(states, actions, |actions|, e);
    if s.errors != [] {
      NotedIff(states, actions, |actions|, s.errors[0]);
      var i :| 0 <= i < |actions| && Due(states[i], actions[i]) == Some(s.errors[0]);
    } else {
      forall i | 0 <= i < |actions|
        ensures Due(states[i], actions[i]) == None
      {
        if Due(states[i], actions[i]).Some? {
          NotedIff(states, actions, |actions|, Due(states[i], actions[i]).value);
        }
      }
    }
  }

  // ---- the end of standard input ----

  /** One of the first n sends ended the loop with an error. */
  ghost predicate StdinFailed(states: seq<State>, actions: seq<Action>, n: nat)
    requires Run(states, actions) && n <= |actions|
  {
    exists i :: 0 <= i < n && actions[i].Send? && Due(states[i], actions[i]).Some?
  }

  predicate StdinSoFar(s: State, failed: bool) {
    && (s.stdin.Reading? || s.stdin.Sending? || s.stdin.Closing? ==> !s.closed && !failed)
    && (s.stdin.StdinReporting? ==> !s.closed && failed)
    && (s.stdin.StdinDone? && s.hasStdin ==> (s.closed <==> !failed))
  }

  lemma {:induction false} StdinProgress(states: seq<State>, actions: seq<Action>, n: nat)
    requires Run(states, actions) && n <= |actions|
    ensures StdinSoFar(states[n], StdinFailed(states, actions, n)) && states[n].hasStdin == states[0].hasStdin
    ensures !states[0].hasStdin ==> states[n].stdin.StdinDone? && !states[n].closed && states[n].frames == []
  {
    if n > 0 {
      StdinProgress(states, actions, n - 1);
      assert states[n - 1 + 1] == Step(states[n - 1], actions[n - 1]);
      if StdinFailed(states, actions, n - 1) {
        var i :| 0 <= i < n - 1 && actions[i].Send? && Due(states[i], actions[i]).Some?;
        assert StdinFailed(states, actions, n);
      }
      if actions[n - 1].Send? && Due(states[n - 1], actions[n - 1]).Some? {
        assert StdinFailed(states, actions, n);
      }
    }
  }

  /** When the caller returns, the connection has been closed normally exactly when there was a standard input and it
      came to its end; without one nothing was sent. */
  lemma ClosedAtTheEnd(states: seq<State>, actions: seq<Action>)
    requires Run(states, actions) && states[|actions|].caller.Returned?
    ensures var s := states[|actions|];
            if s.hasStdin then s.closed <==> !StdinFailed(states, actions, |actions|) else !s.closed && s.frames == []
  {
    RunKeeps(states, actions, |actions|);
    StdinProgress(states, actions, |actions|);
  }
}

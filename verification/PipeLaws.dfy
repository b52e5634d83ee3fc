/** What the three layers of a pipe do together, over every run. */
module PipeLaws {
  import opened Core
  import opened Streams
  import opened Sending
  import opened Receiving
  import opened Pipes

  /** The frames of the messages, end to end. */
  function Frames(t: Transport, msgs: seq<Message>): (b: Bytes) {
    if msgs == [] then [] else Frame(t, msgs[0]) + Frames(t, msgs[1..])
  }

  lemma Regroup(a: Bytes, b: Bytes, c: Bytes)
    ensures a + (b + c) == a + b + c
  {
  }

  lemma {:induction false} FramesSnoc(t: Transport, msgs: seq<Message>, m: Message)
    ensures Frames(t, msgs + [m]) == Frames(t, msgs) + Frame(t, m)
  {
    var all := msgs + [m];
    if msgs == [] {
      assert all[0] == m && all[1..] == [];
    } else {
      FramesSnoc(t, msgs[1..], m);
      assert all[0] == msgs[0] && all[1..] == msgs[1..] + [m];
      Regroup(Frame(t, msgs[0]), Frames(t, msgs[1..]), Frame(t, m));
    }
  }

  // ---------------------------------------------------------------- reading the log

  function Front<T>(s: seq<T>): (r: seq<T>)
    requires s != []
    ensures |r| == |s| - 1
  {
    s[..|s| - 1]
  }

  function Last<T>(s: seq<T>): (r: T)
    requires s != []
  {
    s[|s| - 1]
  }

  /** The messages handed to the pipe. */
  function Calls(log: seq<Trace>): (r: seq<Message>) {
    if log == [] then []
    else if Last(log).SendCall? then Calls(Front(log)) + [Last(log).msg]
    else Calls(Front(log))
  }

  function Sents(log: seq<Trace>): (n: nat) {
    if log == [] then 0 else Sents(Front(log)) + if Last(log) == Raised(Sent) then 1 else 0
  }

  /** The messages handed up by the pipe. */
  function Delivered(log: seq<Trace>): (r: seq<Message>) {
    if log == [] then []
    else if Last(log).Raised? && Last(log).event.Received? then Delivered(Front(log)) + [Last(log).event.msg]
    else Delivered(Front(log))
  }

  /** What the layer above last heard about sending: a call of its own takes the permission back. */
  function MaySend(log: seq<Trace>): (b: bool) {
    if log == [] then false
    else
      match Last(log)
      case SendCall(_) => false
      case Raised(CanSend(ready)) => ready
      case _ => MaySend(Front(log))
  }

  /** `CanSend(true)` is never raised between a call and its `Sent`, and `Sent` only after a call. */
  ghost predicate Orderly(log: seq<Trace>) {
    forall i :: 0 <= i < |log| ==> InTurn(log[..i], log[i])
  }

  ghost predicate InTurn(log: seq<Trace>, t: Trace) {
    && (t == Raised(CanSend(true)) ==> |Calls(log)| == Sents(log))
    && (t == Raised(Sent) ==> |Calls(log)| == Sents(log) + 1)
  }

  lemma LogSnoc(log: seq<Trace>, t: Trace)
    ensures var l := log + [t];
            && Front(l) == log && Last(l) == t
            && (Orderly(log) && InTurn(log, t) ==> Orderly(l))
  {
    var l := log + [t];
    assert l[..|log|] == log;
    assert forall i :: 0 <= i < |log| ==> l[..i] == log[..i];
  }

  // ---------------------------------------------------------------- sending

  /**
   The bytes on the stream are the frames of the messages that raised `Sent`, in the order of the calls,
   and the part of the frame of the unfinished one that its saved step denotes.
   */
  ghost predicate SendInv(p: Pipe) {
    var msgs, n := Calls(p.log), Sents(p.log);
    && (p.canSend ==> p.stub.sending.None?)
    && p.canSend == MaySend(p.log)
    && Orderly(p.log)
    && match p.stub.sending
       case None => n == |msgs| && p.stub.out.bytes == Frames(p.stub.transport, msgs)
       case Some(s) =>
         && n + 1 == |msgs| && s.msg == msgs[n] && Offset(p.stub.transport, s) < |Frame(p.stub.transport, s.msg)|
         && p.stub.out.bytes == Frames(p.stub.transport, msgs[..n]) + Frame(p.stub.transport, s.msg)[..Offset(p.stub.transport, s)]
  }

  /** `p` is in the middle of sending `msgs[n]`, `from` bytes in, with no operation stored. */
  ghost predicate InFlight(p: Pipe, m: Message, from: nat) {
    var msgs, n := Calls(p.log), Sents(p.log);
    && !p.canSend && !MaySend(p.log) && Orderly(p.log) && p.stub.sending.None?
    && n + 1 == |msgs| && m == msgs[n] && from <= |Frame(p.stub.transport, m)|
    && p.stub.out.bytes == Frames(p.stub.transport, msgs[..n]) + Frame(p.stub.transport, m)[..from]
  }

  /** The whole frames of the messages that raised `Sent` and a part of at most one more: this outlives the pipe. */
  ghost predicate Written(p: Pipe) {
    var t, msgs, n := p.stub.transport, Calls(p.log), Sents(p.log);
    n <= |msgs| <= n + 1 && Frames(t, msgs[..n]) <= p.stub.out.bytes <= Frames(t, msgs)
  }

  lemma FlightIsWritten(p: Pipe, m: Message, from: nat)
    requires InFlight(p, m, from)
    ensures Written(p)
  {
    var msgs, n := Calls(p.log), Sents(p.log);
    assert msgs == msgs[..n] + [m];
    FramesSnoc(p.stub.transport, msgs[..n], m);
  }

  lemma KeptIsWritten(p: Pipe)
    requires SendInv(p)
    ensures Written(p)
  {
    var msgs, n := Calls(p.log), Sents(p.log);
    if p.stub.sending.None? {
      assert msgs[..n] == msgs;
    } else {
      assert msgs == msgs[..n] + [msgs[n]];
      FramesSnoc(p.stub.transport, msgs[..n], msgs[n]);
    }
  }

  lemma SettlingWrites(r: Progress)
    requires Written(r.pipe)
    ensures Written(Settle(r))
  {
    if r.answer.Err? {
      LogSnoc(r.pipe.log, Raised(Error(r.answer.error)));
    }
  }

  lemma FlightAdvances(done: Bytes, f: Bytes, bytes: Bytes, from: nat, n: nat)
    requires from <= n <= |f| && bytes == done + f[..from]
    ensures bytes + f[from..n] == done + f[..n]
  {
    assert f[..from] + f[from..n] == f[..n];
    Regroup(done, f[..from], f[from..n]);
  }

  lemma FlightLands(t: Transport, done: seq<Message>, m: Message, bytes: Bytes)
    requires bytes == Frames(t, done) + Frame(t, m)[..|Frame(t, m)|]
    ensures bytes == Frames(t, done + [m])
  {
    assert Frame(t, m)[..|Frame(t, m)|] == Frame(t, m);
    FramesSnoc(t, done, m);
  }

  /** The message is out: `Sent` is raised. */
  lemma LandingKeeps(p: Pipe, m: Message, o: OutStream)
    requires InFlight(p, m, |Frame(p.stub.transport, m)|) && o.bytes == p.stub.out.bytes
    ensures SendInv(Raise(p.(stub := p.stub.(out := o)), Sent))
  {
    var msgs, k := Calls(p.log), Sents(p.log);
    LogSnoc(p.log, Raised(Sent));
    assert msgs == msgs[..k] + [m];
    FlightLands(p.stub.transport, msgs[..k], m, o.bytes);
  }

  /** The stream takes no more: the step that was reached is saved. */
  lemma SavingKeeps(p: Pipe, s: SendStep, o: OutStream)
    requires Resumable(p.stub.transport, s) && InFlight(p, s.msg, Offset(p.stub.transport, s)) && o.bytes == p.stub.out.bytes
    requires Offset(p.stub.transport, s) < |Frame(p.stub.transport, s.msg)|
    ensures SendInv(p.(stub := p.stub.(out := o, sending := Some(s))))
  {
  }

  lemma FlightGoesOn(p: Pipe, m: Message, from: nat, n: nat, o: OutStream)
    requires InFlight(p, m, from) && from <= n <= |Frame(p.stub.transport, m)|
    requires o.bytes == p.stub.out.bytes + Frame(p.stub.transport, m)[from..n]
    ensures InFlight(p.(stub := p.stub.(out := o)), m, n)
  {
    var t := p.stub.transport;
    FlightAdvances(Frames(t, Calls(p.log)[..Sents(p.log)]), Frame(t, m), p.stub.out.bytes, from, n);
  }

  lemma RunSendKeeps(p: Pipe, s: SendStep)
    requires Resumable(p.stub.transport, s) && InFlight(p, s.msg, Offset(p.stub.transport, s))
    ensures var r := OnSendProgress(p, RunSend(p.stub, s));
            (r.answer.Ok? ==> SendInv(r.pipe)) && Written(r.pipe)
  {
    var t := p.stub.transport;
    var n := RunAppends(t, s, p.stub.out);
    var run := Resume(t, s, p.stub.out);
    var q := OnSendProgress(p, RunSend(p.stub, s)).pipe;
    FlightGoesOn(p, s.msg, Offset(t, s), n, run.stream);
    var flown := p.(stub := p.stub.(out := run.stream));
    if run.answer == Ok(true) {
      LandingKeeps(flown, s.msg, run.stream);
      assert q == Raise(flown, Sent);
      KeptIsWritten(q);
    } else if run.answer == Ok(false) {
      SavingKeeps(flown, run.saved.value, run.stream);
      assert q == p.(stub := p.stub.(out := run.stream, sending := run.saved));
      KeptIsWritten(q);
    } else {
      FlightIsWritten(flown, s.msg, n);
    }
  }

  /** A writable pipe with an unfinished send resumes it. */
  lemma ResumedSend(p: Pipe, hup: bool)
    requires p.stub.sending.Some?
    ensures var q := p.(stub := p.stub.(sending := None));
            WritableChanged(p, true, hup) == OnSendProgress(q, RunSend(q.stub, p.stub.sending.value))
  {
  }

  /** A readable pipe with an unfinished receive resumes it. */
  lemma ResumedRecv(p: Pipe, hup: bool)
    requires p.stub.receiving.Some?
    ensures var q := p.(stub := p.stub.(receiving := None));
            ReadableChanged(p, true, hup) == OnRecvProgress(q, RunRecv(q.stub, p.stub.receiving.value))
  {
  }

  lemma SendKeeps(p: Pipe, m: Message)
    requires SendInv(p) && !p.dead && p.stub.sending.None?
    ensures var r := Step(p, Send(m));
            (!r.dead ==> SendInv(r)) && Written(r)
  {
    var q := p.(canSend := false, log := p.log + [SendCall(m)]);
    LogSnoc(p.log, SendCall(m));
    assert Calls(q.log)[..Sents(q.log)] == Calls(p.log);
    assert Frame(p.stub.transport, m)[..0] == [];
    assert InFlight(q, m, 0);
    RunSendKeeps(q, TransportHdr(m, 0));
    SettlingWrites(OnSendProgress(q, StartSend(p.stub, m)));
  }

  lemma PermissionKeeps(p: Pipe, ready: bool)
    requires SendInv(p) && (ready ==> p.stub.sending.None?)
    ensures SendInv(ChangeCanSend(p, ready))
  {
    LogSnoc(p.log, Raised(CanSend(ready)));
  }

  lemma WritableKeeps(p: Pipe, writable: bool, hup: bool)
    requires SendInv(p)
    ensures var r := WritableChanged(p, writable, hup);
            (r.answer.Ok? ==> SendInv(r.pipe)) && Written(r.pipe)
  {
    if !writable {
      PermissionKeeps(p, false);
      KeptIsWritten(ChangeCanSend(p, false));
    } else if p.stub.sending.Some? {
      ResumedSend(p, hup);
      RunSendKeeps(p.(stub := p.stub.(sending := None)), p.stub.sending.value);
    } else {
      PermissionKeeps(p, true);
      KeptIsWritten(WritableChanged(p, true, hup).pipe);
    }
  }

  /** The receive side of a step leaves the send side alone. */
  lemma RecvSideKeeps(p: Pipe, q: Pipe, t: Trace)
    requires SendInv(p)
    requires q.log == p.log || q.log == p.log + [t]
    requires t.RecvCall? || (t.Raised? && (t.event.Received? || t.event.CanRecv?))
    requires q.stub.transport == p.stub.transport && q.stub.out == p.stub.out && q.stub.sending == p.stub.sending && q.canSend == p.canSend
    ensures SendInv(q)
  {
    LogSnoc(p.log, t);
  }

  lemma RunRecvFrame(p: Pipe, s: RecvStep)
    requires SendInv(p) && Readable(p.stub.transport, s)
    ensures SendInv(OnRecvProgress(p, RunRecv(p.stub, s)).pipe)
  {
    var r := RunRecv(p.stub, s);
    var t := if r.0.Ok? && r.0.value.Some? then Raised(Received(r.0.value.value)) else RecvCall;
    RecvSideKeeps(p, OnRecvProgress(p, r).pipe, t);
  }

  lemma ReadableFrame(p: Pipe, readable: bool, hup: bool)
    requires SendInv(p)
    ensures SendInv(ReadableChanged(p, readable, hup).pipe)
  {
    if readable && p.stub.receiving.Some? {
      var q := p.(stub := p.stub.(receiving := None));
      RecvSideKeeps(p, q, RecvCall);
      ResumedRecv(p, hup);
      RunRecvFrame(q, p.stub.receiving.value);
    } else {
      RecvSideKeeps(p, ReadableChanged(p, readable, hup).pipe, Raised(CanRecv(readable)));
    }
  }

  lemma ReadyKeepsSend(p: Pipe, readable: bool, writable: bool, hup: bool)
    requires SendInv(p)
    ensures var r := OnReady(p, readable, writable, hup);
            (r.answer.Ok? ==> SendInv(r.pipe)) && Written(r.pipe)
  {
    ReadableFrame(p, readable, hup);
    KeptIsWritten(ReadableChanged(p, readable, hup).pipe);
    WritableKeeps(ReadableChanged(p, readable, hup).pipe, writable, hup);
  }

  lemma RecvFrame(p: Pipe)
    requires SendInv(p) && !p.dead
    ensures var r := Step(p, Recv);
            (!r.dead ==> SendInv(r)) && Written(r)
  {
    var q := p.(canRecv := false, log := p.log + [RecvCall]);
    RecvSideKeeps(p, q, RecvCall);
    RunRecvFrame(q, Start(p.stub.transport, p.stub.maxSize));
    var r := OnRecvProgress(q, StartRecv(p.stub));
    KeptIsWritten(r.pipe);
    SettlingWrites(r);
  }

  lemma StepKeepsSend(p: Pipe, input: Input)
    requires (!p.dead ==> SendInv(p)) && Allowed(p, input)
    ensures var r := Step(p, input);
            (!r.dead ==> SendInv(r)) && (Written(p) ==> Written(r))
  {
    if !p.dead {
      match input
      case Send(m) => SendKeeps(p, m);
      case Recv => RecvFrame(p);
      case Ready(readable, writable, hup) =>
        ReadyKeepsSend(p, readable, writable, hup);
        SettlingWrites(OnReady(p, readable, writable, hup));
    }
  }

  lemma {:induction false} RunKeepsSend(p: Pipe, inputs: seq<Input>)
    requires (!p.dead ==> SendInv(p)) && Written(p) && AllowedRun(p, inputs)
    ensures var r := Run(p, inputs);
            (!r.dead ==> SendInv(r)) && Written(r)
    decreases |inputs|
  {
    if inputs != [] {
      StepKeepsSend(p, inputs[0]);
      RunKeepsSend(Step(p, inputs[0]), inputs[1..]);
    }
  }

  /**
   Three-layer refinement, the way out: whatever the stream answers and whatever comes in, after every run, dead or not,
   the stream holds the whole frames of the sent messages in order and a part of at most one more; without an error
   that part is what the saved step denotes.
   */
  lemma EveryRunSendsFrames(t: Transport, maxSize: nat, script: seq<Answer>, inp: InStream, inputs: seq<Input>)
    requires AllowedRun(Fresh(t, maxSize, script, inp), inputs)
    ensures var r := Run(Fresh(t, maxSize, script, inp), inputs);
            Written(r) && (!r.dead ==> SendInv(r))
  {
    RunKeepsSend(Fresh(t, maxSize, script, inp), inputs);
  }

  // ---------------------------------------------------------------- any stream of bytes

  function Concat(frames: seq<Bytes>): (b: Bytes) {
    if frames == [] then [] else frames[0] + Concat(frames[1..])
  }

  /** Each is one frame, whoever wrote it. */
  ghost predicate AreFrames(t: Transport, frames: seq<Bytes>) {
    forall i :: 0 <= i < |frames| ==> IsFrame(t, frames[i])
  }

  /** What is handed up of a frame. */
  function Payload(t: Transport, f: Bytes): (m: Message) {
    if HdrLen(t) <= |f| then Message([], f[HdrLen(t)..]) else Message([], [])
  }

  /** The size of the frame that `b` starts with. */
  function FrameSize(t: Transport, b: Bytes): (n: nat)
    requires HdrLen(t) <= |b|
    ensures n >= HdrLen(t)
  {
    HdrLen(t) + Announced(t, b[0..HdrLen(t)])
  }

  /** The whole frames at the front of a stream. */
  function WholeFrames(t: Transport, b: Bytes): (frames: seq<Bytes>)
    decreases |b|
  {
    if |b| < HdrLen(t) || |b| < FrameSize(t, b) then []
    else [b[..FrameSize(t, b)]] + WholeFrames(t, b[FrameSize(t, b)..])
  }

  /** `b`, with `more` still to come, is the frames: the whole ones that are there and at most one that is not whole yet. */
  ghost predicate Completed(t: Transport, b: Bytes, frames: seq<Bytes>, more: Bytes) {
    var whole := WholeFrames(t, b);
    && AreFrames(t, frames) && b + more == Concat(frames)
    && |whole| <= |frames| <= |whole| + 1 && frames[..|whole|] == whole
    && (|frames| == |whole| <==> more == [])
  }

  lemma PaddedIsFrame(t: Transport, b: Bytes, size: nat)
    requires HdrLen(t) <= |b| < size && size == FrameSize(t, b)
    ensures IsFrame(t, b + Zeros(size - |b|))
  {
    assert (b + Zeros(size - |b|))[0..HdrLen(t)] == b[0..HdrLen(t)];
  }

  lemma SingleFrame(f: Bytes)
    ensures Concat([f]) == f
  {
    assert [f][1..] == [];
  }

  /** The end of a stream that is no whole frame can be completed to one. */
  lemma CompletesTail(t: Transport, b: Bytes) returns (frames: seq<Bytes>, more: Bytes)
    requires b != [] && (|b| < HdrLen(t) || |b| < FrameSize(t, b))
    ensures Completed(t, b, frames, more) && |frames| == 1
  {
    var h := HdrLen(t);
    var header := if |b| < h then b + Zeros(h - |b|) else b;
    var size := FrameSize(t, header);
    var f := if |header| < size then header + Zeros(size - |header|) else header;
    if |header| < size {
      PaddedIsFrame(t, header, size);
    } else {
      assert header[0..h] == header;
    }
    frames, more := [f], f[|b|..];
    SingleFrame(f);
    assert f[..|b|] == b && b + more == f;
    assert more != [];
  }

  lemma WholeFrameIsFrame(t: Transport, b: Bytes)
    requires HdrLen(t) <= |b| && FrameSize(t, b) <= |b|
    ensures IsFrame(t, b[..FrameSize(t, b)])
  {
    assert b[..FrameSize(t, b)][0..HdrLen(t)] == b[0..HdrLen(t)];
  }

  /** Any bytes are the beginning of some frames. */
  lemma {:induction false} Completes(t: Transport, b: Bytes) returns (frames: seq<Bytes>, more: Bytes)
    ensures Completed(t, b, frames, more)
    decreases |b|
  {
    if b == [] {
      frames, more := [], [];
    } else if |b| < HdrLen(t) || |b| < FrameSize(t, b) {
      frames, more := CompletesTail(t, b);
    } else {
      var n := FrameSize(t, b);
      var rest;
      rest, more := Completes(t, b[n..]);
      WholeFrameIsFrame(t, b);
      frames := [b[..n]] + rest;
      assert frames[1..] == rest;
      assert b[..n] + (b[n..] + more) == b + more;
      assert frames[..|WholeFrames(t, b)|] == WholeFrames(t, b);
    }
  }

  // ---------------------------------------------------------------- receiving

  /** Operation `s` is inside frame `k`, or waits at the end of the stream. */
  ghost predicate Reading(p: Pipe, frames: seq<Bytes>, more: Bytes, k: nat, s: RecvStep) {
    var t := p.stub.transport;
    if k < |frames| then
      && Parsed(t, p.stub.maxSize, frames[k], s) && ReadOffset(t, s) <= |frames[k]|
      && Remains(Coming(p.stub.inp, more), frames[k], ReadOffset(t, s), Concat(frames[k + 1..]))
    else
      s == Start(t, p.stub.maxSize) && Coming(p.stub.inp, more) == []
  }

  /** The deliveries so far are the payloads of the first frames. */
  ghost predicate Prefixed(p: Pipe, frames: seq<Bytes>) {
    var got := Delivered(p.log);
    |got| <= |frames| && forall i :: 0 <= i < |got| ==> got[i] == Payload(p.stub.transport, frames[i])
  }

  /**
   On a stream that, with `more` still to come, is `frames`: what was handed up is the first payloads, each whole,
   and what is left on the stream starts exactly where the reader stands.
   */
  ghost predicate RecvInv(p: Pipe, frames: seq<Bytes>, more: Bytes) {
    && Prefixed(p, frames)
    && match p.stub.receiving
       case None => Coming(p.stub.inp, more) == Concat(frames[|Delivered(p.log)|..])
       case Some(s) => Reading(p, frames, more, |Delivered(p.log)|, s)
  }

  lemma StartsReading(p: Pipe, frames: seq<Bytes>, more: Bytes)
    requires RecvInv(p, frames, more) && AreFrames(p.stub.transport, frames) && p.stub.receiving.None?
    ensures Reading(p, frames, more, |Delivered(p.log)|, Start(p.stub.transport, p.stub.maxSize))
  {
    var t, k := p.stub.transport, |Delivered(p.log)|;
    if k < |frames| {
      var f := frames[k];
      assert frames[k..][1..] == frames[k + 1..];
      assert f[0..] == f && f[0..0] == [];
      assert Zeros(HdrLen(t))[..0] == [];
    }
  }

  lemma EndOfStreamWaits(t: Transport, maxSize: nat, i: InStream)
    requires i.bytes == []
    ensures var r := ResumeRead(t, Start(t, maxSize), i);
            match r.answer
            case Ok(got) => got.None? && r.saved == Some(Start(t, maxSize)) && r.stream.bytes == []
            case Err(e) => e == Broken
  {
    var z := Zeros(HdrLen(t));
    assert Filled(z, 0, []) == z;
    var (a, i') := FlatRead(i, HdrLen(t));
    assert a.Ok? ==> a.value == [];
  }

  lemma RunRecvAtEnd(p: Pipe, frames: seq<Bytes>, more: Bytes, s: RecvStep)
    requires Readable(p.stub.transport, s) && p.stub.receiving.None? && Prefixed(p, frames)
    requires |Delivered(p.log)| == |frames| && Reading(p, frames, more, |frames|, s)
    ensures var r := OnRecvProgress(p, RunRecv(p.stub, s));
            r.answer.Ok? ==> RecvInv(r.pipe, frames, more)
  {
    EndOfStreamWaits(p.stub.transport, p.stub.maxSize, p.stub.inp);
  }

  lemma DeliveryKeeps(p: Pipe, frames: seq<Bytes>, more: Bytes, i: InStream)
    requires Prefixed(p, frames) && |Delivered(p.log)| < |frames| && p.stub.receiving.None?
    requires Coming(i, more) == Concat(frames[|Delivered(p.log)| + 1..])
    ensures var m := Payload(p.stub.transport, frames[|Delivered(p.log)|]);
            RecvInv(Raise(p.(stub := p.stub.(inp := i)), Received(m)), frames, more)
  {
    LogSnoc(p.log, Raised(Received(Payload(p.stub.transport, frames[|Delivered(p.log)|]))));
  }

  lemma RunRecvInFrame(p: Pipe, frames: seq<Bytes>, more: Bytes, s: RecvStep)
    requires Readable(p.stub.transport, s) && p.stub.receiving.None? && Prefixed(p, frames)
    requires |Delivered(p.log)| < |frames| && Reading(p, frames, more, |Delivered(p.log)|, s)
    ensures var r := OnRecvProgress(p, RunRecv(p.stub, s));
            r.answer.Ok? ==> RecvInv(r.pipe, frames, more)
  {
    var t, k := p.stub.transport, |Delivered(p.log)|;
    var run := ResumeRead(t, s, p.stub.inp);
    RunParses(t, p.stub.maxSize, frames[k], s, Concat(frames[k + 1..]), more, p.stub.inp);
    var q := OnRecvProgress(p, RunRecv(p.stub, s)).pipe;
    if run.answer == Ok(None) {
      assert q == p.(stub := p.stub.(inp := run.stream, receiving := run.saved));
      assert Reading(q, frames, more, k, run.saved.value);
    } else if run.answer.Ok? {
      DeliveryKeeps(p, frames, more, run.stream);
    }
  }

  lemma RunRecvKeeps(p: Pipe, frames: seq<Bytes>, more: Bytes, s: RecvStep)
    requires Readable(p.stub.transport, s) && p.stub.receiving.None? && Prefixed(p, frames)
    requires Reading(p, frames, more, |Delivered(p.log)|, s)
    ensures var r := OnRecvProgress(p, RunRecv(p.stub, s));
            r.answer.Ok? ==> RecvInv(r.pipe, frames, more)
  {
    if |Delivered(p.log)| == |frames| {
      RunRecvAtEnd(p, frames, more, s);
    } else {
      RunRecvInFrame(p, frames, more, s);
    }
  }

  /** The send side of a step leaves the receive side alone. */
  lemma SendSideKeeps(p: Pipe, q: Pipe, frames: seq<Bytes>, more: Bytes, t: Trace)
    requires RecvInv(p, frames, more)
    requires q.log == p.log || q.log == p.log + [t]
    requires t.Raised? ==> !t.event.Received?
    requires q.stub.transport == p.stub.transport && q.stub.maxSize == p.stub.maxSize
    requires q.stub.inp == p.stub.inp && q.stub.receiving == p.stub.receiving
    ensures RecvInv(q, frames, more)
  {
    LogSnoc(p.log, t);
    assert Delivered(q.log) == Delivered(p.log);
    if p.stub.receiving.Some? {
      assert Reading(q, frames, more, |Delivered(q.log)|, p.stub.receiving.value);
    }
  }

  lemma RunSendFrame(p: Pipe, frames: seq<Bytes>, more: Bytes, s: SendStep)
    requires RecvInv(p, frames, more) && Resumable(p.stub.transport, s)
    ensures RecvInv(OnSendProgress(p, RunSend(p.stub, s)).pipe, frames, more)
  {
    SendSideKeeps(p, OnSendProgress(p, RunSend(p.stub, s)).pipe, frames, more, Raised(Sent));
  }

  lemma WritableFrame(p: Pipe, frames: seq<Bytes>, more: Bytes, writable: bool, hup: bool)
    requires RecvInv(p, frames, more)
    ensures RecvInv(WritableChanged(p, writable, hup).pipe, frames, more)
  {
    if writable && p.stub.sending.Some? {
      var q := p.(stub := p.stub.(sending := None));
      SendSideKeeps(p, q, frames, more, RecvCall);
      ResumedSend(p, hup);
      RunSendFrame(q, frames, more, p.stub.sending.value);
    } else {
      SendSideKeeps(p, WritableChanged(p, writable, hup).pipe, frames, more, Raised(CanSend(writable)));
    }
  }

  lemma ReadableKeeps(p: Pipe, frames: seq<Bytes>, more: Bytes, readable: bool, hup: bool)
    requires RecvInv(p, frames, more)
    ensures var r := ReadableChanged(p, readable, hup);
            r.answer.Ok? ==> RecvInv(r.pipe, frames, more)
  {
    if readable && p.stub.receiving.Some? {
      var q := p.(stub := p.stub.(receiving := None));
      assert Reading(q, frames, more, |Delivered(q.log)|, p.stub.receiving.value);
      ResumedRecv(p, hup);
      RunRecvKeeps(q, frames, more, p.stub.receiving.value);
    } else {
      SendSideKeeps(p, ReadableChanged(p, readable, hup).pipe, frames, more, Raised(CanRecv(readable)));
    }
  }

  lemma RecvKeeps(p: Pipe, frames: seq<Bytes>, more: Bytes)
    requires RecvInv(p, frames, more) && AreFrames(p.stub.transport, frames) && !p.dead && p.stub.receiving.None?
    ensures !Step(p, Recv).dead ==> RecvInv(Step(p, Recv), frames, more)
  {
    var q := p.(canRecv := false, log := p.log + [RecvCall]);
    SendSideKeeps(p, q, frames, more, RecvCall);
    StartsReading(q, frames, more);
    RunRecvKeeps(q, frames, more, Start(p.stub.transport, p.stub.maxSize));
  }

  lemma SendFrame(p: Pipe, frames: seq<Bytes>, more: Bytes, m: Message)
    requires RecvInv(p, frames, more) && !p.dead
    ensures !Step(p, Send(m)).dead ==> RecvInv(Step(p, Send(m)), frames, more)
  {
    var q := p.(canSend := false, log := p.log + [SendCall(m)]);
    SendSideKeeps(p, q, frames, more, SendCall(m));
    RunSendFrame(q, frames, more, TransportHdr(m, 0));
  }

  lemma ReadyKeeps(p: Pipe, frames: seq<Bytes>, more: Bytes, readable: bool, writable: bool, hup: bool)
    requires RecvInv(p, frames, more)
    ensures var r := OnReady(p, readable, writable, hup);
            r.answer.Ok? ==> RecvInv(r.pipe, frames, more)
  {
    ReadableKeeps(p, frames, more, readable, hup);
    var r1 := ReadableChanged(p, readable, hup);
    if r1.answer.Ok? {
      WritableFrame(r1.pipe, frames, more, writable, hup);
    }
  }

  lemma StepKeepsRecv(p: Pipe, frames: seq<Bytes>, more: Bytes, input: Input)
    requires (!p.dead ==> RecvInv(p, frames, more)) && AreFrames(p.stub.transport, frames) && Allowed(p, input)
    ensures !Step(p, input).dead ==> RecvInv(Step(p, input), frames, more)
  {
    if !p.dead {
      match input
      case Send(m) => SendFrame(p, frames, more, m);
      case Recv => RecvKeeps(p, frames, more);
      case Ready(readable, writable, hup) => ReadyKeeps(p, frames, more, readable, writable, hup);
    }
  }

  lemma {:induction false} RunKeepsRecv(p: Pipe, frames: seq<Bytes>, more: Bytes, inputs: seq<Input>)
    requires (!p.dead ==> RecvInv(p, frames, more)) && AreFrames(p.stub.transport, frames) && AllowedRun(p, inputs)
    ensures var r := Run(p, inputs);
            r.stub.transport == p.stub.transport && (!r.dead ==> RecvInv(r, frames, more))
    decreases |inputs|
  {
    if inputs != [] {
      StepKeepsRecv(p, frames, more, inputs[0]);
      RunKeepsRecv(Step(p, inputs[0]), frames, more, inputs[1..]);
    }
  }

  /** The messages are the payloads of the first whole frames of `b`, in order: this outlives the pipe. */
  ghost predicate Handed(t: Transport, b: Bytes, got: seq<Message>) {
    var whole := WholeFrames(t, b);
    |got| <= |whole| && forall i :: 0 <= i < |got| ==> got[i] == Payload(t, whole[i])
  }

  /** Not the whole of an unfinished frame can have been handed up. */
  lemma OnlyWholeFrames(p: Pipe, b: Bytes, frames: seq<Bytes>, more: Bytes)
    requires Completed(p.stub.transport, b, frames, more) && RecvInv(p, frames, more)
    ensures Handed(p.stub.transport, b, Delivered(p.log))
  {
    var n := |Delivered(p.log)|;
    if n == |frames| {
      assert frames[n..] == [];
      assert Coming(p.stub.inp, more) == [];
      assert |more| <= |Coming(p.stub.inp, more)|;
    }
    var whole := WholeFrames(p.stub.transport, b);
    assert forall i :: 0 <= i < |whole| ==> whole[i] == frames[i];
  }

  /** Neither an error nor the send side hands anything up. */
  lemma SettlingDelivers(r: Progress)
    ensures Delivered(Settle(r).log) == Delivered(r.pipe.log)
  {
    if r.answer.Err? {
      LogSnoc(r.pipe.log, Raised(Error(r.answer.error)));
    }
  }

  lemma SendDelivers(p: Pipe, m: Message)
    requires !p.dead
    ensures Delivered(Step(p, Send(m)).log) == Delivered(p.log)
  {
    var q := p.(canSend := false, log := p.log + [SendCall(m)]);
    LogSnoc(p.log, SendCall(m));
    SendProgressDelivers(q, StartSend(p.stub, m));
    SettlingDelivers(OnSendProgress(q, StartSend(p.stub, m)));
  }

  lemma SendProgressDelivers(p: Pipe, r: (Io<bool>, LiveStub))
    ensures Delivered(OnSendProgress(p, r).pipe.log) == Delivered(p.log)
  {
    LogSnoc(p.log, Raised(Sent));
  }

  lemma WritableDelivers(p: Pipe, writable: bool, hup: bool)
    ensures Delivered(WritableChanged(p, writable, hup).pipe.log) == Delivered(p.log)
  {
    if writable && p.stub.sending.Some? {
      SendProgressDelivers(p, ResumeSend(p.stub));
    } else {
      LogSnoc(p.log, Raised(CanSend(writable)));
    }
  }

  lemma RecvHands(p: Pipe, frames: seq<Bytes>, more: Bytes, b: Bytes)
    requires RecvInv(p, frames, more) && AreFrames(p.stub.transport, frames) && !p.dead && p.stub.receiving.None?
    requires Completed(p.stub.transport, b, frames, more)
    ensures Handed(p.stub.transport, b, Delivered(Step(p, Recv).log))
  {
    var r := Step(p, Recv);
    RecvKeeps(p, frames, more);
    if r.dead {
      LogSnoc(p.log, RecvCall);
      SettlingDelivers(OnRecvProgress(p.(canRecv := false, log := p.log + [RecvCall]), StartRecv(p.stub)));
      OnlyWholeFrames(p, b, frames, more);
    } else {
      OnlyWholeFrames(r, b, frames, more);
    }
  }

  /** What a step hands up it hands up when it reads, and a failed read hands up nothing. */
  lemma ReadyDelivers(p: Pipe, readable: bool, writable: bool, hup: bool)
    ensures var r1 := ReadableChanged(p, readable, hup);
            && Delivered(OnReady(p, readable, writable, hup).pipe.log) == Delivered(r1.pipe.log)
            && (r1.answer.Err? ==> r1.pipe.log == p.log)
  {
    WritableDelivers(ReadableChanged(p, readable, hup).pipe, writable, hup);
  }

  lemma ReadyHands(p: Pipe, frames: seq<Bytes>, more: Bytes, b: Bytes, readable: bool, writable: bool, hup: bool)
    requires RecvInv(p, frames, more) && Completed(p.stub.transport, b, frames, more)
    ensures Handed(p.stub.transport, b, Delivered(OnReady(p, readable, writable, hup).pipe.log))
  {
    var r1 := ReadableChanged(p, readable, hup);
    ReadableKeeps(p, frames, more, readable, hup);
    OnlyWholeFrames(if r1.answer.Ok? then r1.pipe else p, b, frames, more);
    ReadyDelivers(p, readable, writable, hup);
  }

  lemma StepHands(p: Pipe, frames: seq<Bytes>, more: Bytes, b: Bytes, input: Input)
    requires (!p.dead ==> RecvInv(p, frames, more)) && AreFrames(p.stub.transport, frames) && Allowed(p, input)
    requires Completed(p.stub.transport, b, frames, more) && Handed(p.stub.transport, b, Delivered(p.log))
    ensures Handed(p.stub.transport, b, Delivered(Step(p, input).log))
  {
    if !p.dead {
      match input
      case Send(m) => SendDelivers(p, m);
      case Recv => RecvHands(p, frames, more, b);
      case Ready(readable, writable, hup) =>
        ReadyHands(p, frames, more, b, readable, writable, hup);
        SettlingDelivers(OnReady(p, readable, writable, hup));
    }
  }

  lemma {:induction false} RunHands(p: Pipe, frames: seq<Bytes>, more: Bytes, b: Bytes, inputs: seq<Input>)
    requires (!p.dead ==> RecvInv(p, frames, more)) && AreFrames(p.stub.transport, frames) && AllowedRun(p, inputs)
    requires Completed(p.stub.transport, b, frames, more) && Handed(p.stub.transport, b, Delivered(p.log))
    ensures Handed(p.stub.transport, b, Delivered(Run(p, inputs).log))
    decreases |inputs|
  {
    if inputs != [] {
      StepKeepsRecv(p, frames, more, inputs[0]);
      StepHands(p, frames, more, b, inputs[0]);
      RunHands(Step(p, inputs[0]), frames, more, b, inputs[1..]);
    }
  }

  /**
   Three-layer refinement, the way in: whatever bytes come in and whatever becomes of the pipe, what every run hands up
   are the payloads of the first whole frames among them, in order and unchanged.
   */
  lemma EveryRunReceivesFrames(t: Transport, maxSize: nat, script: seq<Answer>, inp: InStream, inputs: seq<Input>)
    requires AllowedRun(Fresh(t, maxSize, script, inp), inputs)
    ensures Handed(t, inp.bytes, Delivered(Run(Fresh(t, maxSize, script, inp), inputs).log))
  {
    var frames, more := Completes(t, inp.bytes);
    assert frames[0..] == frames;
    RunHands(Fresh(t, maxSize, script, inp), frames, more, inp.bytes, inputs);
  }

  /** Both ways at once. */
  lemma EveryRunIsFramed(t: Transport, maxSize: nat, script: seq<Answer>, inp: InStream, inputs: seq<Input>)
    requires AllowedRun(Fresh(t, maxSize, script, inp), inputs)
    ensures var r := Run(Fresh(t, maxSize, script, inp), inputs);
            Written(r) && (!r.dead ==> SendInv(r)) && Handed(t, inp.bytes, Delivered(r.log))
  {
    EveryRunSendsFrames(t, maxSize, script, inp, inputs);
    EveryRunReceivesFrames(t, maxSize, script, inp, inputs);
  }

  // ---------------------------------------------------------------- both ends

  ghost predicate Sized(msgs: seq<Message>) {
    forall i :: 0 <= i < |msgs| ==> Len(msgs[i]) < TWO64
  }

  function FrameList(t: Transport, msgs: seq<Message>): (frames: seq<Bytes>)
    ensures |frames| == |msgs| && forall i :: 0 <= i < |msgs| ==> frames[i] == Frame(t, msgs[i])
  {
    seq(|msgs|, i requires 0 <= i < |msgs| => Frame(t, msgs[i]))
  }

  /** What the writers put out is made of frames, and each carries its message. */
  lemma {:induction false} WrittenFrames(t: Transport, msgs: seq<Message>)
    requires Sized(msgs)
    ensures AreFrames(t, FrameList(t, msgs)) && Concat(FrameList(t, msgs)) == Frames(t, msgs)
    ensures forall i :: 0 <= i < |msgs| ==> Payload(t, FrameList(t, msgs)[i]) == Joined(msgs[i])
    decreases |msgs|
  {
    if msgs != [] {
      WrittenFrames(t, msgs[1..]);
      assert FrameList(t, msgs)[1..] == FrameList(t, msgs[1..]);
      forall i | 0 <= i < |msgs|
        ensures IsFrame(t, FrameList(t, msgs)[i]) && Payload(t, FrameList(t, msgs)[i]) == Joined(msgs[i])
      {
        FrameIsFrame(t, msgs[i]);
      }
    }
  }

  lemma PastTheFirst(f: Bytes, rest: Bytes, b: Bytes)
    requires |f| <= |b| && b <= f + rest
    ensures b[..|f|] == f && b[|f|..] == rest[..|b| - |f|]
  {
    assert b == (f + rest)[..|b|];
  }

  lemma SameHeader(f: Bytes, rest: Bytes, b: Bytes, h: nat)
    requires h <= |f| && h <= |b| && b <= f + rest
    ensures b[0..h] == f[0..h]
  {
    assert b == (f + rest)[..|b|];
  }

  /** The whole frames in the beginning of what the writers put out are the frames of the first messages. */
  lemma {:induction false} WholeOfWritten(t: Transport, msgs: seq<Message>, b: Bytes)
    requires Sized(msgs) && b <= Frames(t, msgs)
    ensures var whole := WholeFrames(t, b);
            |whole| <= |msgs| && forall i :: 0 <= i < |whole| ==> whole[i] == Frame(t, msgs[i])
    decreases |msgs|
  {
    if HdrLen(t) <= |b| && FrameSize(t, b) <= |b| {
      var f, rest := Frame(t, msgs[0]), Frames(t, msgs[1..]);
      FrameIsFrame(t, msgs[0]);
      SameHeader(f, rest, b, HdrLen(t));
      PastTheFirst(f, rest, b);
      WholeOfWritten(t, msgs[1..], b[|f|..]);
    }
  }

  /** What two pipes hand across, whatever becomes of either: the first messages, in order, header and body joined. */
  ghost predicate HandsOver(calls: seq<Message>, got: seq<Message>) {
    |got| <= |calls| && forall i :: 0 <= i < |got| ==> got[i] == Joined(calls[i])
  }

  lemma WrittenIsHandedOver(t: Transport, calls: seq<Message>, b: Bytes, got: seq<Message>)
    requires Sized(calls) && b <= Frames(t, calls) && Handed(t, b, got)
    ensures HandsOver(calls, got)
  {
    WholeOfWritten(t, calls, b);
    forall i | 0 <= i < |got|
      ensures got[i] == Joined(calls[i])
    {
      FrameIsFrame(t, calls[i]);
    }
  }

  /**
   Any two runs, whatever the operating system answers, whatever fails and whenever: what comes out of one pipe is what
   was handed to the other, from the first message on, without a gap, in order and unchanged.
   */
  lemma NothingIsLostBetween(t: Transport, sizeA: nat, scriptA: seq<Answer>, inpA: InStream, inputsA: seq<Input>,
                             sizeB: nat, scriptB: seq<Answer>, answers: seq<Answer>, inputsB: seq<Input>)
    requires AllowedRun(Fresh(t, sizeA, scriptA, inpA), inputsA)
    requires var a := Run(Fresh(t, sizeA, scriptA, inpA), inputsA);
             Sized(Calls(a.log)) && AllowedRun(Fresh(t, sizeB, scriptB, InStream(a.stub.out.bytes, answers)), inputsB)
    ensures var a := Run(Fresh(t, sizeA, scriptA, inpA), inputsA);
            var b := Run(Fresh(t, sizeB, scriptB, InStream(a.stub.out.bytes, answers)), inputsB);
            HandsOver(Calls(a.log), Delivered(b.log))
  {
    var a := Run(Fresh(t, sizeA, scriptA, inpA), inputsA);
    var calls, inp := Calls(a.log), InStream(a.stub.out.bytes, answers);
    EveryRunSendsFrames(t, sizeA, scriptA, inpA, inputsA);
    TransportStays(Fresh(t, sizeA, scriptA, inpA), inputsA);
    EveryRunReceivesFrames(t, sizeB, scriptB, inp, inputsB);
    WrittenIsHandedOver(t, calls, inp.bytes, Delivered(Run(Fresh(t, sizeB, scriptB, inp), inputsB).log));
  }

  lemma FramesHaveBytes(t: Transport, frames: seq<Bytes>)
    requires AreFrames(t, frames)
    ensures frames != [] ==> Concat(frames) != []
  {
    if frames != [] {
      assert |frames[0]| >= 8;
    }
  }

  lemma StartKeeps(start: Pipe, frames: seq<Bytes>)
    requires start.stub.receiving.None? && Delivered(start.log) == [] && start.stub.inp.bytes == Concat(frames)
    ensures RecvInv(start, frames, [])
  {
    assert frames[0..] == frames && start.stub.inp.bytes + [] == start.stub.inp.bytes;
  }

  lemma EmptiedPipe(p: Pipe, frames: seq<Bytes>)
    requires RecvInv(p, frames, []) && AreFrames(p.stub.transport, frames) && p.stub.receiving.None? && p.stub.inp.bytes == []
    ensures |Delivered(p.log)| == |frames|
  {
    FramesHaveBytes(p.stub.transport, frames[|Delivered(p.log)|..]);
  }

  /** A reader that has emptied a stream of written frames has handed up all of them. */
  lemma EmptiedMeansAll(start: Pipe, msgs: seq<Message>, inputs: seq<Input>)
    requires AllowedRun(start, inputs) && Sized(msgs) && !start.dead && start.stub.receiving.None? && Delivered(start.log) == []
    requires start.stub.inp.bytes == Frames(start.stub.transport, msgs)
    requires var b := Run(start, inputs); !b.dead && b.stub.receiving.None? && b.stub.inp.bytes == []
    ensures var got := Delivered(Run(start, inputs).log);
            |got| == |msgs| && forall i :: 0 <= i < |msgs| ==> got[i] == Joined(msgs[i])
  {
    var t := start.stub.transport;
    var frames := FrameList(t, msgs);
    WrittenFrames(t, msgs);
    StartKeeps(start, frames);
    RunKeepsRecv(start, frames, [], inputs);
    EmptiedPipe(Run(start, inputs), frames);
  }

  /**
   Two pipes, any two runs without an error, any answers of the operating system on either side: when the sender is
   idle and the reader has emptied what the sender wrote, every message handed to one came out of the other, in order,
   header and body joined.
   */
  lemma EndToEnd(t: Transport, sizeA: nat, scriptA: seq<Answer>, inpA: InStream, inputsA: seq<Input>,
                 sizeB: nat, scriptB: seq<Answer>, answers: seq<Answer>, inputsB: seq<Input>)
    requires AllowedRun(Fresh(t, sizeA, scriptA, inpA), inputsA)
    requires var a := Run(Fresh(t, sizeA, scriptA, inpA), inputsA);
             var start := Fresh(t, sizeB, scriptB, InStream(a.stub.out.bytes, answers));
             && !a.dead && a.stub.sending.None? && Sized(Calls(a.log)) && AllowedRun(start, inputsB)
             && var b := Run(start, inputsB);
                !b.dead && b.stub.receiving.None? && b.stub.inp.bytes == []
    ensures var a := Run(Fresh(t, sizeA, scriptA, inpA), inputsA);
            var b := Run(Fresh(t, sizeB, scriptB, InStream(a.stub.out.bytes, answers)), inputsB);
            && |Delivered(b.log)| == |Calls(a.log)|
            && forall i :: 0 <= i < |Calls(a.log)| ==> Delivered(b.log)[i] == Joined(Calls(a.log)[i])
  {
    var a := Run(Fresh(t, sizeA, scriptA, inpA), inputsA);
    var start := Fresh(t, sizeB, scriptB, InStream(a.stub.out.bytes, answers));
    EveryRunSendsFrames(t, sizeA, scriptA, inpA, inputsA);
    TransportStays(Fresh(t, sizeA, scriptA, inpA), inputsA);
    EmptiedMeansAll(start, Calls(a.log), inputsB);
  }

  lemma {:induction false} TransportStays(p: Pipe, inputs: seq<Input>)
    ensures Run(p, inputs).stub.transport == p.stub.transport
    decreases |inputs|
  {
    if inputs != [] {
      TransportStays(Step(p, inputs[0]), inputs[1..]);
    }
  }
}

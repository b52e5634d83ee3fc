/** What a pipe gets done: permission is given, every operation is tried at once, and nothing waits for more than the stream. */
module PipeProgress {
  import opened Core
  import opened Streams
  import opened Sending
  import opened Receiving
  import opened Pipes
  import opened PipeLaws
  import opened PipeTurns

  // ---------------------------------------------------------------- calls to receive

  function RecvCalls(log: seq<Trace>): (n: nat) {
    if log == [] then 0 else RecvCalls(Front(log)) + if Last(log).RecvCall? then 1 else 0
  }

  /** Every call to receive has handed up one message, but for the one that is unfinished. */
  ghost predicate OnePerCall(p: Pipe) {
    RecvCalls(p.log) == |Delivered(p.log)| + if p.stub.receiving.Some? then 1 else 0
  }

  lemma DeliveryCounts(p: Pipe, m: Message)
    ensures var log := Raise(p, Received(m)).log;
            RecvCalls(log) == RecvCalls(p.log) && |Delivered(log)| == |Delivered(p.log)| + 1
  {
    LogSnoc(p.log, Raised(Received(m)));
  }

  lemma RunRecvCounts(p: Pipe, s: RecvStep)
    requires Readable(p.stub.transport, s) && p.stub.receiving.None? && RecvCalls(p.log) == |Delivered(p.log)| + 1
    ensures var r := OnRecvProgress(p, RunRecv(p.stub, s));
            r.answer.Ok? ==> OnePerCall(r.pipe)
  {
    var run := ResumeRead(p.stub.transport, s, p.stub.inp);
    ResumeReadSaves(p.stub.transport, s, p.stub.inp);
    if run.answer.Ok? && run.answer.value.Some? {
      DeliveryCounts(p, run.answer.value.value);
    }
  }

  lemma OtherCounts(p: Pipe, q: Pipe, t: Trace)
    requires OnePerCall(p) && q.stub.receiving == p.stub.receiving && (q.log == p.log || q.log == p.log + [t])
    requires !t.RecvCall? && (t.Raised? ==> !t.event.Received?)
    ensures OnePerCall(q)
  {
    LogSnoc(p.log, t);
  }

  lemma ReadableCounts(p: Pipe, readable: bool, hup: bool)
    requires OnePerCall(p)
    ensures var r := ReadableChanged(p, readable, hup);
            r.answer.Ok? ==> OnePerCall(r.pipe)
  {
    if readable && p.stub.receiving.Some? {
      ResumedRecv(p, hup);
      RunRecvCounts(p.(stub := p.stub.(receiving := None)), p.stub.receiving.value);
    } else {
      OtherCounts(p, ReadableChanged(p, readable, hup).pipe, Raised(CanRecv(readable)));
    }
  }

  lemma SendProgressCounts(p: Pipe, s: SendStep)
    requires OnePerCall(p) && Resumable(p.stub.transport, s)
    ensures OnePerCall(OnSendProgress(p, RunSend(p.stub, s)).pipe)
  {
    OtherCounts(p, OnSendProgress(p, RunSend(p.stub, s)).pipe, Raised(Sent));
  }

  lemma WritableCounts(p: Pipe, writable: bool, hup: bool)
    requires OnePerCall(p)
    ensures OnePerCall(WritableChanged(p, writable, hup).pipe)
  {
    if writable && p.stub.sending.Some? {
      ResumedSend(p, hup);
      SendProgressCounts(p.(stub := p.stub.(sending := None)), p.stub.sending.value);
    } else {
      OtherCounts(p, WritableChanged(p, writable, hup).pipe, Raised(CanSend(writable)));
    }
  }

  lemma RecvCounts(p: Pipe)
    requires OnePerCall(p) && !p.dead && p.stub.receiving.None?
    ensures !Step(p, Recv).dead ==> OnePerCall(Step(p, Recv))
  {
    LogSnoc(p.log, RecvCall);
    RunRecvCounts(p.(canRecv := false, log := p.log + [RecvCall]), Start(p.stub.transport, p.stub.maxSize));
  }

  lemma SendCounts(p: Pipe, m: Message)
    requires OnePerCall(p) && !p.dead
    ensures !Step(p, Send(m)).dead ==> OnePerCall(Step(p, Send(m)))
  {
    var q := p.(canSend := false, log := p.log + [SendCall(m)]);
    OtherCounts(p, q, SendCall(m));
    SendProgressCounts(q, TransportHdr(m, 0));
  }

  lemma ReadyCounts(p: Pipe, readable: bool, writable: bool, hup: bool)
    requires OnePerCall(p)
    ensures var r := OnReady(p, readable, writable, hup);
            r.answer.Ok? ==> OnePerCall(r.pipe)
  {
    var r1 := ReadableChanged(p, readable, hup);
    ReadableCounts(p, readable, hup);
    if r1.answer.Ok? {
      WritableCounts(r1.pipe, writable, hup);
    }
  }

  lemma StepCounts(p: Pipe, input: Input)
    requires (!p.dead ==> OnePerCall(p)) && Allowed(p, input)
    ensures !Step(p, input).dead ==> OnePerCall(Step(p, input))
  {
    if !p.dead {
      match input
      case Send(m) => SendCounts(p, m);
      case Recv => RecvCounts(p);
      case Ready(readable, writable, hup) => ReadyCounts(p, readable, writable, hup);
    }
  }

  /** All that is kept of a pipe that is alive. */
  ghost predicate Lives(p: Pipe) {
    !p.dead ==> SendInv(p) && RecvTurn(p) && OnePerCall(p)
  }

  lemma StepLives(p: Pipe, input: Input)
    requires Lives(p) && Allowed(p, input)
    ensures Lives(Step(p, input))
  {
    StepKeepsSend(p, input);
    StepTurns(p, input);
    StepCounts(p, input);
  }

  lemma {:induction false} RunLives(p: Pipe, inputs: seq<Input>)
    requires Lives(p) && AllowedRun(p, inputs)
    ensures Lives(Run(p, inputs))
    decreases |inputs|
  {
    if inputs != [] {
      StepLives(p, inputs[0]);
      RunLives(Step(p, inputs[0]), inputs[1..]);
    }
  }

  // ---------------------------------------------------------------- permission is given

  lemma ReadableGivesTurn(p: Pipe, readable: bool)
    requires RecvTurn(p) && !p.dead
    ensures var r := ReadableChanged(p, readable, false);
            && (r.answer.Ok? ==> (r.pipe.canRecv <==> readable && p.stub.receiving.None?))
            && r.pipe.stub.sending == p.stub.sending && r.pipe.canSend == p.canSend && !r.pipe.dead
  {
  }

  lemma WritableGivesTurn(p: Pipe, writable: bool)
    requires (p.canSend ==> p.stub.sending.None?) && !p.dead
    ensures var r := WritableChanged(p, writable, false);
            && (r.answer.Ok? ==> (r.pipe.canSend <==> writable && p.stub.sending.None?))
            && r.pipe.canRecv == p.canRecv && !r.pipe.dead
  {
  }

  lemma ReadyGivesTurns(p: Pipe, readable: bool, writable: bool)
    requires SendInv(p) && RecvTurn(p) && !p.dead
    ensures var q := Step(p, Ready(readable, writable, false));
            !q.dead ==>
              && (q.canSend <==> writable && p.stub.sending.None?)
              && (q.canRecv <==> readable && p.stub.receiving.None?)
  {
    ReadableGivesTurn(p, readable);
    WritableGivesTurn(ReadableChanged(p, readable, false).pipe, writable);
  }

  /**
   After any run and a readiness event that a pipe survives, the layer above may send exactly if the pipe is writable and
   every message handed to it is out, and may receive exactly if it is readable and every call to receive has handed one up.
   */
  lemma PermissionIsGivenIff(t: Transport, maxSize: nat, script: seq<Answer>, inp: InStream, inputs: seq<Input>, readable: bool, writable: bool)
    requires AllowedRun(Fresh(t, maxSize, script, inp), inputs)
    requires !Step(Run(Fresh(t, maxSize, script, inp), inputs), Ready(readable, writable, false)).dead
    ensures var p := Run(Fresh(t, maxSize, script, inp), inputs);
            var q := Step(p, Ready(readable, writable, false));
            && (MaySend(q.log) <==> writable && |Calls(p.log)| == Sents(p.log))
            && (MayRecv(q.log) <==> readable && RecvCalls(p.log) == |Delivered(p.log)|)
  {
    var p := Run(Fresh(t, maxSize, script, inp), inputs);
    var input := Ready(readable, writable, false);
    RunLives(Fresh(t, maxSize, script, inp), inputs);
    ReadyGivesTurns(p, readable, writable);
    StepKeepsSend(p, input);
    StepTurns(p, input);
  }

  // ---------------------------------------------------------------- what is told is news

  /** A permission that is raised was not there, and one that is taken back was. */
  ghost predicate IsNews(log: seq<Trace>, t: Trace) {
    match t
    case Raised(CanSend(ready)) => ready != MaySend(log)
    case Raised(CanRecv(ready)) => ready != MayRecv(log)
    case _ => true
  }

  ghost predicate AllNews(log: seq<Trace>) {
    forall i :: 0 <= i < |log| ==> IsNews(log[..i], log[i])
  }

  /** `more` is news after `log`, and tells nothing of permission that is given if `hup`. */
  ghost predicate NewsAfter(log: seq<Trace>, more: seq<Trace>, hup: bool) {
    forall i :: 0 <= i < |more| ==>
      IsNews(log + more[..i], more[i]) && (hup ==> more[i] != Raised(CanSend(true)) && more[i] != Raised(CanRecv(true)))
  }

  lemma NewsGrows(log: seq<Trace>, more: seq<Trace>, hup: bool)
    requires AllNews(log) && NewsAfter(log, more, hup)
    ensures AllNews(log + more)
  {
    var all := log + more;
    forall i | 0 <= i < |all|
      ensures IsNews(all[..i], all[i])
    {
      if i < |log| {
        assert all[..i] == log[..i];
      } else {
        assert all[..i] == log + more[..i - |log|];
      }
    }
  }

  lemma NewsJoins(log: seq<Trace>, first: seq<Trace>, more: seq<Trace>, hup: bool)
    requires NewsAfter(log, first, hup) && NewsAfter(log + first, more, hup)
    ensures NewsAfter(log, first + more, hup)
  {
    var all := first + more;
    forall i | 0 <= i < |all|
      ensures IsNews(log + all[..i], all[i]) && (hup ==> all[i] != Raised(CanSend(true)) && all[i] != Raised(CanRecv(true)))
    {
      if i < |first| {
        assert all[..i] == first[..i];
      } else {
        assert log + all[..i] == log + first + more[..i - |first|];
      }
    }
  }

  /** `q` has told more than `p`, and all of it was news. */
  ghost predicate TellsNews(p: Pipe, q: Pipe, hup: bool) {
    p.log <= q.log && NewsAfter(p.log, q.log[|p.log|..], hup)
  }

  lemma OneMoreIsNews(p: Pipe, q: Pipe, t: Trace, hup: bool)
    requires q.log == p.log || q.log == p.log + [t]
    requires q.log != p.log ==> IsNews(p.log, t) && (hup ==> t != Raised(CanSend(true)) && t != Raised(CanRecv(true)))
    ensures TellsNews(p, q, hup)
  {
    if q.log != p.log {
      assert q.log[|p.log|..] == [t];
      assert p.log + [t][..0] == p.log;
    }
  }

  lemma TellsNewsJoins(p: Pipe, q: Pipe, r: Pipe, hup: bool)
    requires TellsNews(p, q, hup) && TellsNews(q, r, hup)
    ensures TellsNews(p, r, hup)
  {
    var first, more := q.log[|p.log|..], r.log[|q.log|..];
    assert q.log == p.log + first && r.log == q.log + more;
    NewsJoins(p.log, first, more, hup);
    assert r.log[|p.log|..] == first + more;
  }

  lemma SettlingIsNews(r: Progress, hup: bool)
    ensures TellsNews(r.pipe, Settle(r), hup)
  {
    OneMoreIsNews(r.pipe, Settle(r), if r.answer.Err? then Raised(Error(r.answer.error)) else RecvCall, hup);
  }

  lemma ReadableIsNews(p: Pipe, readable: bool, hup: bool)
    requires RecvTurn(p)
    ensures TellsNews(p, ReadableChanged(p, readable, hup).pipe, hup)
  {
    var q := ReadableChanged(p, readable, hup).pipe;
    if readable && p.stub.receiving.Some? {
      OneMoreIsNews(p, q, if |q.log| > |p.log| then q.log[|p.log|] else RecvCall, hup);
    } else {
      OneMoreIsNews(p, q, Raised(CanRecv(readable)), hup);
    }
  }

  lemma WritableIsNews(p: Pipe, writable: bool, hup: bool)
    requires p.canSend == MaySend(p.log)
    ensures TellsNews(p, WritableChanged(p, writable, hup).pipe, hup)
  {
    var q := WritableChanged(p, writable, hup).pipe;
    OneMoreIsNews(p, q, if writable && p.stub.sending.Some? then Raised(Sent) else Raised(CanSend(writable)), hup);
  }

  lemma ProgressIsNews(p: Pipe, p1: Pipe, p2: Pipe, r: Progress, hup: bool)
    requires TellsNews(p, p1, hup) && TellsNews(p1, p2, hup) && (r.pipe.log == p1.log || r.pipe.log == p2.log)
    ensures TellsNews(p, Settle(r), hup)
  {
    TellsNewsJoins(p, p1, p2, hup);
    SettlingIsNews(r, hup);
    TellsNewsJoins(p, r.pipe, Settle(r), hup);
  }

  lemma ReadyLogs(p: Pipe, readable: bool, writable: bool, hup: bool)
    ensures var r1 := ReadableChanged(p, readable, hup);
            var log := OnReady(p, readable, writable, hup).pipe.log;
            log == r1.pipe.log || log == WritableChanged(r1.pipe, writable, hup).pipe.log
  {
  }

  lemma ReadyIsNews(p: Pipe, readable: bool, writable: bool, hup: bool)
    requires SendInv(p) && RecvTurn(p)
    ensures TellsNews(p, Settle(OnReady(p, readable, writable, hup)), hup)
  {
    var p1 := ReadableChanged(p, readable, hup).pipe;
    ReadableIsNews(p, readable, hup);
    ReadableFrame(p, readable, hup);
    WritableIsNews(p1, writable, hup);
    ReadyLogs(p, readable, writable, hup);
    ProgressIsNews(p, p1, WritableChanged(p1, writable, hup).pipe, OnReady(p, readable, writable, hup), hup);
  }

  lemma CallIsNews(p: Pipe, input: Input)
    requires !input.Ready? && !p.dead
    ensures TellsNews(p, Step(p, input), true)
  {
    match input
    case Send(m) =>
      var q := p.(canSend := false, log := p.log + [SendCall(m)]);
      var r := OnSendProgress(q, StartSend(p.stub, m));
      OneMoreIsNews(p, q, SendCall(m), true);
      OneMoreIsNews(q, r.pipe, Raised(Sent), true);
      SettlingIsNews(r, true);
      TellsNewsJoins(p, q, r.pipe, true);
      TellsNewsJoins(p, r.pipe, Settle(r), true);
    case Recv =>
      var q := p.(canRecv := false, log := p.log + [RecvCall]);
      var r := OnRecvProgress(q, StartRecv(p.stub));
      OneMoreIsNews(p, q, RecvCall, true);
      OneMoreIsNews(q, r.pipe, if |r.pipe.log| > |q.log| then r.pipe.log[|q.log|] else RecvCall, true);
      SettlingIsNews(r, true);
      TellsNewsJoins(p, q, r.pipe, true);
      TellsNewsJoins(p, r.pipe, Settle(r), true);
  }

  /** Only a readiness event without a hang-up gives a permission. */
  predicate GivesNothing(input: Input) {
    !input.Ready? || input.hup
  }

  lemma StepIsNews(p: Pipe, input: Input)
    requires Lives(p)
    ensures TellsNews(p, Step(p, input), GivesNothing(input))
  {
    if !p.dead {
      if input.Ready? {
        ReadyIsNews(p, input.readable, input.writable, input.hup);
      } else {
        CallIsNews(p, input);
      }
    }
  }

  lemma NewsStay(p: Pipe, input: Input)
    requires Lives(p) && AllNews(p.log)
    ensures AllNews(Step(p, input).log)
  {
    var log := Step(p, input).log;
    StepIsNews(p, input);
    NewsGrows(p.log, log[|p.log|..], GivesNothing(input));
    assert log == p.log + log[|p.log|..];
  }

  /** The part of a log from `n` on gives no permission. */
  ghost predicate GivesNoneFrom(log: seq<Trace>, n: nat) {
    forall i :: n <= i < |log| ==> log[i] != Raised(CanSend(true)) && log[i] != Raised(CanRecv(true))
  }

  lemma HungUpGivesNone(p: Pipe, q: Pipe)
    requires TellsNews(p, q, true)
    ensures GivesNoneFrom(q.log, |p.log|)
  {
    forall i | |p.log| <= i < |q.log|
      ensures q.log[i] != Raised(CanSend(true)) && q.log[i] != Raised(CanRecv(true))
    {
      assert q.log[i] == q.log[|p.log|..][i - |p.log|];
    }
  }

  lemma {:induction false} RunIsNews(p: Pipe, inputs: seq<Input>)
    requires Lives(p) && AllNews(p.log) && AllowedRun(p, inputs)
    ensures AllNews(Run(p, inputs).log)
    decreases |inputs|
  {
    if inputs != [] {
      NewsStay(p, inputs[0]);
      StepLives(p, inputs[0]);
      RunIsNews(Step(p, inputs[0]), inputs[1..]);
    }
  }

  /** In every run a permission is raised or taken back only if that is news, and none is given by a call or on a hang-up. */
  lemma PermissionsAreNews(t: Transport, maxSize: nat, script: seq<Answer>, inp: InStream, inputs: seq<Input>, input: Input)
    requires AllowedRun(Fresh(t, maxSize, script, inp), inputs)
    ensures var p := Run(Fresh(t, maxSize, script, inp), inputs);
            && AllNews(p.log) && p.log <= Step(p, input).log
            && (GivesNothing(input) ==> GivesNoneFrom(Step(p, input).log, |p.log|))
  {
    var start := Fresh(t, maxSize, script, inp);
    var p := Run(start, inputs);
    RunIsNews(start, inputs);
    RunLives(start, inputs);
    StepIsNews(p, input);
    if GivesNothing(input) {
      HungUpGivesNone(p, Step(p, input));
    }
  }

  // ---------------------------------------------------------------- operations are tried

  /** An answer of the operating system was used, if there was one. */
  predicate Used(before: seq<Answer>, after: seq<Answer>) {
    before != [] ==> |after| < |before|
  }

  lemma WriteTries(o: OutStream, buf: Bytes)
    ensures var o' := Write(o, buf).1;
            Used(o.script, o'.script) && |o'.script| <= |o.script|
  {
  }

  lemma FlatWriteTries(o: OutStream, bufs: seq<Bytes>)
    ensures var o' := FlatWrite(o, bufs).1;
            Used(o.script, o'.script) && |o'.script| <= |o.script|
  {
    WriteTries(o, Join(bufs));
  }

  /** A step writes, or passes over an empty section. */
  ghost predicate Tries(t: Transport, s: SendStep, o: OutStream) {
    Resumable(t, s) &&
    var (a, o') := Advance(t, s, o);
    && |o'.script| <= |o.script|
    && (Used(o.script, o'.script) || (o' == o && a.Ok? && a.value.0 && Reached(t, s.msg, a.value.1) == Offset(t, s)))
  }

  lemma AdvanceTcpTries(s: SendStep, o: OutStream)
    requires Resumable(Tcp, s)
    ensures Tries(Tcp, s, o)
  {
    match s
    case TransportHdr(m, w) => FlatWriteTries(o, FirstBufs(m, BE64(Len(m))[w..]));
    case ProtocolHdr(m, w) => FlatWriteTries(o, [m.header[w..], m.body]);
    case UsrPayload(m, w) => FlatWriteTries(o, [m.body[w..]]);
  }

  lemma AdvanceIpcTries(s: SendStep, o: OutStream)
    requires Resumable(Ipc, s)
    ensures Tries(Ipc, s, o)
  {
    match s
    case TransportHdr(m, w) => WriteTries(o, TransportHeader(Ipc, m)[w..]);
    case ProtocolHdr(m, w) => WriteTries(o, m.header[w..]);
    case UsrPayload(m, w) => WriteTries(o, m.body[w..]);
  }

  lemma {:induction false} ResumeShortens(t: Transport, s: SendStep, o: OutStream)
    requires Resumable(t, s)
    ensures var o' := Resume(t, s, o).stream;
            |o'.script| <= |o.script| && (Offset(t, s) < |Frame(t, s.msg)| ==> Used(o.script, o'.script))
    decreases SectionsLeft(s)
  {
    if t == Tcp {
      AdvanceTcpTries(s, o);
    } else {
      AdvanceIpcTries(s, o);
    }
    var (a, o') := Advance(t, s, o);
    if a.Ok? && a.value.0 && !a.value.1.Terminal? {
      ResumeShortens(t, a.value.1, o');
    }
  }

  /** A read used an answer, if there was one. */
  predicate Shortens(i: InStream, i': InStream) {
    |i'.script| <= |i.script| && Used(i.script, i'.script)
  }

  lemma ReadHeaderShortens(t: Transport, i: InStream, buffer: Bytes, read: nat, maxSize: nat)
    requires |buffer| == HdrLen(t) && read <= |buffer|
    ensures Shortens(i, ReadHeader(t, i, buffer, read, maxSize).1)
  {
    var (got, i') := FlatRead(i, |buffer| - read);
    if got.Ok? {
      assert ReadHeader(t, i, buffer, read, maxSize) == (TakeHeader(t, buffer, read, maxSize, got.value), i');
    }
  }

  lemma ReadPayloadShortens(i: InStream, buffer: Bytes, read: nat)
    requires read <= |buffer|
    ensures Shortens(i, ReadPayload(i, buffer, read).1)
  {
    var (got, i') := FlatRead(i, |buffer| - read);
    if got.Ok? {
      assert ReadPayload(i, buffer, read) == (TakePayload(buffer, read, got.value), i');
    }
  }

  lemma AdvanceReadShortens(t: Transport, s: RecvStep, i: InStream)
    requires Readable(t, s)
    ensures Shortens(i, AdvanceRead(t, s, i).1)
  {
    match s
    case Header(buffer, read, maxSize) => ReadHeaderShortens(t, i, buffer, read, maxSize);
    case Payload(buffer, read) => ReadPayloadShortens(i, buffer, read);
  }

  lemma {:induction false} ResumeReadShortens(t: Transport, s: RecvStep, i: InStream)
    requires Readable(t, s)
    ensures Shortens(i, ResumeRead(t, s, i).stream)
    decreases if s.Header? then 1 else 0
  {
    AdvanceReadShortens(t, s, i);
    var (a, i') := AdvanceRead(t, s, i);
    if a.Ok? && a.value.0 && !a.value.1.Complete? {
      ResumeReadShortens(t, a.value.1, i');
    }
  }

  /** What an input makes a pipe try: the first write or read of a new operation, or the next of an unfinished one. */
  predicate TriesToSend(p: Pipe, input: Input) {
    input.Send? || (input.Ready? && input.writable && p.stub.sending.Some?)
  }

  predicate TriesToRecv(p: Pipe, input: Input) {
    input.Recv? || (input.Ready? && input.readable && p.stub.receiving.Some?)
  }

  lemma ReadTries(p: Pipe, readable: bool, hup: bool)
    ensures var r := ReadableChanged(p, readable, hup);
            && r.pipe.stub.out == p.stub.out && r.pipe.stub.sending == p.stub.sending
            && (readable && p.stub.receiving.Some? ==>
                  r.pipe.stub.inp == ResumeRead(p.stub.transport, p.stub.receiving.value, p.stub.inp).stream)
  {
  }

  lemma WriteTriesOn(p: Pipe, writable: bool, hup: bool)
    ensures var r := WritableChanged(p, writable, hup);
            && r.pipe.stub.inp == p.stub.inp
            && (writable && p.stub.sending.Some? ==>
                  r.pipe.stub.out == Resume(p.stub.transport, p.stub.sending.value, p.stub.out).stream)
  {
  }

  lemma ReadyTries(p: Pipe, readable: bool, writable: bool, hup: bool)
    requires SendInv(p) && OnReady(p, readable, writable, hup).answer.Ok?
    ensures var q := OnReady(p, readable, writable, hup).pipe;
            && (readable && p.stub.receiving.Some? ==> Used(p.stub.inp.script, q.stub.inp.script))
            && (writable && p.stub.sending.Some? ==> Used(p.stub.out.script, q.stub.out.script))
  {
    ReadTries(p, readable, hup);
    WriteTriesOn(ReadableChanged(p, readable, hup).pipe, writable, hup);
    if readable && p.stub.receiving.Some? {
      ResumeReadShortens(p.stub.transport, p.stub.receiving.value, p.stub.inp);
    }
    if writable && p.stub.sending.Some? {
      ResumeShortens(p.stub.transport, p.stub.sending.value, p.stub.out);
    }
  }

  lemma StepTries(p: Pipe, input: Input)
    requires SendInv(p) && !p.dead && !Step(p, input).dead
    ensures var q := Step(p, input);
            && (TriesToSend(p, input) ==> Used(p.stub.out.script, q.stub.out.script))
            && (TriesToRecv(p, input) ==> Used(p.stub.inp.script, q.stub.inp.script))
  {
    match input
    case Send(m) => ResumeShortens(p.stub.transport, TransportHdr(m, 0), p.stub.out);
    case Recv => ResumeReadShortens(p.stub.transport, Start(p.stub.transport, p.stub.maxSize), p.stub.inp);
    case Ready(readable, writable, hup) => ReadyTries(p, readable, writable, hup);
  }

  /**
   After any run, a call to send or receive, and a readiness event that finds one unfinished, is tried at once: it uses
   at least one answer of the stream it is for.
   */
  lemma EveryOperationIsTried(t: Transport, maxSize: nat, script: seq<Answer>, inp: InStream, inputs: seq<Input>, input: Input)
    requires AllowedRun(Fresh(t, maxSize, script, inp), inputs)
    requires !Step(Run(Fresh(t, maxSize, script, inp), inputs), input).dead
    ensures var p := Run(Fresh(t, maxSize, script, inp), inputs);
            var q := Step(p, input);
            && (input.Send? || (input.Ready? && input.writable && |Calls(p.log)| > Sents(p.log)) ==>
                  Used(p.stub.out.script, q.stub.out.script))
            && (input.Recv? || (input.Ready? && input.readable && RecvCalls(p.log) > |Delivered(p.log)|) ==>
                  Used(p.stub.inp.script, q.stub.inp.script))
  {
    RunLives(Fresh(t, maxSize, script, inp), inputs);
    StepTries(Run(Fresh(t, maxSize, script, inp), inputs), input);
  }

  // ---------------------------------------------------------------- and finished if they can be

  /** The next `n` answers take, or give, as much as `size`. */
  predicate Generous(script: seq<Answer>, n: nat, size: nat) {
    n <= |script| && forall i :: 0 <= i < n ==> script[i].Move? && script[i].n >= size
  }

  lemma GenerousWrite(o: OutStream, buf: Bytes, n: nat, size: nat)
    requires Generous(o.script, n, size) && n > 0 && |buf| <= size
    ensures Write(o, buf).0 == Ok(|buf|) && Generous(Write(o, buf).1.script, n - 1, size)
  {
    assert o.script[0].Move?;
  }

  lemma GenerousFlatWrite(o: OutStream, bufs: seq<Bytes>, n: nat, size: nat)
    requires Generous(o.script, n, size) && n > 0 && |Join(bufs)| <= size
    ensures FlatWrite(o, bufs).0 == Ok(|Join(bufs)|) && Generous(FlatWrite(o, bufs).1.script, n - 1, size)
  {
    GenerousWrite(o, Join(bufs), n, size);
  }

  lemma GenerousTcp(s: SendStep, o: OutStream, n: nat)
    requires Resumable(Tcp, s) && Generous(o.script, n, |Frame(Tcp, s.msg)|) && n > 0
    ensures Advance(Tcp, s, o).0 == Ok((true, Terminal))
  {
    var size := |Frame(Tcp, s.msg)|;
    match s
    case TransportHdr(m, w) =>
      FirstBufsJoin(m, BE64(Len(m))[w..]);
      GenerousFlatWrite(o, FirstBufs(m, BE64(Len(m))[w..]), n, size);
    case ProtocolHdr(m, w) =>
      JoinFew(m.header[w..], m.body, []);
      GenerousFlatWrite(o, [m.header[w..], m.body], n, size);
    case UsrPayload(m, w) =>
      JoinFew(m.body[w..], [], []);
      GenerousFlatWrite(o, [m.body[w..]], n, size);
  }

  lemma GenerousIpc(s: SendStep, o: OutStream)
    requires Resumable(Ipc, s) && Generous(o.script, SectionsLeft(s), |Frame(Ipc, s.msg)|)
    ensures var (a, o') := Advance(Ipc, s, o);
            && a.Ok? && a.value.0
            && (!a.value.1.Terminal? ==>
                  a.value.1.msg == s.msg && SectionsLeft(a.value.1) == SectionsLeft(s) - 1
                  && Generous(o'.script, SectionsLeft(s) - 1, |Frame(Ipc, s.msg)|))
  {
    var size := |Frame(Ipc, s.msg)|;
    match s
    case TransportHdr(m, w) => GenerousWrite(o, TransportHeader(Ipc, m)[w..], 3, size);
    case ProtocolHdr(m, w) => GenerousWrite(o, m.header[w..], 2, size);
    case UsrPayload(m, w) => GenerousWrite(o, m.body[w..], 1, size);
  }

  /** A message goes out in one go if the stream takes all it is offered. */
  lemma {:induction false} GenerousSends(t: Transport, s: SendStep, o: OutStream)
    requires Resumable(t, s) && Generous(o.script, SectionsLeft(s), |Frame(t, s.msg)|)
    ensures Resume(t, s, o).answer == Ok(true)
    decreases SectionsLeft(s)
  {
    if t == Tcp {
      GenerousTcp(s, o, SectionsLeft(s));
    } else {
      GenerousIpc(s, o);
      var (a, o') := Advance(t, s, o);
      if !a.value.1.Terminal? {
        GenerousSends(t, a.value.1, o');
      }
    }
  }

  lemma GenerousRead(i: InStream, room: nat, n: nat, size: nat)
    requires Generous(i.script, n, size) && n > 0 && room <= size && room <= |i.bytes|
    ensures var (a, i') := FlatRead(i, room);
            a == Ok(i.bytes[..room]) && i'.bytes == i.bytes[room..] && Generous(i'.script, n - 1, size)
  {
    assert i.script[0].Move?;
  }

  /** How many reads a step takes, if each gives all that is asked for. */
  function ReadsLeft(s: RecvStep): (n: nat) {
    if s.Header? then 2 else 1
  }

  lemma GenerousHeader(t: Transport, maxSize: nat, f: Bytes, s: RecvStep, rest: Bytes, i: InStream)
    requires s.Header? && Parsed(t, maxSize, f, s) && Remains(i.bytes, f, s.read, rest) && Accepts(maxSize, |f| - HdrLen(t))
    requires Generous(i.script, 2, |f|)
    ensures var (a, i') := AdvanceRead(t, s, i);
            && a.Ok? && a.value.0 && a.value.1.Payload? && Parsed(t, maxSize, f, a.value.1)
            && Remains(i'.bytes, f, ReadOffset(t, a.value.1), rest) && Generous(i'.script, 1, |f|)
  {
    GenerousRead(i, |s.buffer| - s.read, 2, |f|);
    assert Coming(i, []) == i.bytes;
    HeaderReadsOn(t, maxSize, f, s, rest, [], i);
    var i' := AdvanceRead(t, s, i).1;
    assert Coming(i', []) == i'.bytes;
  }

  lemma GenerousPayload(t: Transport, maxSize: nat, f: Bytes, s: RecvStep, rest: Bytes, i: InStream)
    requires s.Payload? && Parsed(t, maxSize, f, s) && Remains(i.bytes, f, ReadOffset(t, s), rest)
    requires Generous(i.script, 1, |f|)
    ensures var (a, i') := AdvanceRead(t, s, i);
            a.Ok? && a.value.0 && a.value.1.Complete?
  {
    GenerousRead(i, |s.buffer| - s.read, 1, |f|);
  }

  /** A frame that is there, within the limit, is handed up in one go if the stream gives all that is asked for. */
  lemma {:induction false} GenerousReceives(t: Transport, maxSize: nat, f: Bytes, s: RecvStep, rest: Bytes, i: InStream)
    requires Parsed(t, maxSize, f, s) && Remains(i.bytes, f, ReadOffset(t, s), rest) && Accepts(maxSize, |f| - HdrLen(t))
    requires Generous(i.script, ReadsLeft(s), |f|)
    ensures ResumeRead(t, s, i).answer == Ok(Some(Message([], f[HdrLen(t)..])))
    decreases ReadsLeft(s)
  {
    assert Coming(i, []) == i.bytes;
    RunParses(t, maxSize, f, s, rest, [], i);
    var (a, i') := AdvanceRead(t, s, i);
    if s.Header? {
      GenerousHeader(t, maxSize, f, s, rest, i);
      GenerousReceives(t, maxSize, f, a.value.1, rest, i');
    } else {
      GenerousPayload(t, maxSize, f, s, rest, i);
    }
  }

  /** After any run, a message handed to a pipe that is alive raises `Sent` at once if the stream takes all it is offered. */
  lemma SendsInOneGo(t: Transport, maxSize: nat, script: seq<Answer>, inp: InStream, inputs: seq<Input>, m: Message)
    requires AllowedRun(Fresh(t, maxSize, script, inp), inputs)
    requires var p := Run(Fresh(t, maxSize, script, inp), inputs);
             !p.dead && Generous(p.stub.out.script, 3, |Frame(t, m)|)
    ensures var p := Run(Fresh(t, maxSize, script, inp), inputs);
            Step(p, Send(m)).log == p.log + [SendCall(m), Raised(Sent)]
  {
    TransportStays(Fresh(t, maxSize, script, inp), inputs);
    GenerousSends(t, TransportHdr(m, 0), Run(Fresh(t, maxSize, script, inp), inputs).stub.out);
  }

  lemma ResumedInOneGo(p: Pipe)
    requires p.stub.sending.Some? && !p.dead
    requires Resume(p.stub.transport, p.stub.sending.value, p.stub.out).answer == Ok(true)
    ensures Sents(Step(p, Ready(false, true, false)).log) == Sents(p.log) + 1
  {
    var q := ChangeCanRecv(p, false);
    LogSnoc(p.log, Raised(CanRecv(false)));
    LogSnoc(q.log, Raised(Sent));
    ResumedSend(q, false);
  }

  /** And one that is unfinished does when the pipe becomes writable. */
  lemma FinishesInOneGo(t: Transport, maxSize: nat, script: seq<Answer>, inp: InStream, inputs: seq<Input>)
    requires AllowedRun(Fresh(t, maxSize, script, inp), inputs)
    requires var p := Run(Fresh(t, maxSize, script, inp), inputs);
             && !p.dead && Sents(p.log) < |Calls(p.log)|
             && Generous(p.stub.out.script, 3, |Frame(t, Calls(p.log)[Sents(p.log)])|)
    ensures var p := Run(Fresh(t, maxSize, script, inp), inputs);
            Sents(Step(p, Ready(false, true, false)).log) == Sents(p.log) + 1
  {
    var p := Run(Fresh(t, maxSize, script, inp), inputs);
    TransportStays(Fresh(t, maxSize, script, inp), inputs);
    RunLives(Fresh(t, maxSize, script, inp), inputs);
    GenerousSends(t, p.stub.sending.value, p.stub.out);
    ResumedInOneGo(p);
  }

  lemma {:induction false} WholeFramesAreThere(t: Transport, b: Bytes)
    ensures |Concat(WholeFrames(t, b))| <= |b|
    decreases |b|
  {
    if HdrLen(t) <= |b| && FrameSize(t, b) <= |b| {
      WholeFramesAreThere(t, b[FrameSize(t, b)..]);
    }
  }

  lemma {:induction false} ConcatOfMore(frames: seq<Bytes>, k: nat, n: nat)
    requires k <= n <= |frames|
    ensures |Concat(frames[k..])| >= |Concat(frames[n..])|
    ensures |Concat(frames)| == |Concat(frames[..k])| + |Concat(frames[k..])|
    decreases |frames|
  {
    if k > 0 {
      ConcatOfMore(frames[1..], k - 1, n - 1);
      assert frames[1..][k - 1..] == frames[k..] && frames[1..][n - 1..] == frames[n..];
      assert frames[..k][1..] == frames[1..][..k - 1];
    } else {
      assert frames[0..] == frames;
      if n > 0 {
        ConcatOfMore(frames[1..], 0, n - 1);
        assert frames[1..][0..] == frames[1..] && frames[1..][n - 1..] == frames[n..];
      }
    }
  }

  /** What has not arrived yet belongs to the frame that is not whole. */
  lemma MoreIsAfter(t: Transport, b: Bytes, frames: seq<Bytes>, more: Bytes, k: nat)
    requires Completed(t, b, frames, more) && k < |WholeFrames(t, b)|
    ensures |more| <= |Concat(frames[k + 1..])|
  {
    var n := |WholeFrames(t, b)|;
    WholeFramesAreThere(t, b);
    ConcatOfMore(frames, n, n);
    ConcatOfMore(frames, k + 1, n);
  }

  lemma RestIsThere(bytes: Bytes, more: Bytes, f: Bytes, off: nat, rest: Bytes)
    requires Remains(bytes + more, f, off, rest) && |more| <= |rest|
    ensures |f| - off <= |bytes| && Remains(bytes, f, off, bytes[|f| - off..])
  {
    var n := |f| - off;
    assert (bytes + more)[..n] == f[off..];
    assert bytes[..n] == f[off..];
  }

  lemma DeliversInOneGo(p: Pipe, frames: seq<Bytes>, more: Bytes, k: nat)
    requires RecvInv(p, frames, more) && AreFrames(p.stub.transport, frames) && p.stub.receiving.None? && !p.dead
    requires k == |Delivered(p.log)| < |frames| && |more| <= |Concat(frames[k + 1..])|
    requires Accepts(p.stub.maxSize, |frames[k]| - HdrLen(p.stub.transport)) && Generous(p.stub.inp.script, 2, |frames[k]|)
    ensures Step(p, Recv).log == p.log + [RecvCall, Raised(Received(PipeLaws.Payload(p.stub.transport, frames[k])))]
  {
    var t, max := p.stub.transport, p.stub.maxSize;
    StartsReading(p, frames, more);
    RestIsThere(p.stub.inp.bytes, more, frames[k], 0, Concat(frames[k + 1..]));
    GenerousReceives(t, max, frames[k], Start(t, max), p.stub.inp.bytes[|frames[k]|..], p.stub.inp);
  }

  /**
   After any run, a call to receive hands up the next whole frame at once, if there is one, it is within the limit, and the
   stream gives all it is asked for.
   */
  lemma ReceivesInOneGo(t: Transport, maxSize: nat, script: seq<Answer>, inp: InStream, inputs: seq<Input>)
    requires AllowedRun(Fresh(t, maxSize, script, inp), inputs)
    requires var p := Run(Fresh(t, maxSize, script, inp), inputs);
             var k, whole := |Delivered(p.log)|, WholeFrames(t, inp.bytes);
             && !p.dead && p.stub.receiving.None? && k < |whole| && HdrLen(t) <= |whole[k]|
             && Accepts(maxSize, |whole[k]| - HdrLen(t)) && Generous(p.stub.inp.script, 2, |whole[k]|)
    ensures var p := Run(Fresh(t, maxSize, script, inp), inputs);
            Step(p, Recv).log == p.log + [RecvCall, Raised(Received(PipeLaws.Payload(t, WholeFrames(t, inp.bytes)[|Delivered(p.log)|])))]
  {
    var start := Fresh(t, maxSize, script, inp);
    var p := Run(start, inputs);
    var k := |Delivered(p.log)|;
    var frames, more := Completes(t, inp.bytes);
    assert frames[0..] == frames;
    RunKeepsRecv(start, frames, more, inputs);
    SizesStay(start, inputs);
    assert WholeFrames(t, inp.bytes)[k] == frames[k];
    MoreIsAfter(t, inp.bytes, frames, more, k);
    DeliversInOneGo(p, frames, more, k);
  }

  lemma {:induction false} SizesStay(p: Pipe, inputs: seq<Input>)
    ensures Run(p, inputs).stub.maxSize == p.stub.maxSize
    decreases |inputs|
  {
    if inputs != [] {
      SizesStay(Step(p, inputs[0]), inputs[1..]);
    }
  }
}

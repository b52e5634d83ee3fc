/** Who may call a pipe when. */
module PipeTurns {
  import opened Core
  import opened Streams
  import opened Sending
  import opened Receiving
  import opened Pipes
  import opened PipeLaws

  // ---------------------------------------------------------------- permission

  /** What the layer above last heard about receiving: a call of its own takes the permission back. */
  function MayRecv(log: seq<Trace>): (b: bool) {
    if log == [] then false
    else
      match Last(log)
      case RecvCall => false
      case Raised(CanRecv(ready)) => ready
      case _ => MayRecv(Front(log))
  }

  /** The receiving counterpart of what `SendInv` says about permission. */
  ghost predicate RecvTurn(p: Pipe) {
    p.canRecv == MayRecv(p.log) && (p.canRecv ==> p.stub.receiving.None?)
  }

  /** A part of a step that is not about the permission to receive. */
  lemma OtherTurns(p: Pipe, q: Pipe, t: Trace)
    requires RecvTurn(p) && q.canRecv == p.canRecv && (q.canRecv ==> q.stub.receiving.None?)
    requires q.log == p.log || q.log == p.log + [t]
    requires !t.RecvCall? && (t.Raised? ==> !t.event.CanRecv?)
    ensures RecvTurn(q)
  {
    LogSnoc(p.log, t);
  }

  lemma RecvProgressTurns(p: Pipe, s: RecvStep)
    requires !p.canRecv && !MayRecv(p.log) && Readable(p.stub.transport, s)
    ensures RecvTurn(OnRecvProgress(p, RunRecv(p.stub, s)).pipe)
  {
    var r := RunRecv(p.stub, s);
    if r.0.Ok? && r.0.value.Some? {
      LogSnoc(p.log, Raised(Received(r.0.value.value)));
    }
  }

  lemma RecvTurns(p: Pipe)
    requires RecvTurn(p) && !p.dead
    ensures !Step(p, Recv).dead ==> RecvTurn(Step(p, Recv))
  {
    LogSnoc(p.log, RecvCall);
    RecvProgressTurns(p.(canRecv := false, log := p.log + [RecvCall]), Start(p.stub.transport, p.stub.maxSize));
  }

  lemma SendProgressTurns(p: Pipe, s: SendStep)
    requires RecvTurn(p) && Resumable(p.stub.transport, s)
    ensures RecvTurn(OnSendProgress(p, RunSend(p.stub, s)).pipe)
  {
    OtherTurns(p, OnSendProgress(p, RunSend(p.stub, s)).pipe, Raised(Sent));
  }

  lemma SendTurns(p: Pipe, m: Message)
    requires RecvTurn(p) && !p.dead
    ensures !Step(p, Send(m)).dead ==> RecvTurn(Step(p, Send(m)))
  {
    var q := p.(canSend := false, log := p.log + [SendCall(m)]);
    OtherTurns(p, q, SendCall(m));
    SendProgressTurns(q, TransportHdr(m, 0));
  }

  lemma ReadableTurns(p: Pipe, readable: bool, hup: bool)
    requires RecvTurn(p)
    ensures RecvTurn(ReadableChanged(p, readable, hup).pipe)
  {
    LogSnoc(p.log, Raised(CanRecv(readable)));
    if readable && p.stub.receiving.Some? {
      ResumedRecv(p, hup);
      RecvProgressTurns(p.(stub := p.stub.(receiving := None)), p.stub.receiving.value);
    }
  }

  lemma WritableTurns(p: Pipe, writable: bool, hup: bool)
    requires RecvTurn(p)
    ensures RecvTurn(WritableChanged(p, writable, hup).pipe)
  {
    if writable && p.stub.sending.Some? {
      ResumedSend(p, hup);
      SendProgressTurns(p.(stub := p.stub.(sending := None)), p.stub.sending.value);
    } else {
      OtherTurns(p, WritableChanged(p, writable, hup).pipe, Raised(CanSend(writable)));
    }
  }

  lemma StepTurns(p: Pipe, input: Input)
    requires !p.dead ==> RecvTurn(p)
    ensures !Step(p, input).dead ==> RecvTurn(Step(p, input))
  {
    if !p.dead {
      match input
      case Send(m) => SendTurns(p, m);
      case Recv => RecvTurns(p);
      case Ready(readable, writable, hup) =>
        ReadableTurns(p, readable, hup);
        WritableTurns(ReadableChanged(p, readable, hup).pipe, writable, hup);
    }
  }

  /** A layer that sends only on the strength of `CanSend(true)` and receives only on that of `CanRecv(true)`. */
  predicate Polite(p: Pipe, input: Input) {
    p.dead || ((input.Send? ==> MaySend(p.log)) && (input.Recv? ==> MayRecv(p.log)))
  }

  predicate PoliteRun(p: Pipe, inputs: seq<Input>)
    decreases |inputs|
  {
    inputs == [] || (Polite(p, inputs[0]) && PoliteRun(Step(p, inputs[0]), inputs[1..]))
  }

  lemma {:induction false} PoliteMeansAllowed(p: Pipe, inputs: seq<Input>)
    requires (!p.dead ==> SendInv(p) && RecvTurn(p)) && PoliteRun(p, inputs)
    ensures AllowedRun(p, inputs)
    decreases |inputs|
  {
    if inputs != [] {
      StepKeepsSend(p, inputs[0]);
      StepTurns(p, inputs[0]);
      PoliteMeansAllowed(Step(p, inputs[0]), inputs[1..]);
    }
  }

  /** So what every run is required to keep to is what the notices say: no operation is ever started over another. */
  lemma PoliteRunIsAllowed(t: Transport, maxSize: nat, script: seq<Answer>, inp: InStream, inputs: seq<Input>)
    requires PoliteRun(Fresh(t, maxSize, script, inp), inputs)
    ensures AllowedRun(Fresh(t, maxSize, script, inp), inputs)
  {
    PoliteMeansAllowed(Fresh(t, maxSize, script, inp), inputs);
  }
}

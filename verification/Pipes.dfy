/**
 A connected pipe: the stub, which holds the unfinished operations, and the `Active` state above it,
 which decides what to report. A step takes one call or one readiness event.
 */
module Pipes {
  import opened Core
  import opened Streams
  import opened Sending
  import opened Receiving

  datatype Event = Sent | Received(msg: Message) | CanSend(ready: bool) | CanRecv(ready: bool) | Error(error: IoError)

  /** What happened at the upper side of the pipe, in order. */
  datatype Trace = SendCall(msg: Message) | RecvCall | Raised(event: Event)

  datatype Input = Send(msg: Message) | Recv | Ready(readable: bool, writable: bool, hup: bool)

  /** The stream with the unfinished operations on it. */
  datatype Stub = Stub(
    transport: Transport,
    maxSize: nat,
    out: OutStream,
    inp: InStream,
    sending: Option<SendStep>,
    receiving: Option<RecvStep>)

  /** The saved operations are ones that can be resumed. */
  predicate Wf(s: Stub) {
    && (s.sending.Some? ==> Resumable(s.transport, s.sending.value))
    && (s.receiving.Some? ==> Readable(s.transport, s.receiving.value))
  }

  type LiveStub = s: Stub | Wf(s) witness Stub(Tcp, 0, OutStream([], []), InStream([], []), None, None)

  datatype Pipe = Pipe(stub: LiveStub, canSend: bool, canRecv: bool, log: seq<Trace>, dead: bool)

  function Fresh(t: Transport, maxSize: nat, outScript: seq<Answer>, inp: InStream): (p: Pipe) {
    Pipe(Stub(t, maxSize, OutStream([], outScript), inp, None, None), false, false, [], false)
  }

  // ---------------------------------------------------------------- stub

  function RunSend(b: LiveStub, s: SendStep): (r: (Io<bool>, LiveStub))
    requires Resumable(b.transport, s)
    ensures r.1.transport == b.transport && r.1.maxSize == b.maxSize
  {
    var run := Resume(b.transport, s, b.out);
    ResumeSaves(b.transport, s, b.out);
    (run.answer, b.(out := run.stream, sending := if run.answer == Ok(false) then run.saved else b.sending))
  }

  function StartSend(b: LiveStub, m: Message): (r: (Io<bool>, LiveStub))
    ensures r.1.transport == b.transport && r.1.maxSize == b.maxSize
  {
    RunSend(b, TransportHdr(m, 0))
  }

  function ResumeSend(b: LiveStub): (r: (Io<bool>, LiveStub))
    ensures r.1.transport == b.transport && r.1.maxSize == b.maxSize
  {
    match b.sending
    case Some(s) => RunSend(b.(sending := None), s)
    case None => (Err(NothingPending), b)
  }

  function RunRecv(b: LiveStub, s: RecvStep): (r: (Io<Option<Message>>, LiveStub))
    requires Readable(b.transport, s)
    ensures r.1.transport == b.transport && r.1.maxSize == b.maxSize
  {
    var run := ResumeRead(b.transport, s, b.inp);
    ResumeReadSaves(b.transport, s, b.inp);
    (run.answer, b.(inp := run.stream, receiving := if run.answer == Ok(None) then run.saved else b.receiving))
  }

  function StartRecv(b: LiveStub): (r: (Io<Option<Message>>, LiveStub))
    ensures r.1.transport == b.transport && r.1.maxSize == b.maxSize
  {
    RunRecv(b, Start(b.transport, b.maxSize))
  }

  function ResumeRecv(b: LiveStub): (r: (Io<Option<Message>>, LiveStub))
    ensures r.1.transport == b.transport && r.1.maxSize == b.maxSize
  {
    match b.receiving
    case Some(s) => RunRecv(b.(receiving := None), s)
    case None => (Err(NothingPending), b)
  }

  lemma {:induction false} ResumeSaves(t: Transport, s: SendStep, o: OutStream)
    requires Resumable(t, s)
    ensures var r := Resume(t, s, o);
            r.answer == Ok(false) ==> r.saved.Some? && Resumable(t, r.saved.value) && r.saved.value.msg == s.msg
    decreases SectionsLeft(s)
  {
    var n := RunAppends(t, s, o);
  }

  lemma {:induction false} ResumeReadSaves(t: Transport, s: RecvStep, i: InStream)
    requires Readable(t, s)
    ensures var r := ResumeRead(t, s, i);
            r.answer == Ok(None) ==> r.saved.Some? && Readable(t, r.saved.value)
    decreases if s.Header? then 1 else 0
  {
    var (a, i') := AdvanceRead(t, s, i);
    if a.Ok? && a.value.0 && !a.value.1.Complete? {
      ResumeReadSaves(t, a.value.1, i');
    }
  }

  // ---------------------------------------------------------------- active

  /** A transition that may fail; a failed one makes the pipe dead. */
  datatype Progress = Progress(answer: Io<()>, pipe: Pipe)

  function Raise(p: Pipe, e: Event): (r: Pipe) {
    p.(log := p.log + [Raised(e)])
  }

  function OnSendProgress(p: Pipe, r: (Io<bool>, LiveStub)): (q: Progress) {
    var moved := p.(stub := r.1);
    match r.0
    case Err(e) => Progress(Err(e), moved)
    case Ok(sent) => Progress(Ok(()), if sent then Raise(moved, Sent) else moved)
  }

  function OnRecvProgress(p: Pipe, r: (Io<Option<Message>>, LiveStub)): (q: Progress) {
    var moved := p.(stub := r.1);
    match r.0
    case Err(e) => Progress(Err(e), moved)
    case Ok(None) => Progress(Ok(()), moved)
    case Ok(Some(m)) => Progress(Ok(()), Raise(moved, Received(m)))
  }

  function ChangeCanSend(p: Pipe, ready: bool): (r: Pipe) {
    if p.canSend == ready then p else Raise(p.(canSend := ready), CanSend(ready))
  }

  function ChangeCanRecv(p: Pipe, ready: bool): (r: Pipe) {
    if p.canRecv == ready then p else Raise(p.(canRecv := ready), CanRecv(ready))
  }

  function WritableChanged(p: Pipe, writable: bool, hup: bool): (r: Progress)
    ensures r.pipe.stub.transport == p.stub.transport && r.pipe.stub.maxSize == p.stub.maxSize
  {
    if !writable then Progress(Ok(()), ChangeCanSend(p, false))
    else if p.stub.sending.Some? then OnSendProgress(p, ResumeSend(p.stub))
    else if !hup then Progress(Ok(()), ChangeCanSend(p, true))
    else Progress(Ok(()), p)
  }

  function ReadableChanged(p: Pipe, readable: bool, hup: bool): (r: Progress)
    ensures r.pipe.stub.transport == p.stub.transport && r.pipe.stub.maxSize == p.stub.maxSize
  {
    if !readable then Progress(Ok(()), ChangeCanRecv(p, false))
    else if p.stub.receiving.Some? then OnRecvProgress(p, ResumeRecv(p.stub))
    else if !hup then Progress(Ok(()), ChangeCanRecv(p, true))
    else Progress(Ok(()), p)
  }

  function HangUpChanged(p: Pipe, hup: bool): (r: Progress) {
    if hup then Progress(Err(HungUp), p.(canSend := false, canRecv := false)) else Progress(Ok(()), p)
  }

  /** `no_transition_if_ok`. */
  function Settle(r: Progress): (p: Pipe) {
    match r.answer
    case Ok(_) => r.pipe
    case Err(e) => Raise(r.pipe, Error(e)).(dead := true)
  }

  function OnReady(p: Pipe, readable: bool, writable: bool, hup: bool): (r: Progress)
    ensures r.pipe.stub.transport == p.stub.transport && r.pipe.stub.maxSize == p.stub.maxSize
  {
    var r1 := ReadableChanged(p, readable, hup);
    if r1.answer.Err? then r1
    else
      var r2 := WritableChanged(r1.pipe, writable, hup);
      if r2.answer.Err? then r2 else HangUpChanged(r2.pipe, hup)
  }

  function Step(p: Pipe, input: Input): (r: Pipe)
    ensures r.stub.transport == p.stub.transport && r.stub.maxSize == p.stub.maxSize
  {
    if p.dead then p
    else
      match input
      case Send(m) => Settle(OnSendProgress(p.(canSend := false, log := p.log + [SendCall(m)]), StartSend(p.stub, m)))
      case Recv => Settle(OnRecvProgress(p.(canRecv := false, log := p.log + [RecvCall]), StartRecv(p.stub)))
      case Ready(readable, writable, hup) => Settle(OnReady(p, readable, writable, hup))
  }

  function Run(p: Pipe, inputs: seq<Input>): (r: Pipe)
    decreases |inputs|
  {
    if inputs == [] then p else Run(Step(p, inputs[0]), inputs[1..])
  }

  /** The discipline of the layer above: an operation is started only when none is unfinished; a dead pipe takes anything. */
  predicate Allowed(p: Pipe, input: Input) {
    p.dead || ((input.Send? ==> p.stub.sending.None?) && (input.Recv? ==> p.stub.receiving.None?))
  }

  predicate AllowedRun(p: Pipe, inputs: seq<Input>)
    decreases |inputs|
  {
    inputs == [] || (Allowed(p, inputs[0]) && AllowedRun(Step(p, inputs[0]), inputs[1..]))
  }
}

/** The stub and the `Active` pipe state in place. */
module ActivePipes {
  import opened Core
  import opened Streams
  import opened Sending
  import opened Receiving
  import opened Pipes
  import opened PipeObjects

  class PipeStub {
    const transport: Transport
    const maxSize: nat
    var out: OutStream
    var inp: InStream
    var sendOperation: SendOperation?
    var recvOperation: RecvOperation?

    /** The stub with what it owns. */
    ghost var Repr: set<object>

    ghost predicate Valid()
      reads this, Repr
    {
      && this in Repr
      && (sendOperation != null ==>
            && sendOperation in Repr && sendOperation.transport == transport
            && sendOperation.step.Some? && sendOperation.Valid())
      && (recvOperation != null ==>
            && recvOperation in Repr && recvOperation.transport == transport
            && recvOperation.step.Some? && recvOperation.Buffers() <= Repr && this !in recvOperation.Buffers()
            && recvOperation.Valid())
    }

    ghost function View(): (s: LiveStub)
      requires Valid()
      reads this, Repr
    {
      Stub(transport, maxSize, out, inp,
           if sendOperation == null then None else sendOperation.step,
           if recvOperation == null then None else Some(Shown(recvOperation.step.value)))
    }

    constructor (transport: Transport, maxSize: nat, out: OutStream, inp: InStream)
      ensures Valid() && fresh(Repr) && View() == Stub(transport, maxSize, out, inp, None, None)
    {
      this.transport, this.maxSize, this.out, this.inp := transport, maxSize, out, inp;
      sendOperation, recvOperation := null, null;
      Repr := {this};
    }

    method RunSendOperation(op: SendOperation) returns (r: Io<bool>)
      requires Valid() && op != sendOperation && op.Valid() && op.transport == transport && op.step.Some?
      modifies this, op
      ensures Valid() && (r, View()) == RunSend(old(View()), old(op.step.value))
      ensures Repr == old(Repr) + {op}
    {
      ghost var before := View();
      ghost var run := Resume(transport, op.step.value, out);
      ResumeSaves(transport, op.step.value, out);
      ghost var sending := if run.answer == Ok(false) then run.saved else before.sending;
      assert RunSend(before, op.step.value) == (run.answer, before.(out := run.stream, sending := sending));
      r, out := op.Run(out);
      assert SendRun(r, op.step, out) == run;
      Repr := Repr + {op};
      if r == Ok(false) {
        sendOperation := op;
      }
    }

    method StartSend(msg: Message) returns (r: Io<bool>)
      requires Valid()
      modifies this
      ensures Valid() && (r, View()) == Pipes.StartSend(old(View()), msg)
      ensures fresh(Repr - old(Repr))
    {
      var op := new SendOperation(transport, msg);
      r := RunSendOperation(op);
    }

    method ResumeSend() returns (r: Io<bool>)
      requires Valid()
      modifies Repr
      ensures Valid() && (r, View()) == Pipes.ResumeSend(old(View()))
      ensures Repr == old(Repr)
    {
      if sendOperation == null {
        return Err(NothingPending);
      }
      var op := sendOperation;
      sendOperation := null;
      r := RunSendOperation(op);
    }

    /** Runs an operation that is not the one stored. */
    method ReadWith(op: RecvOperation) returns (r: Io<Option<Message>>)
      requires Valid() && op.Valid() && op.transport == transport && op.step.Some? && this !in op.Buffers()
      requires recvOperation != null ==> op != recvOperation && op.Buffers() !! recvOperation.Buffers()
      modifies this`inp, op, op.Buffers()
      ensures var run := ResumeRead(transport, old(Shown(op.step.value)), old(inp));
              && Valid() && View() == old(View()).(inp := run.stream)
              && r == run.answer && op.Valid()
              && (r == Ok(None) ==> op.step.Some? && run.saved == Some(Shown(op.step.value)))
      ensures fresh(op.Buffers() - old(op.Buffers()))
    {
      ResumeReadSaves(transport, Shown(op.step.value), inp);
      r, inp := op.Run(inp);
    }

    method RunRecvOperation(op: RecvOperation) returns (r: Io<Option<Message>>)
      requires Valid() && op.Valid() && op.transport == transport && op.step.Some? && this !in op.Buffers()
      requires recvOperation != null ==> op != recvOperation && op.Buffers() !! recvOperation.Buffers()
      modifies this, op, op.Buffers()
      ensures Valid() && (r, View()) == RunRecv(old(View()), old(Shown(op.step.value)))
      ensures Repr == old(Repr) + {op} + op.Buffers() && fresh(op.Buffers() - old(op.Buffers()))
    {
      r := ReadWith(op);
      Repr := Repr + {op} + op.Buffers();
      if r == Ok(None) {
        recvOperation := op;
      }
    }

    method StartRecv() returns (r: Io<Option<Message>>)
      requires Valid()
      modifies this
      ensures Valid() && (r, View()) == Pipes.StartRecv(old(View()))
      ensures fresh(Repr - old(Repr))
    {
      var op := new RecvOperation(transport, maxSize);
      r := RunRecvOperation(op);
    }

    method ResumeRecv() returns (r: Io<Option<Message>>)
      requires Valid()
      modifies Repr
      ensures Valid() && (r, View()) == Pipes.ResumeRecv(old(View()))
      ensures fresh(Repr - old(Repr))
    {
      if recvOperation == null {
        return Err(NothingPending);
      }
      var op := recvOperation;
      recvOperation := null;
      r := RunRecvOperation(op);
    }
  }

  class ActivePipe {
    const stub: PipeStub
    var canSendMsg: bool
    var canRecvMsg: bool
    var log: seq<Trace>
    var dead: bool

    ghost predicate Valid()
      reads this, stub, stub.Repr
    {
      this !in stub.Repr && stub.Valid()
    }

    ghost function View(): (p: Pipe)
      requires Valid()
      reads this, stub, stub.Repr
    {
      Pipe(stub.View(), canSendMsg, canRecvMsg, log, dead)
    }

    constructor (stub: PipeStub)
      requires stub.Valid()
      ensures this.stub == stub && Valid() && View() == Pipe(stub.View(), false, false, [], false)
    {
      this.stub := stub;
      canSendMsg, canRecvMsg, log, dead := false, false, [], false;
    }

    method Raise(e: Event)
      modifies this`log
      ensures log == old(log) + [Raised(e)]
    {
      log := log + [Raised(e)];
    }

    method OnSendProgress(progress: Io<bool>) returns (r: Io<()>)
      modifies this`log
      ensures r == match progress case Ok(_) => Ok(()) case Err(e) => Err(e)
      ensures log == if progress == Ok(true) then old(log) + [Raised(Sent)] else old(log)
    {
      if progress.Err? {
        return Err(progress.error);
      }
      if progress.value {
        Raise(Sent);
      }
      return Ok(());
    }

    method OnRecvProgress(progress: Io<Option<Message>>) returns (r: Io<()>)
      modifies this`log
      ensures r == match progress case Ok(_) => Ok(()) case Err(e) => Err(e)
      ensures log == match progress case Ok(Some(m)) => old(log) + [Raised(Received(m))] case _ => old(log)
    {
      if progress.Err? {
        return Err(progress.error);
      }
      if progress.value.Some? {
        Raise(Received(progress.value.value));
      }
      return Ok(());
    }

    method ChangeCanSend(ready: bool)
      requires Valid()
      modifies this`canSendMsg, this`log
      ensures View() == Pipes.ChangeCanSend(old(View()), ready)
    {
      if canSendMsg != ready {
        canSendMsg := ready;
        Raise(CanSend(ready));
      }
    }

    method ChangeCanRecv(ready: bool)
      requires Valid()
      modifies this`canRecvMsg, this`log
      ensures View() == Pipes.ChangeCanRecv(old(View()), ready)
    {
      if canRecvMsg != ready {
        canRecvMsg := ready;
        Raise(CanRecv(ready));
      }
    }

    method WritableChanged(writable: bool, hup: bool) returns (r: Io<()>)
      requires Valid()
      modifies this, stub.Repr
      ensures Valid() && Progress(r, View()) == Pipes.WritableChanged(old(View()), writable, hup)
      ensures fresh(stub.Repr - old(stub.Repr))
    {
      if !writable {
        ChangeCanSend(false);
        return Ok(());
      }
      if stub.sendOperation != null {
        var progress := stub.ResumeSend();
        r := OnSendProgress(progress);
        return r;
      }
      if !hup {
        ChangeCanSend(true);
      }
      return Ok(());
    }

    method ReadableChanged(readable: bool, hup: bool) returns (r: Io<()>)
      requires Valid()
      modifies this, stub.Repr
      ensures Valid() && Progress(r, View()) == Pipes.ReadableChanged(old(View()), readable, hup)
      ensures fresh(stub.Repr - old(stub.Repr))
    {
      if !readable {
        ChangeCanRecv(false);
        return Ok(());
      }
      if stub.recvOperation != null {
        var progress := stub.ResumeRecv();
        r := OnRecvProgress(progress);
        return r;
      }
      if !hup {
        ChangeCanRecv(true);
      }
      return Ok(());
    }

    method HangUpChanged(hup: bool) returns (r: Io<()>)
      requires Valid()
      modifies this`canSendMsg, this`canRecvMsg
      ensures Progress(r, View()) == Pipes.HangUpChanged(old(View()), hup)
    {
      if hup {
        canSendMsg, canRecvMsg := false, false;
        return Err(HungUp);
      }
      return Ok(());
    }

    /** A failed transition raises the error and leaves the pipe dead. */
    method Settle(r: Io<()>)
      requires Valid()
      modifies this`log, this`dead
      ensures View() == Pipes.Settle(Progress(r, old(View())))
    {
      if r.Err? {
        Raise(Error(r.error));
        dead := true;
      }
    }

    method FinishReady(writable: bool, hup: bool) returns (r: Io<()>)
      requires Valid()
      modifies this, stub.Repr
      ensures var r2 := Pipes.WritableChanged(old(View()), writable, hup);
              Valid() && Progress(r, View()) == if r2.answer.Err? then r2 else Pipes.HangUpChanged(r2.pipe, hup)
      ensures fresh(stub.Repr - old(stub.Repr))
    {
      r := WritableChanged(writable, hup);
      if r.Ok? {
        r := HangUpChanged(hup);
      }
    }

    method OnReady(readable: bool, writable: bool, hup: bool) returns (r: Io<()>)
      requires Valid()
      modifies this, stub.Repr
      ensures Valid() && Progress(r, View()) == Pipes.OnReady(old(View()), readable, writable, hup)
      ensures fresh(stub.Repr - old(stub.Repr))
    {
      r := ReadableChanged(readable, hup);
      if r.Ok? {
        r := FinishReady(writable, hup);
      }
    }

    method BeginSend(msg: Message) returns (r: Io<()>)
      requires Valid()
      modifies this`log, stub.Repr
      ensures Valid() && fresh(stub.Repr - old(stub.Repr))
      ensures Progress(r, View()) == Pipes.OnSendProgress(old(View()), Pipes.StartSend(old(View()).stub, msg))
    {
      var progress := stub.StartSend(msg);
      r := OnSendProgress(progress);
    }

    method BeginRecv() returns (r: Io<()>)
      requires Valid()
      modifies this`log, stub.Repr
      ensures Valid() && fresh(stub.Repr - old(stub.Repr))
      ensures Progress(r, View()) == Pipes.OnRecvProgress(old(View()), Pipes.StartRecv(old(View()).stub))
    {
      var progress := stub.StartRecv();
      r := OnRecvProgress(progress);
    }

    /** A call of the layer above takes its permission back. */
    method NoteCall(call: Trace, canSend: bool, canRecv: bool)
      requires Valid()
      modifies this`canSendMsg, this`canRecvMsg, this`log
      ensures View() == old(View()).(canSend := canSend, canRecv := canRecv, log := old(log) + [call])
    {
      canSendMsg, canRecvMsg := canSend, canRecv;
      log := log + [call];
    }

    method Send(msg: Message)
      requires Valid() && !dead
      modifies this, stub.Repr
      ensures Valid() && View() == Step(old(View()), Input.Send(msg))
      ensures fresh(stub.Repr - old(stub.Repr))
    {
      NoteCall(SendCall(msg), false, canRecvMsg);
      var r := BeginSend(msg);
      Settle(r);
    }

    method Recv()
      requires Valid() && !dead
      modifies this, stub.Repr
      ensures Valid() && View() == Step(old(View()), Input.Recv)
      ensures fresh(stub.Repr - old(stub.Repr))
    {
      NoteCall(RecvCall, canSendMsg, false);
      var r := BeginRecv();
      Settle(r);
    }

    method Ready(readable: bool, writable: bool, hup: bool)
      requires Valid() && !dead
      modifies this, stub.Repr
      ensures Valid() && View() == Step(old(View()), Input.Ready(readable, writable, hup))
      ensures fresh(stub.Repr - old(stub.Repr))
    {
      var r := OnReady(readable, writable, hup);
      Settle(r);
    }
  }
}

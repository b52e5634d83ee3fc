/** The bus: what the user sends goes to every ready pipe but the one it came from; what arrives is taken in turn. */
module BusProtocol {
  import opened Core
  import opened Scheduling
  import opened Contexts
  import opened Broadcast

  datatype State =
    | Idle
    | Receiving(eid: EndpointId, timeout: Timeout)
    | RecvOnHold(timeout: Timeout)

  datatype Socket = Socket(state: State, bc: set<EndpointId>, fq: Sched, pipes: set<EndpointId>, ctx: Ctx)

  /** A send comes with the order in which the ready set happens to be drained. */
  datatype Event =
    | AddPipe(eid: EndpointId, priority: Priority)
    | RemovePipe(eid: EndpointId)
    | Send(msg: Message, timeout: Timeout, order: seq<EndpointId>)
    | SendAck(eid: EndpointId)
    | SendTimeout(timer: Timer)
    | SendReady(eid: EndpointId)
    | SendNotReady(eid: EndpointId)
    | Recv(timeout: Timeout)
    | RecvAck(eid: EndpointId, raw: Message)
    | RecvTimeout(timer: Timer)
    | RecvReady(eid: EndpointId)
    | RecvNotReady(eid: EndpointId)

  const NEW: Socket := Socket(Idle, {}, EMPTY, {}, START)

  /** `decode`: the endpoint goes after the header. */
  function Decode(raw: Message, eid: EndpointId): (r: Message) {
    Message(raw.header + BE32(eid), raw.body)
  }

  /** `encode`: the originator is taken from the front of the header, if there is one. */
  function Encode(msg: Message): (r: (Message, Option<EndpointId>)) {
    if |msg.header| < 4 then (msg, None)
    else (Message(msg.header[4..], msg.body), Some(ReadBigEndian(msg.header[..4])))
  }

  /** An originator is left out, and stays ready, only if it was ready. */
  function Transmit(s: Socket, raw: Message, oid: Option<EndpointId>, order: seq<EndpointId>): (r: Socket)
    ensures r == s.(bc := r.bc, ctx := s.ctx.(sent := r.ctx.sent))
  {
    if oid.Some? && oid.value in s.bc then
      s.(bc := {oid.value}, ctx := SendEach(s.ctx, order, s.pipes - {oid.value}, raw))
    else
      s.(bc := {}, ctx := SendEach(s.ctx, order, s.pipes, raw))
  }

  /** A send is answered at once, whatever the socket waits for. */
  function Submitted(s: Socket, msg: Message, timeout: Timeout, order: seq<EndpointId>): (r: Socket)
    ensures r.ctx.raised == s.ctx.raised
  {
    var (raw, oid) := Encode(msg);
    var s1 := Transmit(s.(ctx := Submit(s.ctx, msg, timeout)), raw, oid, order);
    s1.(ctx := Cancel(Answer(s1.ctx, SendDone), timeout))
  }

  /** `State::recv`: from the pipe the scheduler picks, or on hold. */
  function Request(s: Socket, timeout: Timeout): (r: Socket)
    ensures r.ctx == s.ctx.(asked := r.ctx.asked)
  {
    var (id, fq) := Pop(s.fq);
    if id.Some? && id.value in s.pipes then
      s.(fq := fq, ctx := RecvFrom(s.ctx, id.value), state := Receiving(id.value, timeout))
    else
      s.(fq := fq, state := RecvOnHold(timeout))
  }

  function OnPipeRemoved(s: Socket, eid: EndpointId): (r: Socket)
    ensures r.ctx == s.ctx.(asked := r.ctx.asked)
  {
    if s.state.Receiving? && s.state.eid == eid then Request(s, s.state.timeout) else s
  }

  function OnRecvAck(s: Socket, eid: EndpointId, raw: Message): (r: Socket)
    ensures r.ctx.raised == s.ctx.raised
  {
    if s.state.Receiving? && s.state.eid == eid then
      s.(ctx := Cancel(Answer(s.ctx, RecvDone(Decode(raw, eid))), s.state.timeout), state := Idle)
    else s
  }

  function OnRecvReady(s: Socket, eid: EndpointId): (r: Socket)
    ensures r.ctx == s.ctx.(asked := r.ctx.asked)
  {
    var s1 := s.(fq := Activate(s.fq, eid));
    if s.state.RecvOnHold? then Request(s1, s.state.timeout) else s1
  }

  /** The transition of an event, which `apply` carries out. */
  function Transition(s: Socket, ev: Event): (r: Socket)
    ensures r.ctx.raised == s.ctx.raised
  {
    match ev
    case Send(msg, t, order) => Submitted(s, msg, t, order)
    case SendAck(_) => s
    case SendTimeout(t) => s.(ctx := Fire(s.ctx, t))
    case SendReady(eid) => s.(bc := s.bc + {eid})
    case SendNotReady(eid) => s.(bc := s.bc - {eid})
    case Recv(t) => Request(s.(ctx := Call(s.ctx, t)), t)
    case RecvAck(eid, raw) => OnRecvAck(s, eid, raw)
    case RecvTimeout(t) => s.(ctx := Answer(Fire(s.ctx, t), Failed(TimedOut)), state := Idle)
    case RecvReady(eid) => OnRecvReady(s, eid)
    case RecvNotReady(eid) => s.(fq := Deactivate(s.fq, eid))
    case AddPipe(_, _) => s
    case RemovePipe(_) => s
  }

  predicate IsSendReady(s: Socket) {
    s.bc != {}
  }

  predicate IsRecvReady(s: Socket) {
    Peek(s.fq)
  }

  /** `apply`: a transition, and notices if the readiness changed. */
  function Applied(s: Socket, t: Socket): (r: Socket)
    ensures r == t.(ctx := t.ctx.(raised := r.ctx.raised))
  {
    t.(ctx := Checks(t.ctx, IsSendReady(s), IsSendReady(t), IsRecvReady(s), IsRecvReady(t)))
  }

  /** The socket without the pipe, given what the scheduler becomes. */
  function Dropped(s: Socket, eid: EndpointId, fq: Sched): (r: Socket) {
    s.(bc := s.bc - {eid}, fq := fq, pipes := s.pipes - {eid})
  }

  function Forget(s: Socket, eid: EndpointId): (r: Socket) {
    Dropped(s, eid, RemoveFollowing(s.fq, eid))
  }

  /** The checks of `remove_pipe`, around the step from `s` to `s1`. */
  function Noticed(s: Socket, s1: Socket, s2: Socket): (r: Socket)
    ensures r == s2.(ctx := s2.ctx.(raised := r.ctx.raised))
  {
    s2.(ctx := Checks(s2.ctx, IsSendReady(s), IsSendReady(s1), IsRecvReady(s), IsRecvReady(s1)))
  }

  /** `remove_pipe` once the pipe is gone: the nested transition comes first, then the checks around the removal. */
  function AfterDrop(s: Socket, s1: Socket, eid: EndpointId): (r: Socket) {
    Noticed(s, s1, if eid in s.pipes then Applied(s1, OnPipeRemoved(s1, eid)) else s1)
  }

  function Removed(s: Socket, eid: EndpointId): (r: Socket) {
    AfterDrop(s, Forget(s, eid), eid)
  }

  function Step(s: Socket, ev: Event): (r: Socket) {
    if ev.AddPipe? then s.(fq := Insert(s.fq, ev.eid, ev.priority), pipes := s.pipes + {ev.eid})
    else if ev.RemovePipe? then Removed(s, ev.eid)
    else Applied(s, Transition(s, ev))
  }

  function Run(s: Socket, evs: seq<Event>): (r: Socket)
    decreases |evs|
  {
    if evs == [] then s else Run(Step(s, evs[0]), evs[1..])
  }

  /** The scheduler that a step of the code pops, if it pops one. */
  function Popped(s: Socket, ev: Event): (r: Option<Sched>) {
    match ev
    case Recv(_) => Some(s.fq)
    case RecvReady(eid) => if s.state.RecvOnHold? then Some(Activate(s.fq, eid)) else None
    case RemovePipe(eid) => if eid in s.pipes && s.state.Receiving? && s.state.eid == eid then Some(Remove(s.fq, eid)) else None
    case _ => None
  }

  /** A step pops past the end of the vector. */
  predicate Panics(s: Socket, ev: Event) {
    Popped(s, ev).Some? && !InRange(Popped(s, ev).value)
  }

  /** A step as the code takes it, with the scheduler's own removal; nothing if it panics. */
  function CodeStep(s: Socket, ev: Event): (r: Option<Socket>) {
    if Panics(s, ev) then None
    else if ev.RemovePipe? then Some(AfterDrop(s, Dropped(s, ev.eid, Remove(s.fq, ev.eid)), ev.eid))
    else Some(Step(s, ev))
  }

  function CodeRun(s: Socket, evs: seq<Event>): (r: Option<Socket>)
    decreases |evs|
  {
    if evs == [] then Some(s)
    else
      match CodeStep(s, evs[0])
      case None => None
      case Some(r) => CodeRun(r, evs[1..])
  }
}

/** The socket in place. */
module BusSockets {
  import opened Core
  import opened Scheduling
  import opened Priolists
  import opened Contexts
  import opened Broadcast
  import opened BusProtocol

  class Bus {
    var state: State
    var bc: set<EndpointId>
    const fq: Priolist
    var pipes: set<EndpointId>
    var ctx: Ctx

    ghost function View(): (s: Socket)
      reads this, fq
    {
      Socket(state, bc, fq.View(), pipes, ctx)
    }

    constructor ()
      ensures fresh(fq) && View() == NEW
    {
      state, bc, pipes, ctx := Idle, {}, {}, START;
      fq := new Priolist();
    }

    /** The end of `apply`. */
    method CheckReadiness(wasSend: bool, wasRecv: bool)
      modifies this`ctx
      ensures ctx == Checks(old(ctx), wasSend, IsSendReady(View()), wasRecv, IsRecvReady(View()))
    {
      var nowRecv := fq.Peek();
      ctx := CheckSend(ctx, wasSend, bc != {});
      ctx := CheckRecv(ctx, wasRecv, nowRecv);
    }

    method Request(timeout: Timeout)
      requires InRange(fq.View())
      modifies this, fq
      ensures View() == BusProtocol.Request(old(View()), timeout)
    {
      var picked := fq.Pop();
      if picked.Some? && picked.value in pipes {
        ctx := RecvFrom(ctx, picked.value);
        state := Receiving(picked.value, timeout);
      } else {
        state := RecvOnHold(timeout);
      }
    }

    method AddPipe(eid: EndpointId, priority: Priority)
      modifies this, fq
      ensures CodeStep(old(View()), Event.AddPipe(eid, priority)) == Some(View())
    {
      fq.Insert(eid, priority);
      pipes := pipes + {eid};
    }

    method AfterRemoval(eid: EndpointId)
      requires state.Receiving? && state.eid == eid ==> InRange(fq.View())
      modifies this, fq
      ensures View() == Applied(old(View()), OnPipeRemoved(old(View()), eid))
    {
      var wasSend := bc != {};
      var wasRecv := fq.Peek();
      if state.Receiving? && state.eid == eid {
        Request(state.timeout);
      }
      CheckReadiness(wasSend, wasRecv);
    }

    method Drop(eid: EndpointId)
      modifies this, fq
      ensures View() == Dropped(old(View()), eid, Scheduling.Remove(old(fq.View()), eid))
    {
      bc := bc - {eid};
      fq.Remove(eid);
      pipes := pipes - {eid};
    }

    method RemovePipe(eid: EndpointId)
      requires !Panics(View(), Event.RemovePipe(eid))
      modifies this, fq
      ensures CodeStep(old(View()), Event.RemovePipe(eid)) == Some(View())
    {
      var known := eid in pipes;
      var wasSend := bc != {};
      var wasRecv := fq.Peek();
      Drop(eid);
      var isSend := bc != {};
      var isRecv := fq.Peek();
      if known {
        AfterRemoval(eid);
      }
      ctx := CheckSend(ctx, wasSend, isSend);
      ctx := CheckRecv(ctx, wasRecv, isRecv);
    }

    method Transmit(raw: Message, oid: Option<EndpointId>) returns (ghost order: seq<EndpointId>)
      modifies this
      ensures IsDrain(order, old(bc)) && View() == BusProtocol.Transmit(old(View()), raw, oid, order)
    {
      if oid.Some? && oid.value in bc {
        bc, ctx, order := SendToAllExcept(bc, pipes, ctx, raw, oid.value);
      } else {
        bc, ctx, order := SendToAll(bc, pipes, ctx, raw);
      }
    }

    method Send(msg: Message, timeout: Timeout) returns (ghost order: seq<EndpointId>)
      modifies this
      ensures IsDrain(order, old(bc)) && CodeStep(old(View()), Event.Send(msg, timeout, order)) == Some(View())
    {
      var wasSend := bc != {};
      var wasRecv := fq.Peek();
      var (raw, oid) := Encode(msg);
      ctx := Submit(ctx, msg, timeout);
      order := Transmit(raw, oid);
      ctx := Cancel(Answer(ctx, SendDone), timeout);
      CheckReadiness(wasSend, wasRecv);
    }

    method OnSendAck(eid: EndpointId)
      modifies this
      ensures CodeStep(old(View()), SendAck(eid)) == Some(View())
    {
      var wasRecv := fq.Peek();
      CheckReadiness(bc != {}, wasRecv);
    }

    method OnSendTimeout(timer: Timer)
      modifies this
      ensures CodeStep(old(View()), SendTimeout(timer)) == Some(View())
    {
      var wasRecv := fq.Peek();
      ctx := Fire(ctx, timer);
      CheckReadiness(bc != {}, wasRecv);
    }

    method OnSendReady(eid: EndpointId)
      modifies this
      ensures CodeStep(old(View()), SendReady(eid)) == Some(View())
    {
      var wasSend := bc != {};
      var wasRecv := fq.Peek();
      bc := bc + {eid};
      CheckReadiness(wasSend, wasRecv);
    }

    method OnSendNotReady(eid: EndpointId)
      modifies this
      ensures CodeStep(old(View()), SendNotReady(eid)) == Some(View())
    {
      var wasSend := bc != {};
      var wasRecv := fq.Peek();
      bc := bc - {eid};
      CheckReadiness(wasSend, wasRecv);
    }

    method Recv(timeout: Timeout)
      requires !Panics(View(), Event.Recv(timeout))
      modifies this, fq
      ensures CodeStep(old(View()), Event.Recv(timeout)) == Some(View())
    {
      var wasSend := bc != {};
      var wasRecv := fq.Peek();
      ctx := Call(ctx, timeout);
      Request(timeout);
      CheckReadiness(wasSend, wasRecv);
    }

    method OnRecvAck(eid: EndpointId, raw: Message)
      modifies this
      ensures CodeStep(old(View()), RecvAck(eid, raw)) == Some(View())
    {
      var wasRecv := fq.Peek();
      var msg := Decode(raw, eid);
      if state.Receiving? && state.eid == eid {
        ctx := Cancel(Answer(ctx, RecvDone(msg)), state.timeout);
        state := Idle;
      }
      CheckReadiness(bc != {}, wasRecv);
    }

    method OnRecvTimeout(timer: Timer)
      modifies this
      ensures CodeStep(old(View()), RecvTimeout(timer)) == Some(View())
    {
      var wasRecv := fq.Peek();
      ctx := Answer(Fire(ctx, timer), Failed(TimedOut));
      state := Idle;
      CheckReadiness(bc != {}, wasRecv);
    }

    method OnRecvReady(eid: EndpointId)
      requires !Panics(View(), RecvReady(eid))
      modifies this, fq
      ensures CodeStep(old(View()), RecvReady(eid)) == Some(View())
    {
      var wasSend := bc != {};
      var wasRecv := fq.Peek();
      fq.Activate(eid);
      if state.RecvOnHold? {
        Request(state.timeout);
      }
      CheckReadiness(wasSend, wasRecv);
    }

    method OnRecvNotReady(eid: EndpointId)
      modifies this, fq
      ensures CodeStep(old(View()), RecvNotReady(eid)) == Some(View())
    {
      var wasSend := bc != {};
      var wasRecv := fq.Peek();
      fq.Deactivate(eid);
      CheckReadiness(wasSend, wasRecv);
    }
  }
}

/**
 The replier: it takes a request from the next ready pipe, keeps the backtrace that came with it, and routes the
 reply of the user back along that backtrace.
 */
module RepProtocol {
  import opened Core
  import opened Scheduling
  import opened Contexts
  import opened Backtrace

  datatype State =
    | Idle
    | Receiving(eid: EndpointId, timeout: Timeout)
    | RecvOnHold(timeout: Timeout)
    | Active(eid: EndpointId)
    | Sending(eid: EndpointId, msg: Message, timeout: Timeout)
    | SendOnHold(eid: EndpointId, msg: Message, timeout: Timeout)

  /** Requests handed to the user, as they came off the wire, and replies put on it. */
  datatype Entry = Delivered(eid: EndpointId, raw: Message) | Replied(eid: EndpointId, msg: Message)

  /** `log` records deliveries and replies in the order they happened; nothing depends on it. */
  datatype Socket = Socket(
    state: State,
    fq: Sched,
    sd: set<EndpointId>,
    pipes: set<EndpointId>,
    backtrace: Bytes,
    device: bool,
    ctx: Ctx,
    log: seq<Entry>)

  datatype Event =
    | AddPipe(eid: EndpointId, priority: Priority)
    | RemovePipe(eid: EndpointId)
    | Send(msg: Message, timeout: Timeout)
    | SendAck(eid: EndpointId)
    | SendTimeout(timer: Timer)
    | SendReady(eid: EndpointId)
    | SendNotReady(eid: EndpointId)
    | Recv(timeout: Timeout)
    | RecvAck(eid: EndpointId, raw: Message)
    | RecvTimeout(timer: Timer)
    | RecvReady(eid: EndpointId)
    | RecvNotReady(eid: EndpointId)

  function New(device: bool): (s: Socket) {
    Socket(Idle, EMPTY, {}, {}, [], device, START, [])
  }

  // ---------------------------------------------------------------- transitions

  function SendReplyTo(s: Socket, msg: Message, timeout: Timeout, eid: EndpointId): (r: Socket)
    ensures r.ctx.raised == s.ctx.raised && r.ctx.replies == s.ctx.replies
    ensures r.device == s.device && r.ctx.submitted == s.ctx.submitted
  {
    var s1 := s.(sd := s.sd - {eid});
    if eid in s.pipes then
      s1.(ctx := SendTo(s.ctx, eid, msg), log := s.log + [Replied(eid, msg)], state := Sending(eid, msg, timeout))
    else
      s1.(state := SendOnHold(eid, msg, timeout))
  }

  /** A device drops a reply to an endpoint that is not ready. */
  function OnSend(s: Socket, msg: Message, timeout: Timeout, eid: EndpointId): (r: Socket)
    ensures r.ctx.raised == s.ctx.raised
    ensures r.device == s.device && r.ctx.submitted == s.ctx.submitted
  {
    if s.device then
      if eid in s.sd then SendReplyTo(s, msg, timeout, eid)
      else s.(ctx := Cancel(Answer(s.ctx, SendDone), timeout), state := Idle)
    else if s.state.Active? then
      if eid in s.sd then SendReplyTo(s, msg, timeout, eid)
      else s.(state := SendOnHold(eid, msg, timeout))
    else s.(ctx := Cancel(Answer(s.ctx, Failed(Inactive)), timeout), state := Idle)
  }

  function OnSendAck(s: Socket, eid: EndpointId): (r: Socket)
    ensures r.ctx.raised == s.ctx.raised
    ensures r.ctx.sent == s.ctx.sent && r.log == s.log
    ensures r.device == s.device && r.ctx.submitted == s.ctx.submitted
  {
    if s.state.Sending? && s.state.eid == eid then
      s.(ctx := Cancel(Answer(s.ctx, SendDone), s.state.timeout), state := Idle)
    else s
  }

  function OnSendReady(s: Socket, eid: EndpointId): (r: Socket)
    ensures r.ctx.raised == s.ctx.raised && r.ctx.replies == s.ctx.replies
    ensures r.device == s.device && r.ctx.submitted == s.ctx.submitted
  {
    var s1 := s.(sd := s.sd + {eid});
    if s.state.SendOnHold? && s.state.eid == eid then SendReplyTo(s1, s.state.msg, s.state.timeout, eid) else s1
  }

  function OnRecv(s: Socket, timeout: Timeout): (r: Socket)
    ensures r.ctx.raised == s.ctx.raised && r.ctx.replies == s.ctx.replies
    ensures r.ctx.sent == s.ctx.sent && r.log == s.log
    ensures r.device == s.device && r.ctx.submitted == s.ctx.submitted
  {
    var (id, fq) := Pop(s.fq);
    if id.Some? && id.value in s.pipes then
      s.(fq := fq, ctx := RecvFrom(s.ctx, id.value), state := Receiving(id.value, timeout))
    else
      s.(fq := fq, state := RecvOnHold(timeout))
  }

  /** A regular socket keeps the header as its backtrace; a device leaves it on the message. */
  function OnRecvAck(s: Socket, eid: EndpointId, msg: Message, raw: Message): (r: Socket)
    ensures r.ctx.raised == s.ctx.raised && r.ctx.sent == s.ctx.sent
    ensures r.device == s.device && r.ctx.submitted == s.ctx.submitted
  {
    if s.state.Receiving? && s.state.eid == eid then
      var s1 := s.(log := s.log + [Delivered(eid, raw)]);
      if s.device then
        s1.(ctx := Cancel(Answer(s.ctx, RecvDone(msg)), s.state.timeout), state := Idle)
      else
        s1.(backtrace := msg.header,
            ctx := Cancel(Answer(s.ctx, RecvDone(Message([], msg.body))), s.state.timeout),
            state := Active(eid))
    else s
  }

  function OnRecvReady(s: Socket, eid: EndpointId): (r: Socket)
    ensures r.ctx.raised == s.ctx.raised && r.ctx.replies == s.ctx.replies
    ensures r.ctx.sent == s.ctx.sent && r.log == s.log
    ensures r.device == s.device && r.ctx.submitted == s.ctx.submitted
  {
    var s1 := s.(fq := Activate(s.fq, eid));
    if s.state.RecvOnHold? then OnRecv(s1, s.state.timeout) else s1
  }

  function OnPipeRemoved(s: Socket, eid: EndpointId): (r: Socket)
    ensures r.ctx.raised == s.ctx.raised && r.ctx.replies == s.ctx.replies
    ensures r.ctx.sent == s.ctx.sent && r.log == s.log
    ensures r.device == s.device && r.ctx.submitted == s.ctx.submitted
  {
    if s.state.Receiving? && s.state.eid == eid then OnRecv(s, s.state.timeout) else s
  }

  /** The header a reply is routed by: the backtrace, or what a device forwards. */
  function Routed(s: Socket, msg: Message): (r: Option<(Message, EndpointId)>) {
    MsgToRaw(if s.device then msg else Message(s.backtrace, msg.body))
  }

  /** A send without a route is refused and changes nothing else. */
  function Submitted(s: Socket, msg: Message, timeout: Timeout): (r: Socket)
    ensures r.ctx.raised == s.ctx.raised
    ensures r.device == s.device && r.ctx.submitted == s.ctx.submitted + [msg]
  {
    var s1 := s.(ctx := Submit(s.ctx, msg, timeout));
    match Routed(s, msg)
    case None => s1.(ctx := Cancel(Answer(s1.ctx, Failed(Malformed)), timeout))
    case Some((raw, eid)) => OnSend(s1, raw, timeout, eid)
  }

  /** A request whose backtrace does not end answers the user and changes nothing else. */
  function Received(s: Socket, eid: EndpointId, raw: Message): (r: Socket)
    ensures r.ctx.raised == s.ctx.raised && r.ctx.sent == s.ctx.sent
    ensures r.device == s.device && r.ctx.submitted == s.ctx.submitted
  {
    match RawToMsg(raw, eid)
    case None => s.(ctx := Answer(s.ctx, Failed(Malformed)))
    case Some(msg) => OnRecvAck(s, eid, msg, raw)
  }

  /** The transition of an event, which `apply` carries out. Any send ack clears the backtrace. */
  function Transition(s: Socket, ev: Event): (r: Socket)
    ensures r.ctx.raised == s.ctx.raised
    ensures r.device == s.device && (!ev.Send? ==> r.ctx.submitted == s.ctx.submitted)
  {
    match ev
    case Send(msg, t) => Submitted(s, msg, t)
    case SendAck(eid) => OnSendAck(s.(backtrace := []), eid)
    case SendTimeout(t) => s.(ctx := Answer(Fire(s.ctx, t), Failed(TimedOut)), state := Idle)
    case SendReady(eid) => OnSendReady(s, eid)
    case SendNotReady(eid) => s.(sd := s.sd - {eid})
    case Recv(t) => OnRecv(s.(ctx := Call(s.ctx, t)), t)
    case RecvAck(eid, raw) => Received(s, eid, raw)
    case RecvTimeout(t) => s.(ctx := Answer(Fire(s.ctx, t), Failed(TimedOut)), state := Idle)
    case RecvReady(eid) => OnRecvReady(s, eid)
    case RecvNotReady(eid) => s.(fq := Deactivate(s.fq, eid))
    case AddPipe(_, _) => s
    case RemovePipe(_) => s
  }

  predicate IsSendReady(s: Socket) {
    if s.device then s.sd != {} else s.state.Active? && s.state.eid in s.sd
  }

  predicate IsRecvReady(s: Socket) {
    Peek(s.fq)
  }

  /** `apply`: a transition, and notices if the readiness changed. */
  function Applied(s: Socket, t: Socket): (r: Socket)
    ensures r == t.(ctx := t.ctx.(raised := r.ctx.raised))
  {
    t.(ctx := Checks(t.ctx, IsSendReady(s), IsSendReady(t), IsRecvReady(s), IsRecvReady(t)))
  }

  /** The socket without the pipe, given what the scheduler becomes. */
  function Dropped(s: Socket, eid: EndpointId, fq: Sched): (r: Socket) {
    s.(fq := fq, sd := s.sd - {eid}, pipes := s.pipes - {eid})
  }

  function Forget(s: Socket, eid: EndpointId): (r: Socket) {
    Dropped(s, eid, RemoveFollowing(s.fq, eid))
  }

  /** The checks of `remove_pipe`, around the step from `s` to `s1`. */
  function Noticed(s: Socket, s1: Socket, s2: Socket): (r: Socket)
    ensures r == s2.(ctx := s2.ctx.(raised := r.ctx.raised))
  {
    s2.(ctx := Checks(s2.ctx, IsSendReady(s), IsSendReady(s1), IsRecvReady(s), IsRecvReady(s1)))
  }

  /** `remove_pipe` once the pipe is gone: the nested transition comes first, then the checks around the removal. */
  function AfterDrop(s: Socket, s1: Socket, eid: EndpointId): (r: Socket) {
    Noticed(s, s1, if eid in s.pipes then Applied(s1, OnPipeRemoved(s1, eid)) else s1)
  }

  function Removed(s: Socket, eid: EndpointId): (r: Socket) {
    AfterDrop(s, Forget(s, eid), eid)
  }

  function Step(s: Socket, ev: Event): (r: Socket) {
    if ev.AddPipe? then s.(fq := Insert(s.fq, ev.eid, ev.priority), pipes := s.pipes + {ev.eid})
    else if ev.RemovePipe? then Removed(s, ev.eid)
    else Applied(s, Transition(s, ev))
  }

  function Run(s: Socket, evs: seq<Event>): (r: Socket)
    decreases |evs|
  {
    if evs == [] then s else Run(Step(s, evs[0]), evs[1..])
  }

  /** `on_device_plugged`. */
  function Plugged(s: Socket): (r: Socket) {
    s.(device := true)
  }

  /** The scheduler that a step of the code pops, if it pops one. */
  function Popped(s: Socket, ev: Event): (r: Option<Sched>) {
    match ev
    case Recv(_) => Some(s.fq)
    case RecvReady(eid) => if s.state.RecvOnHold? then Some(Activate(s.fq, eid)) else None
    case RemovePipe(eid) => if eid in s.pipes && s.state.Receiving? && s.state.eid == eid then Some(Remove(s.fq, eid)) else None
    case _ => None
  }

  /** A step pops past the end of the vector. */
  predicate Panics(s: Socket, ev: Event) {
    Popped(s, ev).Some? && !InRange(Popped(s, ev).value)
  }

  /** A step as the code takes it, with the scheduler's own removal; nothing if it panics. */
  function CodeStep(s: Socket, ev: Event): (r: Option<Socket>) {
    if Panics(s, ev) then None
    else if ev.RemovePipe? then Some(AfterDrop(s, Dropped(s, ev.eid, Remove(s.fq, ev.eid)), ev.eid))
    else Some(Step(s, ev))
  }

  function CodeRun(s: Socket, evs: seq<Event>): (r: Option<Socket>)
    decreases |evs|
  {
    if evs == [] then Some(s)
    else
      match CodeStep(s, evs[0])
      case None => None
      case Some(r) => CodeRun(r, evs[1..])
  }
}

/** The socket in place. */
module RepSockets {
  import opened Core
  import opened Scheduling
  import opened Priolists
  import opened Contexts
  import opened Backtrace
  import opened RepProtocol

  class Rep {
    var state: State
    const fq: Priolist
    var sd: set<EndpointId>
    var pipes: set<EndpointId>
    var backtrace: Bytes
    var device: bool
    var ctx: Ctx
    ghost var log: seq<Entry>

    ghost function View(): (s: Socket)
      reads this, fq
    {
      Socket(state, fq.View(), sd, pipes, backtrace, device, ctx, log)
    }

    constructor (device: bool)
      ensures fresh(fq) && View() == New(device)
    {
      state, sd, pipes, backtrace, ctx, log := Idle, {}, {}, [], START, [];
      this.device := device;
      fq := new Priolist();
    }

    method SendReadiness() returns (ready: bool)
      ensures ready == IsSendReady(View())
    {
      if device {
        ready := sd != {};
      } else {
        ready := state.Active? && state.eid in sd;
      }
    }

    /** The end of `apply`. */
    method CheckReadiness(wasSend: bool, wasRecv: bool)
      modifies this`ctx
      ensures ctx == Checks(old(ctx), wasSend, IsSendReady(View()), wasRecv, IsRecvReady(View()))
    {
      var nowSend := SendReadiness();
      var nowRecv := fq.Peek();
      ctx := CheckSend(ctx, wasSend, nowSend);
      ctx := CheckRecv(ctx, wasRecv, nowRecv);
    }

    method ReplyTo(msg: Message, timeout: Timeout, eid: EndpointId)
      modifies this
      ensures View() == SendReplyTo(old(View()), msg, timeout, eid)
    {
      sd := sd - {eid};
      if eid in pipes {
        ctx := SendTo(ctx, eid, msg);
        log := log + [Replied(eid, msg)];
        state := Sending(eid, msg, timeout);
      } else {
        state := SendOnHold(eid, msg, timeout);
      }
    }

    method Receive(timeout: Timeout)
      requires InRange(fq.View())
      modifies this, fq
      ensures View() == OnRecv(old(View()), timeout)
    {
      var picked := fq.Pop();
      if picked.Some? && picked.value in pipes {
        ctx := RecvFrom(ctx, picked.value);
        state := Receiving(picked.value, timeout);
      } else {
        state := RecvOnHold(timeout);
      }
    }

    method AddPipe(eid: EndpointId, priority: Priority)
      modifies this, fq
      ensures CodeStep(old(View()), Event.AddPipe(eid, priority)) == Some(View())
    {
      fq.Insert(eid, priority);
      pipes := pipes + {eid};
    }

    method AfterRemoval(eid: EndpointId)
      requires state.Receiving? && state.eid == eid ==> InRange(fq.View())
      modifies this, fq
      ensures View() == Applied(old(View()), OnPipeRemoved(old(View()), eid))
    {
      var wasSend := SendReadiness();
      var wasRecv := fq.Peek();
      if state.Receiving? && state.eid == eid {
        Receive(state.timeout);
      }
      CheckReadiness(wasSend, wasRecv);
    }

    method Drop(eid: EndpointId)
      modifies this, fq
      ensures View() == Dropped(old(View()), eid, Scheduling.Remove(old(fq.View()), eid))
    {
      fq.Remove(eid);
      sd := sd - {eid};
      pipes := pipes - {eid};
    }

    method RemovePipe(eid: EndpointId)
      requires !Panics(View(), Event.RemovePipe(eid))
      modifies this, fq
      ensures CodeStep(old(View()), Event.RemovePipe(eid)) == Some(View())
    {
      var known := eid in pipes;
      var wasSend := SendReadiness();
      var wasRecv := fq.Peek();
      Drop(eid);
      var isSend := SendReadiness();
      var isRecv := fq.Peek();
      if known {
        AfterRemoval(eid);
      }
      ctx := CheckSend(ctx, wasSend, isSend);
      ctx := CheckRecv(ctx, wasRecv, isRecv);
    }

    method Dispatch(msg: Message, timeout: Timeout, eid: EndpointId)
      modifies this
      ensures View() == OnSend(old(View()), msg, timeout, eid)
    {
      if device {
        if eid in sd {
          ReplyTo(msg, timeout, eid);
        } else {
          ctx := Cancel(Answer(ctx, SendDone), timeout);
          state := Idle;
        }
      } else if state.Active? {
        if eid in sd {
          ReplyTo(msg, timeout, eid);
        } else {
          state := SendOnHold(eid, msg, timeout);
        }
      } else {
        ctx := Cancel(Answer(ctx, Failed(Inactive)), timeout);
        state := Idle;
      }
    }

    /** A send without a route is refused before any transition. */
    method SubmitReply(msg: Message, timeout: Timeout)
      modifies this
      ensures View() == Submitted(old(View()), msg, timeout)
    {
      ctx := Submit(ctx, msg, timeout);
      var header := if device then msg.header else backtrace;
      if |header| < 4 {
        ctx := Cancel(Answer(ctx, Failed(Malformed)), timeout);
      } else {
        Dispatch(Message(header[4..], msg.body), timeout, ReadBigEndian(header[..4]));
      }
    }

    method Send(msg: Message, timeout: Timeout)
      modifies this
      ensures CodeStep(old(View()), Event.Send(msg, timeout)) == Some(View())
    {
      var wasSend := SendReadiness();
      var wasRecv := fq.Peek();
      SubmitReply(msg, timeout);
      CheckReadiness(wasSend, wasRecv);
    }

    method OnSendAck(eid: EndpointId)
      modifies this
      ensures CodeStep(old(View()), SendAck(eid)) == Some(View())
    {
      var wasSend := SendReadiness();
      var wasRecv := fq.Peek();
      backtrace := [];
      if state.Sending? && state.eid == eid {
        ctx := Cancel(Answer(ctx, SendDone), state.timeout);
        state := Idle;
      }
      CheckReadiness(wasSend, wasRecv);
    }

    method OnSendTimeout(timer: Timer)
      modifies this
      ensures CodeStep(old(View()), SendTimeout(timer)) == Some(View())
    {
      var wasSend := SendReadiness();
      var wasRecv := fq.Peek();
      ctx := Answer(Fire(ctx, timer), Failed(TimedOut));
      state := Idle;
      CheckReadiness(wasSend, wasRecv);
    }

    method ResumeSend(eid: EndpointId)
      modifies this
      ensures View() == RepProtocol.OnSendReady(old(View()), eid)
    {
      sd := sd + {eid};
      if state.SendOnHold? && state.eid == eid {
        ReplyTo(state.msg, state.timeout, eid);
      }
    }

    method OnSendReady(eid: EndpointId)
      modifies this
      ensures CodeStep(old(View()), SendReady(eid)) == Some(View())
    {
      var wasSend := SendReadiness();
      var wasRecv := fq.Peek();
      ResumeSend(eid);
      CheckReadiness(wasSend, wasRecv);
    }

    method OnSendNotReady(eid: EndpointId)
      modifies this
      ensures CodeStep(old(View()), SendNotReady(eid)) == Some(View())
    {
      var wasSend := SendReadiness();
      var wasRecv := fq.Peek();
      sd := sd - {eid};
      CheckReadiness(wasSend, wasRecv);
    }

    method AcceptCall(timeout: Timeout)
      requires InRange(fq.View())
      modifies this, fq
      ensures View() == Transition(old(View()), Event.Recv(timeout))
    {
      ctx := Call(ctx, timeout);
      Receive(timeout);
    }

    method Recv(timeout: Timeout)
      requires !Panics(View(), Event.Recv(timeout))
      modifies this, fq
      ensures CodeStep(old(View()), Event.Recv(timeout)) == Some(View())
    {
      var wasSend := SendReadiness();
      var wasRecv := fq.Peek();
      AcceptCall(timeout);
      CheckReadiness(wasSend, wasRecv);
    }

    method Deliver(eid: EndpointId, msg: Message, ghost raw: Message)
      modifies this
      ensures View() == RepProtocol.OnRecvAck(old(View()), eid, msg, raw)
    {
      if state.Receiving? && state.eid == eid {
        var Message(header, body) := msg;
        log := log + [Delivered(eid, raw)];
        if !device {
          backtrace, header := header, [];
        }
        ctx := Cancel(Answer(ctx, RecvDone(Message(header, body))), state.timeout);
        state := if device then Idle else Active(eid);
      }
    }

    method OnRecvAck(eid: EndpointId, raw: Message)
      modifies this
      ensures CodeStep(old(View()), RecvAck(eid, raw)) == Some(View())
    {
      var unpacked := RawMsgToMsg(raw, eid);
      var wasSend := SendReadiness();
      var wasRecv := fq.Peek();
      if unpacked.None? {
        ctx := Answer(ctx, Failed(Malformed));
      } else {
        Deliver(eid, unpacked.value, raw);
      }
      CheckReadiness(wasSend, wasRecv);
    }

    method OnRecvTimeout(timer: Timer)
      modifies this
      ensures CodeStep(old(View()), RecvTimeout(timer)) == Some(View())
    {
      var wasSend := SendReadiness();
      var wasRecv := fq.Peek();
      ctx := Answer(Fire(ctx, timer), Failed(TimedOut));
      state := Idle;
      CheckReadiness(wasSend, wasRecv);
    }

    method ResumeHeld(eid: EndpointId)
      requires state.RecvOnHold? ==> InRange(Scheduling.Activate(fq.View(), eid))
      modifies this, fq
      ensures View() == RepProtocol.OnRecvReady(old(View()), eid)
    {
      fq.Activate(eid);
      if state.RecvOnHold? {
        Receive(state.timeout);
      }
    }

    method OnRecvReady(eid: EndpointId)
      requires !Panics(View(), RecvReady(eid))
      modifies this, fq
      ensures CodeStep(old(View()), RecvReady(eid)) == Some(View())
    {
      var wasSend := SendReadiness();
      var wasRecv := fq.Peek();
      ResumeHeld(eid);
      CheckReadiness(wasSend, wasRecv);
    }

    method OnDevicePlugged()
      modifies this
      ensures View() == Plugged(old(View()))
    {
      device := true;
    }

    method OnRecvNotReady(eid: EndpointId)
      modifies this, fq
      ensures CodeStep(old(View()), RecvNotReady(eid)) == Some(View())
    {
      var wasSend := SendReadiness();
      var wasRecv := fq.Peek();
      fq.Deactivate(eid);
      CheckReadiness(wasSend, wasRecv);
    }
  }
}

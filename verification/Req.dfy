/**
 The requester: a request goes to the next ready pipe under a fresh id. It goes out again when the pipe is lost that it
 is being handed to, and when a retry is due while no receive waits; only a reply bearing its id is handed to the user.
 */
module ReqProtocol {
  import opened Core
  import opened Scheduling
  import opened Contexts
  import opened Backtrace
  import opened RequestIds

  datatype Pending = Pending(req: Message, retry: Timeout)

  datatype State =
    | Idle
    | Sending(eid: EndpointId, msg: Message, timeout: Timeout, isRetry: bool)
    | SendOnHold(msg: Message, timeout: Timeout, isRetry: bool)
    | Active(eid: EndpointId, pending: Pending)
    | Receiving(eid: EndpointId, expected: Option<Pending>, timeout: Timeout)
    | RecvOnHold(from: Option<EndpointId>, expected: Option<Pending>, timeout: Timeout)

  /** `device` says whether the socket is one side of a device; `seqNo` is a 32-bit counter. */
  datatype Socket = Socket(
    state: State,
    lb: Sched,
    fq: Sched,
    rv: set<EndpointId>,
    pipes: set<EndpointId>,
    seqNo: nat,
    device: bool,
    ctx: Ctx)

  /** `SendAck` carries what scheduling the retry gives: a timer, or nothing if that fails. */
  datatype Event =
    | AddPipe(eid: EndpointId, sendPriority: Priority, recvPriority: Priority)
    | RemovePipe(eid: EndpointId)
    | Send(msg: Message, timeout: Timeout)
    | SendAck(eid: EndpointId, scheduled: Timeout)
    | SendTimeout(timer: Timer)
    | SendReady(eid: EndpointId)
    | SendNotReady(eid: EndpointId)
    | Recv(timeout: Timeout)
    | RecvAck(eid: EndpointId, raw: Message)
    | RecvTimeout(timer: Timer)
    | RecvReady(eid: EndpointId)
    | RecvNotReady(eid: EndpointId)
    | Retry(timer: Timer)

  function New(seed: nat, device: bool): (s: Socket) {
    Socket(Idle, EMPTY, EMPTY, {}, {}, seed % TWO32, device, START)
  }

  // ---------------------------------------------------------------- transitions

  function Transmit(s: Socket, msg: Message, timeout: Timeout, isRetry: bool): (r: Socket)
    ensures r.ctx.raised == s.ctx.raised && r.ctx.replies == s.ctx.replies
  {
    var (id, lb) := Pop(s.lb);
    if id.Some? && id.value in s.pipes then
      s.(lb := lb, ctx := SendTo(s.ctx, id.value, msg), state := Sending(id.value, msg, timeout, isRetry))
    else
      s.(lb := lb, state := SendOnHold(msg, timeout, isRetry))
  }

  /** A new request drops the pending one and its retry timer. */
  function OnSend(s: Socket, msg: Message, timeout: Timeout): (r: Socket)
    ensures r.ctx.raised == s.ctx.raised && r.ctx.replies == s.ctx.replies
  {
    var s1 := if s.state.Active? then s.(ctx := Cancel(s.ctx, s.state.pending.retry)) else s;
    Transmit(s1, msg, timeout, false)
  }

  /** The id is drawn, and the message encoded, before the transition. */
  function Submitted(s: Socket, msg: Message, timeout: Timeout): (r: Socket)
    ensures r.ctx.raised == s.ctx.raised && r.ctx.replies == s.ctx.replies
  {
    var s1 := s.(ctx := Submit(s.ctx, msg, timeout));
    if s.device then OnSend(s1, msg, timeout)
    else
      var seqNo := (s.seqNo + 1) % TWO32;
      OnSend(s1.(seqNo := seqNo), Encode(msg, IdOf(seqNo)), timeout)
  }

  function OnSendAck(s: Socket, eid: EndpointId, scheduled: Timeout): (r: Socket)
    ensures r.ctx.raised == s.ctx.raised
  {
    if s.state.Sending? && s.state.eid == eid then
      var c := if s.state.isRetry then s.ctx else Answer(s.ctx, SendDone);
      var c1 := Cancel(c, s.state.timeout);
      if s.device then s.(ctx := c1, state := Idle)
      else s.(ctx := Schedule(c1, scheduled), state := Active(eid, Pending(s.state.msg, scheduled)))
    else s
  }

  function OnSendReady(s: Socket, eid: EndpointId): (r: Socket)
    ensures r.ctx.raised == s.ctx.raised && r.ctx.replies == s.ctx.replies
  {
    var s1 := s.(lb := Activate(s.lb, eid));
    if s.state.SendOnHold? then Transmit(s1, s.state.msg, s.state.timeout, s.state.isRetry) else s1
  }

  function OnRetry(s: Socket): (r: Socket)
    ensures r.ctx.raised == s.ctx.raised && r.ctx.replies == s.ctx.replies
  {
    if s.state.Active? then Transmit(s, s.state.pending.req, None, true) else s
  }

  function RecvReplyFor(s: Socket, eid: EndpointId, p: Pending, timeout: Timeout): (r: Socket)
    ensures r.ctx.raised == s.ctx.raised && r.ctx.replies == s.ctx.replies
  {
    var s1 := s.(rv := s.rv - {eid});
    if eid in s.pipes then s1.(ctx := RecvFrom(s.ctx, eid), state := Receiving(eid, Some(p), timeout))
    else s1.(state := RecvOnHold(Some(eid), Some(p), timeout))
  }

  function OnRecv(s: Socket, timeout: Timeout): (r: Socket)
    ensures r.ctx.raised == s.ctx.raised
    ensures r.ctx.replies == s.ctx.replies || r.ctx.replies == s.ctx.replies + [Failed(Inactive)]
  {
    if s.device then
      var (id, fq) := Pop(s.fq);
      if id.Some? && id.value in s.pipes then
        s.(fq := fq, ctx := RecvFrom(s.ctx, id.value), state := Receiving(id.value, None, timeout))
      else
        s.(fq := fq, state := RecvOnHold(None, None, timeout))
    else if s.state.Active? then RecvReplyFor(s, s.state.eid, s.state.pending, timeout)
    else s.(ctx := Cancel(Answer(s.ctx, Failed(Inactive)), timeout), state := Idle)
  }

  function OnRecvAck(s: Socket, eid: EndpointId, msg: Message, id: nat): (r: Socket)
    ensures r.ctx.raised == s.ctx.raised
  {
    if s.state.Receiving? && s.state.eid == eid then
      match s.state.expected
      case None => s.(ctx := Cancel(Answer(s.ctx, RecvDone(msg)), s.state.timeout), state := Idle)
      case Some(p) =>
        if IdOf(s.seqNo) == id then
          s.(ctx := Cancel(Cancel(Answer(s.ctx, RecvDone(msg)), s.state.timeout), p.retry), state := Idle)
        else RecvReplyFor(s, eid, p, s.state.timeout)
    else s
  }

  /** A reply that is too short to hold an id answers the user and changes nothing else; a device takes any id for its own. */
  function Received(s: Socket, eid: EndpointId, raw: Message): (r: Socket)
    ensures r.ctx.raised == s.ctx.raised
  {
    match Decode(raw)
    case None => s.(ctx := Answer(s.ctx, Failed(Malformed)))
    case Some((msg, id)) => OnRecvAck(s, eid, msg, if s.device then IdOf(s.seqNo) else id)
  }

  function OnRecvTimeout(s: Socket): (r: Socket)
    ensures r.ctx.raised == s.ctx.raised
    ensures r.ctx.replies == s.ctx.replies || r.ctx.replies == s.ctx.replies + [Failed(TimedOut)]
  {
    match s.state
    case Receiving(_, None, _) => s.(ctx := Answer(s.ctx, Failed(TimedOut)), state := Idle)
    case RecvOnHold(_, None, _) => s.(ctx := Answer(s.ctx, Failed(TimedOut)), state := Idle)
    case Receiving(_, Some(p), _) => s.(ctx := Cancel(Answer(s.ctx, Failed(TimedOut)), p.retry), state := Idle)
    case RecvOnHold(_, Some(p), _) => s.(ctx := Cancel(Answer(s.ctx, Failed(TimedOut)), p.retry), state := Idle)
    case _ => s.(state := Idle)
  }

  function OnRecvReady(s: Socket, eid: EndpointId): (r: Socket)
    ensures r.ctx.raised == s.ctx.raised
    ensures r.ctx.replies == s.ctx.replies || r.ctx.replies == s.ctx.replies + [Failed(Inactive)]
  {
    var s1 := s.(fq := Activate(s.fq, eid), rv := s.rv + {eid});
    match s.state
    case RecvOnHold(None, None, timeout) => OnRecv(s1.(state := Idle), timeout)
    case RecvOnHold(Some(id), Some(p), timeout) =>
      if eid == id then OnRecv(s1.(state := Active(id, p)), timeout) else s1
    case _ => s1
  }

  function OnPipeRemoved(s: Socket, eid: EndpointId): (r: Socket)
    ensures r.ctx.raised == s.ctx.raised
    ensures r.ctx.replies == s.ctx.replies || r.ctx.replies == s.ctx.replies + [Failed(Inactive)]
  {
    match s.state
    case Sending(id, msg, timeout, isRetry) => if id == eid then Transmit(s, msg, timeout, isRetry) else s
    case Receiving(id, _, timeout) => if id == eid then OnRecv(s.(state := Idle), timeout) else s
    case _ => s
  }

  /** The transition of an event, which `apply` carries out. */
  function Transition(s: Socket, ev: Event): (r: Socket)
    ensures r.ctx.raised == s.ctx.raised
  {
    match ev
    case Send(msg, t) => Submitted(s, msg, t)
    case SendAck(eid, scheduled) => OnSendAck(s, eid, scheduled)
    case SendTimeout(t) => s.(ctx := Answer(Fire(s.ctx, t), Failed(TimedOut)), state := Idle)
    case SendReady(eid) => OnSendReady(s, eid)
    case SendNotReady(eid) => s.(lb := Deactivate(s.lb, eid))
    case Recv(t) => OnRecv(s.(ctx := Call(s.ctx, t)), t)
    case RecvAck(eid, raw) => Received(s, eid, raw)
    case RecvTimeout(t) => OnRecvTimeout(s.(ctx := Fire(s.ctx, t)))
    case RecvReady(eid) => OnRecvReady(s, eid)
    case RecvNotReady(eid) => s.(fq := Deactivate(s.fq, eid), rv := s.rv - {eid})
    case Retry(t) => OnRetry(s.(ctx := Fire(s.ctx, t)))
    case AddPipe(_, _, _) => s
    case RemovePipe(_) => s
  }

  predicate IsSendReady(s: Socket) {
    Peek(s.lb)
  }

  predicate IsRecvReady(s: Socket) {
    if s.device then Peek(s.fq) else s.state.Active? && s.state.eid in s.rv
  }

  /** `apply`: a transition, and notices if the readiness changed. */
  function Applied(s: Socket, t: Socket): (r: Socket)
    ensures r == t.(ctx := t.ctx.(raised := r.ctx.raised))
  {
    t.(ctx := Checks(t.ctx, IsSendReady(s), IsSendReady(t), IsRecvReady(s), IsRecvReady(t)))
  }

  /** The socket without the pipe, given what the schedulers become. */
  function Dropped(s: Socket, eid: EndpointId, lb: Sched, fq: Sched): (r: Socket) {
    s.(lb := lb, fq := fq, rv := s.rv - {eid}, pipes := s.pipes - {eid})
  }

  function Forget(s: Socket, eid: EndpointId): (r: Socket) {
    Dropped(s, eid, RemoveFollowing(s.lb, eid), RemoveFollowing(s.fq, eid))
  }

  /** The checks of `remove_pipe`, around the step from `s` to `s1`. */
  function Noticed(s: Socket, s1: Socket, s2: Socket): (r: Socket)
    ensures r == s2.(ctx := s2.ctx.(raised := r.ctx.raised))
  {
    s2.(ctx := Checks(s2.ctx, IsSendReady(s), IsSendReady(s1), IsRecvReady(s), IsRecvReady(s1)))
  }

  /** `remove_pipe` once the pipe is gone: the nested transition comes first, then the checks around the removal. */
  function AfterDrop(s: Socket, s1: Socket, eid: EndpointId): (r: Socket) {
    Noticed(s, s1, if eid in s.pipes then Applied(s1, OnPipeRemoved(s1, eid)) else s1)
  }

  function Removed(s: Socket, eid: EndpointId): (r: Socket) {
    AfterDrop(s, Forget(s, eid), eid)
  }

  function Step(s: Socket, ev: Event): (r: Socket) {
    if ev.AddPipe? then s.(lb := Insert(s.lb, ev.eid, ev.sendPriority), fq := Insert(s.fq, ev.eid, ev.recvPriority), pipes := s.pipes + {ev.eid})
    else if ev.RemovePipe? then Removed(s, ev.eid)
    else Applied(s, Transition(s, ev))
  }

  function Run(s: Socket, evs: seq<Event>): (r: Socket)
    decreases |evs|
  {
    if evs == [] then s else Run(Step(s, evs[0]), evs[1..])
  }

  /** `on_device_plugged`. */
  function Plugged(s: Socket): (r: Socket) {
    s.(device := true)
  }

  /** The scheduler that a step of the code pops, if it pops one. */
  function Popped(s: Socket, ev: Event): (r: Option<Sched>) {
    match ev
    case Send(_, _) => Some(s.lb)
    case SendReady(eid) => if s.state.SendOnHold? then Some(Activate(s.lb, eid)) else None
    case Retry(_) => if s.state.Active? then Some(s.lb) else None
    case Recv(_) => if s.device then Some(s.fq) else None
    case RecvReady(eid) => if s.device && Resumes(s, eid) then Some(Activate(s.fq, eid)) else None
    case RemovePipe(eid) =>
      if eid !in s.pipes then None
      else if s.state.Sending? && s.state.eid == eid then Some(Remove(s.lb, eid))
      else if s.device && s.state.Receiving? && s.state.eid == eid then Some(Remove(s.fq, eid))
      else None
    case _ => None
  }

  /** A receive on hold that `eid` was waited for to go on. */
  predicate Resumes(s: Socket, eid: EndpointId) {
    match s.state
    case RecvOnHold(None, None, _) => true
    case RecvOnHold(Some(id), Some(_), _) => id == eid
    case _ => false
  }

  /** A step pops past the end of the vector. */
  predicate Panics(s: Socket, ev: Event) {
    Popped(s, ev).Some? && !InRange(Popped(s, ev).value)
  }

  /** A step as the code takes it, with the schedulers' own removal; nothing if it panics. */
  function CodeStep(s: Socket, ev: Event): (r: Option<Socket>) {
    if Panics(s, ev) then None
    else if ev.RemovePipe? then
      Some(AfterDrop(s, Dropped(s, ev.eid, Remove(s.lb, ev.eid), Remove(s.fq, ev.eid)), ev.eid))
    else Some(Step(s, ev))
  }

  function CodeRun(s: Socket, evs: seq<Event>): (r: Option<Socket>)
    decreases |evs|
  {
    if evs == [] then Some(s)
    else
      match CodeStep(s, evs[0])
      case None => None
      case Some(r) => CodeRun(r, evs[1..])
  }
}

/** The socket in place. */
module ReqSockets {
  import opened Core
  import opened Scheduling
  import opened Priolists
  import opened Contexts
  import opened Backtrace
  import opened RequestIds
  import opened ReqProtocol

  class Req {
    var state: State
    const lb: Priolist
    const fq: Priolist
    var rv: set<EndpointId>
    var pipes: set<EndpointId>
    var seqNo: nat
    var device: bool
    var ctx: Ctx

    ghost predicate Valid()
    {
      lb != fq
    }

    ghost function View(): (s: Socket)
      reads this, lb, fq
    {
      Socket(state, lb.View(), fq.View(), rv, pipes, seqNo, device, ctx)
    }

    constructor (seed: nat, device: bool)
      ensures Valid() && fresh(lb) && fresh(fq) && View() == New(seed, device)
    {
      state, rv, pipes, ctx, seqNo := Idle, {}, {}, START, seed % TWO32;
      this.device := device;
      lb := new Priolist();
      fq := new Priolist();
    }

    method SendReadiness() returns (ready: bool)
      requires Valid()
      ensures ready == IsSendReady(View())
    {
      ready := lb.Peek();
    }

    method RecvReadiness() returns (ready: bool)
      requires Valid()
      ensures ready == IsRecvReady(View())
    {
      if device {
        ready := fq.Peek();
      } else {
        ready := state.Active? && state.eid in rv;
      }
    }

    /** The end of `apply`. */
    method CheckReadiness(wasSend: bool, wasRecv: bool)
      requires Valid()
      modifies this`ctx
      ensures ctx == Checks(old(ctx), wasSend, IsSendReady(View()), wasRecv, IsRecvReady(View()))
    {
      var nowSend := SendReadiness();
      var nowRecv := RecvReadiness();
      ctx := CheckSend(ctx, wasSend, nowSend);
      ctx := CheckRecv(ctx, wasRecv, nowRecv);
    }

    method Transmit(msg: Message, timeout: Timeout, isRetry: bool)
      requires Valid()
      requires InRange(lb.View())
      modifies this, lb
      ensures Valid() && View() == ReqProtocol.Transmit(old(View()), msg, timeout, isRetry)
    {
      var picked := lb.Pop();
      if picked.Some? && picked.value in pipes {
        ctx := SendTo(ctx, picked.value, msg);
        state := Sending(picked.value, msg, timeout, isRetry);
      } else {
        state := SendOnHold(msg, timeout, isRetry);
      }
    }

    method ReceiveReplyFor(eid: EndpointId, p: Pending, timeout: Timeout)
      requires Valid()
      modifies this
      ensures Valid() && View() == RecvReplyFor(old(View()), eid, p, timeout)
    {
      rv := rv - {eid};
      if eid in pipes {
        ctx := RecvFrom(ctx, eid);
        state := Receiving(eid, Some(p), timeout);
      } else {
        state := RecvOnHold(Some(eid), Some(p), timeout);
      }
    }

    method Receive(timeout: Timeout)
      requires Valid()
      requires device ==> InRange(fq.View())
      modifies this, fq
      ensures Valid() && View() == OnRecv(old(View()), timeout)
    {
      if device {
        var picked := fq.Pop();
        if picked.Some? && picked.value in pipes {
          ctx := RecvFrom(ctx, picked.value);
          state := Receiving(picked.value, None, timeout);
        } else {
          state := RecvOnHold(None, None, timeout);
        }
      } else if state.Active? {
        ReceiveReplyFor(state.eid, state.pending, timeout);
      } else {
        ctx := Cancel(Answer(ctx, Failed(Inactive)), timeout);
        state := Idle;
      }
    }

    method AddPipe(eid: EndpointId, sendPriority: Priority, recvPriority: Priority)
      requires Valid()
      modifies this, lb, fq
      ensures Valid() && CodeStep(old(View()), Event.AddPipe(eid, sendPriority, recvPriority)) == Some(View())
    {
      lb.Insert(eid, sendPriority);
      fq.Insert(eid, recvPriority);
      pipes := pipes + {eid};
    }

    method Drop(eid: EndpointId)
      requires Valid()
      modifies this, lb, fq
      ensures Valid() && View() == Dropped(old(View()), eid, Scheduling.Remove(old(lb.View()), eid), Scheduling.Remove(old(fq.View()), eid))
    {
      lb.Remove(eid);
      fq.Remove(eid);
      rv := rv - {eid};
      pipes := pipes - {eid};
    }

    method Redirect(eid: EndpointId)
      requires Valid()
      requires state.Sending? && state.eid == eid ==> InRange(lb.View())
      requires device && state.Receiving? && state.eid == eid ==> InRange(fq.View())
      modifies this, lb, fq
      ensures Valid() && View() == OnPipeRemoved(old(View()), eid)
    {
      if state.Sending? && state.eid == eid {
        Transmit(state.msg, state.timeout, state.isRetry);
      } else if state.Receiving? && state.eid == eid {
        var timeout := state.timeout;
        state := Idle;
        Receive(timeout);
      }
    }

    method AfterRemoval(eid: EndpointId)
      requires Valid()
      requires state.Sending? && state.eid == eid ==> InRange(lb.View())
      requires device && state.Receiving? && state.eid == eid ==> InRange(fq.View())
      modifies this, lb, fq
      ensures Valid() && View() == Applied(old(View()), OnPipeRemoved(old(View()), eid))
    {
      var wasSend := SendReadiness();
      var wasRecv := RecvReadiness();
      Redirect(eid);
      CheckReadiness(wasSend, wasRecv);
    }

    method RemovePipe(eid: EndpointId)
      requires Valid()
      requires !Panics(View(), Event.RemovePipe(eid))
      modifies this, lb, fq
      ensures Valid() && CodeStep(old(View()), Event.RemovePipe(eid)) == Some(View())
    {
      var known := eid in pipes;
      var wasSend := SendReadiness();
      var wasRecv := RecvReadiness();
      Drop(eid);
      var isSend := SendReadiness();
      var isRecv := RecvReadiness();
      if known {
        AfterRemoval(eid);
      }
      ctx := CheckSend(ctx, wasSend, isSend);
      ctx := CheckRecv(ctx, wasRecv, isRecv);
    }

    method SubmitRequest(msg: Message, timeout: Timeout)
      requires Valid()
      requires InRange(lb.View())
      modifies this, lb
      ensures Valid() && View() == Submitted(old(View()), msg, timeout)
    {
      ctx := Submit(ctx, msg, timeout);
      var raw := msg;
      if !device {
        seqNo := (seqNo + 1) % TWO32;
        raw := Encode(msg, IdOf(seqNo));
      }
      if state.Active? {
        ctx := Cancel(ctx, state.pending.retry);
      }
      Transmit(raw, timeout, false);
    }

    method Send(msg: Message, timeout: Timeout)
      requires Valid()
      requires !Panics(View(), Event.Send(msg, timeout))
      modifies this, lb
      ensures Valid() && CodeStep(old(View()), Event.Send(msg, timeout)) == Some(View())
    {
      var wasSend := SendReadiness();
      var wasRecv := RecvReadiness();
      SubmitRequest(msg, timeout);
      CheckReadiness(wasSend, wasRecv);
    }

    method Acknowledge(eid: EndpointId, scheduled: Timeout)
      requires Valid()
      modifies this
      ensures Valid() && View() == ReqProtocol.OnSendAck(old(View()), eid, scheduled)
    {
      if state.Sending? && state.eid == eid {
        if !state.isRetry {
          ctx := Answer(ctx, SendDone);
        }
        ctx := Cancel(ctx, state.timeout);
        if device {
          state := Idle;
        } else {
          ctx := Schedule(ctx, scheduled);
          state := Active(eid, Pending(state.msg, scheduled));
        }
      }
    }

    method OnSendAck(eid: EndpointId, scheduled: Timeout)
      requires Valid()
      modifies this
      ensures Valid() && CodeStep(old(View()), SendAck(eid, scheduled)) == Some(View())
    {
      var wasSend := SendReadiness();
      var wasRecv := RecvReadiness();
      Acknowledge(eid, scheduled);
      CheckReadiness(wasSend, wasRecv);
    }

    method OnSendTimeout(timer: Timer)
      requires Valid()
      modifies this
      ensures Valid() && CodeStep(old(View()), SendTimeout(timer)) == Some(View())
    {
      var wasSend := SendReadiness();
      var wasRecv := RecvReadiness();
      ctx := Answer(Fire(ctx, timer), Failed(TimedOut));
      state := Idle;
      CheckReadiness(wasSend, wasRecv);
    }

    method ResumeSend(eid: EndpointId)
      requires Valid()
      requires !Panics(View(), SendReady(eid))
      modifies this, lb
      ensures Valid() && View() == ReqProtocol.OnSendReady(old(View()), eid)
    {
      lb.Activate(eid);
      if state.SendOnHold? {
        Transmit(state.msg, state.timeout, state.isRetry);
      }
    }

    method OnSendReady(eid: EndpointId)
      requires Valid()
      requires !Panics(View(), SendReady(eid))
      modifies this, lb
      ensures Valid() && CodeStep(old(View()), SendReady(eid)) == Some(View())
    {
      var wasSend := SendReadiness();
      var wasRecv := RecvReadiness();
      ResumeSend(eid);
      CheckReadiness(wasSend, wasRecv);
    }

    method OnSendNotReady(eid: EndpointId)
      requires Valid()
      modifies this, lb
      ensures Valid() && CodeStep(old(View()), SendNotReady(eid)) == Some(View())
    {
      var wasSend := SendReadiness();
      var wasRecv := RecvReadiness();
      lb.Deactivate(eid);
      CheckReadiness(wasSend, wasRecv);
    }

    method AcceptCall(timeout: Timeout)
      requires Valid()
      requires device ==> InRange(fq.View())
      modifies this, fq
      ensures Valid() && View() == Transition(old(View()), Event.Recv(timeout))
    {
      ctx := Call(ctx, timeout);
      Receive(timeout);
    }

    method Recv(timeout: Timeout)
      requires Valid()
      requires !Panics(View(), Event.Recv(timeout))
      modifies this, fq
      ensures Valid() && CodeStep(old(View()), Event.Recv(timeout)) == Some(View())
    {
      var wasSend := SendReadiness();
      var wasRecv := RecvReadiness();
      AcceptCall(timeout);
      CheckReadiness(wasSend, wasRecv);
    }

    method AcceptReply(eid: EndpointId, msg: Message, id: nat)
      requires Valid()
      modifies this
      ensures Valid() && View() == ReqProtocol.OnRecvAck(old(View()), eid, msg, id)
    {
      if state.Receiving? && state.eid == eid {
        if state.expected.None? {
          ctx := Cancel(Answer(ctx, RecvDone(msg)), state.timeout);
          state := Idle;
        } else if IdOf(seqNo) == id {
          ctx := Cancel(Answer(ctx, RecvDone(msg)), state.timeout);
          ctx := Cancel(ctx, state.expected.value.retry);
          state := Idle;
        } else {
          ReceiveReplyFor(eid, state.expected.value, state.timeout);
        }
      }
    }

    method OnRecvAck(eid: EndpointId, raw: Message)
      requires Valid()
      modifies this
      ensures Valid() && CodeStep(old(View()), RecvAck(eid, raw)) == Some(View())
    {
      var decoded := Decode(raw);
      if decoded.None? {
        ctx := Answer(ctx, Failed(Malformed));
        return;
      }
      var wasSend := SendReadiness();
      var wasRecv := RecvReadiness();
      var (msg, id) := decoded.value;
      AcceptReply(eid, msg, if device then IdOf(seqNo) else id);
      CheckReadiness(wasSend, wasRecv);
    }

    method GiveUp()
      requires Valid()
      modifies this
      ensures Valid() && View() == ReqProtocol.OnRecvTimeout(old(View()))
    {
      if state.Receiving? || state.RecvOnHold? {
        ctx := Answer(ctx, Failed(TimedOut));
        if state.expected.Some? {
          ctx := Cancel(ctx, state.expected.value.retry);
        }
      }
      state := Idle;
    }

    method OnRecvTimeout(timer: Timer)
      requires Valid()
      modifies this
      ensures Valid() && CodeStep(old(View()), RecvTimeout(timer)) == Some(View())
    {
      var wasSend := SendReadiness();
      var wasRecv := RecvReadiness();
      ctx := Fire(ctx, timer);
      GiveUp();
      CheckReadiness(wasSend, wasRecv);
    }

    method ResumeHeld(eid: EndpointId)
      requires Valid()
      requires !Panics(View(), RecvReady(eid))
      modifies this, fq
      ensures Valid() && View() == ReqProtocol.OnRecvReady(old(View()), eid)
    {
      fq.Activate(eid);
      rv := rv + {eid};
      match state
      case RecvOnHold(None, None, timeout) =>
        state := Idle;
        Receive(timeout);
      case RecvOnHold(Some(id), Some(p), timeout) =>
        if eid == id {
          state := Active(id, p);
          Receive(timeout);
        }
      case _ =>
    }

    method OnRecvReady(eid: EndpointId)
      requires Valid()
      requires !Panics(View(), RecvReady(eid))
      modifies this, fq
      ensures Valid() && CodeStep(old(View()), RecvReady(eid)) == Some(View())
    {
      var wasSend := SendReadiness();
      var wasRecv := RecvReadiness();
      ResumeHeld(eid);
      CheckReadiness(wasSend, wasRecv);
    }

    method OnRecvNotReady(eid: EndpointId)
      requires Valid()
      modifies this, fq
      ensures Valid() && CodeStep(old(View()), RecvNotReady(eid)) == Some(View())
    {
      var wasSend := SendReadiness();
      var wasRecv := RecvReadiness();
      fq.Deactivate(eid);
      rv := rv - {eid};
      CheckReadiness(wasSend, wasRecv);
    }

    method OnDevicePlugged()
      requires Valid()
      modifies this
      ensures Valid() && View() == Plugged(old(View()))
    {
      device := true;
    }

    method OnRetryTimeout(timer: Timer)
      requires Valid()
      requires !Panics(View(), Retry(timer))
      modifies this, lb
      ensures Valid() && CodeStep(old(View()), Retry(timer)) == Some(View())
    {
      var wasSend := SendReadiness();
      var wasRecv := RecvReadiness();
      ctx := Fire(ctx, timer);
      if state.Active? {
        Transmit(state.pending.req, None, true);
      }
      CheckReadiness(wasSend, wasRecv);
    }
  }
}

/**
 The surveyor: a survey goes to every ready pipe under a fresh id, and the responses bearing that id are handed to the
 user, one for each receive. The deadline ends a survey, but not while a receive is waiting.
 */
module SurveyorProtocol {
  import opened Core
  import opened Scheduling
  import opened Contexts
  import opened Backtrace
  import opened RequestIds
  import opened Broadcast

  datatype Pending = Pending(id: nat, deadline: Timeout)

  datatype State =
    | Idle
    | Active(pending: Pending)
    | Receiving(eid: EndpointId, survey: Option<Pending>, timeout: Timeout)
    | RecvOnHold(survey: Option<Pending>, timeout: Timeout)

  /** `device` says whether the socket is one side of a device; `seqNo` is a 32-bit counter. */
  datatype Socket = Socket(
    state: State,
    bc: set<EndpointId>,
    fq: Sched,
    pipes: set<EndpointId>,
    seqNo: nat,
    device: bool,
    ctx: Ctx)

  /** `Send` carries the order in which the ready set is drained, and what scheduling the deadline gives. */
  datatype Event =
    | AddPipe(eid: EndpointId, priority: Priority)
    | RemovePipe(eid: EndpointId)
    | Send(msg: Message, timeout: Timeout, order: seq<EndpointId>, deadline: Timeout)
    | SendAck(eid: EndpointId)
    | SendReady(eid: EndpointId)
    | SendNotReady(eid: EndpointId)
    | Recv(timeout: Timeout)
    | RecvAck(eid: EndpointId, raw: Message)
    | RecvTimeout(timer: Timer)
    | RecvReady(eid: EndpointId)
    | RecvNotReady(eid: EndpointId)
    | SurveyTimeout(timer: Timer)

  function New(seed: nat, device: bool): (s: Socket) {
    Socket(Idle, {}, EMPTY, {}, seed % TWO32, device, START)
  }

  // ---------------------------------------------------------------- transitions

  function OnSend(s: Socket, msg: Message, timeout: Timeout, order: seq<EndpointId>, deadline: Timeout): (r: Socket)
    ensures r.ctx.raised == s.ctx.raised && r.ctx.replies == s.ctx.replies + [SendDone]
    ensures r.device == s.device
  {
    var c := if s.state.Active? then Cancel(s.ctx, s.state.pending.deadline) else s.ctx;
    var c1 := Cancel(Answer(SendEach(c, order, s.pipes, msg), SendDone), timeout);
    s.(bc := {}, ctx := Schedule(c1, deadline), state := Active(Pending(IdOf(s.seqNo), deadline)))
  }

  /** The id is drawn, and the message encoded, before the transition. */
  function Submitted(s: Socket, msg: Message, timeout: Timeout, order: seq<EndpointId>, deadline: Timeout): (r: Socket)
    ensures r.ctx.raised == s.ctx.raised && r.ctx.replies == s.ctx.replies + [SendDone]
    ensures r.device == s.device
  {
    var s1 := s.(ctx := Submit(s.ctx, msg, timeout));
    if s.device then OnSend(s1, msg, timeout, order, deadline)
    else
      var seqNo := (s.seqNo + 1) % TWO32;
      OnSend(s1.(seqNo := seqNo), Encode(msg, IdOf(seqNo)), timeout, order, deadline)
  }

  /** From the pipe the scheduler picks, or on hold; `survey` is what a response is wanted to. */
  function Ask(s: Socket, survey: Option<Pending>, timeout: Timeout): (r: Socket)
    ensures r.ctx == s.ctx.(asked := r.ctx.asked)
    ensures r.device == s.device
  {
    var (id, fq) := Pop(s.fq);
    if id.Some? && id.value in s.pipes then
      s.(fq := fq, ctx := RecvFrom(s.ctx, id.value), state := Receiving(id.value, survey, timeout))
    else
      s.(fq := fq, state := RecvOnHold(survey, timeout))
  }

  function OnRecv(s: Socket, timeout: Timeout): (r: Socket)
    ensures r.ctx.raised == s.ctx.raised
    ensures r.device == s.device
  {
    if s.device then Ask(s, None, timeout)
    else if s.state.Active? then Ask(s, Some(s.state.pending), timeout)
    else s.(ctx := Cancel(Answer(s.ctx, Failed(Inactive)), timeout), state := Idle)
  }

  function OnRecvAck(s: Socket, eid: EndpointId, msg: Message, id: nat): (r: Socket)
    ensures r.ctx.raised == s.ctx.raised
    ensures r.device == s.device
  {
    if s.state.Receiving? && s.state.eid == eid then
      var done := Cancel(Answer(s.ctx, RecvDone(msg)), s.state.timeout);
      match s.state.survey
      case None => s.(ctx := done, state := Idle)
      case Some(p) => if p.id == id then s.(ctx := done, state := Active(p)) else Ask(s, Some(p), s.state.timeout)
    else s
  }

  /** A regular socket strips the header; a device takes any id for its own. */
  function Unpacked(s: Socket, raw: Message): (r: Option<(Message, nat)>) {
    match Decode(raw)
    case None => None
    case Some((msg, id)) => if s.device then Some((msg, IdOf(s.seqNo))) else Some((Message([], msg.body), id))
  }

  /** A response that is too short to hold an id answers the user and changes nothing else. */
  function Received(s: Socket, eid: EndpointId, raw: Message): (r: Socket)
    ensures r.ctx.raised == s.ctx.raised
    ensures r.device == s.device
  {
    match Unpacked(s, raw)
    case None => s.(ctx := Answer(s.ctx, Failed(Malformed)))
    case Some((msg, id)) => OnRecvAck(s, eid, msg, id)
  }

  /** The survey outlives a receive that times out. */
  function OnRecvTimeout(s: Socket): (r: Socket)
    ensures r.ctx == Answer(s.ctx, Failed(TimedOut))
    ensures r.device == s.device
  {
    var s1 := s.(ctx := Answer(s.ctx, Failed(TimedOut)));
    match s.state
    case Receiving(_, Some(p), _) => s1.(state := Active(p))
    case RecvOnHold(Some(p), _) => s1.(state := Active(p))
    case _ => s1.(state := Idle)
  }

  function OnRecvReady(s: Socket, eid: EndpointId): (r: Socket)
    ensures r.ctx.raised == s.ctx.raised
    ensures r.device == s.device
  {
    var s1 := s.(fq := Activate(s.fq, eid));
    match s.state
    case RecvOnHold(None, timeout) => OnRecv(s1.(state := Idle), timeout)
    case RecvOnHold(Some(p), timeout) => OnRecv(s1.(state := Active(p)), timeout)
    case _ => s1
  }

  function OnPipeRemoved(s: Socket, eid: EndpointId): (r: Socket)
    ensures r.ctx.raised == s.ctx.raised
    ensures r.device == s.device
  {
    if s.state.Receiving? && s.state.eid == eid then OnRecv(s.(state := Idle), s.state.timeout) else s
  }

  function OnSurveyTimeout(s: Socket): (r: Socket)
    ensures r.ctx == s.ctx
    ensures r.device == s.device
  {
    if s.state.Active? then s.(state := Idle) else s
  }

  /** The transition of an event, which `apply` carries out. */
  function Transition(s: Socket, ev: Event): (r: Socket)
    ensures r.ctx.raised == s.ctx.raised
    ensures r.device == s.device
  {
    match ev
    case Send(msg, t, order, deadline) => Submitted(s, msg, t, order, deadline)
    case SendReady(eid) => s.(bc := s.bc + {eid})
    case SendNotReady(eid) => s.(bc := s.bc - {eid})
    case Recv(t) => OnRecv(s.(ctx := Call(s.ctx, t)), t)
    case RecvAck(eid, raw) => Received(s, eid, raw)
    case RecvTimeout(t) => OnRecvTimeout(s.(ctx := Fire(s.ctx, t)))
    case RecvReady(eid) => OnRecvReady(s, eid)
    case RecvNotReady(eid) => s.(fq := Deactivate(s.fq, eid))
    case SurveyTimeout(t) => OnSurveyTimeout(s.(ctx := Fire(s.ctx, t)))
    case SendAck(_) => s
    case AddPipe(_, _) => s
    case RemovePipe(_) => s
  }

  predicate IsSendReady(s: Socket) {
    s.bc != {}
  }

  predicate IsRecvReady(s: Socket) {
    (s.device || s.state.Active?) && Peek(s.fq)
  }

  /** `apply`: a transition, and notices if the readiness changed. */
  function Applied(s: Socket, t: Socket): (r: Socket)
    ensures r == t.(ctx := t.ctx.(raised := r.ctx.raised))
  {
    t.(ctx := Checks(t.ctx, IsSendReady(s), IsSendReady(t), IsRecvReady(s), IsRecvReady(t)))
  }

  /** The socket without the pipe, given what the scheduler becomes. */
  function Dropped(s: Socket, eid: EndpointId, fq: Sched): (r: Socket) {
    s.(bc := s.bc - {eid}, fq := fq, pipes := s.pipes - {eid})
  }

  function Forget(s: Socket, eid: EndpointId): (r: Socket) {
    Dropped(s, eid, RemoveFollowing(s.fq, eid))
  }

  /** The checks of `remove_pipe`, around the step from `s` to `s1`. */
  function Noticed(s: Socket, s1: Socket, s2: Socket): (r: Socket)
    ensures r == s2.(ctx := s2.ctx.(raised := r.ctx.raised))
  {
    s2.(ctx := Checks(s2.ctx, IsSendReady(s), IsSendReady(s1), IsRecvReady(s), IsRecvReady(s1)))
  }

  /** `remove_pipe` once the pipe is gone: the nested transition comes first, then the checks around the removal. */
  function AfterDrop(s: Socket, s1: Socket, eid: EndpointId): (r: Socket) {
    Noticed(s, s1, if eid in s.pipes then Applied(s1, OnPipeRemoved(s1, eid)) else s1)
  }

  function Removed(s: Socket, eid: EndpointId): (r: Socket) {
    AfterDrop(s, Forget(s, eid), eid)
  }

  function Step(s: Socket, ev: Event): (r: Socket) {
    if ev.AddPipe? then s.(fq := Insert(s.fq, ev.eid, ev.priority), pipes := s.pipes + {ev.eid})
    else if ev.RemovePipe? then Removed(s, ev.eid)
    else Applied(s, Transition(s, ev))
  }

  function Run(s: Socket, evs: seq<Event>): (r: Socket)
    decreases |evs|
  {
    if evs == [] then s else Run(Step(s, evs[0]), evs[1..])
  }

  /** `on_device_plugged`. */
  function Plugged(s: Socket): (r: Socket) {
    s.(device := true)
  }

  /** The scheduler that a step of the code pops, if it pops one. */
  function Popped(s: Socket, ev: Event): (r: Option<Sched>) {
    match ev
    case Recv(_) => if s.device || s.state.Active? then Some(s.fq) else None
    case RecvAck(eid, raw) =>
      if s.state.Receiving? && s.state.eid == eid && s.state.survey.Some? && Unpacked(s, raw).Some?
         && Unpacked(s, raw).value.1 != s.state.survey.value.id then Some(s.fq) else None
    case RecvReady(eid) => if s.state.RecvOnHold? && (s.device || s.state.survey.Some?) then Some(Activate(s.fq, eid)) else None
    case RemovePipe(eid) =>
      if s.device && eid in s.pipes && s.state.Receiving? && s.state.eid == eid then Some(Remove(s.fq, eid)) else None
    case _ => None
  }

  /** A step pops past the end of the vector. */
  predicate Panics(s: Socket, ev: Event) {
    Popped(s, ev).Some? && !InRange(Popped(s, ev).value)
  }

  /** A step as the code takes it, with the scheduler's own removal; nothing if it panics. */
  function CodeStep(s: Socket, ev: Event): (r: Option<Socket>) {
    if Panics(s, ev) then None
    else if ev.RemovePipe? then Some(AfterDrop(s, Dropped(s, ev.eid, Remove(s.fq, ev.eid)), ev.eid))
    else Some(Step(s, ev))
  }

  function CodeRun(s: Socket, evs: seq<Event>): (r: Option<Socket>)
    decreases |evs|
  {
    if evs == [] then Some(s)
    else
      match CodeStep(s, evs[0])
      case None => None
      case Some(r) => CodeRun(r, evs[1..])
  }
}

/** The socket in place. */
module SurveyorSockets {
  import opened Core
  import opened Scheduling
  import opened Priolists
  import opened Contexts
  import opened Backtrace
  import opened RequestIds
  import opened Broadcast
  import opened SurveyorProtocol

  class Surveyor {
    var state: State
    var bc: set<EndpointId>
    const fq: Priolist
    var pipes: set<EndpointId>
    var seqNo: nat
    var device: bool
    var ctx: Ctx

    ghost function View(): (s: Socket)
      reads this, fq
    {
      Socket(state, bc, fq.View(), pipes, seqNo, device, ctx)
    }

    constructor (seed: nat, device: bool)
      ensures fresh(fq) && View() == New(seed, device)
    {
      state, bc, pipes, ctx, seqNo := Idle, {}, {}, START, seed % TWO32;
      this.device := device;
      fq := new Priolist();
    }

    method RecvReadiness() returns (ready: bool)
      ensures ready == IsRecvReady(View())
    {
      ready := fq.Peek();
      ready := ready && (device || state.Active?);
    }

    /** The end of `apply`. */
    method CheckReadiness(wasSend: bool, wasRecv: bool)
      modifies this`ctx
      ensures ctx == Checks(old(ctx), wasSend, IsSendReady(View()), wasRecv, IsRecvReady(View()))
    {
      var nowRecv := RecvReadiness();
      ctx := CheckSend(ctx, wasSend, bc != {});
      ctx := CheckRecv(ctx, wasRecv, nowRecv);
    }

    method Ask(survey: Option<Pending>, timeout: Timeout)
      requires InRange(fq.View())
      modifies this, fq
      ensures View() == SurveyorProtocol.Ask(old(View()), survey, timeout)
    {
      var picked := fq.Pop();
      if picked.Some? && picked.value in pipes {
        ctx := RecvFrom(ctx, picked.value);
        state := Receiving(picked.value, survey, timeout);
      } else {
        state := RecvOnHold(survey, timeout);
      }
    }

    method Receive(timeout: Timeout)
      requires device || state.Active? ==> InRange(fq.View())
      modifies this, fq
      ensures View() == OnRecv(old(View()), timeout)
    {
      if device {
        Ask(None, timeout);
      } else if state.Active? {
        Ask(Some(state.pending), timeout);
      } else {
        ctx := Cancel(Answer(ctx, Failed(Inactive)), timeout);
        state := Idle;
      }
    }

    method AddPipe(eid: EndpointId, priority: Priority)
      modifies this, fq
      ensures CodeStep(old(View()), Event.AddPipe(eid, priority)) == Some(View())
    {
      fq.Insert(eid, priority);
      pipes := pipes + {eid};
    }

    method AfterRemoval(eid: EndpointId)
      requires device && state.Receiving? && state.eid == eid ==> InRange(fq.View())
      modifies this, fq
      ensures View() == Applied(old(View()), OnPipeRemoved(old(View()), eid))
    {
      var wasSend := bc != {};
      var wasRecv := RecvReadiness();
      if state.Receiving? && state.eid == eid {
        var timeout := state.timeout;
        state := Idle;
        Receive(timeout);
      }
      CheckReadiness(wasSend, wasRecv);
    }

    method Drop(eid: EndpointId)
      modifies this, fq
      ensures View() == Dropped(old(View()), eid, Scheduling.Remove(old(fq.View()), eid))
    {
      bc := bc - {eid};
      fq.Remove(eid);
      pipes := pipes - {eid};
    }

    method RemovePipe(eid: EndpointId)
      requires !Panics(View(), Event.RemovePipe(eid))
      modifies this, fq
      ensures CodeStep(old(View()), Event.RemovePipe(eid)) == Some(View())
    {
      var known := eid in pipes;
      var wasSend := bc != {};
      var wasRecv := RecvReadiness();
      Drop(eid);
      var isSend := bc != {};
      var isRecv := RecvReadiness();
      if known {
        AfterRemoval(eid);
      }
      ctx := CheckSend(ctx, wasSend, isSend);
      ctx := CheckRecv(ctx, wasRecv, isRecv);
    }

    method Publish(msg: Message, timeout: Timeout, deadline: Timeout) returns (ghost order: seq<EndpointId>)
      modifies this
      ensures IsDrain(order, old(bc))
      ensures View() == OnSend(old(View()), msg, timeout, order, deadline)
    {
      if state.Active? {
        ctx := Cancel(ctx, state.pending.deadline);
      }
      bc, ctx, order := SendToAll(bc, pipes, ctx, msg);
      ctx := Cancel(Answer(ctx, SendDone), timeout);
      ctx := Schedule(ctx, deadline);
      state := Active(Pending(IdOf(seqNo), deadline));
    }

    method SubmitSurvey(msg: Message, timeout: Timeout, deadline: Timeout) returns (ghost order: seq<EndpointId>)
      modifies this
      ensures IsDrain(order, old(bc))
      ensures View() == Submitted(old(View()), msg, timeout, order, deadline)
    {
      ctx := Submit(ctx, msg, timeout);
      var raw := msg;
      if !device {
        seqNo := (seqNo + 1) % TWO32;
        raw := Encode(msg, IdOf(seqNo));
      }
      order := Publish(raw, timeout, deadline);
    }

    method Send(msg: Message, timeout: Timeout, deadline: Timeout) returns (ghost order: seq<EndpointId>)
      modifies this
      ensures IsDrain(order, old(bc))
      ensures CodeStep(old(View()), Event.Send(msg, timeout, order, deadline)) == Some(View())
    {
      var wasSend := bc != {};
      var wasRecv := RecvReadiness();
      order := SubmitSurvey(msg, timeout, deadline);
      CheckReadiness(wasSend, wasRecv);
    }

    method OnSendReady(eid: EndpointId)
      modifies this
      ensures CodeStep(old(View()), SendReady(eid)) == Some(View())
    {
      var wasSend := bc != {};
      var wasRecv := RecvReadiness();
      bc := bc + {eid};
      CheckReadiness(wasSend, wasRecv);
    }

    method OnSendNotReady(eid: EndpointId)
      modifies this
      ensures CodeStep(old(View()), SendNotReady(eid)) == Some(View())
    {
      var wasSend := bc != {};
      var wasRecv := RecvReadiness();
      bc := bc - {eid};
      CheckReadiness(wasSend, wasRecv);
    }

    method AcceptCall(timeout: Timeout)
      requires device || state.Active? ==> InRange(fq.View())
      modifies this, fq
      ensures View() == Transition(old(View()), Event.Recv(timeout))
    {
      ctx := Call(ctx, timeout);
      Receive(timeout);
    }

    method Recv(timeout: Timeout)
      requires !Panics(View(), Event.Recv(timeout))
      modifies this, fq
      ensures CodeStep(old(View()), Event.Recv(timeout)) == Some(View())
    {
      var wasSend := bc != {};
      var wasRecv := RecvReadiness();
      AcceptCall(timeout);
      CheckReadiness(wasSend, wasRecv);
    }

    method AcceptResponse(eid: EndpointId, msg: Message, id: nat)
      requires state.Receiving? && state.eid == eid && state.survey.Some? && state.survey.value.id != id ==> InRange(fq.View())
      modifies this, fq
      ensures View() == SurveyorProtocol.OnRecvAck(old(View()), eid, msg, id)
    {
      if state.Receiving? && state.eid == eid {
        if state.survey.None? {
          ctx := Cancel(Answer(ctx, RecvDone(msg)), state.timeout);
          state := Idle;
        } else if state.survey.value.id == id {
          ctx := Cancel(Answer(ctx, RecvDone(msg)), state.timeout);
          state := Active(state.survey.value);
        } else {
          Ask(state.survey, state.timeout);
        }
      }
    }

    /** A response that is too short is refused before any transition. */
    method Unpack(eid: EndpointId, raw: Message)
      requires !Panics(View(), RecvAck(eid, raw))
      modifies this, fq
      ensures View() == Received(old(View()), eid, raw)
    {
      var decoded := Decode(raw);
      if decoded.None? {
        ctx := Answer(ctx, Failed(Malformed));
        return;
      }
      var (msg, id) := decoded.value;
      if device {
        AcceptResponse(eid, msg, IdOf(seqNo));
      } else {
        AcceptResponse(eid, Message([], msg.body), id);
      }
    }

    method OnRecvAck(eid: EndpointId, raw: Message)
      requires !Panics(View(), RecvAck(eid, raw))
      modifies this, fq
      ensures CodeStep(old(View()), RecvAck(eid, raw)) == Some(View())
    {
      var wasSend := bc != {};
      var wasRecv := RecvReadiness();
      Unpack(eid, raw);
      CheckReadiness(wasSend, wasRecv);
    }

    method GiveUp()
      modifies this
      ensures View() == SurveyorProtocol.OnRecvTimeout(old(View()))
    {
      ctx := Answer(ctx, Failed(TimedOut));
      if (state.Receiving? || state.RecvOnHold?) && state.survey.Some? {
        state := Active(state.survey.value);
      } else {
        state := Idle;
      }
    }

    method OnRecvTimeout(timer: Timer)
      modifies this
      ensures CodeStep(old(View()), RecvTimeout(timer)) == Some(View())
    {
      var wasSend := bc != {};
      var wasRecv := RecvReadiness();
      ctx := Fire(ctx, timer);
      GiveUp();
      CheckReadiness(wasSend, wasRecv);
    }

    method ResumeHeld(eid: EndpointId)
      requires !Panics(View(), RecvReady(eid))
      modifies this, fq
      ensures View() == SurveyorProtocol.OnRecvReady(old(View()), eid)
    {
      fq.Activate(eid);
      match state
      case RecvOnHold(None, timeout) =>
        state := Idle;
        Receive(timeout);
      case RecvOnHold(Some(p), timeout) =>
        state := Active(p);
        Receive(timeout);
      case _ =>
    }

    method OnRecvReady(eid: EndpointId)
      requires !Panics(View(), RecvReady(eid))
      modifies this, fq
      ensures CodeStep(old(View()), RecvReady(eid)) == Some(View())
    {
      var wasSend := bc != {};
      var wasRecv := RecvReadiness();
      ResumeHeld(eid);
      CheckReadiness(wasSend, wasRecv);
    }

    method OnRecvNotReady(eid: EndpointId)
      modifies this, fq
      ensures CodeStep(old(View()), RecvNotReady(eid)) == Some(View())
    {
      var wasSend := bc != {};
      var wasRecv := RecvReadiness();
      fq.Deactivate(eid);
      CheckReadiness(wasSend, wasRecv);
    }

    method OnDevicePlugged()
      modifies this
      ensures View() == Plugged(old(View()))
    {
      device := true;
    }

    method OnSurveyTimeout(timer: Timer)
      modifies this
      ensures CodeStep(old(View()), SurveyTimeout(timer)) == Some(View())
    {
      var wasSend := bc != {};
      var wasRecv := RecvReadiness();
      ctx := Fire(ctx, timer);
      if state.Active? {
        state := Idle;
      }
      CheckReadiness(wasSend, wasRecv);
    }
  }
}

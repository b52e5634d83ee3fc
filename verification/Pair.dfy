/** The one-to-one protocol: a single peer, both directions, one call at a time. */
module PairProtocol {
  import opened Core
  import opened Contexts

  datatype State =
    | Idle
    | Sending(eid: EndpointId, msg: Message, timeout: Timeout)
    | SendOnHold(msg: Message, timeout: Timeout)
    | Receiving(eid: EndpointId, timeout: Timeout)
    | RecvOnHold(timeout: Timeout)

  /** `closed` are the pipes turned away because there was a peer already. */
  datatype Socket = Socket(
    state: State,
    pipe: Option<EndpointId>,
    sendReady: bool,
    recvReady: bool,
    closed: seq<EndpointId>,
    ctx: Ctx)

  datatype Event =
    | AddPipe(eid: EndpointId)
    | RemovePipe(eid: EndpointId)
    | Send(msg: Message, timeout: Timeout)
    | SendAck(eid: EndpointId)
    | SendTimeout(timer: Timer)
    | SendReady(eid: EndpointId)
    | SendNotReady(eid: EndpointId)
    | Recv(timeout: Timeout)
    | RecvAck(eid: EndpointId, msg: Message)
    | RecvTimeout(timer: Timer)
    | RecvReady(eid: EndpointId)
    | RecvNotReady(eid: EndpointId)

  const NEW: Socket := Socket(Idle, None, false, false, [], START)

  function Transmit(s: Socket, msg: Message, timeout: Timeout): (r: Socket)
    ensures r.ctx.raised == s.ctx.raised
    ensures r.ctx.replies == s.ctx.replies
  {
    if s.sendReady && s.pipe.Some? then
      s.(sendReady := false, ctx := SendTo(s.ctx, s.pipe.value, msg), state := Sending(s.pipe.value, msg, timeout))
    else
      s.(sendReady := false, state := SendOnHold(msg, timeout))
  }

  function Request(s: Socket, timeout: Timeout): (r: Socket)
    ensures r.ctx.raised == s.ctx.raised
    ensures r.ctx.replies == s.ctx.replies
  {
    if s.recvReady && s.pipe.Some? then
      s.(recvReady := false, ctx := RecvFrom(s.ctx, s.pipe.value), state := Receiving(s.pipe.value, timeout))
    else
      s.(recvReady := false, state := RecvOnHold(timeout))
  }

  /** The peer is gone: what was under way with it is put on hold. */
  function OnPipeRemoved(s: Socket, eid: EndpointId): (r: Socket)
    ensures r.ctx.raised == s.ctx.raised
    ensures r.ctx.replies == s.ctx.replies
  {
    var state :=
      match s.state
      case Sending(id, msg, t) => if id == eid then SendOnHold(msg, t) else s.state
      case Receiving(id, t) => if id == eid then RecvOnHold(t) else s.state
      case _ => s.state;
    s.(sendReady := false, recvReady := false, state := state)
  }

  function OnSendAck(s: Socket, eid: EndpointId): (r: Socket)
    ensures r.ctx.raised == s.ctx.raised
  {
    if s.state.Sending? && s.state.eid == eid then
      s.(ctx := Cancel(Answer(s.ctx, SendDone), s.state.timeout), state := Idle)
    else s
  }

  function OnRecvAck(s: Socket, eid: EndpointId, msg: Message): (r: Socket)
    ensures r.ctx.raised == s.ctx.raised
  {
    if s.state.Receiving? && s.state.eid == eid then
      s.(ctx := Cancel(Answer(s.ctx, RecvDone(msg)), s.state.timeout), state := Idle)
    else s
  }

  function OnSendReady(s: Socket, eid: EndpointId): (r: Socket)
    ensures r.ctx.raised == s.ctx.raised
    ensures r.ctx.replies == s.ctx.replies
  {
    var s1 := if s.pipe == Some(eid) then s.(sendReady := true) else s;
    if s.state.SendOnHold? then Transmit(s1, s.state.msg, s.state.timeout) else s1
  }

  function OnRecvReady(s: Socket, eid: EndpointId): (r: Socket)
    ensures r.ctx.raised == s.ctx.raised
    ensures r.ctx.replies == s.ctx.replies
  {
    var s1 := if s.pipe == Some(eid) then s.(recvReady := true) else s;
    if s.state.RecvOnHold? then Request(s1, s.state.timeout) else s1
  }

  /** `apply`: a transition, and notices if the readiness changed. */
  function Applied(s: Socket, t: Socket): (r: Socket)
    ensures r == t.(ctx := t.ctx.(raised := r.ctx.raised))
  {
    t.(ctx := Checks(t.ctx, s.sendReady, t.sendReady, s.recvReady, t.recvReady))
  }

  /** The transition of an event, which `apply` carries out. */
  function Transition(s: Socket, ev: Event): (r: Socket)
    ensures r.ctx.raised == s.ctx.raised
  {
    match ev
    case AddPipe(eid) => if s.pipe.None? then s.(pipe := Some(eid)) else s.(closed := s.closed + [eid])
    case RemovePipe(eid) => if s.pipe == Some(eid) then OnPipeRemoved(s.(pipe := None), eid) else s
    case Send(msg, t) => Transmit(s.(ctx := Submit(s.ctx, msg, t)), msg, t)
    case SendAck(eid) => OnSendAck(s, eid)
    case SendTimeout(t) => s.(ctx := Answer(Fire(s.ctx, t), Failed(TimedOut)), state := Idle)
    case SendReady(eid) => OnSendReady(s, eid)
    case SendNotReady(eid) => if s.pipe == Some(eid) then s.(sendReady := false) else s
    case Recv(t) => Request(s.(ctx := Call(s.ctx, t)), t)
    case RecvAck(eid, msg) => OnRecvAck(s, eid, msg)
    case RecvTimeout(t) => s.(ctx := Answer(Fire(s.ctx, t), Failed(TimedOut)), state := Idle)
    case RecvReady(eid) => OnRecvReady(s, eid)
    case RecvNotReady(eid) => if s.pipe == Some(eid) then s.(recvReady := false) else s
  }

  function Step(s: Socket, ev: Event): (r: Socket) {
    Applied(s, Transition(s, ev))
  }

  function Run(s: Socket, evs: seq<Event>): (r: Socket)
    decreases |evs|
  {
    if evs == [] then s else Run(Step(s, evs[0]), evs[1..])
  }

  /** Calls wait for the answer to the previous one, and timers fire only while live. */
  predicate Enabled(s: Socket, ev: Event) {
    match ev
    case Send(_, t) => Answered(s.ctx) && FreshTimer(s.ctx, t, SendTimer)
    case Recv(t) => Answered(s.ctx) && FreshTimer(s.ctx, t, RecvTimer)
    case SendTimeout(t) => t in s.ctx.timers && t.kind == SendTimer
    case RecvTimeout(t) => t in s.ctx.timers && t.kind == RecvTimer
    case _ => true
  }

  predicate EnabledRun(s: Socket, evs: seq<Event>)
    decreases |evs|
  {
    evs == [] || (Enabled(s, evs[0]) && EnabledRun(Step(s, evs[0]), evs[1..]))
  }

  // ---------------------------------------------------------------- readiness

  ghost predicate ToldOf(s: Socket) {
    Told(s.ctx, s.sendReady, s.recvReady)
  }

  lemma StepTellsIff(s: Socket, ev: Event)
    ensures ToldOf(Step(s, ev)) <==> ToldOf(s)
  {
    var t := Transition(s, ev);
    ChecksTellIff(t.ctx, s.sendReady, t.sendReady, s.recvReady, t.recvReady);
  }

  lemma {:induction false} RunTellsIff(s: Socket, evs: seq<Event>)
    ensures ToldOf(Run(s, evs)) <==> ToldOf(s)
    decreases |evs|
  {
    if evs != [] {
      StepTellsIff(s, evs[0]);
      RunTellsIff(Step(s, evs[0]), evs[1..]);
    }
  }

  /** After every run the last notices are the actual readiness, and notices strictly alternate. */
  lemma ReadinessIsTold(evs: seq<Event>)
    ensures ToldOf(Run(NEW, evs))
  {
    RunTellsIff(NEW, evs);
  }

  // ---------------------------------------------------------------- answers, timers and work

  /**
   One answer per call, the live timers are those held, readiness is that of the present peer, and a call
   waits only if the peer is not ready for it.
   */
  ghost predicate Inv(s: Socket) {
    && (s.sendReady || s.recvReady ==> s.pipe.Some?)
    && |s.ctx.replies| + (if s.state.Idle? then 0 else 1) == s.ctx.calls
    && s.ctx.timers == (if s.state.Idle? then {} else TimerSet(s.state.timeout))
    && match s.state
       case Idle => true
       case Sending(eid, msg, t) =>
         && FreshTimer(START, t, SendTimer) && s.pipe == Some(eid)
         && Latest(s.ctx.submitted, msg) && Latest(s.ctx.sent, (eid, msg))
       case SendOnHold(msg, t) => FreshTimer(START, t, SendTimer) && !s.sendReady && Latest(s.ctx.submitted, msg)
       case Receiving(eid, t) => FreshTimer(START, t, RecvTimer) && s.pipe == Some(eid) && Latest(s.ctx.asked, eid)
       case RecvOnHold(t) => FreshTimer(START, t, RecvTimer) && !s.recvReady
  }

  lemma InvFrame(s: Socket, r: Socket)
    requires Inv(s) && r == s.(ctx := s.ctx.(raised := r.ctx.raised))
    ensures Inv(r)
  {
  }

  lemma PipeLossKeeps(s: Socket, eid: EndpointId)
    requires Inv(s) && s.pipe == Some(eid)
    ensures Inv(OnPipeRemoved(s.(pipe := None), eid))
  {
  }

  lemma SubmissionKeeps(s: Socket, msg: Message, t: Timeout)
    requires Inv(s) && Enabled(s, Send(msg, t))
    ensures Inv(Transmit(s.(ctx := Submit(s.ctx, msg, t)), msg, t))
  {
  }

  lemma CallKeeps(s: Socket, t: Timeout)
    requires Inv(s) && Enabled(s, Recv(t))
    ensures Inv(Request(s.(ctx := Call(s.ctx, t)), t))
  {
  }

  lemma ReadyKeeps(s: Socket, eid: EndpointId)
    requires Inv(s)
    ensures Inv(OnSendReady(s, eid)) && Inv(OnRecvReady(s, eid))
  {
  }

  lemma TransitionKeeps(s: Socket, ev: Event)
    requires Inv(s) && Enabled(s, ev)
    ensures Inv(Transition(s, ev))
  {
    match ev
    case RemovePipe(eid) =>
      if s.pipe == Some(eid) {
        PipeLossKeeps(s, eid);
      }
    case Send(msg, t) => SubmissionKeeps(s, msg, t);
    case SendReady(eid) => ReadyKeeps(s, eid);
    case Recv(t) => CallKeeps(s, t);
    case RecvReady(eid) => ReadyKeeps(s, eid);
    case _ =>
  }

  lemma StepKeeps(s: Socket, ev: Event)
    requires Inv(s) && Enabled(s, ev)
    ensures Inv(Step(s, ev))
  {
    TransitionKeeps(s, ev);
    InvFrame(Transition(s, ev), Step(s, ev));
  }

  lemma {:induction false} RunKeeps(s: Socket, evs: seq<Event>)
    requires Inv(s) && EnabledRun(s, evs)
    ensures Inv(Run(s, evs))
    decreases |evs|
  {
    if evs != [] {
      StepKeeps(s, evs[0]);
      RunKeeps(Step(s, evs[0]), evs[1..]);
    }
  }

  /** Every run answers each call exactly once, leaves no timer behind, and never waits while the peer is ready. */
  lemma EveryRun(evs: seq<Event>)
    requires EnabledRun(NEW, evs)
    ensures Inv(Run(NEW, evs))
  {
    RunKeeps(NEW, evs);
  }

  lemma DeliveryComesFromReceiving(s: Socket, ev: Event, msg: Message)
    requires Step(s, ev).ctx.replies == s.ctx.replies + [RecvDone(msg)]
    ensures ev.RecvAck? && ev.msg == msg && s.state.Receiving? && s.state.eid == ev.eid
  {
    assert Step(s, ev).ctx.replies[|s.ctx.replies|] == RecvDone(msg);
  }

  lemma AcknowledgmentComesFromSending(s: Socket, ev: Event)
    requires Step(s, ev).ctx.replies == s.ctx.replies + [SendDone]
    ensures ev.SendAck? && s.state.Sending? && s.state.eid == ev.eid
  {
    assert Step(s, ev).ctx.replies[|s.ctx.replies|] == SendDone;
  }

  /** After any run, a message is handed to the user only if it comes from the peer that was asked. */
  lemma OnlyTheAskedPeerDelivers(evs: seq<Event>, ev: Event, msg: Message)
    requires EnabledRun(NEW, evs) && Enabled(Run(NEW, evs), ev)
    requires var s := Run(NEW, evs);
             Step(s, ev).ctx.replies == s.ctx.replies + [RecvDone(msg)]
    ensures ev.RecvAck? && ev.msg == msg && Run(NEW, evs).pipe == Some(ev.eid) && Latest(Run(NEW, evs).ctx.asked, ev.eid)
  {
    RunKeeps(NEW, evs);
    DeliveryComesFromReceiving(Run(NEW, evs), ev, msg);
  }

  /** After any run, a send is acknowledged to the user only by the peer that was given the message submitted last. */
  lemma OnlyTheUsedPeerAcknowledges(evs: seq<Event>, ev: Event)
    requires EnabledRun(NEW, evs) && Enabled(Run(NEW, evs), ev)
    requires Step(Run(NEW, evs), ev).ctx.replies == Run(NEW, evs).ctx.replies + [SendDone]
    ensures var c := Run(NEW, evs).ctx;
            && ev.SendAck? && Run(NEW, evs).pipe == Some(ev.eid)
            && |c.submitted| > 0 && Latest(c.sent, (ev.eid, c.submitted[|c.submitted| - 1]))
  {
    RunKeeps(NEW, evs);
    AcknowledgmentComesFromSending(Run(NEW, evs), ev);
  }
}

/** The socket in place. */
module PairSockets {
  import opened Core
  import opened Contexts
  import opened PairProtocol

  class Pair {
    var state: State
    var pipe: Option<EndpointId>
    var sendReady: bool
    var recvReady: bool
    var closed: seq<EndpointId>
    var ctx: Ctx

    ghost function View(): (s: Socket)
      reads this
    {
      Socket(state, pipe, sendReady, recvReady, closed, ctx)
    }

    constructor ()
      ensures View() == NEW
    {
      state, pipe, sendReady, recvReady, closed, ctx := Idle, None, false, false, [], START;
    }

    method Transmit(msg: Message, timeout: Timeout)
      modifies this
      ensures View() == PairProtocol.Transmit(old(View()), msg, timeout)
    {
      if !sendReady {
        state := SendOnHold(msg, timeout);
        return;
      }
      sendReady := false;
      if pipe.Some? {
        ctx := SendTo(ctx, pipe.value, msg);
        state := Sending(pipe.value, msg, timeout);
      } else {
        state := SendOnHold(msg, timeout);
      }
    }

    method Request(timeout: Timeout)
      modifies this
      ensures View() == PairProtocol.Request(old(View()), timeout)
    {
      if !recvReady {
        state := RecvOnHold(timeout);
        return;
      }
      recvReady := false;
      if pipe.Some? {
        ctx := RecvFrom(ctx, pipe.value);
        state := Receiving(pipe.value, timeout);
      } else {
        state := RecvOnHold(timeout);
      }
    }

    /** The end of `apply`. */
    method CheckReadiness(wasSend: bool, wasRecv: bool)
      modifies this`ctx
      ensures ctx == CheckRecv(CheckSend(old(ctx), wasSend, sendReady), wasRecv, recvReady)
    {
      ctx := CheckSend(ctx, wasSend, sendReady);
      ctx := CheckRecv(ctx, wasRecv, recvReady);
    }

    method AddPipe(eid: EndpointId)
      modifies this
      ensures View() == Step(old(View()), Event.AddPipe(eid))
    {
      if pipe.None? {
        pipe := Some(eid);
      } else {
        closed := closed + [eid];
      }
    }

    /** The peer is gone: its readiness with it, and what was under way goes on hold. */
    method Redirect(eid: EndpointId)
      modifies this
      ensures View() == OnPipeRemoved(old(View()), eid)
    {
      sendReady, recvReady := false, false;
      if state.Sending? && state.eid == eid {
        state := SendOnHold(state.msg, state.timeout);
      } else if state.Receiving? && state.eid == eid {
        state := RecvOnHold(state.timeout);
      }
    }

    method RemovePipe(eid: EndpointId)
      modifies this
      ensures View() == Step(old(View()), Event.RemovePipe(eid))
    {
      if pipe != Some(eid) {
        return;
      }
      pipe := None;
      var wasSend, wasRecv := sendReady, recvReady;
      Redirect(eid);
      CheckReadiness(wasSend, wasRecv);
    }

    method Send(msg: Message, timeout: Timeout)
      modifies this
      ensures View() == Step(old(View()), Event.Send(msg, timeout))
    {
      var wasSend, wasRecv := sendReady, recvReady;
      ctx := Submit(ctx, msg, timeout);
      Transmit(msg, timeout);
      CheckReadiness(wasSend, wasRecv);
    }

    method OnSendAck(eid: EndpointId)
      modifies this
      ensures View() == Step(old(View()), SendAck(eid))
    {
      if state.Sending? && state.eid == eid {
        ctx := Cancel(Answer(ctx, SendDone), state.timeout);
        state := Idle;
      }
    }

    method OnSendTimeout(timer: Timer)
      modifies this
      ensures View() == Step(old(View()), SendTimeout(timer))
    {
      ctx := Answer(Fire(ctx, timer), Failed(TimedOut));
      state := Idle;
    }

    method OnSendReady(eid: EndpointId)
      modifies this
      ensures View() == Step(old(View()), SendReady(eid))
    {
      var wasSend, wasRecv := sendReady, recvReady;
      if pipe == Some(eid) {
        sendReady := true;
      }
      if state.SendOnHold? {
        Transmit(state.msg, state.timeout);
      }
      CheckReadiness(wasSend, wasRecv);
    }

    method OnSendNotReady(eid: EndpointId)
      modifies this
      ensures View() == Step(old(View()), SendNotReady(eid))
    {
      var wasSend, wasRecv := sendReady, recvReady;
      if pipe == Some(eid) {
        sendReady := false;
      }
      CheckReadiness(wasSend, wasRecv);
    }

    method Recv(timeout: Timeout)
      modifies this
      ensures View() == Step(old(View()), Event.Recv(timeout))
    {
      var wasSend, wasRecv := sendReady, recvReady;
      ctx := Call(ctx, timeout);
      Request(timeout);
      CheckReadiness(wasSend, wasRecv);
    }

    method OnRecvAck(eid: EndpointId, msg: Message)
      modifies this
      ensures View() == Step(old(View()), RecvAck(eid, msg))
    {
      if state.Receiving? && state.eid == eid {
        ctx := Cancel(Answer(ctx, RecvDone(msg)), state.timeout);
        state := Idle;
      }
    }

    method OnRecvTimeout(timer: Timer)
      modifies this
      ensures View() == Step(old(View()), RecvTimeout(timer))
    {
      ctx := Answer(Fire(ctx, timer), Failed(TimedOut));
      state := Idle;
    }

    method OnRecvReady(eid: EndpointId)
      modifies this
      ensures View() == Step(old(View()), RecvReady(eid))
    {
      var wasSend, wasRecv := sendReady, recvReady;
      if pipe == Some(eid) {
        recvReady := true;
      }
      if state.RecvOnHold? {
        Request(state.timeout);
      }
      CheckReadiness(wasSend, wasRecv);
    }

    method OnRecvNotReady(eid: EndpointId)
      modifies this
      ensures View() == Step(old(View()), RecvNotReady(eid))
    {
      var wasSend, wasRecv := sendReady, recvReady;
      if pipe == Some(eid) {
        recvReady := false;
      }
      CheckReadiness(wasSend, wasRecv);
    }
  }
}

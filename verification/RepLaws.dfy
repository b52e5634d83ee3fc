/** What the replier keeps over every run. */
module RepLaws {
  import opened Core
  import opened Scheduling
  import opened SchedulingLaws
  import opened Contexts
  import opened Backtrace
  import opened RepProtocol

  // ---------------------------------------------------------------- readiness

  ghost predicate ToldOf(s: Socket) {
    Told(s.ctx, IsSendReady(s), IsRecvReady(s))
  }

  lemma AppliedTellsIff(s: Socket, t: Socket)
    requires t.ctx.raised == s.ctx.raised
    ensures ToldOf(Applied(s, t)) <==> ToldOf(s)
  {
    ChecksTellIff(t.ctx, IsSendReady(s), IsSendReady(t), IsRecvReady(s), IsRecvReady(t));
  }

  lemma NestedAppliedTellsIff(s: Socket, s1: Socket, t: Socket)
    requires t.ctx.raised == s.ctx.raised
    requires IsSendReady(s) == IsSendReady(s1) || IsSendReady(s1) == IsSendReady(t)
    requires IsRecvReady(s) == IsRecvReady(s1) || IsRecvReady(s1) == IsRecvReady(t)
    ensures ToldOf(Noticed(s, s1, Applied(s1, t))) <==> ToldOf(s)
  {
    NestedChecksTellIff(t.ctx, IsSendReady(s), IsSendReady(s1), IsSendReady(t), IsRecvReady(s), IsRecvReady(s1), IsRecvReady(t));
  }

  /** The nested transition touches only the receiving side. */
  lemma NestedMovesOneSide(s: Socket, eid: EndpointId)
    ensures var t := OnPipeRemoved(s, eid);
            IsSendReady(t) == IsSendReady(s) && (t.fq == s.fq || t.fq == Pop(s.fq).1)
  {
  }

  /** Removing an item never gives a cursor to a scheduler that has none, and a pop finds nothing there. */
  lemma NoneStaysNone(s: Sched, eid: EndpointId)
    ensures !Peek(s) ==> !Peek(RemoveFollowing(s, eid)) && Pop(s) == (None, s)
  {
  }

  lemma RemovalTellsIff(s: Socket, eid: EndpointId)
    ensures ToldOf(Removed(s, eid)) <==> ToldOf(s)
  {
    var s1 := Forget(s, eid);
    if eid in s.pipes {
      NestedMovesOneSide(s1, eid);
      NoneStaysNone(s1.fq, eid);
      NestedAppliedTellsIff(s, s1, OnPipeRemoved(s1, eid));
    } else {
      ChecksTellIff(s1.ctx, IsSendReady(s), IsSendReady(s1), IsRecvReady(s), IsRecvReady(s1));
    }
  }

  lemma StepTellsIff(s: Socket, ev: Event)
    ensures ToldOf(Step(s, ev)) <==> ToldOf(s)
  {
    if ev.AddPipe? {
    } else if ev.RemovePipe? {
      RemovalTellsIff(s, ev.eid);
    } else {
      AppliedTellsIff(s, Transition(s, ev));
    }
  }

  lemma {:induction false} RunTellsIff(s: Socket, evs: seq<Event>)
    ensures ToldOf(Run(s, evs)) <==> ToldOf(s)
    decreases |evs|
  {
    if evs != [] {
      StepTellsIff(s, evs[0]);
      RunTellsIff(Step(s, evs[0]), evs[1..]);
    }
  }

  /** After every run the last notices are the actual readiness, and notices strictly alternate. */
  lemma ReadinessIsTold(device: bool, evs: seq<Event>)
    ensures ToldOf(Run(New(device), evs))
  {
    RunTellsIff(New(device), evs);
  }

  lemma StepKeepsMode(s: Socket, ev: Event)
    ensures Step(s, ev).device == s.device
  {
    match ev
    case RemovePipe(eid) => assert OnPipeRemoved(Forget(s, eid), eid).device == s.device;
    case _ =>
  }

  lemma {:induction false} RunKeepsMode(s: Socket, evs: seq<Event>)
    ensures Run(s, evs).device == s.device
    decreases |evs|
  {
    if evs != [] {
      StepKeepsMode(s, evs[0]);
      RunKeepsMode(Step(s, evs[0]), evs[1..]);
    }
  }

  /**
   Plugging raises no notice. After any run before it and any run after it the notices are right exactly if, when it
   was plugged, the socket was as ready to send as a device as it had been for the user.
   */
  lemma PluggingTellsIff(before: seq<Event>, after: seq<Event>)
    ensures var s := Run(New(false), before);
            ToldOf(Run(Plugged(s), after)) <==> (s.sd != {} <==> s.state.Active? && s.state.eid in s.sd)
  {
    ReadinessIsTold(false, before);
    RunKeepsMode(New(false), before);
    RunTellsIff(Plugged(Run(New(false), before)), after);
  }

  // ---------------------------------------------------------------- agreement alone

  /** A side agrees after a step exactly if it did before or its readiness changed. */
  ghost predicate AgreesOn(s: Socket, r: Socket) {
    && (LastSend(r.ctx.raised) == IsSendReady(r) <==> LastSend(s.ctx.raised) == IsSendReady(s) || IsSendReady(s) != IsSendReady(r))
    && (LastRecv(r.ctx.raised) == IsRecvReady(r) <==> LastRecv(s.ctx.raised) == IsRecvReady(s) || IsRecvReady(s) != IsRecvReady(r))
  }

  lemma AppliedAgrees(s: Socket, t: Socket)
    requires t.ctx.raised == s.ctx.raised
    ensures AgreesOn(s, Applied(s, t))
  {
    ChecksAgreeIff(t.ctx, IsSendReady(s), IsSendReady(t), IsRecvReady(s), IsRecvReady(t));
  }

  lemma NestedAppliedAgrees(s: Socket, s1: Socket, t: Socket)
    requires t.ctx.raised == s.ctx.raised
    requires IsSendReady(s) == IsSendReady(s1) || IsSendReady(s1) == IsSendReady(t)
    requires IsRecvReady(s) == IsRecvReady(s1) || IsRecvReady(s1) == IsRecvReady(t)
    ensures AgreesOn(s, Noticed(s, s1, Applied(s1, t)))
  {
    NestedChecksAgreeIff(t.ctx, IsSendReady(s), IsSendReady(s1), IsSendReady(t), IsRecvReady(s), IsRecvReady(s1), IsRecvReady(t));
  }

  lemma RemovalAgrees(s: Socket, eid: EndpointId)
    ensures AgreesOn(s, Removed(s, eid))
  {
    var s1 := Forget(s, eid);
    if eid in s.pipes {
      NestedMovesOneSide(s1, eid);
      NoneStaysNone(s1.fq, eid);
      NestedAppliedAgrees(s, s1, OnPipeRemoved(s1, eid));
    } else {
      ChecksAgreeIff(s1.ctx, IsSendReady(s), IsSendReady(s1), IsRecvReady(s), IsRecvReady(s1));
    }
  }

  lemma StepAgrees(s: Socket, ev: Event)
    ensures AgreesOn(s, Step(s, ev))
  {
    if ev.RemovePipe? {
      RemovalAgrees(s, ev.eid);
    } else if !ev.AddPipe? {
      AppliedAgrees(s, Transition(s, ev));
    }
  }

  /** The readiness of each side changes at some point of the run. */
  predicate SendChanges(s: Socket, evs: seq<Event>)
    decreases |evs|
  {
    evs != [] && (IsSendReady(s) != IsSendReady(Step(s, evs[0])) || SendChanges(Step(s, evs[0]), evs[1..]))
  }

  predicate RecvChanges(s: Socket, evs: seq<Event>)
    decreases |evs|
  {
    evs != [] && (IsRecvReady(s) != IsRecvReady(Step(s, evs[0])) || RecvChanges(Step(s, evs[0]), evs[1..]))
  }

  /** So from any state, plugged or not, a wrong last notice is put right by the next change of readiness, and by nothing else. */
  lemma {:induction false} RunAgreesIff(s: Socket, evs: seq<Event>)
    ensures var r := Run(s, evs);
            && (LastSend(r.ctx.raised) == IsSendReady(r) <==> LastSend(s.ctx.raised) == IsSendReady(s) || SendChanges(s, evs))
            && (LastRecv(r.ctx.raised) == IsRecvReady(r) <==> LastRecv(s.ctx.raised) == IsRecvReady(s) || RecvChanges(s, evs))
    decreases |evs|
  {
    if evs != [] {
      StepAgrees(s, evs[0]);
      RunAgreesIff(Step(s, evs[0]), evs[1..]);
    }
  }

  // ---------------------------------------------------------------- routing

  /** Messages come off the wire with an empty header. */
  predicate FromWire(evs: seq<Event>) {
    forall i :: 0 <= i < |evs| && evs[i].RecvAck? ==> evs[i].raw.header == []
  }

  /**
   `msg` to `to` answers the request `raw` of `eid`: it goes back where the request came from, under exactly the
   words that were in front of the request's payload.
   */
  predicate Answers(eid: EndpointId, raw: Message, to: EndpointId, msg: Message) {
    match RawToMsg(raw, eid)
    case None => false
    case Some(m) => to == eid % TWO32 && msg.header + m.body == raw.body
  }

  /** Every reply answers the request delivered just before it; so no request is answered twice. */
  ghost predicate AllRouted(log: seq<Entry>) {
    forall i :: 0 <= i < |log| && log[i].Replied? ==>
      0 < i && log[i - 1].Delivered? && Answers(log[i - 1].eid, log[i - 1].raw, log[i].eid, log[i].msg)
  }

  /** The replies in a log. */
  function Wires(log: seq<Entry>): (r: seq<(EndpointId, Message)>) {
    if log == [] then []
    else
      match log[|log| - 1]
      case Replied(eid, msg) => Wires(log[..|log| - 1]) + [(eid, msg)]
      case Delivered(_, _) => Wires(log[..|log| - 1])
  }

  /** The requests in a log, as a regular socket hands them to the user. */
  function Requests(log: seq<Entry>): (r: seq<Message>) {
    if log == [] then []
    else
      match log[|log| - 1]
      case Delivered(eid, raw) => Requests(log[..|log| - 1]) + [Payload(eid, raw)]
      case Replied(_, _) => Requests(log[..|log| - 1])
  }

  /** A request without its backtrace. */
  function Payload(eid: EndpointId, raw: Message): (r: Message) {
    match RawToMsg(raw, eid)
    case None => raw
    case Some(m) => Message([], m.body)
  }

  /** The messages among the answers to the user. */
  function Handed(replies: seq<Reply>): (r: seq<Message>) {
    if replies == [] then []
    else
      match replies[|replies| - 1]
      case RecvDone(msg) => Handed(replies[..|replies| - 1]) + [msg]
      case _ => Handed(replies[..|replies| - 1])
  }

  lemma LogGrows(log: seq<Entry>, e: Entry)
    ensures Wires(log + [e]) == if e.Replied? then Wires(log) + [(e.eid, e.msg)] else Wires(log)
    ensures Requests(log + [e]) == if e.Delivered? then Requests(log) + [Payload(e.eid, e.raw)] else Requests(log)
  {
    assert (log + [e])[..|log|] == log;
  }

  lemma AnswersGrow(replies: seq<Reply>, r: Reply)
    ensures Handed(replies + [r]) == if r.RecvDone? then Handed(replies) + [r.msg] else Handed(replies)
  {
    assert (replies + [r])[..|replies|] == replies;
  }

  lemma {:induction false} RoutedMeansAtMostOne(log: seq<Entry>)
    requires AllRouted(log)
    ensures |Wires(log)| <= |Requests(log)|
    decreases |log|
  {
    if log != [] {
      var n := |log|;
      var front := log[..n - 1];
      if log[n - 1].Replied? {
        assert front[..n - 2] == log[..n - 2];
        RoutedMeansAtMostOne(log[..n - 2]);
      } else {
        RoutedMeansAtMostOne(front);
      }
    }
  }

  /** The last thing that happened is the delivery of a request of `eid`. */
  predicate JustDelivered(log: seq<Entry>) {
    log != [] && log[|log| - 1].Delivered? && log[|log| - 1].raw.header == []
  }

  /** The backtrace stored is none or that of the last request; a reply on hold answers it with the user's body. */
  ghost predicate Knows(s: Socket) {
    match s.state
    case Active(eid) =>
      && JustDelivered(s.log)
      && var d := s.log[|s.log| - 1];
         d.eid == eid && RawToMsg(d.raw, eid).Some? && (s.backtrace == [] || s.backtrace == RawToMsg(d.raw, eid).value.header)
    case SendOnHold(eid, msg, _) =>
      && JustDelivered(s.log)
      && var d := s.log[|s.log| - 1];
         Answers(d.eid, d.raw, eid, msg) && IsUsers(s.ctx, msg)
    case Sending(eid, msg, _) => Latest(s.log, Replied(eid, msg))
    case _ => true
  }

  /** The body is that of one of the sends. */
  ghost predicate IsUsers(c: Ctx, msg: Message) {
    exists k :: 0 <= k < |c.submitted| && c.submitted[k].body == msg.body
  }

  lemma SubmitKeepsUsers(c: Ctx, msg: Message, timeout: Timeout, m: Message)
    ensures IsUsers(c, m) ==> IsUsers(Submit(c, msg, timeout), m)
    ensures m.body == msg.body ==> IsUsers(Submit(c, msg, timeout), m)
  {
    var c' := Submit(c, msg, timeout);
    assert c'.submitted[|c.submitted|] == msg;
    if IsUsers(c, m) {
      var k :| 0 <= k < |c.submitted| && c.submitted[k].body == m.body;
      assert c'.submitted[k] == c.submitted[k];
    }
  }

  ghost predicate Routing(s: Socket) {
    && !s.device
    && AllRouted(s.log)
    && s.ctx.sent == Wires(s.log)
    && Knows(s)
  }

  /** A backtrace built by `raw_msg_to_msg` starts with the endpoint and leads back along the rest. */
  lemma BacktraceRoutes(eid: EndpointId, raw: Message, body: Bytes)
    requires raw.header == [] && RawToMsg(raw, eid).Some?
    ensures var bt := RawToMsg(raw, eid).value.header;
            && |bt| >= 4 && ReadBigEndian(bt[..4]) == eid % TWO32
            && MsgToRaw(Message(bt, body)) == Some((Message(bt[4..], body), eid % TWO32))
            && Answers(eid, raw, eid % TWO32, Message(bt[4..], body))
  {
    var m := RawToMsg(raw, eid).value;
    var top := BE32(eid);
    assert raw.header + top == top;
    var j := UnwindNeedsBottom(top, raw.body, 0);
    UnwindSplitsAtBottom(top, raw.body, 0, j);
    Word32(eid);
    var trail := raw.body[..4 * (j + 1)];
    assert m.header == top + trail;
    assert m.header[..4] == top && m.header[4..] == trail;
    assert trail + m.body == raw.body;
  }

  lemma ReplyIsRouted(log: seq<Entry>, eid: EndpointId, msg: Message)
    requires AllRouted(log) && JustDelivered(log) && Answers(log[|log| - 1].eid, log[|log| - 1].raw, eid, msg)
    ensures AllRouted(log + [Replied(eid, msg)])
  {
  }

  lemma ReplyRoutes(s: Socket, msg: Message, timeout: Timeout, eid: EndpointId)
    requires !s.device && AllRouted(s.log) && s.ctx.sent == Wires(s.log) && JustDelivered(s.log) && IsUsers(s.ctx, msg)
    requires var d := s.log[|s.log| - 1]; Answers(d.eid, d.raw, eid, msg)
    ensures Routing(SendReplyTo(s, msg, timeout, eid))
  {
    ReplyIsRouted(s.log, eid, msg);
    LogGrows(s.log, Replied(eid, msg));
    assert SendReplyTo(s, msg, timeout, eid).ctx.submitted == s.ctx.submitted;
  }

  /** What routing looks at: notices, timers, readiness and the answers are no part of it. */
  lemma RoutingFrame(s: Socket, r: Socket)
    requires Routing(s) && r.state == s.state && r.device == s.device && r.log == s.log
    requires r.backtrace == s.backtrace || r.backtrace == []
    requires r.ctx.sent == s.ctx.sent && r.ctx.submitted == s.ctx.submitted
    ensures Routing(r)
  {
  }

  /** A state that holds nothing needs only a log that is right. */
  lemma UnboundRoutes(s: Socket, r: Socket)
    requires Routing(s) && (r.state.Idle? || r.state.Receiving? || r.state.RecvOnHold?) && r.device == s.device
    requires r.log == s.log && r.ctx.sent == s.ctx.sent
    ensures Routing(r)
  {
  }

  lemma SendRoutes(s: Socket, msg: Message, timeout: Timeout)
    requires Routing(s) && s.state.Active? && Routed(s, msg).Some?
    ensures Routing(Submitted(s, msg, timeout))
  {
    var (raw, eid) := Routed(s, msg).value;
    var d := s.log[|s.log| - 1];
    var s1 := s.(ctx := Submit(s.ctx, msg, timeout));
    BacktraceRoutes(d.eid, d.raw, msg.body);
    SubmitKeepsUsers(s.ctx, msg, timeout, raw);
    ReplyRoutes(s1, raw, timeout, eid);
    assert Submitted(s, msg, timeout) == OnSend(s1, raw, timeout, eid);
  }

  lemma SubmissionRoutes(s: Socket, msg: Message, timeout: Timeout)
    requires Routing(s)
    ensures Routing(Submitted(s, msg, timeout))
  {
    if Routed(s, msg).Some? {
      if s.state.Active? {
        SendRoutes(s, msg, timeout);
      } else {
        UnboundRoutes(s, Submitted(s, msg, timeout));
      }
    } else if s.state.SendOnHold? {
      SubmitKeepsUsers(s.ctx, msg, timeout, s.state.msg);
    }
  }

  lemma SendReadyRoutes(s: Socket, eid: EndpointId)
    requires Routing(s)
    ensures Routing(OnSendReady(s, eid))
  {
    var s1 := s.(sd := s.sd + {eid});
    RoutingFrame(s, s1);
    if s.state.SendOnHold? && s.state.eid == eid {
      ReplyRoutes(s1, s.state.msg, s.state.timeout, eid);
    }
  }

  lemma DeliveryIsRouted(log: seq<Entry>, e: Entry)
    requires AllRouted(log) && e.Delivered?
    ensures AllRouted(log + [e])
  {
  }

  lemma DeliveryRoutes(s: Socket, eid: EndpointId, raw: Message)
    requires Routing(s) && raw.header == [] && RawToMsg(raw, eid).Some?
    ensures Routing(OnRecvAck(s, eid, RawToMsg(raw, eid).value, raw))
  {
    if s.state.Receiving? && s.state.eid == eid {
      LogGrows(s.log, Delivered(eid, raw));
      DeliveryIsRouted(s.log, Delivered(eid, raw));
    }
  }

  lemma ReceiptRoutes(s: Socket, eid: EndpointId, raw: Message)
    requires Routing(s) && raw.header == []
    ensures Routing(Received(s, eid, raw))
  {
    if RawToMsg(raw, eid).Some? {
      DeliveryRoutes(s, eid, raw);
    } else {
      RoutingFrame(s, Received(s, eid, raw));
    }
  }

  lemma SendAckRoutes(s: Socket, eid: EndpointId)
    requires Routing(s)
    ensures Routing(OnSendAck(s.(backtrace := []), eid))
  {
    var s1 := s.(backtrace := []);
    RoutingFrame(s, s1);
    if s.state.Sending? && s.state.eid == eid {
      UnboundRoutes(s1, OnSendAck(s1, eid));
    }
  }

  lemma RecvRoutes(s: Socket, timeout: Timeout)
    requires Routing(s)
    ensures Routing(OnRecv(s, timeout))
  {
    UnboundRoutes(s, OnRecv(s, timeout));
  }

  lemma RecvReadyRoutes(s: Socket, eid: EndpointId)
    requires Routing(s)
    ensures Routing(OnRecvReady(s, eid))
  {
    var s1 := s.(fq := Activate(s.fq, eid));
    RoutingFrame(s, s1);
    if s.state.RecvOnHold? {
      RecvRoutes(s1, s.state.timeout);
    }
  }

  lemma RemovalRoutes(s: Socket, eid: EndpointId)
    requires Routing(s)
    ensures Routing(Removed(s, eid))
  {
    var s1 := Forget(s, eid);
    RoutingFrame(s, s1);
    if s.state.Receiving? {
      RecvRoutes(s1, s.state.timeout);
    }
    RoutingFrame(if eid in s.pipes then OnPipeRemoved(s1, eid) else s1, Removed(s, eid));
  }

  lemma TimeoutRoutes(s: Socket, t: Timer)
    requires Routing(s)
    ensures Routing(s.(ctx := Answer(Fire(s.ctx, t), Failed(TimedOut)), state := Idle))
  {
    UnboundRoutes(s, s.(ctx := Answer(Fire(s.ctx, t), Failed(TimedOut)), state := Idle));
  }

  lemma TransitionRoutes(s: Socket, ev: Event)
    requires Routing(s) && (ev.RecvAck? ==> ev.raw.header == [])
    ensures Routing(Transition(s, ev))
  {
    match ev
    case Send(msg, t) => SubmissionRoutes(s, msg, t);
    case SendAck(eid) => SendAckRoutes(s, eid);
    case SendTimeout(t) => TimeoutRoutes(s, t);
    case SendReady(eid) => SendReadyRoutes(s, eid);
    case SendNotReady(eid) => RoutingFrame(s, s.(sd := s.sd - {eid}));
    case Recv(t) => RecvRoutes(s.(ctx := Call(s.ctx, t)), t);
    case RecvAck(eid, raw) => ReceiptRoutes(s, eid, raw);
    case RecvTimeout(t) => TimeoutRoutes(s, t);
    case RecvReady(eid) => RecvReadyRoutes(s, eid);
    case RecvNotReady(eid) => RoutingFrame(s, s.(fq := Deactivate(s.fq, eid)));
    case _ =>
  }

  lemma StepRoutes(s: Socket, ev: Event)
    requires Routing(s) && (ev.RecvAck? ==> ev.raw.header == [])
    ensures Routing(Step(s, ev))
  {
    if ev.AddPipe? {
      RoutingFrame(s, Step(s, ev));
    } else if ev.RemovePipe? {
      RemovalRoutes(s, ev.eid);
    } else {
      TransitionRoutes(s, ev);
      RoutingFrame(Transition(s, ev), Step(s, ev));
    }
  }

  lemma {:induction false} RunRoutes(s: Socket, evs: seq<Event>)
    requires Routing(s) && FromWire(evs)
    ensures Routing(Run(s, evs))
    decreases |evs|
  {
    if evs != [] {
      StepRoutes(s, evs[0]);
      RunRoutes(Step(s, evs[0]), evs[1..]);
    }
  }

  // ---------------------------------------------------------------- what the user gets

  /** What an event may tell the user: a failure, or what an acknowledgment or a request is due. */
  predicate MayTell(s: Socket, ev: Event, a: Reply) {
    match a
    case Failed(_) => true
    case SendDone => ev.SendAck? && s.state.Sending? && s.state.eid == ev.eid
    case RecvDone(msg) =>
      ev.RecvAck? && s.state.Receiving? && s.state.eid == ev.eid && RawToMsg(ev.raw, ev.eid).Some? && msg == Payload(ev.eid, ev.raw)
  }

  ghost predicate Tells(s: Socket, ev: Event, replies: seq<Reply>) {
    replies == s.ctx.replies || exists a :: MayTell(s, ev, a) && replies == s.ctx.replies + [a]
  }

  lemma FailureIsTold(s: Socket, ev: Event, replies: seq<Reply>, p: Problem)
    requires replies == s.ctx.replies || replies == s.ctx.replies + [Failed(p)]
    ensures Tells(s, ev, replies)
  {
    assert MayTell(s, ev, Failed(p));
  }

  lemma SubmissionTells(s: Socket, msg: Message, timeout: Timeout)
    requires !s.device
    ensures Tells(s, Send(msg, timeout), Submitted(s, msg, timeout).ctx.replies)
  {
    var ev, replies := Send(msg, timeout), Submitted(s, msg, timeout).ctx.replies;
    FailureIsTold(s, ev, replies, if Routed(s, msg).None? then Malformed else Inactive);
  }

  lemma SendAckTells(s: Socket, eid: EndpointId)
    ensures Tells(s, SendAck(eid), OnSendAck(s.(backtrace := []), eid).ctx.replies)
  {
    if s.state.Sending? && s.state.eid == eid {
      assert MayTell(s, SendAck(eid), SendDone);
    }
  }

  lemma ReceiptTells(s: Socket, eid: EndpointId, raw: Message)
    requires !s.device
    ensures Tells(s, RecvAck(eid, raw), Received(s, eid, raw).ctx.replies)
  {
    var ev, r := RecvAck(eid, raw), Received(s, eid, raw);
    if RawToMsg(raw, eid).None? {
      FailureIsTold(s, ev, r.ctx.replies, Malformed);
    } else if s.state.Receiving? && s.state.eid == eid {
      assert MayTell(s, ev, RecvDone(Payload(eid, raw)));
    }
  }

  lemma StepTellsTheUser(s: Socket, ev: Event)
    requires !s.device
    ensures Tells(s, ev, Step(s, ev).ctx.replies)
  {
    var replies := Step(s, ev).ctx.replies;
    match ev
    case Send(msg, t) => SubmissionTells(s, msg, t);
    case SendAck(eid) => SendAckTells(s, eid);
    case RecvAck(eid, raw) => ReceiptTells(s, eid, raw);
    case SendTimeout(_) => FailureIsTold(s, ev, replies, TimedOut);
    case RecvTimeout(_) => FailureIsTold(s, ev, replies, TimedOut);
    case _ =>
  }

  lemma StepTellsOnly(s: Socket, ev: Event, a: Reply)
    requires !s.device && Step(s, ev).ctx.replies == s.ctx.replies + [a]
    ensures MayTell(s, ev, a)
  {
    StepTellsTheUser(s, ev);
    assert Step(s, ev).ctx.replies[|s.ctx.replies|] == a;
  }

  /** The log tells what the user got. */
  predicate Honest(s: Socket) {
    !s.device && Requests(s.log) == Handed(s.ctx.replies)
  }

  predicate Delivers(s: Socket, ev: Event) {
    ev.RecvAck? && s.state.Receiving? && s.state.eid == ev.eid && RawToMsg(ev.raw, ev.eid).Some?
  }

  /** The log grows by what a step delivers or replies. */
  ghost predicate LogGrowsBy(s: Socket, ev: Event, log: seq<Entry>) {
    if Delivers(s, ev) then log == s.log + [Delivered(ev.eid, ev.raw)]
    else log == s.log || exists to, msg :: log == s.log + [Replied(to, msg)]
  }

  lemma LogOfTransition(s: Socket, ev: Event)
    ensures LogGrowsBy(s, ev, Transition(s, ev).log)
  {
    match ev
    case Send(msg, t) =>
      if Routed(s, msg).Some? && Transition(s, ev).log != s.log {
        var (raw, eid) := Routed(s, msg).value;
        assert Transition(s, ev).log == s.log + [Replied(eid, raw)];
      }
    case SendReady(eid) =>
      if Transition(s, ev).log != s.log {
        assert Transition(s, ev).log == s.log + [Replied(eid, s.state.msg)];
      }
    case _ =>
  }

  lemma LogOfStep(s: Socket, ev: Event)
    ensures LogGrowsBy(s, ev, Step(s, ev).log)
  {
    if !ev.AddPipe? && !ev.RemovePipe? {
      LogOfTransition(s, ev);
    }
  }

  lemma RequestsOfStep(s: Socket, ev: Event)
    ensures Requests(Step(s, ev).log) == if Delivers(s, ev) then Requests(s.log) + [Payload(ev.eid, ev.raw)] else Requests(s.log)
  {
    var log := Step(s, ev).log;
    LogOfStep(s, ev);
    if log != s.log {
      assert log == s.log + [log[|s.log|]];
      LogGrows(s.log, log[|s.log|]);
    }
  }

  lemma DeliveryIsTold(s: Socket, ev: Event)
    requires !s.device && Delivers(s, ev)
    ensures Step(s, ev).ctx.replies == s.ctx.replies + [RecvDone(Payload(ev.eid, ev.raw))]
  {
  }

  lemma HandedByStep(s: Socket, ev: Event)
    requires !s.device
    ensures Handed(Step(s, ev).ctx.replies)
            == if Delivers(s, ev) then Handed(s.ctx.replies) + [Payload(ev.eid, ev.raw)] else Handed(s.ctx.replies)
  {
    var replies := Step(s, ev).ctx.replies;
    if Delivers(s, ev) {
      DeliveryIsTold(s, ev);
      AnswersGrow(s.ctx.replies, RecvDone(Payload(ev.eid, ev.raw)));
    } else {
      StepTellsTheUser(s, ev);
      if replies != s.ctx.replies {
        var a :| MayTell(s, ev, a) && replies == s.ctx.replies + [a];
        AnswersGrow(s.ctx.replies, a);
      }
    }
  }

  lemma StepIsHonest(s: Socket, ev: Event)
    requires Honest(s)
    ensures Honest(Step(s, ev))
  {
    StepKeepsMode(s, ev);
    RequestsOfStep(s, ev);
    HandedByStep(s, ev);
  }

  lemma {:induction false} RunIsHonest(s: Socket, evs: seq<Event>)
    requires Honest(s)
    ensures Honest(Run(s, evs))
    decreases |evs|
  {
    if evs != [] {
      StepIsHonest(s, evs[0]);
      RunIsHonest(Step(s, evs[0]), evs[1..]);
    }
  }

  /**
   In every run of a regular socket each reply on the wire goes back to the endpoint of the request delivered just
   before it, under that request's backtrace, and there are no more replies than requests handed to the user.
   */
  lemma EveryRunRoutes(evs: seq<Event>)
    requires FromWire(evs)
    ensures var s := Run(New(false), evs);
            Routing(s) && Honest(s) && |s.ctx.sent| <= |Handed(s.ctx.replies)|
  {
    RunRoutes(New(false), evs);
    RunIsHonest(New(false), evs);
    RoutedMeansAtMostOne(Run(New(false), evs).log);
  }

  /** After any run, a reply is acknowledged to the user only by the endpoint it was last put on the wire to. */
  lemma OnlyTheUsedPipeAcknowledges(evs: seq<Event>, ev: Event)
    requires FromWire(evs)
    requires Step(Run(New(false), evs), ev).ctx.replies == Run(New(false), evs).ctx.replies + [SendDone]
    ensures ev.SendAck?
    ensures var log := Run(New(false), evs).log; log != [] && log[|log| - 1].Replied? && log[|log| - 1].eid == ev.eid
  {
    RunRoutes(New(false), evs);
    StepTellsOnly(Run(New(false), evs), ev, SendDone);
  }

  /** `msg` to `to` answers the last delivered request with a body that the user sent. */
  ghost predicate AnswersLast(s: Socket, c: Ctx, to: EndpointId, msg: Message) {
    && JustDelivered(s.log)
    && Answers(s.log[|s.log| - 1].eid, s.log[|s.log| - 1].raw, to, msg)
    && IsUsers(c, msg)
  }

  /** Only a send of the user and a pipe that becomes ready put something on the wire. */
  lemma WireOfStep(s: Socket, ev: Event)
    requires !s.device
    ensures var sent := Step(s, ev).ctx.sent;
            || sent == s.ctx.sent
            || (ev.Send? && s.state.Active? && Routed(s, ev.msg).Some?
                && sent == s.ctx.sent + [(Routed(s, ev.msg).value.1, Routed(s, ev.msg).value.0)])
            || (ev.SendReady? && s.state.SendOnHold? && sent == s.ctx.sent + [(s.state.eid, s.state.msg)])
  {
  }

  lemma SubmittedByStep(s: Socket, ev: Event)
    ensures Step(s, ev).ctx.submitted == if ev.Send? then s.ctx.submitted + [ev.msg] else s.ctx.submitted
  {
  }

  lemma WireComesFromServing(s: Socket, ev: Event, to: EndpointId, msg: Message)
    requires Routing(s) && Step(s, ev).ctx.sent == s.ctx.sent + [(to, msg)]
    ensures AnswersLast(s, Step(s, ev).ctx, to, msg)
  {
    WireOfStep(s, ev);
    SubmittedByStep(s, ev);
    assert Step(s, ev).ctx.sent[|s.ctx.sent|] == (to, msg);
    if ev.Send? {
      var d := s.log[|s.log| - 1];
      BacktraceRoutes(d.eid, d.raw, ev.msg.body);
      SubmitKeepsUsers(s.ctx, ev.msg, ev.timeout, msg);
    }
  }

  /**
   After any run, a message put on the wire answers the last delivered request with a body of the user; which one, and
   when it is the latest, is `LatestBodyIsSentIff`.
   */
  lemma OnlyTheLastRequestIsAnswered(evs: seq<Event>, ev: Event, to: EndpointId, msg: Message)
    requires FromWire(evs)
    requires Step(Run(New(false), evs), ev).ctx.sent == Run(New(false), evs).ctx.sent + [(to, msg)]
    ensures AnswersLast(Run(New(false), evs), Step(Run(New(false), evs), ev).ctx, to, msg)
    ensures IsBodyOf(Step(Run(New(false), evs), ev).ctx,
                     if ev.Send? then |Run(New(false), evs).ctx.submitted| else HeldFrom(New(false), evs, 0), msg)
  {
    RunRoutes(New(false), evs);
    WireComesFromServing(Run(New(false), evs), ev, to, msg);
    LatestBodyIsSentIff(evs, ev, to, msg);
  }

  // ---------------------------------------------------------------- the stored backtrace

  /** While a request is being served, the stored backtrace is empty or leads to the endpoint it came from. */
  lemma ActiveLeadsBack(evs: seq<Event>)
    requires FromWire(evs) && Run(New(false), evs).state.Active?
    ensures var s := Run(New(false), evs);
            s.backtrace == [] || (|s.backtrace| >= 4 && ReadBigEndian(s.backtrace[..4]) == s.state.eid % TWO32)
  {
    RunRoutes(New(false), evs);
    var s := Run(New(false), evs);
    var d := s.log[|s.log| - 1];
    BacktraceRoutes(d.eid, d.raw, []);
  }

  /** Whether a send ack came since the last delivery, given whether one had before this step. */
  predicate AckedNow(s: Socket, ev: Event, acked: bool) {
    !Delivers(s, ev) && (ev.SendAck? || acked)
  }

  predicate AckedSince(s: Socket, evs: seq<Event>, acked: bool)
    decreases |evs|
  {
    if evs == [] then acked else AckedSince(Step(s, evs[0]), evs[1..], AckedNow(s, evs[0], acked))
  }

  predicate BareIffAcked(s: Socket, acked: bool) {
    s.state.Active? ==> (s.backtrace == [] <==> acked)
  }

  lemma TransitionBaresIffAcked(s: Socket, ev: Event, acked: bool)
    requires !s.device && BareIffAcked(s, acked) && (ev.RecvAck? ==> ev.raw.header == [])
    ensures BareIffAcked(Transition(s, ev), AckedNow(s, ev, acked))
  {
    match ev
    case RecvAck(eid, raw) =>
      if RawToMsg(raw, eid).Some? {
        BacktraceRoutes(eid, raw, []);
      }
    case _ =>
  }

  lemma StepBaresIffAcked(s: Socket, ev: Event, acked: bool)
    requires !s.device && BareIffAcked(s, acked) && (ev.RecvAck? ==> ev.raw.header == [])
    ensures BareIffAcked(Step(s, ev), AckedNow(s, ev, acked))
  {
    if !ev.AddPipe? && !ev.RemovePipe? {
      TransitionBaresIffAcked(s, ev, acked);
    }
  }

  lemma {:induction false} RunBaresIffAcked(s: Socket, evs: seq<Event>, acked: bool)
    requires !s.device && BareIffAcked(s, acked) && FromWire(evs)
    ensures BareIffAcked(Run(s, evs), AckedSince(s, evs, acked))
    decreases |evs|
  {
    if evs != [] {
      StepBaresIffAcked(s, evs[0], acked);
      StepKeepsMode(s, evs[0]);
      RunBaresIffAcked(Step(s, evs[0]), evs[1..], AckedNow(s, evs[0], acked));
    }
  }

  /** A request being served has lost its backtrace exactly if a send ack came since it was delivered; its reply is then refused. */
  lemma ServedIsBareIff(evs: seq<Event>, msg: Message, timeout: Timeout)
    requires FromWire(evs) && Run(New(false), evs).state.Active?
    ensures var s := Run(New(false), evs);
            && (s.backtrace == [] <==> AckedSince(New(false), evs, false))
            && (s.backtrace == [] <==> Step(s, Send(msg, timeout)).ctx.replies == s.ctx.replies + [Failed(Malformed)])
  {
    RunBaresIffAcked(New(false), evs, false);
    RunKeepsMode(New(false), evs);
    ActiveLeadsBack(evs);
  }

  // ---------------------------------------------------------------- answers

  /** A call of the user is waiting. */
  predicate Busy(s: Socket) {
    !s.state.Idle? && !s.state.Active?
  }

  function Held(s: Socket): (t: Timeout) {
    if Busy(s) then s.state.timeout else None
  }

  /** Every call but the one waiting was answered once, and only that one has a timer. */
  ghost predicate OneEach(s: Socket) {
    && |s.ctx.replies| + (if Busy(s) then 1 else 0) == s.ctx.calls
    && OwnsTimers(s.ctx, Held(s))
    && IsKind(Held(s), if s.state.Sending? || s.state.SendOnHold? then SendTimer else RecvTimer)
  }

  /** Calls wait for the answer to the previous one, and timers fire only while live. */
  predicate Orderly(s: Socket, ev: Event) {
    match ev
    case Send(_, t) => Answered(s.ctx) && FreshTimer(s.ctx, t, SendTimer)
    case Recv(t) => Answered(s.ctx) && FreshTimer(s.ctx, t, RecvTimer)
    case SendTimeout(t) => t in s.ctx.timers && t.kind == SendTimer
    case RecvTimeout(t) => t in s.ctx.timers && t.kind == RecvTimer
    case _ => true
  }

  predicate OrderlyRun(s: Socket, evs: seq<Event>)
    decreases |evs|
  {
    evs == [] || (Orderly(s, evs[0]) && OrderlyRun(Step(s, evs[0]), evs[1..]))
  }

  /** A request whose backtrace does not end. */
  predicate IsMalformed(ev: Event) {
    ev.RecvAck? && RawToMsg(ev.raw, ev.eid).None?
  }

  lemma OneEachFrame(s: Socket, r: Socket)
    requires r.state == s.state && r.ctx == s.ctx.(raised := r.ctx.raised)
    ensures OneEach(r) <==> OneEach(s)
  {
  }

  lemma SendAnswers(s: Socket, msg: Message, timeout: Timeout, eid: EndpointId)
    requires |s.ctx.replies| + 1 == s.ctx.calls && OwnsTimers(s.ctx, timeout) && IsKind(timeout, SendTimer)
    ensures OneEach(OnSend(s, msg, timeout, eid))
  {
  }

  lemma SubmissionAnswers(s: Socket, msg: Message, timeout: Timeout)
    requires OneEach(s) && Orderly(s, Send(msg, timeout))
    ensures OneEach(Submitted(s, msg, timeout))
  {
    if Routed(s, msg).Some? {
      var (raw, eid) := Routed(s, msg).value;
      SendAnswers(s.(ctx := Submit(s.ctx, msg, timeout)), raw, timeout, eid);
    }
  }

  lemma RecvAnswers(s: Socket, timeout: Timeout)
    requires |s.ctx.replies| + 1 == s.ctx.calls && OwnsTimers(s.ctx, timeout) && IsKind(timeout, RecvTimer)
    ensures OneEach(OnRecv(s, timeout))
  {
  }

  lemma RemovalAnswers(s: Socket, eid: EndpointId)
    requires OneEach(s)
    ensures OneEach(Removed(s, eid))
  {
    var s1 := Forget(s, eid);
    OneEachFrame(s, s1);
    if s.state.Receiving? {
      RecvAnswers(s1, s.state.timeout);
    }
    OneEachFrame(if eid in s.pipes then OnPipeRemoved(s1, eid) else s1, Removed(s, eid));
  }

  lemma ReceiptAnswersIff(s: Socket, eid: EndpointId, raw: Message)
    requires OneEach(s)
    ensures OneEach(Received(s, eid, raw)) <==> RawToMsg(raw, eid).Some?
  {
  }

  lemma SendReadyAnswers(s: Socket, eid: EndpointId)
    requires OneEach(s)
    ensures OneEach(OnSendReady(s, eid))
  {
  }

  lemma RecvReadyAnswers(s: Socket, eid: EndpointId)
    requires OneEach(s)
    ensures OneEach(OnRecvReady(s, eid))
  {
    if s.state.RecvOnHold? {
      RecvAnswers(s.(fq := Activate(s.fq, eid)), s.state.timeout);
    }
  }

  lemma TimeoutAnswers(s: Socket, t: Timer)
    requires OneEach(s) && t in s.ctx.timers && IsCallTimer(t)
    ensures OneEach(s.(ctx := Answer(Fire(s.ctx, t), Failed(TimedOut)), state := Idle))
  {
  }

  lemma TransitionAnswersIff(s: Socket, ev: Event)
    requires OneEach(s) && Orderly(s, ev)
    ensures OneEach(Transition(s, ev)) <==> !IsMalformed(ev)
  {
    match ev
    case Send(msg, t) => SubmissionAnswers(s, msg, t);
    case SendTimeout(t) => TimeoutAnswers(s, t);
    case SendReady(eid) => SendReadyAnswers(s, eid);
    case Recv(t) => RecvAnswers(s.(ctx := Call(s.ctx, t)), t);
    case RecvAck(eid, raw) => ReceiptAnswersIff(s, eid, raw);
    case RecvTimeout(t) => TimeoutAnswers(s, t);
    case RecvReady(eid) => RecvReadyAnswers(s, eid);
    case _ =>
  }

  /** From a state in order, a step keeps the balance exactly when it is not the receipt of a malformed request. */
  lemma StepAnswersIff(s: Socket, ev: Event)
    requires OneEach(s) && Orderly(s, ev)
    ensures OneEach(Step(s, ev)) <==> !IsMalformed(ev)
  {
    if ev.AddPipe? {
    } else if ev.RemovePipe? {
      RemovalAnswers(s, ev.eid);
    } else {
      TransitionAnswersIff(s, ev);
      OneEachFrame(Transition(s, ev), Step(s, ev));
    }
  }

  /** The balance holds at every point of a run. */
  ghost predicate AlwaysOneEach(s: Socket, evs: seq<Event>)
    decreases |evs|
  {
    OneEach(s) && (evs == [] || AlwaysOneEach(Step(s, evs[0]), evs[1..]))
  }

  predicate WellFormed(evs: seq<Event>) {
    forall i :: 0 <= i < |evs| ==> !IsMalformed(evs[i])
  }

  lemma {:induction false} RunAnswersIff(s: Socket, evs: seq<Event>)
    requires OneEach(s) && OrderlyRun(s, evs)
    ensures AlwaysOneEach(s, evs) <==> WellFormed(evs)
    ensures WellFormed(evs) ==> OneEach(Run(s, evs))
    decreases |evs|
  {
    if evs != [] {
      StepAnswersIff(s, evs[0]);
      if !IsMalformed(evs[0]) {
        RunAnswersIff(Step(s, evs[0]), evs[1..]);
        assert forall i :: 0 < i < |evs| ==> evs[i] == evs[1..][i - 1];
      }
    }
  }

  /** A run answers each call exactly once and leaves no timer behind exactly if it receives no malformed request. */
  lemma EveryRunAnswersIff(device: bool, evs: seq<Event>)
    requires OrderlyRun(New(device), evs)
    ensures AlwaysOneEach(New(device), evs) <==> WellFormed(evs)
    ensures WellFormed(evs) ==> OneEach(Run(New(device), evs))
  {
    RunAnswersIff(New(device), evs);
  }

  // ---------------------------------------------------------------- which body is sent

  /** The number of the send whose reply is on hold after this step, given that before it. */
  function HeldFromNow(s: Socket, ev: Event, origin: nat): (k: nat) {
    if Step(s, ev).state.SendOnHold? && !s.state.SendOnHold? then |s.ctx.submitted| else origin
  }

  function HeldFrom(s: Socket, evs: seq<Event>, origin: nat): (k: nat)
    decreases |evs|
  {
    if evs == [] then origin else HeldFrom(Step(s, evs[0]), evs[1..], HeldFromNow(s, evs[0], origin))
  }

  /** Whether a send was made over the reply on hold, given whether one had before this step. */
  predicate SentOverNow(s: Socket, ev: Event, over: bool) {
    Step(s, ev).state.SendOnHold? && s.state.SendOnHold? && (ev.Send? || over)
  }

  predicate SentOver(s: Socket, evs: seq<Event>, over: bool)
    decreases |evs|
  {
    if evs == [] then over else SentOver(Step(s, evs[0]), evs[1..], SentOverNow(s, evs[0], over))
  }

  /** A reply on hold is that of send `origin`, which is the latest exactly if none was made over it. */
  predicate HeldIsFrom(s: Socket, origin: nat, over: bool) {
    s.state.SendOnHold? ==>
      && origin < |s.ctx.submitted| && s.ctx.submitted[origin].body == s.state.msg.body
      && (origin == |s.ctx.submitted| - 1 <==> !over)
  }

  /** A reply goes on hold only by a send, and then stays what it is. */
  lemma HoldOfStep(s: Socket, ev: Event)
    requires !s.device && Step(s, ev).state.SendOnHold?
    ensures s.state.SendOnHold? ==> Step(s, ev).state.msg == s.state.msg
    ensures !s.state.SendOnHold? ==> ev.Send? && Step(s, ev).state.msg.body == ev.msg.body
  {
  }

  lemma StepHeldIsFrom(s: Socket, ev: Event, origin: nat, over: bool)
    requires !s.device && HeldIsFrom(s, origin, over)
    ensures HeldIsFrom(Step(s, ev), HeldFromNow(s, ev, origin), SentOverNow(s, ev, over))
  {
    SubmittedByStep(s, ev);
    if Step(s, ev).state.SendOnHold? {
      HoldOfStep(s, ev);
    }
  }

  lemma {:induction false} RunHeldIsFrom(s: Socket, evs: seq<Event>, origin: nat, over: bool)
    requires !s.device && HeldIsFrom(s, origin, over)
    ensures HeldIsFrom(Run(s, evs), HeldFrom(s, evs, origin), SentOver(s, evs, over)) && !Run(s, evs).device
    decreases |evs|
  {
    if evs != [] {
      StepHeldIsFrom(s, evs[0], origin, over);
      StepKeepsMode(s, evs[0]);
      RunHeldIsFrom(Step(s, evs[0]), evs[1..], HeldFromNow(s, evs[0], origin), SentOverNow(s, evs[0], over));
    }
  }

  /** `msg` has the body of send `k` of those in `c`. */
  predicate IsBodyOf(c: Ctx, k: nat, msg: Message) {
    k < |c.submitted| && c.submitted[k].body == msg.body
  }

  lemma WireIsFrom(s: Socket, ev: Event, to: EndpointId, msg: Message, origin: nat, over: bool)
    requires !s.device && HeldIsFrom(s, origin, over) && Step(s, ev).ctx.sent == s.ctx.sent + [(to, msg)]
    ensures var k := if ev.Send? then |s.ctx.submitted| else origin;
            && IsBodyOf(Step(s, ev).ctx, k, msg)
            && (k == |Step(s, ev).ctx.submitted| - 1 <==> ev.Send? || !over)
  {
    WireOfStep(s, ev);
    SubmittedByStep(s, ev);
    assert Step(s, ev).ctx.sent[|s.ctx.sent|] == (to, msg);
  }

  /**
   After any run whatever, a reply put on the wire carries the body of the send that made it or put it on hold, and
   that is the latest send exactly if it is being made now or none was made while the reply was on hold.
   */
  lemma LatestBodyIsSentIff(evs: seq<Event>, ev: Event, to: EndpointId, msg: Message)
    requires Step(Run(New(false), evs), ev).ctx.sent == Run(New(false), evs).ctx.sent + [(to, msg)]
    ensures var s := Run(New(false), evs);
            var k := if ev.Send? then |s.ctx.submitted| else HeldFrom(New(false), evs, 0);
            && IsBodyOf(Step(s, ev).ctx, k, msg)
            && (k == |Step(s, ev).ctx.submitted| - 1 <==> ev.Send? || !SentOver(New(false), evs, false))
  {
    RunHeldIsFrom(New(false), evs, 0, false);
    WireIsFrom(Run(New(false), evs), ev, to, msg, HeldFrom(New(false), evs, 0), SentOver(New(false), evs, false));
  }

  /** While calls wait for their answers and no request is malformed, no send is made over a reply on hold. */
  lemma {:induction false} OrderlyIsNotOver(s: Socket, evs: seq<Event>)
    requires OneEach(s) && OrderlyRun(s, evs) && WellFormed(evs)
    ensures !SentOver(s, evs, false)
    decreases |evs|
  {
    if evs != [] {
      StepAnswersIff(s, evs[0]);
      OrderlyIsNotOver(Step(s, evs[0]), evs[1..]);
    }
  }

  /** So in an orderly run without malformed requests every reply on the wire carries the body of the latest send. */
  lemma OnlyTheLatestBodyIsSent(evs: seq<Event>, ev: Event, to: EndpointId, msg: Message)
    requires OrderlyRun(New(false), evs) && WellFormed(evs)
    requires Step(Run(New(false), evs), ev).ctx.sent == Run(New(false), evs).ctx.sent + [(to, msg)]
    ensures var c := Step(Run(New(false), evs), ev).ctx;
            |c.submitted| > 0 && IsBodyOf(c, |c.submitted| - 1, msg)
  {
    LatestBodyIsSentIff(evs, ev, to, msg);
    OrderlyIsNotOver(New(false), evs);
  }

  // ---------------------------------------------------------------- work conservation

  /** Endpoint ids are distinct, and priorities are those the facade documents. */
  predicate Enabled(s: Socket, ev: Event) {
    ev.AddPipe? ==> ev.eid !in s.pipes && ev.priority <= LOWEST
  }

  predicate EnabledRun(s: Socket, evs: seq<Event>)
    decreases |evs|
  {
    evs == [] || (Enabled(s, evs[0]) && EnabledRun(Step(s, evs[0]), evs[1..]))
  }

  ghost predicate InStep(s: Socket) {
    Valid(s.fq) && Ids(s.fq) == s.pipes
  }

  /** A receive waits only if no pipe has a request, and a reply only if its endpoint is not ready. */
  ghost predicate Conserving(s: Socket) {
    && InStep(s)
    && (s.state.RecvOnHold? ==> ActiveIds(s.fq) == {})
    && (s.state.SendOnHold? ==> s.state.eid !in s.sd)
  }

  lemma ConservingFrame(s: Socket, r: Socket)
    requires Conserving(s) && r == s.(ctx := r.ctx)
    ensures Conserving(r)
  {
  }

  lemma RecvConserves(s: Socket, timeout: Timeout)
    requires InStep(s)
    ensures Conserving(OnRecv(s, timeout))
  {
    PopKeeps(s.fq);
    assert ActiveIds(s.fq) <= Ids(s.fq);
  }

  lemma RemovalConserves(s: Socket, eid: EndpointId)
    requires Conserving(s)
    ensures Conserving(Removed(s, eid))
  {
    RemoveFollowingKeeps(s.fq, eid);
    var s1 := Forget(s, eid);
    if s.state.Receiving? {
      RecvConserves(s1, s.state.timeout);
    }
    ConservingFrame(if eid in s.pipes then OnPipeRemoved(s1, eid) else s1, Removed(s, eid));
  }

  lemma RecvReadyConserves(s: Socket, eid: EndpointId)
    requires Conserving(s)
    ensures Conserving(OnRecvReady(s, eid))
  {
    ActivateKeeps(s.fq, eid);
    if s.state.RecvOnHold? {
      RecvConserves(s.(fq := Activate(s.fq, eid)), s.state.timeout);
    }
  }

  lemma SubmissionConserves(s: Socket, msg: Message, timeout: Timeout)
    requires Conserving(s)
    ensures Conserving(Submitted(s, msg, timeout))
  {
  }

  lemma ReceiptConserves(s: Socket, eid: EndpointId, raw: Message)
    requires Conserving(s)
    ensures Conserving(Received(s, eid, raw))
  {
  }

  lemma TransitionConserves(s: Socket, ev: Event)
    requires Conserving(s)
    ensures Conserving(Transition(s, ev))
  {
    match ev
    case Send(msg, t) => SubmissionConserves(s, msg, t);
    case Recv(t) => RecvConserves(s.(ctx := Call(s.ctx, t)), t);
    case RecvAck(eid, raw) => ReceiptConserves(s, eid, raw);
    case RecvReady(eid) => RecvReadyConserves(s, eid);
    case RecvNotReady(eid) => DeactivateKeeps(s.fq, eid);
    case _ =>
  }

  lemma StepConserves(s: Socket, ev: Event)
    requires Conserving(s) && Enabled(s, ev)
    ensures Conserving(Step(s, ev))
  {
    if ev.AddPipe? {
      InsertKeeps(s.fq, ev.eid, ev.priority);
    } else if ev.RemovePipe? {
      RemovalConserves(s, ev.eid);
    } else {
      TransitionConserves(s, ev);
      ConservingFrame(Transition(s, ev), Step(s, ev));
    }
  }

  lemma {:induction false} RunConserves(s: Socket, evs: seq<Event>)
    requires Conserving(s) && EnabledRun(s, evs)
    ensures Conserving(Run(s, evs))
    decreases |evs|
  {
    if evs != [] {
      StepConserves(s, evs[0]);
      RunConserves(Step(s, evs[0]), evs[1..]);
    }
  }

  /** Every run, of a regular socket or of a device's, keeps the scheduler in step with the pipes and wastes no readiness. */
  lemma EveryRunConserves(device: bool, evs: seq<Event>)
    requires EnabledRun(New(device), evs)
    ensures Conserving(Run(New(device), evs))
  {
    RunConserves(New(device), evs);
  }

  // ---------------------------------------------------------------- the code's own removal

  predicate Strands(s: Socket, ev: Event) {
    ev.RemovePipe? && CursorStranded(s.fq, ev.eid)
  }

  predicate NeverStrands(s: Socket, evs: seq<Event>)
    decreases |evs|
  {
    evs == [] || (!Strands(s, evs[0]) && NeverStrands(Step(s, evs[0]), evs[1..]))
  }

  /** At every point of the run the code does what the laws are about. */
  predicate AlwaysTheCodes(s: Socket, evs: seq<Event>)
    decreases |evs|
  {
    evs == [] || (CodeStep(s, evs[0]) == Some(Step(s, evs[0])) && AlwaysTheCodes(Step(s, evs[0]), evs[1..]))
  }

  lemma NothingPanics(s: Socket, ev: Event)
    requires Valid(s.fq) && !ev.RemovePipe?
    ensures !Panics(s, ev)
  {
    if ev.RecvReady? {
      ActivateKeeps(s.fq, ev.eid);
    }
  }

  /** From a state in order the code takes the documented step exactly if no removal strands the cursor. */
  lemma CodeStepIff(s: Socket, ev: Event)
    requires Valid(s.fq)
    ensures CodeStep(s, ev) == Some(Step(s, ev)) <==> !Strands(s, ev)
  {
    if ev.RemovePipe? {
      RemoveKeepsCursorIff(s.fq, ev.eid);
    } else {
      NothingPanics(s, ev);
    }
  }

  lemma {:induction false} CodeRunIff(s: Socket, evs: seq<Event>)
    requires Conserving(s) && EnabledRun(s, evs)
    ensures AlwaysTheCodes(s, evs) <==> NeverStrands(s, evs)
    ensures NeverStrands(s, evs) ==> CodeRun(s, evs) == Some(Run(s, evs))
    decreases |evs|
  {
    if evs != [] {
      CodeStepIff(s, evs[0]);
      StepConserves(s, evs[0]);
      CodeRunIff(Step(s, evs[0]), evs[1..]);
    }
  }

  /** A run of the code is at every point what the laws are about exactly if no removal strands the cursor. */
  lemma EveryCodeRunIff(device: bool, evs: seq<Event>)
    requires EnabledRun(New(device), evs)
    ensures AlwaysTheCodes(New(device), evs) <==> NeverStrands(New(device), evs)
    ensures NeverStrands(New(device), evs) ==> CodeRun(New(device), evs) == Some(Run(New(device), evs))
  {
    CodeRunIff(New(device), evs);
  }

  // ---------------------------------------------------------------- runs that go wrong

  lemma {:induction false} RunExtends(s: Socket, evs: seq<Event>, ev: Event)
    ensures Run(s, evs + [ev]) == Step(Run(s, evs), ev)
    ensures OrderlyRun(s, evs + [ev]) <==> OrderlyRun(s, evs) && Orderly(Run(s, evs), ev)
    decreases |evs|
  {
    if evs == [] {
      assert (evs + [ev])[1..] == [];
    } else {
      RunExtends(Step(s, evs[0]), evs[1..], ev);
      assert (evs + [ev])[1..] == evs[1..] + [ev];
    }
  }

  /** The run is in order and leads to `s`. */
  predicate Reaches(evs: seq<Event>, s: Socket) {
    Run(New(false), evs) == s && OrderlyRun(New(false), evs)
  }

  lemma ReachesOn(evs: seq<Event>, s: Socket, ev: Event)
    requires Reaches(evs, s) && Orderly(s, ev)
    ensures Reaches(evs + [ev], Step(s, ev))
  {
    RunExtends(New(false), evs, ev);
  }

  /** A request with nothing but its id. */
  const REQUEST: Message := Message([], Trail([], TWO31) + [])
  const TIMER: Timer := Timer(SendTimer, 7)

  /** A request of endpoint 1 is being served; nothing else is under way. */
  predicate Serving(s: Socket) {
    && !s.device && s.pipes == {1} && s.fq == One(1, 8, false) && s.state == Active(1) && s.sd == {}
    && MsgToRaw(Message(s.backtrace, [])).Some? && ReadBigEndian(s.backtrace[..4]) == 1
    && Answered(s.ctx) && s.ctx.timers == {}
  }

  lemma RequestIsGood()
    ensures RawToMsg(REQUEST, 1).Some?
    ensures var bt := RawToMsg(REQUEST, 1).value.header; |bt| >= 4 && ReadBigEndian(bt[..4]) == 1
  {
    TopBitOfWord(TWO31);
    HopSplitsIff([], 1, TWO31, []);
    BacktraceRoutes(1, REQUEST, []);
  }

  /** A socket at rest, with a pipe that has nothing. */
  predicate Resting(s: Socket) {
    && !s.device && s.pipes == {1} && s.fq == One(1, 8, false) && s.state == Idle && s.sd == {}
    && Answered(s.ctx) && s.ctx.timers == {}
  }

  lemma AskNext(evs: seq<Event>, s: Socket) returns (r: Socket)
    requires Reaches(evs, s) && Resting(s)
    ensures Reaches(evs + [RecvReady(1)] + [Recv(None)], r) && r.state == Receiving(1, None)
    ensures !r.device && r.pipes == {1} && r.fq == One(1, 8, false) && r.sd == {}
    ensures r.ctx.timers == {} && |r.ctx.replies| + 1 == r.ctx.calls && r.ctx.asked == s.ctx.asked + [1]
  {
    OneItem(1, 8);
    var s1 := Step(s, RecvReady(1));
    ReachesOn(evs, s, RecvReady(1));
    assert s1.fq == One(1, 8, true) && s1.state == Idle && s1.pipes == {1};
    r := Step(s1, Recv(None));
    ReachesOn(evs + [RecvReady(1)], s1, Recv(None));
  }

  lemma ServeNext(evs: seq<Event>, s: Socket) returns (r: Socket)
    requires Reaches(evs, s) && Resting(s)
    ensures Reaches(evs + [RecvReady(1)] + [Recv(None)] + [RecvAck(1, REQUEST)], r) && Serving(r)
  {
    RequestIsGood();
    var s2 := AskNext(evs, s);
    r := Step(s2, RecvAck(1, REQUEST));
    ReachesOn(evs + [RecvReady(1)] + [Recv(None)], s2, RecvAck(1, REQUEST));
  }

  const ADDED: seq<Event> := [AddPipe(1, 8)]
  const SERVED: seq<Event> := ADDED + [RecvReady(1)] + [Recv(None)] + [RecvAck(1, REQUEST)]

  lemma ServedRun() returns (s: Socket)
    ensures Reaches(SERVED, s) && Serving(s)
  {
    OneItem(1, 8);
    RunExtends(New(false), [], AddPipe(1, 8));
    var s0 := Step(New(false), AddPipe(1, 8));
    assert [] + [AddPipe(1, 8)] == ADDED;
    s := ServeNext(ADDED, s0);
  }

  const SENT: seq<Event> := SERVED + [SendReady(1)] + [Send(Message([], []), Some(TIMER))]
  const TIMED_OUT: seq<Event> := SENT + [SendTimeout(TIMER)]
  const SERVED_AGAIN: seq<Event> := TIMED_OUT + [RecvReady(1)] + [Recv(None)] + [RecvAck(1, REQUEST)]
  /** The reply to the first request timed out, the second is being served, and the first is acknowledged after all. */
  const LATE: seq<Event> := SERVED_AGAIN + [SendAck(1)]

  lemma SentRun() returns (s: Socket)
    ensures Reaches(SENT, s) && !s.device && s.pipes == {1} && s.fq == One(1, 8, false) && s.sd == {}
    ensures s.state.Sending? && s.state.timeout == Some(TIMER) && s.ctx.timers == {TIMER} && |s.ctx.replies| + 1 == s.ctx.calls
  {
    var s1 := ServedRun();
    ReachesOn(SERVED, s1, SendReady(1));
    var s2 := Step(s1, SendReady(1));
    assert s2.state == Active(1) && s2.sd == {1} && s2.pipes == {1} && s2.backtrace == s1.backtrace && Answered(s2.ctx);
    s := Step(s2, Send(Message([], []), Some(TIMER)));
    ReachesOn(SERVED + [SendReady(1)], s2, Send(Message([], []), Some(TIMER)));
  }

  /** Then the backtrace of the request being served is gone, and the reply to it is refused. */
  lemma LateAckBaresRequest()
    ensures OrderlyRun(New(false), LATE)
    ensures var s := Run(New(false), LATE);
            && s.state == Active(1) && s.backtrace == []
            && Step(s, Send(Message([], []), None)).ctx.replies == s.ctx.replies + [Failed(Malformed)]
  {
    var s1 := SentRun();
    ReachesOn(SENT, s1, SendTimeout(TIMER));
    var s2 := ServeNext(TIMED_OUT, Step(s1, SendTimeout(TIMER)));
    ReachesOn(SERVED_AGAIN, s2, SendAck(1));
  }

  const FIRST: Message := Message([], [1])
  const SECOND: Message := Message([], [2])
  const HELD: seq<Event> := SERVED + [Send(FIRST, None)] + [SendAck(1)]
  /** A reply is on hold, a malformed request answers for it, and the next send is refused. */
  const STALE: seq<Event> := HELD + [RecvAck(1, Message([], []))] + [Send(SECOND, None)]

  lemma HeldRun() returns (s: Socket)
    ensures Reaches(HELD, s) && !s.device && s.pipes == {1} && s.backtrace == []
    ensures s.state.SendOnHold? && s.state.eid == 1 && s.state.msg.body == FIRST.body
    ensures s.ctx.timers == {} && |s.ctx.replies| + 1 == s.ctx.calls
  {
    var s1 := ServedRun();
    ReachesOn(SERVED, s1, Send(FIRST, None));
    var s2 := Step(s1, Send(FIRST, None));
    assert s2.state.SendOnHold? && s2.state.eid == 1 && s2.state.msg.body == FIRST.body && s2.pipes == {1};
    s := Step(s2, SendAck(1));
    ReachesOn(SERVED + [Send(FIRST, None)], s2, SendAck(1));
  }

  lemma StaleRun() returns (s: Socket)
    ensures Reaches(STALE, s) && !s.device && s.pipes == {1}
    ensures s.state.SendOnHold? && s.state.eid == 1 && s.state.msg.body == FIRST.body && Latest(s.ctx.submitted, SECOND)
  {
    var s1 := HeldRun();
    var bad := RecvAck(1, Message([], []));
    assert RawToMsg(Message([], []), 1).None?;
    ReachesOn(HELD, s1, bad);
    var s2 := Step(s1, bad);
    assert s2.state == s1.state && s2.backtrace == [] && Answered(s2.ctx) && !s2.device && s2.pipes == {1};
    s := Step(s2, Send(SECOND, None));
    ReachesOn(HELD + [bad], s2, Send(SECOND, None));
  }

  /** So a malformed request lets an orderly run put a body on the wire that is not the latest. */
  lemma StaleBodyIsSent()
    ensures OrderlyRun(New(false), STALE)
    ensures var s := Run(New(false), STALE);
            var r := Step(s, SendReady(1));
            && |r.ctx.sent| == |s.ctx.sent| + 1 && r.ctx.sent[|s.ctx.sent|].1.body == FIRST.body
            && Latest(r.ctx.submitted, SECOND)
  {
    var s := StaleRun();
  }

  /** A device plugged while an idle socket has a pipe that is ready for a reply: nobody is told. */
  lemma PluggingCanLie()
    ensures !ToldOf(Plugged(Run(New(false), ADDED + [SendReady(1)])))
  {
    RunExtends(New(false), ADDED, SendReady(1));
    RunExtends(New(false), [], AddPipe(1, 8));
    assert [] + [AddPipe(1, 8)] == ADDED;
    var s0 := Step(New(false), AddPipe(1, 8));
    assert s0.state == Idle && s0.sd == {};
    var s := Step(s0, SendReady(1));
    assert 1 in s.sd && s.state == Idle;
    PluggingTellsIff(ADDED + [SendReady(1)], []);
  }
}

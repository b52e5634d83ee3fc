/** The requester over what it was told: who is ready, to whom requests go, who is asked, and what the user gets. */
module ReqReports {
  import opened Core
  import opened Scheduling
  import opened SchedulingLaws
  import opened Contexts
  import opened Backtrace
  import opened RequestIds
  import opened Reports
  import opened ReqProtocol
  import opened ReqLaws

  function SendReportOf(ev: Event): (r: Report) {
    match ev
    case AddPipe(eid, priority, _) => Joins(eid, priority)
    case RemovePipe(eid) => Leaves(eid)
    case SendReady(eid) => Opens(eid)
    case SendNotReady(eid) => Closes(eid)
    case _ => Nothing
  }

  function RecvReportOf(ev: Event): (r: Report) {
    match ev
    case AddPipe(eid, _, priority) => Joins(eid, priority)
    case RemovePipe(eid) => Leaves(eid)
    case RecvReady(eid) => Opens(eid)
    case RecvNotReady(eid) => Closes(eid)
    case _ => Nothing
  }

  /**
   Who is there, who is ready for a request, who has a reply (for a device, and for a regular socket, which reads only
   from where its request went), and whether a request that went out waits for its reply.
   */
  datatype Known = Known(
    present: set<EndpointId>,
    sendable: set<EndpointId>,
    ready: set<EndpointId>,
    open: set<EndpointId>,
    pending: bool)

  const UNKNOWN: Known := Known({}, {}, {}, {}, false)

  /** The pipe that a receive waits for. */
  function At(s: Socket): (r: Option<EndpointId>) {
    if s.state.Receiving? then Some(s.state.eid) else None
  }

  predicate Waits(s: Socket) {
    s.state.Receiving? || s.state.RecvOnHold?
  }

  /** A reply from the pipe waited for, under another id than that of the request; a device takes any. */
  predicate IsForAnother(s: Socket, raw: Message) {
    s.state.Receiving? && s.state.expected.Some? && !s.device && Decode(raw).Some? && Decode(raw).value.1 != IdOf(s.seqNo)
  }

  predicate IsDelivered(s: Socket, ev: Event) {
    ev.RecvAck? && At(s) == Some(ev.eid) && Decode(ev.raw).Some? && !IsForAnother(s, ev.raw)
  }

  /**
   A request is pending from its acknowledgment on, until its reply is delivered, it is sent again or another is, a call
   for it times out, the pipe that a receive waits for leaves, or a receive is called over one that waits.
   */
  predicate PendingAfter(s: Socket, ev: Event, pending: bool) {
    || (ev.SendAck? && s.state.Sending? && s.state.eid == ev.eid && !s.device)
    || (pending && !ev.Send? && !ev.SendTimeout? && !ev.RecvTimeout? && !IsDelivered(s, ev)
        && !(ev.Retry? && !Waits(s)) && !(ev.Recv? && Waits(s)) && !(ev.RemovePipe? && At(s) == Some(ev.eid)))
  }

  /** Whom a receive on hold waits for. */
  function HeldFor(s: Socket): (r: set<EndpointId>) {
    if s.state.RecvOnHold? && s.state.from.Some? then {s.state.from.value} else {}
  }

  function KnownAfter(s: Socket, ev: Event, k: Known, r: Socket): (k': Known) {
    var given := Receivers(Grown(s.ctx.sent, r.ctx.sent));
    var asked := set e | e in Grown(s.ctx.asked, r.ctx.asked);
    Known(PresentAfter(k.present, SendReportOf(ev)),
          ReadyAfter(k.sendable, k.present, SendReportOf(ev)) - (set e | e in given),
          ReadyAfter(k.ready, k.present, RecvReportOf(ev)) - (if s.device then asked else {}),
          OpenAfter(k.open, RecvReportOf(ev)) - (if s.device then {} else asked + HeldFor(r)),
          PendingAfter(s, ev, k.pending))
  }

  function KnownOver(s: Socket, evs: seq<Event>, k: Known): (r: Known)
    decreases |evs|
  {
    if evs == [] then k else KnownOver(Step(s, evs[0]), evs[1..], KnownAfter(s, evs[0], k, Step(s, evs[0])))
  }

  predicate HasPending(s: Socket) {
    s.state.Active? || (Waits(s) && s.state.expected.Some?)
  }

  ghost function Stored(s: Socket): (r: Known) {
    Known(s.pipes, ActiveIds(s.lb), ActiveIds(s.fq), s.rv, HasPending(s))
  }

  /** Besides what is conserved: who is waited for is there and was asked last; a receive waits for a reply to a request but in a device. */
  ghost predicate Asking(s: Socket) {
    && Conserving(s)
    && (s.state.Receiving? ==> s.state.eid in s.pipes && Latest(s.ctx.asked, s.state.eid))
    && (Waits(s) ==> (s.state.expected.Some? <==> !s.device))
    && (s.state.Active? ==> !s.device)
  }

  // ---------------------------------------------------------------- sending

  ghost predicate Sent(s: Socket, msg: Message, r: Socket) {
    && r.pipes == s.pipes && r.fq == s.fq && r.rv == s.rv && r.ctx.asked == s.ctx.asked && r.ctx.submitted == s.ctx.submitted
    && (r.state.Sending? || r.state.SendOnHold?) && r.state.msg == msg
    && if ActiveIds(s.lb) == {} then r.state.SendOnHold? && r.ctx.sent == s.ctx.sent && ActiveIds(r.lb) == {}
       else
         && r.state.Sending? && r.state.eid in ActiveIds(s.lb)
         && r.ctx.sent == s.ctx.sent + [(r.state.eid, msg)] && ActiveIds(r.lb) == ActiveIds(s.lb) - {r.state.eid}
  }

  lemma TransmitSends(s: Socket, msg: Message, timeout: Timeout, isRetry: bool)
    requires InStep(s)
    ensures Sent(s, msg, Transmit(s, msg, timeout, isRetry))
  {
    PopKeeps(s.lb);
    assert ActiveIds(s.lb) <= Ids(s.lb);
  }

  /** A request starts, a pipe opens while one is on hold, a retry is due while none is received, or the pipe it is being handed to leaves. */
  predicate CallsForSend(s: Socket, ev: Event) {
    || ev.Send?
    || (ev.SendReady? && s.state.SendOnHold?)
    || (ev.Retry? && s.state.Active?)
    || (ev.RemovePipe? && s.state.Sending? && s.state.eid == ev.eid && ev.eid in s.pipes)
  }

  /** How a step changes what is known of sending, and to whom it sends what it then holds. */
  ghost predicate Sends(s: Socket, ev: Event, r: Socket) {
    var ready := ReadyAfter(ActiveIds(s.lb), s.pipes, SendReportOf(ev));
    && r.pipes == PresentAfter(s.pipes, SendReportOf(ev))
    && ActiveIds(r.lb) == ready - (set e | e in Receivers(Grown(s.ctx.sent, r.ctx.sent)))
    && (if CallsForSend(s, ev) && ready != {}
        then r.state.Sending? && GivesOne(s.ctx, r.ctx, ready, r.state.msg) && r.ctx.sent[|s.ctx.sent|].0 == r.state.eid
        else r.ctx.sent == s.ctx.sent && (CallsForSend(s, ev) ==> r.state.SendOnHold?))
    && r.ctx.submitted == s.ctx.submitted + (if ev.Send? then [ev.msg] else [])
  }

  lemma SendsFrame(s: Socket, ev: Event, t: Socket, r: Socket)
    requires Sends(s, ev, t) && r == t.(ctx := t.ctx.(raised := r.ctx.raised))
    ensures Sends(s, ev, r)
  {
  }

  lemma SentSends(s: Socket, ev: Event, s1: Socket, msg: Message, r: Socket)
    requires CallsForSend(s, ev) && Sent(s1, msg, r)
    requires s1.pipes == PresentAfter(s.pipes, SendReportOf(ev)) && s1.ctx.sent == s.ctx.sent
    requires s1.ctx.submitted == s.ctx.submitted + (if ev.Send? then [ev.msg] else [])
    requires ActiveIds(s1.lb) == ReadyAfter(ActiveIds(s.lb), s.pipes, SendReportOf(ev))
    ensures Sends(s, ev, r)
  {
    if r.state.Sending? {
      GrownBy(s.ctx.sent, [(r.state.eid, msg)]);
      OneReceiver(r.state.eid, msg);
    }
  }

  lemma SubmissionSends(s: Socket, msg: Message, timeout: Timeout)
    requires Asking(s)
    ensures Sends(s, Send(msg, timeout), Submitted(s, msg, timeout))
  {
    var s1 := s.(ctx := Submit(s.ctx, msg, timeout), seqNo := if s.device then s.seqNo else (s.seqNo + 1) % TWO32);
    var s2 := if s.state.Active? then s1.(ctx := Cancel(s1.ctx, s.state.pending.retry)) else s1;
    var raw := if s.device then msg else Encode(msg, IdOf(s1.seqNo));
    TransmitSends(s2, raw, timeout, false);
    SentSends(s, Send(msg, timeout), s2, raw, Transmit(s2, raw, timeout, false));
  }

  lemma SendReadySends(s: Socket, eid: EndpointId)
    requires Asking(s)
    ensures Sends(s, SendReady(eid), OnSendReady(s, eid))
  {
    var s1 := s.(lb := Activate(s.lb, eid));
    ActivateKeeps(s.lb, eid);
    if s.state.SendOnHold? {
      TransmitSends(s1, s.state.msg, s.state.timeout, s.state.isRetry);
      SentSends(s, SendReady(eid), s1, s.state.msg, Transmit(s1, s.state.msg, s.state.timeout, s.state.isRetry));
    }
  }

  lemma RetrySends(s: Socket, t: Timer)
    requires Asking(s)
    ensures Sends(s, Retry(t), OnRetry(s.(ctx := Fire(s.ctx, t))))
  {
    var s1 := s.(ctx := Fire(s.ctx, t));
    if s.state.Active? {
      TransmitSends(s1, s.state.pending.req, None, true);
      SentSends(s, Retry(t), s1, s.state.pending.req, Transmit(s1, s.state.pending.req, None, true));
    }
  }

  lemma LossSendsNothing(s: Socket, eid: EndpointId)
    requires !(s.state.Sending? && s.state.eid == eid)
    ensures var r := OnPipeRemoved(s, eid);
            r.pipes == s.pipes && r.lb == s.lb && r.ctx.sent == s.ctx.sent && r.ctx.submitted == s.ctx.submitted
  {
  }

  lemma RemovalSends(s: Socket, eid: EndpointId)
    requires Asking(s)
    ensures Sends(s, RemovePipe(eid), Removed(s, eid))
  {
    var ev, s1 := RemovePipe(eid), Forget(s, eid);
    RemoveFollowingKeeps(s.lb, eid);
    RemoveFollowingKeeps(s.fq, eid);
    if CallsForSend(s, ev) {
      var r := Transmit(s1, s.state.msg, s.state.timeout, s.state.isRetry);
      TransmitSends(s1, s.state.msg, s.state.timeout, s.state.isRetry);
      SentSends(s, ev, s1, s.state.msg, r);
      SendsFrame(s, ev, r, Removed(s, eid));
    } else {
      if eid in s.pipes {
        LossSendsNothing(s1, eid);
      }
      SendsFrame(s, ev, if eid in s.pipes then OnPipeRemoved(s1, eid) else s1, Removed(s, eid));
    }
  }

  lemma OthersSendNothing(s: Socket, ev: Event)
    requires !ev.AddPipe? && !ev.RemovePipe? && !ev.Send? && !ev.SendReady? && !ev.SendNotReady? && !ev.Retry?
    ensures var r := Transition(s, ev);
            r.pipes == s.pipes && r.lb == s.lb && r.ctx.sent == s.ctx.sent && r.ctx.submitted == s.ctx.submitted
  {
  }

  lemma TransitionSends(s: Socket, ev: Event)
    requires Asking(s) && !ev.AddPipe? && !ev.RemovePipe?
    ensures Sends(s, ev, Transition(s, ev))
  {
    if ev.Send? {
      SubmissionSends(s, ev.msg, ev.timeout);
    } else if ev.SendReady? {
      SendReadySends(s, ev.eid);
    } else if ev.SendNotReady? {
      DeactivateKeeps(s.lb, ev.eid);
    } else if ev.Retry? {
      RetrySends(s, ev.timer);
    } else {
      OthersSendNothing(s, ev);
    }
  }

  lemma StepSends(s: Socket, ev: Event)
    requires Asking(s) && Enabled(s, ev)
    ensures Sends(s, ev, Step(s, ev))
  {
    if ev.AddPipe? {
      InsertKeeps(s.lb, ev.eid, ev.sendPriority);
    } else if ev.RemovePipe? {
      RemovalSends(s, ev.eid);
    } else {
      TransitionSends(s, ev);
      SendsFrame(s, ev, Transition(s, ev), Step(s, ev));
    }
  }

  // ---------------------------------------------------------------- asking

  /** Whom a regular socket has to ask: a receive starts, the pipe it waits for has something, or what came is for another request. */
  function AskFor(s: Socket, ev: Event): (r: Option<EndpointId>) {
    match ev
    case Recv(_) => if s.state.Active? then Some(s.state.eid) else None
    case RecvReady(eid) => if s.state.RecvOnHold? && s.state.from == Some(eid) then Some(eid) else None
    case RecvAck(eid, raw) => if At(s) == Some(eid) && IsForAnother(s, raw) then Some(eid) else None
    case _ => None
  }

  /** A device takes from whoever has something. */
  predicate CallsForAsk(s: Socket, ev: Event) {
    || ev.Recv?
    || (ev.RecvReady? && s.state.RecvOnHold?)
    || (ev.RemovePipe? && At(s) == Some(ev.eid))
  }

  /** Whom a step asks. */
  ghost predicate AsksWhom(s: Socket, ev: Event, r: Socket) {
    var ready := ReadyAfter(ActiveIds(s.fq), s.pipes, RecvReportOf(ev));
    if s.device then
      if CallsForAsk(s, ev) && ready != {} then AsksOne(s.ctx, r.ctx, ready) && At(r) == Some(r.ctx.asked[|s.ctx.asked|])
      else r.ctx.asked == s.ctx.asked && (CallsForAsk(s, ev) ==> r.state.RecvOnHold?)
    else if AskFor(s, ev).Some? then
      if AskFor(s, ev).value in s.pipes then r.ctx.asked == s.ctx.asked + [AskFor(s, ev).value] && At(r) == AskFor(s, ev)
      else r.ctx.asked == s.ctx.asked && r.state.RecvOnHold? && r.state.from == AskFor(s, ev)
    else r.ctx.asked == s.ctx.asked
  }

  /** And how it changes what is known of receiving. */
  ghost predicate Asks(s: Socket, ev: Event, r: Socket) {
    var asked := set e | e in Grown(s.ctx.asked, r.ctx.asked);
    && AsksWhom(s, ev, r)
    && ActiveIds(r.fq) == ReadyAfter(ActiveIds(s.fq), s.pipes, RecvReportOf(ev)) - (if s.device then asked else {})
    && r.rv == OpenAfter(s.rv, RecvReportOf(ev)) - (if s.device then {} else asked + HeldFor(r))
    && (r.state.Receiving? ==> r.state.eid in r.pipes && Latest(r.ctx.asked, r.state.eid))
    && (Waits(r) ==> (r.state.expected.Some? <==> !r.device))
    && (r.state.Active? ==> !r.device)
  }

  lemma AsksFrame(s: Socket, ev: Event, t: Socket, r: Socket)
    requires Asks(s, ev, t) && r == t.(ctx := t.ctx.(raised := r.ctx.raised))
    ensures Asks(s, ev, r)
  {
  }

  ghost predicate Requested(s: Socket, r: Socket) {
    && r.pipes == s.pipes && r.rv == s.rv && r.device && Waits(r) && r.state.expected.None?
    && if ActiveIds(s.fq) == {}
       then r.state.RecvOnHold? && r.state.from.None? && r.ctx.asked == s.ctx.asked && ActiveIds(r.fq) == {}
       else
         && r.state.Receiving? && r.state.eid in ActiveIds(s.fq) && r.state.eid in s.pipes
         && r.ctx.asked == s.ctx.asked + [r.state.eid] && ActiveIds(r.fq) == ActiveIds(s.fq) - {r.state.eid}
  }

  lemma DeviceRequests(s: Socket, timeout: Timeout)
    requires InStep(s) && s.device
    ensures Requested(s, OnRecv(s, timeout))
  {
    PopKeeps(s.fq);
    assert ActiveIds(s.fq) <= Ids(s.fq);
  }

  lemma RequestedAsks(s: Socket, ev: Event, s1: Socket, r: Socket)
    requires s.device && CallsForAsk(s, ev) && s1.ctx.asked == s.ctx.asked && Requested(s1, r)
    requires s1.pipes == PresentAfter(s.pipes, RecvReportOf(ev)) && s1.rv == OpenAfter(s.rv, RecvReportOf(ev))
    requires ActiveIds(s1.fq) == ReadyAfter(ActiveIds(s.fq), s.pipes, RecvReportOf(ev))
    ensures Asks(s, ev, r)
  {
    if r.state.Receiving? {
      GrownBy(s.ctx.asked, [r.state.eid]);
    }
  }

  /** A regular socket asks where the request went, or waits for that pipe. */
  lemma ReplyForAsks(s: Socket, ev: Event, s1: Socket, eid: EndpointId, p: Pending, timeout: Timeout)
    requires !s.device && AskFor(s, ev) == Some(eid) && !s1.device && s1.ctx.asked == s.ctx.asked && s1.pipes == s.pipes
    requires s1.rv == OpenAfter(s.rv, RecvReportOf(ev))
    requires ActiveIds(s1.fq) == ReadyAfter(ActiveIds(s.fq), s.pipes, RecvReportOf(ev))
    ensures Asks(s, ev, RecvReplyFor(s1, eid, p, timeout))
  {
    if eid in s.pipes {
      GrownBy(s.ctx.asked, [eid]);
    }
  }

  lemma RecvAsks(s: Socket, timeout: Timeout)
    requires Asking(s)
    ensures Asks(s, Recv(timeout), Transition(s, Recv(timeout)))
  {
    var s1 := s.(ctx := Call(s.ctx, timeout));
    if s.device {
      DeviceRequests(s1, timeout);
      RequestedAsks(s, Recv(timeout), s1, OnRecv(s1, timeout));
    } else if s.state.Active? {
      ReplyForAsks(s, Recv(timeout), s1, s.state.eid, s.state.pending, timeout);
    }
  }

  lemma RecvReadyAsks(s: Socket, eid: EndpointId)
    requires Asking(s)
    ensures Asks(s, RecvReady(eid), OnRecvReady(s, eid))
  {
    var s1 := s.(fq := Activate(s.fq, eid), rv := s.rv + {eid});
    ActivateKeeps(s.fq, eid);
    if s.state.RecvOnHold? {
      if s.device {
        var s2 := s1.(state := Idle);
        DeviceRequests(s2, s.state.timeout);
        RequestedAsks(s, RecvReady(eid), s2, OnRecv(s2, s.state.timeout));
      } else if s.state.from == Some(eid) {
        var p := s.state.expected.value;
        ReplyForAsks(s, RecvReady(eid), s1.(state := Active(eid, p)), eid, p, s.state.timeout);
      }
    }
  }

  lemma ReceiptAsks(s: Socket, eid: EndpointId, raw: Message)
    requires Asking(s)
    ensures Asks(s, RecvAck(eid, raw), Received(s, eid, raw))
  {
    if !s.device && At(s) == Some(eid) && IsForAnother(s, raw) {
      ReplyForAsks(s, RecvAck(eid, raw), s, eid, s.state.expected.value, s.state.timeout);
    }
  }

  lemma LossAsksNobody(s: Socket, eid: EndpointId)
    requires !(s.device && At(s) == Some(eid))
    ensures var r := OnPipeRemoved(s, eid);
            && r.pipes == s.pipes && r.fq == s.fq && r.rv == s.rv && r.ctx.asked == s.ctx.asked && r.device == s.device
            && (Waits(r) ==> r.state == s.state && At(s) != Some(eid)) && (r.state.Active? ==> r.state == s.state)
  {
  }

  lemma DeviceLossAsks(s: Socket, eid: EndpointId)
    requires Asking(s) && s.device && At(s) == Some(eid)
    ensures Asks(s, RemovePipe(eid), OnPipeRemoved(Forget(s, eid), eid))
  {
    var s2 := Forget(s, eid).(state := Idle);
    RemoveFollowingKeeps(s.lb, eid);
    RemoveFollowingKeeps(s.fq, eid);
    DeviceRequests(s2, s.state.timeout);
    RequestedAsks(s, RemovePipe(eid), s2, OnRecv(s2, s.state.timeout));
  }

  lemma OtherLossAsks(s: Socket, eid: EndpointId, t: Socket)
    requires Asking(s) && !(s.device && At(s) == Some(eid))
    requires t == if eid in s.pipes then OnPipeRemoved(Forget(s, eid), eid) else Forget(s, eid)
    ensures Asks(s, RemovePipe(eid), t)
  {
    RemoveFollowingKeeps(s.fq, eid);
    LossAsksNobody(Forget(s, eid), eid);
  }

  lemma RemovalAsks(s: Socket, eid: EndpointId)
    requires Asking(s)
    ensures Asks(s, RemovePipe(eid), Removed(s, eid))
  {
    var s1 := Forget(s, eid);
    var t := if eid in s.pipes then OnPipeRemoved(s1, eid) else s1;
    if s.device && At(s) == Some(eid) {
      DeviceLossAsks(s, eid);
    } else {
      OtherLossAsks(s, eid, t);
    }
    AsksFrame(s, RemovePipe(eid), t, Removed(s, eid));
  }

  /** An event that is not about receiving leaves all this alone. */
  lemma OthersAskNobody(s: Socket, ev: Event)
    requires Asking(s) && !ev.AddPipe? && !ev.RemovePipe? && !ev.Recv? && !ev.RecvAck? && !ev.RecvReady? && !ev.RecvNotReady?
    ensures var r := Transition(s, ev);
            && r.pipes == s.pipes && r.fq == s.fq && r.rv == s.rv && r.ctx.asked == s.ctx.asked && r.device == s.device
            && (Waits(r) ==> r.state == s.state) && (r.state.Active? ==> !s.device)
  {
  }

  lemma OthersAsk(s: Socket, ev: Event)
    requires Asking(s) && !ev.AddPipe? && !ev.RemovePipe? && !ev.Recv? && !ev.RecvAck? && !ev.RecvReady? && !ev.RecvNotReady?
    ensures Asks(s, ev, Transition(s, ev))
  {
    OthersAskNobody(s, ev);
  }

  lemma TransitionAsks(s: Socket, ev: Event)
    requires Asking(s) && !ev.AddPipe? && !ev.RemovePipe?
    ensures Asks(s, ev, Transition(s, ev))
  {
    if ev.Recv? {
      RecvAsks(s, ev.timeout);
    } else if ev.RecvReady? {
      RecvReadyAsks(s, ev.eid);
    } else if ev.RecvAck? {
      ReceiptAsks(s, ev.eid, ev.raw);
    } else if ev.RecvNotReady? {
      DeactivateKeeps(s.fq, ev.eid);
    } else {
      OthersAsk(s, ev);
    }
  }

  lemma StepAsks(s: Socket, ev: Event)
    requires Asking(s) && Enabled(s, ev)
    ensures Asks(s, ev, Step(s, ev))
  {
    if ev.AddPipe? {
      InsertKeeps(s.fq, ev.eid, ev.recvPriority);
    } else if ev.RemovePipe? {
      RemovalAsks(s, ev.eid);
    } else {
      TransitionAsks(s, ev);
      AsksFrame(s, ev, Transition(s, ev), Step(s, ev));
    }
  }

  // ---------------------------------------------------------------- answers and the request

  /** What the user is due: a failure, an acknowledgment of a send that is no retry, or the reply to the request pending. */
  function Due(s: Socket, ev: Event): (r: seq<Reply>) {
    match ev
    case SendAck(eid, _) => if s.state.Sending? && s.state.eid == eid && !s.state.isRetry then [SendDone] else []
    case SendTimeout(_) => [Failed(TimedOut)]
    case Recv(_) => if s.device || s.state.Active? then [] else [Failed(Inactive)]
    case RecvAck(eid, raw) =>
      if |raw.body| < 4 then [Failed(Malformed)]
      else if IsDelivered(s, ev) then [RecvDone(Decode(raw).value.0)] else []
    case RecvTimeout(_) => if Waits(s) then [Failed(TimedOut)] else []
    case RemovePipe(eid) => if At(s) == Some(eid) && !s.device then [Failed(Inactive)] else []
    case _ => []
  }

  ghost predicate Tells(s: Socket, ev: Event, r: Socket) {
    && r.ctx.replies == s.ctx.replies + Due(s, ev)
    && (HasPending(r) <==> PendingAfter(s, ev, HasPending(s)))
  }

  lemma TellsFrame(s: Socket, ev: Event, t: Socket, r: Socket)
    requires Tells(s, ev, t) && r == t.(ctx := t.ctx.(raised := r.ctx.raised))
    ensures Tells(s, ev, r)
  {
  }

  lemma SubmissionTells(s: Socket, msg: Message, timeout: Timeout)
    requires Asking(s)
    ensures Tells(s, Send(msg, timeout), Submitted(s, msg, timeout))
  {
  }

  lemma ReceiptIsTold(s: Socket, eid: EndpointId, raw: Message)
    requires Asking(s)
    ensures Tells(s, RecvAck(eid, raw), Received(s, eid, raw))
  {
  }

  lemma RecvTells(s: Socket, timeout: Timeout)
    requires Asking(s)
    ensures Tells(s, Recv(timeout), Transition(s, Recv(timeout)))
  {
  }

  lemma RecvReadyTells(s: Socket, eid: EndpointId)
    requires Asking(s)
    ensures Tells(s, RecvReady(eid), OnRecvReady(s, eid))
  {
  }

  lemma OthersTell(s: Socket, ev: Event)
    requires Asking(s) && !ev.AddPipe? && !ev.RemovePipe? && !ev.Send? && !ev.Recv? && !ev.RecvAck? && !ev.RecvReady?
    ensures Tells(s, ev, Transition(s, ev))
  {
  }

  lemma RemovalTells(s: Socket, eid: EndpointId)
    requires Asking(s)
    ensures Tells(s, RemovePipe(eid), Removed(s, eid))
  {
    var s1 := Forget(s, eid);
    TellsFrame(s, RemovePipe(eid), if eid in s.pipes then OnPipeRemoved(s1, eid) else s1, Removed(s, eid));
  }

  lemma TransitionTellsExactly(s: Socket, ev: Event)
    requires Asking(s) && !ev.AddPipe? && !ev.RemovePipe?
    ensures Tells(s, ev, Transition(s, ev))
  {
    if ev.Send? {
      SubmissionTells(s, ev.msg, ev.timeout);
    } else if ev.Recv? {
      RecvTells(s, ev.timeout);
    } else if ev.RecvAck? {
      ReceiptIsTold(s, ev.eid, ev.raw);
    } else if ev.RecvReady? {
      RecvReadyTells(s, ev.eid);
    } else {
      OthersTell(s, ev);
    }
  }

  lemma StepTells(s: Socket, ev: Event)
    requires Asking(s)
    ensures Tells(s, ev, Step(s, ev))
  {
    if ev.AddPipe? {
    } else if ev.RemovePipe? {
      RemovalTells(s, ev.eid);
    } else {
      TransitionTellsExactly(s, ev);
      TellsFrame(s, ev, Transition(s, ev), Step(s, ev));
    }
  }

  // ---------------------------------------------------------------- runs

  lemma StepIsKnown(s: Socket, ev: Event)
    requires Asking(s) && Enabled(s, ev)
    ensures Asking(Step(s, ev)) && KnownAfter(s, ev, Stored(s), Step(s, ev)) == Stored(Step(s, ev))
  {
    StepConserves(s, ev);
    StepSends(s, ev);
    StepAsks(s, ev);
    StepTells(s, ev);
  }

  lemma TransitionKeepsMode(s: Socket, ev: Event)
    ensures Transition(s, ev).device == s.device
  {
    if !ev.Send? && !ev.SendAck? && !ev.RecvAck? && !ev.RecvReady? {
      assert Transition(s, ev).device == s.device;
    }
  }

  lemma StepKeepsMode(s: Socket, ev: Event)
    ensures Step(s, ev).device == s.device
  {
    if ev.RemovePipe? {
      assert OnPipeRemoved(Forget(s, ev.eid), ev.eid).device == s.device;
    } else if !ev.AddPipe? {
      TransitionKeepsMode(s, ev);
    }
  }

  lemma {:induction false} RunKeepsMode(s: Socket, evs: seq<Event>)
    ensures Run(s, evs).device == s.device
    decreases |evs|
  {
    if evs != [] {
      StepKeepsMode(s, evs[0]);
      RunKeepsMode(Step(s, evs[0]), evs[1..]);
    }
  }

  lemma {:induction false} RunIsKnown(s: Socket, evs: seq<Event>)
    requires Asking(s) && EnabledRun(s, evs)
    ensures KnownOver(s, evs, Stored(s)) == Stored(Run(s, evs)) && Asking(Run(s, evs))
    decreases |evs|
  {
    if evs != [] {
      StepIsKnown(s, evs[0]);
      RunIsKnown(Step(s, evs[0]), evs[1..]);
    }
  }

  lemma NothingStored(seed: nat, device: bool)
    ensures Stored(New(seed, device)) == UNKNOWN && Asking(New(seed, device))
  {
    assert ActiveIds(EMPTY) == {};
  }

  /**
   After every run, of a regular socket or of a device's: the pipes known are those that joined and have not left; those
   that count as ready for a request are those that said so and were given none since; those that count as having a reply
   are those that reported one and were not asked since; a request is pending from its acknowledgment to its end; and who
   is waited for is there and was asked last.
   */
  lemma ReadyIsWhatWasReported(seed: nat, device: bool, evs: seq<Event>)
    requires EnabledRun(New(seed, device), evs)
    ensures KnownOver(New(seed, device), evs, UNKNOWN) == Stored(Run(New(seed, device), evs)) && Asking(Run(New(seed, device), evs))
  {
    NothingStored(seed, device);
    RunIsKnown(New(seed, device), evs);
  }

  /** What a device holds is the message submitted last. */
  predicate DeviceHoldsLatest(s: Socket) {
    s.device && (s.state.Sending? || s.state.SendOnHold? ==> Latest(s.ctx.submitted, s.state.msg))
  }

  lemma StepHoldsLatest(s: Socket, ev: Event)
    requires Asking(s) && DeviceHoldsLatest(s)
    ensures DeviceHoldsLatest(Step(s, ev))
  {
    if ev.RemovePipe? {
      assert DeviceHoldsLatest(OnPipeRemoved(Forget(s, ev.eid), ev.eid));
    } else if !ev.AddPipe? {
      assert DeviceHoldsLatest(Transition(s, ev));
    }
  }

  lemma {:induction false} RunHoldsLatest(s: Socket, evs: seq<Event>)
    requires Asking(s) && DeviceHoldsLatest(s) && EnabledRun(s, evs)
    ensures DeviceHoldsLatest(Run(s, evs))
    decreases |evs|
  {
    if evs != [] {
      StepIsKnown(s, evs[0]);
      StepHoldsLatest(s, evs[0]);
      RunHoldsLatest(Step(s, evs[0]), evs[1..]);
    }
  }

  /** What goes out for the latest send: the message itself from a device, else its request. */
  function Outgoing(seed: nat, device: bool, submitted: seq<Message>): (r: Message)
    requires submitted != []
  {
    if device then submitted[|submitted| - 1] else Request(seed, submitted, |submitted|)
  }

  lemma HoldsOutgoing(seed: nat, device: bool, evs: seq<Event>, ev: Event)
    requires EnabledRun(New(seed, device), evs) && Enabled(Run(New(seed, device), evs), ev)
    ensures var r := Step(Run(New(seed, device), evs), ev);
            r.state.Sending? || r.state.SendOnHold? ==>
              r.ctx.submitted != [] && r.state.msg == Outgoing(seed, device, r.ctx.submitted)
  {
    var s := Run(New(seed, device), evs);
    if device {
      NothingStored(seed, true);
      RunHoldsLatest(New(seed, true), evs);
      RunIsKnown(New(seed, true), evs);
      StepHoldsLatest(s, ev);
    } else {
      EveryRunMatches(seed, evs);
      StepMatches(s, seed, ev);
    }
  }

  /**
   After any run, of a regular socket or of a device's, the request of the latest send goes to exactly one pipe, of those
   that are ready for one, exactly if it starts, a pipe opens while it is on hold, a retry is due while nothing is received,
   or the pipe it is being handed to leaves, and somebody is ready; otherwise nothing is sent.
   */
  lemma SendsExactlyIf(seed: nat, device: bool, evs: seq<Event>, ev: Event)
    requires EnabledRun(New(seed, device), evs) && Enabled(Run(New(seed, device), evs), ev)
    ensures var s, r := Run(New(seed, device), evs), Step(Run(New(seed, device), evs), ev);
            var k := KnownOver(New(seed, device), evs, UNKNOWN);
            var ready := ReadyAfter(k.sendable, k.present, SendReportOf(ev));
            if CallsForSend(s, ev) && ready != {} then
              && r.ctx.submitted != [] && r.state.Sending?
              && GivesOne(s.ctx, r.ctx, ready, Outgoing(seed, device, r.ctx.submitted))
            else r.ctx.sent == s.ctx.sent && (CallsForSend(s, ev) ==> r.state.SendOnHold?)
  {
    ReadyIsWhatWasReported(seed, device, evs);
    HoldsOutgoing(seed, device, evs, ev);
    StepSends(Run(New(seed, device), evs), ev);
  }

  /**
   After any run, of a regular socket or of a device's, exactly the pipe that has to be asked is: by a regular socket the
   one that got the latest copy of the request, whenever a receive starts, that pipe has something for one that waits, or
   what it sent answers another request; by a device one of those that have something.
   */
  lemma AsksExactlyIf(seed: nat, device: bool, evs: seq<Event>, ev: Event)
    requires EnabledRun(New(seed, device), evs) && Enabled(Run(New(seed, device), evs), ev)
    ensures var s, r := Run(New(seed, device), evs), Step(Run(New(seed, device), evs), ev);
            var k := KnownOver(New(seed, device), evs, UNKNOWN);
            var ready := ReadyAfter(k.ready, k.present, RecvReportOf(ev));
            if device then
              if CallsForAsk(s, ev) && ready != {} then AsksOne(s.ctx, r.ctx, ready) else r.ctx.asked == s.ctx.asked
            else
              var e := AskFor(s, ev);
              && (e.Some? ==> s.ctx.sent != [] && s.ctx.sent[|s.ctx.sent| - 1].0 == e.value)
              && r.ctx.asked == s.ctx.asked + if e.Some? && e.value in k.present then [e.value] else []
  {
    ReadyIsWhatWasReported(seed, device, evs);
    RunKeepsMode(New(seed, device), evs);
    StepAsks(Run(New(seed, device), evs), ev);
    if !device {
      EveryRunMatches(seed, evs);
    }
  }

  /** After any run, what the user is told is exactly what the event is due. */
  lemma AnswersExactly(seed: nat, device: bool, evs: seq<Event>, ev: Event)
    requires EnabledRun(New(seed, device), evs)
    ensures var s := Run(New(seed, device), evs);
            Step(s, ev).ctx.replies == s.ctx.replies + Due(s, ev)
  {
    ReadyIsWhatWasReported(seed, device, evs);
    StepTells(Run(New(seed, device), evs), ev);
  }

  /** After every run the last notices are what is known. */
  lemma ToldWhatWasReported(seed: nat, device: bool, evs: seq<Event>)
    requires EnabledRun(New(seed, device), evs)
    ensures var s, k := Run(New(seed, device), evs), KnownOver(New(seed, device), evs, UNKNOWN);
            Told(s.ctx, k.sendable != {}, if device then k.ready != {} else k.pending && s.state.Active? && s.state.eid in k.open)
  {
    ReadyIsWhatWasReported(seed, device, evs);
    ReadinessIsTold(seed, device, evs);
    RunKeepsMode(New(seed, device), evs);
    ActiveMeansPeek(Run(New(seed, device), evs).lb);
    ActiveMeansPeek(Run(New(seed, device), evs).fq);
  }

  // ---------------------------------------------------------------- priorities

  /** The priorities, from the events alone. */
  function SendRanked(evs: seq<Event>, ranks: map<EndpointId, Priority>): (r: map<EndpointId, Priority>) {
    if evs == [] then ranks else SendRanked(evs[1..], RanksAfter(ranks, SendReportOf(evs[0])))
  }

  /** The scheduler `h` was popped, or not, on the way to `r`, and who was sent to is exactly what was popped. */
  ghost predicate PopsToSend(h: Sched, s: Socket, r: Socket) {
    && (r.lb == h || r.lb == Pop(h).1)
    && (r.ctx.sent != s.ctx.sent ==>
          && Pop(h).0.Some? && |r.ctx.sent| == |s.ctx.sent| + 1 && r.ctx.sent[|s.ctx.sent|].0 == Pop(h).0.value)
  }

  lemma TransitionPopsToSend(s: Socket, ev: Event)
    requires !ev.AddPipe? && !ev.RemovePipe?
    ensures PopsToSend(Heard(s.lb, SendReportOf(ev)), s, Transition(s, ev))
  {
    if !ev.Send? && !ev.SendReady? && !ev.SendNotReady? && !ev.Retry? {
      OthersSendNothing(s, ev);
    }
  }

  lemma RemovalPopsToSend(s: Socket, eid: EndpointId)
    ensures PopsToSend(RemoveFollowing(s.lb, eid), s, Removed(s, eid))
  {
    var s1 := Forget(s, eid);
    if s1.state.Sending? && s1.state.eid == eid {
      assert PopsToSend(s1.lb, s, OnPipeRemoved(s1, eid));
    } else {
      LossSendsNothing(s1, eid);
    }
  }

  /** A step pops what the scheduler becomes by the report, or nothing. */
  lemma StepPopsToSend(s: Socket, ev: Event)
    ensures PopsToSend(Heard(s.lb, SendReportOf(ev)), s, Step(s, ev))
  {
    if ev.RemovePipe? {
      RemovalPopsToSend(s, ev.eid);
    } else if !ev.AddPipe? {
      TransitionPopsToSend(s, ev);
    }
  }

  lemma StepRanksToSend(s: Socket, ev: Event)
    requires Asking(s) && Enabled(s, ev)
    ensures RanksOf(Step(s, ev).lb) == RanksAfter(RanksOf(s.lb), SendReportOf(ev))
  {
    StepPopsToSend(s, ev);
    HeardPicksBest(s.lb, SendReportOf(ev));
  }

  lemma {:induction false} SendRankedRun(s: Socket, evs: seq<Event>)
    requires Asking(s) && EnabledRun(s, evs)
    ensures RanksOf(Run(s, evs).lb) == SendRanked(evs, RanksOf(s.lb))
    decreases |evs|
  {
    if evs != [] {
      StepRanksToSend(s, evs[0]);
      StepIsKnown(s, evs[0]);
      SendRankedRun(Step(s, evs[0]), evs[1..]);
    }
  }

  /** After any run, who is given a request has the best priority among those that are ready. */
  lemma BestIsUsed(seed: nat, device: bool, evs: seq<Event>, ev: Event)
    requires EnabledRun(New(seed, device), evs) && Enabled(Run(New(seed, device), evs), ev)
    requires Step(Run(New(seed, device), evs), ev).ctx.sent != Run(New(seed, device), evs).ctx.sent
    ensures var c, c' := Run(New(seed, device), evs).ctx, Step(Run(New(seed, device), evs), ev).ctx;
            var k := KnownOver(New(seed, device), evs, UNKNOWN);
            var ready := ReadyAfter(k.sendable, k.present, SendReportOf(ev));
            |c'.sent| == |c.sent| + 1 && c'.sent[|c.sent|].0 in BestOf(RanksAfter(SendRanked(evs, map[]), SendReportOf(ev)), ready)
  {
    var s := Run(New(seed, device), evs);
    assert RanksOf(EMPTY) == map[];
    ReadyIsWhatWasReported(seed, device, evs);
    NothingStored(seed, device);
    SendRankedRun(New(seed, device), evs);
    StepPopsToSend(s, ev);
    HeardPicksBest(s.lb, SendReportOf(ev));
  }

  /** The priorities, from the events alone. */
  function RecvRanked(evs: seq<Event>, ranks: map<EndpointId, Priority>): (r: map<EndpointId, Priority>) {
    if evs == [] then ranks else RecvRanked(evs[1..], RanksAfter(ranks, RecvReportOf(evs[0])))
  }

  /** The same of receiving, for a device; a regular socket pops nothing. */
  ghost predicate PopsToAsk(h: Sched, s: Socket, r: Socket) {
    && (r.fq == h || r.fq == Pop(h).1)
    && (s.device && r.ctx.asked != s.ctx.asked ==> Pop(h).0.Some? && r.ctx.asked == s.ctx.asked + [Pop(h).0.value])
  }

  lemma TransitionPopsToAsk(s: Socket, ev: Event)
    requires Asking(s) && !ev.AddPipe? && !ev.RemovePipe?
    ensures PopsToAsk(Heard(s.fq, RecvReportOf(ev)), s, Transition(s, ev))
  {
    if !ev.Recv? && !ev.RecvAck? && !ev.RecvReady? && !ev.RecvNotReady? {
      OthersAskNobody(s, ev);
    }
  }

  lemma RemovalPopsToAsk(s: Socket, eid: EndpointId)
    ensures PopsToAsk(RemoveFollowing(s.fq, eid), s, Removed(s, eid))
  {
    var s1 := Forget(s, eid);
    if s.device && At(s) == Some(eid) {
      assert PopsToAsk(s1.fq, s, OnPipeRemoved(s1, eid));
    } else {
      LossAsksNobody(s1, eid);
    }
  }

  lemma StepPopsToAsk(s: Socket, ev: Event)
    requires Asking(s)
    ensures PopsToAsk(Heard(s.fq, RecvReportOf(ev)), s, Step(s, ev))
  {
    if ev.RemovePipe? {
      RemovalPopsToAsk(s, ev.eid);
    } else if !ev.AddPipe? {
      TransitionPopsToAsk(s, ev);
    }
  }

  lemma {:induction false} RecvRankedRun(s: Socket, evs: seq<Event>)
    requires Asking(s) && EnabledRun(s, evs)
    ensures RanksOf(Run(s, evs).fq) == RecvRanked(evs, RanksOf(s.fq))
    decreases |evs|
  {
    if evs != [] {
      StepPopsToAsk(s, evs[0]);
      HeardPicksBest(s.fq, RecvReportOf(evs[0]));
      StepIsKnown(s, evs[0]);
      RecvRankedRun(Step(s, evs[0]), evs[1..]);
    }
  }

  /** After any run, who is asked by a device has the best priority among those that are ready. */
  lemma BestIsAsked(seed: nat, evs: seq<Event>, ev: Event)
    requires EnabledRun(New(seed, true), evs) && Enabled(Run(New(seed, true), evs), ev)
    requires Step(Run(New(seed, true), evs), ev).ctx.asked != Run(New(seed, true), evs).ctx.asked
    ensures var c, c' := Run(New(seed, true), evs).ctx, Step(Run(New(seed, true), evs), ev).ctx;
            var k := KnownOver(New(seed, true), evs, UNKNOWN);
            var ready := ReadyAfter(k.ready, k.present, RecvReportOf(ev));
            |c'.asked| == |c.asked| + 1 && c'.asked[|c.asked|] in BestOf(RanksAfter(RecvRanked(evs, map[]), RecvReportOf(ev)), ready)
  {
    var s := Run(New(seed, true), evs);
    assert RanksOf(EMPTY) == map[];
    ReadyIsWhatWasReported(seed, true, evs);
    NothingStored(seed, true);
    RecvRankedRun(New(seed, true), evs);
    RunKeepsMode(New(seed, true), evs);
    StepPopsToAsk(s, ev);
    HeardPicksBest(s.fq, RecvReportOf(ev));
  }

  // ---------------------------------------------------------------- asks and replies

  function FromOf(ev: Event): (r: Option<EndpointId>) {
    if ev.RecvAck? then Some(ev.eid) else None
  }

  /** How many messages came from whom. */
  function CameIn(evs: seq<Event>, came: multiset<EndpointId>): (r: multiset<EndpointId>) {
    if evs == [] then came else CameIn(evs[1..], CameFrom(came, FromOf(evs[0])))
  }

  /** No pipe delivers more than it was asked for. */
  predicate NoMoreThanAsked(s: Socket, evs: seq<Event>, came: multiset<EndpointId>)
    decreases |evs|
  {
    evs == [] || (CameFrom(came, FromOf(evs[0])) <= multiset(s.ctx.asked)
                  && NoMoreThanAsked(Step(s, evs[0]), evs[1..], CameFrom(came, FromOf(evs[0]))))
  }

  predicate AlwaysOutstanding(s: Socket, evs: seq<Event>, came: multiset<EndpointId>)
    decreases |evs|
  {
    && Outstanding(At(s), s.ctx.asked, came)
    && (evs == [] || AlwaysOutstanding(Step(s, evs[0]), evs[1..], CameFrom(came, FromOf(evs[0]))))
  }

  /** No malformed reply is all that was outstanding of the pipe waited for. */
  predicate NeverRefusesLast(s: Socket, evs: seq<Event>, came: multiset<EndpointId>)
    decreases |evs|
  {
    evs == [] || (!RefusesLast(At(s), s.ctx.asked, came, FromOf(evs[0]), IsMalformed(evs[0]))
                  && NeverRefusesLast(Step(s, evs[0]), evs[1..], CameFrom(came, FromOf(evs[0]))))
  }

  lemma ReceiptKeepsAsking(s: Socket, eid: EndpointId, raw: Message)
    requires Asking(s)
    ensures var r := Step(s, RecvAck(eid, raw));
            && (AskFor(s, RecvAck(eid, raw)).None? && r.state.Receiving? ==>
                  At(r) == At(s) && r.ctx.asked == s.ctx.asked && (At(s) == Some(eid) ==> |raw.body| < 4))
            && (|raw.body| < 4 ==> r.state == s.state && r.ctx.asked == s.ctx.asked)
  {
  }

  lemma RecvKeepsAsking(s: Socket, ev: Event)
    requires Asking(s) && Enabled(s, ev) && (ev.Recv? || ev.RecvReady?)
    ensures KeepsAsking(At(s), s.ctx.asked, None, false, At(Step(s, ev)), Step(s, ev).ctx.asked)
  {
    StepAsks(s, ev);
  }

  lemma LossKeepsAsking(s: Socket, eid: EndpointId)
    requires Asking(s)
    ensures KeepsAsking(At(s), s.ctx.asked, None, false, At(Step(s, RemovePipe(eid))), Step(s, RemovePipe(eid)).ctx.asked)
  {
    StepAsks(s, RemovePipe(eid));
    if !(s.device && At(s) == Some(eid)) {
      LossAsksNobody(Forget(s, eid), eid);
    }
  }

  /** Other events that lead to waiting for a pipe ask it, or go on waiting for the same. */
  lemma OthersKeepAsking(s: Socket, ev: Event)
    requires Asking(s) && Enabled(s, ev) && !ev.RecvAck?
    ensures KeepsAsking(At(s), s.ctx.asked, None, false, At(Step(s, ev)), Step(s, ev).ctx.asked)
  {
    if ev.RemovePipe? {
      LossKeepsAsking(s, ev.eid);
    } else if ev.Recv? || ev.RecvReady? {
      RecvKeepsAsking(s, ev);
    } else if !ev.AddPipe? && !ev.RecvNotReady? {
      OthersAskNobody(s, ev);
    }
  }

  lemma StepKeepsAsking(s: Socket, ev: Event)
    requires Asking(s) && Enabled(s, ev)
    ensures var r := Step(s, ev);
            && KeepsAsking(At(s), s.ctx.asked, FromOf(ev), IsMalformed(ev), At(r), r.ctx.asked)
            && (IsMalformed(ev) ==> At(r) == At(s) && r.ctx.asked == s.ctx.asked)
  {
    if ev.RecvAck? {
      ReceiptKeepsAsking(s, ev.eid, ev.raw);
      StepAsks(s, ev);
    } else {
      OthersKeepAsking(s, ev);
    }
  }

  lemma {:induction false} RunIsOutstandingIff(s: Socket, evs: seq<Event>, came: multiset<EndpointId>)
    requires Asking(s) && EnabledRun(s, evs) && NoMoreThanAsked(s, evs, came) && Outstanding(At(s), s.ctx.asked, came)
    ensures AlwaysOutstanding(s, evs, came) <==> NeverRefusesLast(s, evs, came)
    ensures NeverRefusesLast(s, evs, came) ==> Outstanding(At(Run(s, evs)), Run(s, evs).ctx.asked, CameIn(evs, came))
    decreases |evs|
  {
    if evs != [] {
      var ev, r := evs[0], Step(s, evs[0]);
      StepKeepsAsking(s, ev);
      StepIsKnown(s, ev);
      OutstandingIff(At(s), s.ctx.asked, FromOf(ev), IsMalformed(ev), At(r), r.ctx.asked, came);
      if Outstanding(At(r), r.ctx.asked, CameFrom(came, FromOf(ev))) {
        RunIsOutstandingIff(r, evs[1..], CameFrom(came, FromOf(ev)));
      }
    }
  }

  /**
   In a run in which no pipe delivers more than it was asked for, more is asked of the pipe waited for than came from it,
   at every point, exactly if no malformed reply is all that was outstanding: then a receive never waits in vain.
   */
  lemma EveryRunIsOutstandingIff(seed: nat, device: bool, evs: seq<Event>)
    requires EnabledRun(New(seed, device), evs) && NoMoreThanAsked(New(seed, device), evs, multiset{})
    ensures AlwaysOutstanding(New(seed, device), evs, multiset{}) <==> NeverRefusesLast(New(seed, device), evs, multiset{})
    ensures NeverRefusesLast(New(seed, device), evs, multiset{}) ==>
              var s := Run(New(seed, device), evs);
              Outstanding(At(s), s.ctx.asked, CameIn(evs, multiset{}))
  {
    NothingStored(seed, device);
    RunIsOutstandingIff(New(seed, device), evs, multiset{});
  }

  lemma {:induction false} CameSnoc(s: Socket, evs: seq<Event>, ev: Event, came: multiset<EndpointId>)
    ensures CameIn(evs + [ev], came) == CameFrom(CameIn(evs, came), FromOf(ev))
    ensures NoMoreThanAsked(s, evs + [ev], came)
            <==> NoMoreThanAsked(s, evs, came) && CameFrom(CameIn(evs, came), FromOf(ev)) <= multiset(Run(s, evs).ctx.asked)
    decreases |evs|
  {
    if evs == [] {
      assert (evs + [ev])[1..] == [];
    } else {
      assert (evs + [ev])[1..] == evs[1..] + [ev];
      CameSnoc(Step(s, evs[0]), evs[1..], ev, CameFrom(came, FromOf(evs[0])));
    }
  }

  lemma {:induction false} NoneCame(s: Socket, evs: seq<Event>)
    requires forall i :: 0 <= i < |evs| ==> !evs[i].RecvAck?
    ensures CameIn(evs, multiset{}) == multiset{} && NoMoreThanAsked(s, evs, multiset{})
    decreases |evs|
  {
    if evs != [] {
      NoneCame(Step(s, evs[0]), evs[1..]);
    }
  }

  /** A malformed reply to the only ask: the receive goes on waiting for that pipe, of which nothing is outstanding. */
  lemma MalformedLeavesNothingAsked()
    ensures var evs := WAITING + [RecvAck(1, Message([], []))];
            var s := Run(New(0, false), evs);
            && OrderlyRun(New(0, false), evs) && NoMoreThanAsked(New(0, false), evs, multiset{})
            && At(s) == Some(1) && !Outstanding(At(s), s.ctx.asked, CameIn(evs, multiset{}))
  {
    var s := WaitingRun();
    var bad := RecvAck(1, Message([], []));
    NoneCame(New(0, false), WAITING);
    CameSnoc(New(0, false), WAITING, bad, multiset{});
    RunExtends(New(0, false), WAITING, bad);
    assert Step(s, bad).state == s.state && Step(s, bad).ctx.asked == s.ctx.asked;
  }
}

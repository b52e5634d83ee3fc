/** The replier over what it was told: who is ready, who is asked, what goes on the wire, and what the user gets. */
module RepReports {
  import opened Core
  import opened Scheduling
  import opened SchedulingLaws
  import opened Contexts
  import opened Backtrace
  import opened Reports
  import opened RepProtocol
  import opened RepLaws

  function RecvReportOf(ev: Event): (r: Report) {
    match ev
    case AddPipe(eid, priority) => Joins(eid, priority)
    case RemovePipe(eid) => Leaves(eid)
    case RecvReady(eid) => Opens(eid)
    case RecvNotReady(eid) => Closes(eid)
    case _ => Nothing
  }

  function SendReportOf(ev: Event): (r: Report) {
    match ev
    case RemovePipe(eid) => Leaves(eid)
    case SendReady(eid) => Opens(eid)
    case SendNotReady(eid) => Closes(eid)
    case _ => Nothing
  }

  /** Who is there, who has a request, who is ready for a reply, and whether a request is being served. */
  datatype Known = Known(present: set<EndpointId>, ready: set<EndpointId>, open: set<EndpointId>, serving: bool)

  const UNKNOWN: Known := Known({}, {}, {}, false)

  /** A request is served from its delivery on, until a reply with a route is sent, or a receive or a timeout puts an end to it. */
  predicate ServingAfter(s: Socket, ev: Event, serving: bool) {
    if Delivers(s, ev) then !s.device
    else serving && !ev.Recv? && !ev.RecvTimeout? && !ev.SendTimeout? && !(ev.Send? && Routed(s, ev.msg).Some?)
  }

  /** An endpoint is used up by a reply that goes to it or waits for it. */
  function KnownNow(s: Socket, ev: Event, k: Known): (r: Known) {
    var r := Step(s, ev);
    var given := Receivers(Grown(s.ctx.sent, r.ctx.sent));
    Known(PresentAfter(k.present, RecvReportOf(ev)),
          ReadyAfter(k.ready, k.present, RecvReportOf(ev)) - (set e | e in Grown(s.ctx.asked, r.ctx.asked)),
          OpenAfter(k.open, SendReportOf(ev)) - (set e | e in given) - (if r.state.SendOnHold? then {r.state.eid} else {}),
          ServingAfter(s, ev, k.serving))
  }

  function KnownOver(s: Socket, evs: seq<Event>, k: Known): (r: Known)
    decreases |evs|
  {
    if evs == [] then k else KnownOver(Step(s, evs[0]), evs[1..], KnownNow(s, evs[0], k))
  }

  ghost function Stored(s: Socket): (r: Known) {
    Known(s.pipes, ActiveIds(s.fq), s.sd, s.state.Active?)
  }

  /** The pipe that a receive waits for. */
  function At(s: Socket): (r: Option<EndpointId>) {
    if s.state.Receiving? then Some(s.state.eid) else None
  }

  /** Besides what is conserved: who is waited for is there and was asked last, and only a regular socket serves. */
  ghost predicate Asking(s: Socket) {
    && Conserving(s)
    && (s.state.Receiving? ==> s.state.eid in s.pipes && Latest(s.ctx.asked, s.state.eid))
    && (s.state.Active? ==> !s.device)
  }

  // ---------------------------------------------------------------- asking

  ghost predicate Requested(s: Socket, r: Socket) {
    && r.pipes == s.pipes && r.sd == s.sd && r.ctx.sent == s.ctx.sent && r.ctx.replies == s.ctx.replies
    && if ActiveIds(s.fq) == {} then r.state.RecvOnHold? && r.ctx.asked == s.ctx.asked && ActiveIds(r.fq) == {}
       else
         && r.state.Receiving? && r.state.eid in ActiveIds(s.fq) && r.state.eid in s.pipes
         && r.ctx.asked == s.ctx.asked + [r.state.eid] && ActiveIds(r.fq) == ActiveIds(s.fq) - {r.state.eid}
  }

  lemma RecvAsks(s: Socket, timeout: Timeout)
    requires InStep(s)
    ensures Requested(s, OnRecv(s, timeout))
  {
    PopKeeps(s.fq);
    assert ActiveIds(s.fq) <= Ids(s.fq);
  }

  /** A receive starts, a pipe reports a request while one waits, or the pipe waited for leaves. */
  predicate CallsForAsk(s: Socket, ev: Event) {
    || ev.Recv?
    || (ev.RecvReady? && s.state.RecvOnHold?)
    || (ev.RemovePipe? && At(s) == Some(ev.eid))
  }

  /** How a step changes what is known of receiving, and whom it asks. */
  ghost predicate Asks(s: Socket, ev: Event, r: Socket) {
    var ready := ReadyAfter(ActiveIds(s.fq), s.pipes, RecvReportOf(ev));
    && r.pipes == PresentAfter(s.pipes, RecvReportOf(ev))
    && ActiveIds(r.fq) == ready - (set e | e in Grown(s.ctx.asked, r.ctx.asked))
    && (if CallsForAsk(s, ev) && ready != {} then AsksOne(s.ctx, r.ctx, ready) && At(r) == Some(r.ctx.asked[|s.ctx.asked|])
        else r.ctx.asked == s.ctx.asked && (CallsForAsk(s, ev) ==> r.state.RecvOnHold?))
    && (r.state.Receiving? ==> r.state.eid in r.pipes && Latest(r.ctx.asked, r.state.eid))
  }

  lemma AsksFrame(s: Socket, ev: Event, t: Socket, r: Socket)
    requires Asks(s, ev, t) && r == t.(ctx := t.ctx.(raised := r.ctx.raised))
    ensures Asks(s, ev, r)
  {
  }

  lemma RequestedAsks(s: Socket, ev: Event, s1: Socket, r: Socket)
    requires CallsForAsk(s, ev) && s1.ctx.asked == s.ctx.asked && Requested(s1, r)
    requires s1.pipes == PresentAfter(s.pipes, RecvReportOf(ev))
    requires ActiveIds(s1.fq) == ReadyAfter(ActiveIds(s.fq), s.pipes, RecvReportOf(ev))
    ensures Asks(s, ev, r)
  {
    if r.state.Receiving? {
      GrownBy(s.ctx.asked, [r.state.eid]);
    }
  }

  lemma RecvReadyAsks(s: Socket, eid: EndpointId)
    requires Asking(s)
    ensures Asks(s, RecvReady(eid), OnRecvReady(s, eid))
  {
    var s1 := s.(fq := Activate(s.fq, eid));
    ActivateKeeps(s.fq, eid);
    if s.state.RecvOnHold? {
      RecvAsks(s1, s.state.timeout);
      RequestedAsks(s, RecvReady(eid), s1, OnRecv(s1, s.state.timeout));
    }
  }

  lemma RemovalAsks(s: Socket, eid: EndpointId)
    requires Asking(s)
    ensures Asks(s, RemovePipe(eid), Removed(s, eid))
  {
    var ev, s1 := RemovePipe(eid), Forget(s, eid);
    RemoveFollowingKeeps(s.fq, eid);
    if At(s) == Some(eid) {
      RecvAsks(s1, s.state.timeout);
      RequestedAsks(s, ev, s1, OnRecv(s1, s.state.timeout));
      AsksFrame(s, ev, OnRecv(s1, s.state.timeout), Removed(s, eid));
    } else {
      AsksFrame(s, ev, s1, Removed(s, eid));
    }
  }

  /** An event that is not about receiving leaves all this alone. */
  lemma OthersAskNobody(s: Socket, ev: Event)
    requires Asking(s) && !ev.AddPipe? && !ev.RemovePipe? && !ev.Recv? && !ev.RecvReady? && !ev.RecvNotReady?
    ensures var r := Transition(s, ev);
            r.pipes == s.pipes && r.fq == s.fq && r.ctx.asked == s.ctx.asked && (r.state.Receiving? ==> r.state == s.state)
  {
  }

  lemma TransitionAsks(s: Socket, ev: Event)
    requires Asking(s) && !ev.AddPipe? && !ev.RemovePipe?
    ensures Asks(s, ev, Transition(s, ev))
  {
    if ev.Recv? {
      var s1 := s.(ctx := Call(s.ctx, ev.timeout));
      RecvAsks(s1, ev.timeout);
      RequestedAsks(s, ev, s1, OnRecv(s1, ev.timeout));
    } else if ev.RecvReady? {
      RecvReadyAsks(s, ev.eid);
    } else if ev.RecvNotReady? {
      DeactivateKeeps(s.fq, ev.eid);
    } else {
      OthersAskNobody(s, ev);
    }
  }

  lemma StepAsks(s: Socket, ev: Event)
    requires Asking(s) && Enabled(s, ev)
    ensures Asks(s, ev, Step(s, ev))
  {
    if ev.AddPipe? {
      InsertKeeps(s.fq, ev.eid, ev.priority);
    } else if ev.RemovePipe? {
      RemovalAsks(s, ev.eid);
    } else {
      TransitionAsks(s, ev);
      AsksFrame(s, ev, Transition(s, ev), Step(s, ev));
    }
  }

  // ---------------------------------------------------------------- replying

  /** The reply that goes on the wire in a step, of those that are there: one sent now or one that waited for its endpoint. */
  function Wire(s: Socket, k: Known, ev: Event): (r: seq<(EndpointId, Message)>) {
    match ev
    case Send(msg, _) =>
      if (s.device || k.serving) && Routed(s, msg).Some? && Routed(s, msg).value.1 in k.open * k.present
      then [(Routed(s, msg).value.1, Routed(s, msg).value.0)] else []
    case SendReady(eid) => if s.state.SendOnHold? && s.state.eid == eid && eid in k.present then [(eid, s.state.msg)] else []
    case _ => []
  }

  /** What the user is due: a refusal, an acknowledgment or a request. A device drops a reply that nobody is ready for. */
  function Due(s: Socket, k: Known, ev: Event): (r: seq<Reply>) {
    match ev
    case Send(msg, _) =>
      if Routed(s, msg).None? then [Failed(Malformed)]
      else if s.device then (if Routed(s, msg).value.1 in k.open then [] else [SendDone])
      else if k.serving then [] else [Failed(Inactive)]
    case SendAck(eid) => if s.state.Sending? && s.state.eid == eid then [SendDone] else []
    case SendTimeout(_) => [Failed(TimedOut)]
    case RecvTimeout(_) => [Failed(TimedOut)]
    case RecvAck(eid, raw) =>
      if RawToMsg(raw, eid).None? then [Failed(Malformed)]
      else if At(s) != Some(eid) then []
      else [RecvDone(if s.device then RawToMsg(raw, eid).value else Payload(eid, raw))]
    case _ => []
  }

  /** How a step changes what is known of sending, and what it puts out. */
  ghost predicate Replies(s: Socket, ev: Event, r: Socket) {
    var k := Stored(s);
    && r.ctx.sent == s.ctx.sent + Wire(s, k, ev) && r.ctx.replies == s.ctx.replies + Due(s, k, ev)
    && r.sd == OpenAfter(s.sd, SendReportOf(ev)) - (set e | e in Receivers(Wire(s, k, ev))) - (if r.state.SendOnHold? then {r.state.eid} else {})
    && (r.state.Active? <==> ServingAfter(s, ev, s.state.Active?))
    && (r.state.Active? ==> !r.device)
  }

  lemma SubmissionReplies(s: Socket, msg: Message, timeout: Timeout)
    requires Asking(s)
    ensures Replies(s, Send(msg, timeout), Submitted(s, msg, timeout))
  {
    if Routed(s, msg).Some? {
      OneReceiver(Routed(s, msg).value.1, Routed(s, msg).value.0);
    }
  }

  lemma SendReadyReplies(s: Socket, eid: EndpointId)
    requires Asking(s)
    ensures Replies(s, SendReady(eid), OnSendReady(s, eid))
  {
    if s.state.SendOnHold? {
      OneReceiver(eid, s.state.msg);
    }
  }

  lemma ReceiptReplies(s: Socket, eid: EndpointId, raw: Message)
    requires Asking(s)
    ensures Replies(s, RecvAck(eid, raw), Received(s, eid, raw))
  {
  }

  lemma SendAckReplies(s: Socket, eid: EndpointId)
    requires Asking(s)
    ensures Replies(s, SendAck(eid), OnSendAck(s.(backtrace := []), eid))
  {
  }

  lemma RepliesFrame(s: Socket, ev: Event, t: Socket, r: Socket)
    requires Replies(s, ev, t) && r == t.(ctx := t.ctx.(raised := r.ctx.raised))
    ensures Replies(s, ev, r)
  {
  }

  lemma TransitionReplies(s: Socket, ev: Event)
    requires Asking(s) && !ev.AddPipe? && !ev.RemovePipe?
    ensures Replies(s, ev, Transition(s, ev))
  {
    if ev.Send? {
      SubmissionReplies(s, ev.msg, ev.timeout);
    } else if ev.SendReady? {
      SendReadyReplies(s, ev.eid);
    } else if ev.RecvAck? {
      ReceiptReplies(s, ev.eid, ev.raw);
    } else if ev.SendAck? {
      SendAckReplies(s, ev.eid);
    }
  }

  lemma RemovalReplies(s: Socket, eid: EndpointId)
    requires Asking(s)
    ensures Replies(s, RemovePipe(eid), Removed(s, eid))
  {
    var s1 := Forget(s, eid);
    RepliesFrame(s, RemovePipe(eid), if eid in s.pipes then OnPipeRemoved(s1, eid) else s1, Removed(s, eid));
  }

  lemma StepReplies(s: Socket, ev: Event)
    requires Asking(s)
    ensures Replies(s, ev, Step(s, ev))
  {
    if ev.AddPipe? {
    } else if ev.RemovePipe? {
      RemovalReplies(s, ev.eid);
    } else {
      TransitionReplies(s, ev);
      RepliesFrame(s, ev, Transition(s, ev), Step(s, ev));
    }
  }

  // ---------------------------------------------------------------- runs

  lemma StepIsKnown(s: Socket, ev: Event)
    requires Asking(s) && Enabled(s, ev)
    ensures Asking(Step(s, ev)) && KnownNow(s, ev, Stored(s)) == Stored(Step(s, ev))
  {
    StepConserves(s, ev);
    StepAsks(s, ev);
    StepReplies(s, ev);
    GrownBy(s.ctx.sent, Wire(s, Stored(s), ev));
  }

  lemma {:induction false} RunIsKnown(s: Socket, evs: seq<Event>)
    requires Asking(s) && EnabledRun(s, evs)
    ensures KnownOver(s, evs, Stored(s)) == Stored(Run(s, evs)) && Asking(Run(s, evs))
    decreases |evs|
  {
    if evs != [] {
      StepIsKnown(s, evs[0]);
      RunIsKnown(Step(s, evs[0]), evs[1..]);
    }
  }

  lemma NothingStored(device: bool)
    ensures Stored(New(device)) == UNKNOWN && Asking(New(device))
  {
    assert ActiveIds(New(device).fq) == {};
  }

  /**
   After every run, of a regular socket or of a device's: the pipes known are those that joined and have not left; those
   that count as having a request are those that reported one and were not asked since; those that count as ready for a
   reply are those that said so and were not used for one since; a request is served from its delivery to its reply; and
   who is waited for is there and was asked last.
   */
  lemma ReadyIsWhatWasReported(device: bool, evs: seq<Event>)
    requires EnabledRun(New(device), evs)
    ensures KnownOver(New(device), evs, UNKNOWN) == Stored(Run(New(device), evs)) && Asking(Run(New(device), evs))
  {
    NothingStored(device);
    RunIsKnown(New(device), evs);
  }

  /**
   After any run, exactly one pipe is asked, of those that have a request, exactly if a receive starts, a pipe reports one
   while a receive waits for nobody, or the pipe waited for leaves, and somebody has one; it is then waited for.
   */
  lemma AsksExactlyIf(device: bool, evs: seq<Event>, ev: Event)
    requires EnabledRun(New(device), evs) && Enabled(Run(New(device), evs), ev)
    ensures var s, r := Run(New(device), evs), Step(Run(New(device), evs), ev);
            var k := KnownOver(New(device), evs, UNKNOWN);
            var ready := ReadyAfter(k.ready, k.present, RecvReportOf(ev));
            if CallsForAsk(s, ev) && ready != {} then AsksOne(s.ctx, r.ctx, ready) && At(r) == Some(r.ctx.asked[|s.ctx.asked|])
            else r.ctx.asked == s.ctx.asked && (CallsForAsk(s, ev) ==> r.state.RecvOnHold?)
  {
    ReadyIsWhatWasReported(device, evs);
    StepAsks(Run(New(device), evs), ev);
  }

  /** After any run, what goes on the wire and what the user is told is exactly what the event is due by what is known. */
  lemma RepliesExactly(device: bool, evs: seq<Event>, ev: Event)
    requires EnabledRun(New(device), evs)
    ensures var s, r := Run(New(device), evs), Step(Run(New(device), evs), ev);
            var k := KnownOver(New(device), evs, UNKNOWN);
            r.ctx.sent == s.ctx.sent + Wire(s, k, ev) && r.ctx.replies == s.ctx.replies + Due(s, k, ev)
  {
    ReadyIsWhatWasReported(device, evs);
    StepReplies(Run(New(device), evs), ev);
  }

  /** After any run, a request is handed to the user only from the pipe asked last, which is still there. */
  lemma OnlyTheAskedPipeDelivers(device: bool, evs: seq<Event>, ev: Event, msg: Message)
    requires EnabledRun(New(device), evs)
    requires Step(Run(New(device), evs), ev).ctx.replies == Run(New(device), evs).ctx.replies + [RecvDone(msg)]
    ensures ev.RecvAck? && ev.eid in Run(New(device), evs).pipes && Latest(Run(New(device), evs).ctx.asked, ev.eid)
  {
    var s := Run(New(device), evs);
    ReadyIsWhatWasReported(device, evs);
    StepReplies(s, ev);
    assert Step(s, ev).ctx.replies[|s.ctx.replies|] == RecvDone(msg);
    assert Due(s, Stored(s), ev)[0] == RecvDone(msg);
  }

  /** After every run the last notices are what is known. */
  lemma ToldWhatWasReported(device: bool, evs: seq<Event>)
    requires EnabledRun(New(device), evs)
    ensures var s, k := Run(New(device), evs), KnownOver(New(device), evs, UNKNOWN);
            Told(s.ctx, if device then k.open != {} else k.serving && s.state.Active? && s.state.eid in k.open, k.ready != {})
  {
    ReadyIsWhatWasReported(device, evs);
    ReadinessIsTold(device, evs);
    RunKeepsMode(New(device), evs);
    ActiveMeansPeek(Run(New(device), evs).fq);
  }

  // ---------------------------------------------------------------- priorities

  /** The priorities, from the events alone. */
  function Ranked(evs: seq<Event>, ranks: map<EndpointId, Priority>): (r: map<EndpointId, Priority>) {
    if evs == [] then ranks else Ranked(evs[1..], RanksAfter(ranks, RecvReportOf(evs[0])))
  }

  /** The scheduler `h` was popped, or not, on the way to `r`, and what was asked is exactly what was popped. */
  ghost predicate Pops(h: Sched, s: Socket, r: Socket) {
    && (r.fq == h || r.fq == Pop(h).1)
    && (r.ctx.asked != s.ctx.asked ==> Pop(h).0.Some? && r.ctx.asked == s.ctx.asked + [Pop(h).0.value])
  }

  lemma TransitionPops(s: Socket, ev: Event)
    requires !ev.AddPipe? && !ev.RemovePipe?
    ensures Pops(Heard(s.fq, RecvReportOf(ev)), s, Transition(s, ev))
  {
    if !ev.Recv? && !ev.RecvReady? && !ev.RecvNotReady? {
      assert Transition(s, ev).fq == s.fq && Transition(s, ev).ctx.asked == s.ctx.asked;
    }
  }

  lemma RemovalPops(s: Socket, eid: EndpointId)
    ensures Pops(RemoveFollowing(s.fq, eid), s, Removed(s, eid))
  {
    var s1 := Forget(s, eid);
    assert Pops(s1.fq, s, OnPipeRemoved(s1, eid));
  }

  /** A step pops what the scheduler becomes by the report, or nothing. */
  lemma StepPops(s: Socket, ev: Event)
    ensures Pops(Heard(s.fq, RecvReportOf(ev)), s, Step(s, ev))
  {
    if ev.RemovePipe? {
      RemovalPops(s, ev.eid);
    } else if !ev.AddPipe? {
      TransitionPops(s, ev);
    }
  }

  lemma {:induction false} RankedRun(s: Socket, evs: seq<Event>)
    requires Asking(s) && EnabledRun(s, evs)
    ensures RanksOf(Run(s, evs).fq) == Ranked(evs, RanksOf(s.fq))
    decreases |evs|
  {
    if evs != [] {
      StepPops(s, evs[0]);
      HeardPicksBest(s.fq, RecvReportOf(evs[0]));
      StepIsKnown(s, evs[0]);
      RankedRun(Step(s, evs[0]), evs[1..]);
    }
  }

  /** After any run, who is asked has the best priority among those that are ready. */
  lemma BestIsAsked(device: bool, evs: seq<Event>, ev: Event)
    requires EnabledRun(New(device), evs) && Enabled(Run(New(device), evs), ev)
    requires Step(Run(New(device), evs), ev).ctx.asked != Run(New(device), evs).ctx.asked
    ensures var c, c' := Run(New(device), evs).ctx, Step(Run(New(device), evs), ev).ctx;
            var k := KnownOver(New(device), evs, UNKNOWN);
            var ready := ReadyAfter(k.ready, k.present, RecvReportOf(ev));
            |c'.asked| == |c.asked| + 1 && c'.asked[|c.asked|] in BestOf(RanksAfter(Ranked(evs, map[]), RecvReportOf(ev)), ready)
  {
    var s := Run(New(device), evs);
    assert RanksOf(EMPTY) == map[];
    ReadyIsWhatWasReported(device, evs);
    NothingStored(device);
    RankedRun(New(device), evs);
    StepPops(s, ev);
    HeardPicksBest(s.fq, RecvReportOf(ev));
  }

  // ---------------------------------------------------------------- asks and requests

  function FromOf(ev: Event): (r: Option<EndpointId>) {
    if ev.RecvAck? then Some(ev.eid) else None
  }

  /** How many messages came from whom. */
  function CameIn(evs: seq<Event>, came: multiset<EndpointId>): (r: multiset<EndpointId>) {
    if evs == [] then came else CameIn(evs[1..], CameFrom(came, FromOf(evs[0])))
  }

  /** No pipe delivers more than it was asked for. */
  predicate NoMoreThanAsked(s: Socket, evs: seq<Event>, came: multiset<EndpointId>)
    decreases |evs|
  {
    evs == [] || (CameFrom(came, FromOf(evs[0])) <= multiset(s.ctx.asked)
                  && NoMoreThanAsked(Step(s, evs[0]), evs[1..], CameFrom(came, FromOf(evs[0]))))
  }

  predicate AlwaysOutstanding(s: Socket, evs: seq<Event>, came: multiset<EndpointId>)
    decreases |evs|
  {
    && Outstanding(At(s), s.ctx.asked, came)
    && (evs == [] || AlwaysOutstanding(Step(s, evs[0]), evs[1..], CameFrom(came, FromOf(evs[0]))))
  }

  /** No malformed request is all that was outstanding of the pipe waited for. */
  predicate NeverRefusesLast(s: Socket, evs: seq<Event>, came: multiset<EndpointId>)
    decreases |evs|
  {
    evs == [] || (!RefusesLast(At(s), s.ctx.asked, came, FromOf(evs[0]), IsMalformed(evs[0]))
                  && NeverRefusesLast(Step(s, evs[0]), evs[1..], CameFrom(came, FromOf(evs[0]))))
  }

  lemma ReceiptKeepsAsking(s: Socket, eid: EndpointId, raw: Message)
    ensures var r := Step(s, RecvAck(eid, raw));
            && r.ctx.asked == s.ctx.asked
            && (r.state.Receiving? ==> At(r) == At(s) && (At(s) == Some(eid) ==> RawToMsg(raw, eid).None?))
            && (RawToMsg(raw, eid).None? ==> r.state == s.state)
  {
  }

  lemma StepKeepsAsking(s: Socket, ev: Event)
    requires Asking(s) && Enabled(s, ev)
    ensures var r := Step(s, ev);
            && KeepsAsking(At(s), s.ctx.asked, FromOf(ev), IsMalformed(ev), At(r), r.ctx.asked)
            && (IsMalformed(ev) ==> At(r) == At(s) && r.ctx.asked == s.ctx.asked)
  {
    if ev.RecvAck? {
      ReceiptKeepsAsking(s, ev.eid, ev.raw);
    } else if ev.Recv? || ev.RecvReady? || ev.RemovePipe? {
      StepAsks(s, ev);
    } else if !ev.AddPipe? && !ev.RecvNotReady? {
      OthersAskNobody(s, ev);
    }
  }

  lemma {:induction false} RunIsOutstandingIff(s: Socket, evs: seq<Event>, came: multiset<EndpointId>)
    requires Asking(s) && EnabledRun(s, evs) && NoMoreThanAsked(s, evs, came) && Outstanding(At(s), s.ctx.asked, came)
    ensures AlwaysOutstanding(s, evs, came) <==> NeverRefusesLast(s, evs, came)
    ensures NeverRefusesLast(s, evs, came) ==> Outstanding(At(Run(s, evs)), Run(s, evs).ctx.asked, CameIn(evs, came))
    decreases |evs|
  {
    if evs != [] {
      var ev, r := evs[0], Step(s, evs[0]);
      StepKeepsAsking(s, ev);
      StepIsKnown(s, ev);
      OutstandingIff(At(s), s.ctx.asked, FromOf(ev), IsMalformed(ev), At(r), r.ctx.asked, came);
      if Outstanding(At(r), r.ctx.asked, CameFrom(came, FromOf(ev))) {
        RunIsOutstandingIff(r, evs[1..], CameFrom(came, FromOf(ev)));
      }
    }
  }

  /**
   In a run in which no pipe delivers more than it was asked for, more is asked of the pipe waited for than came from it,
   at every point, exactly if no malformed request is all that was outstanding: then a receive never waits in vain.
   */
  lemma EveryRunIsOutstandingIff(device: bool, evs: seq<Event>)
    requires EnabledRun(New(device), evs) && NoMoreThanAsked(New(device), evs, multiset{})
    ensures AlwaysOutstanding(New(device), evs, multiset{}) <==> NeverRefusesLast(New(device), evs, multiset{})
    ensures NeverRefusesLast(New(device), evs, multiset{}) ==>
              var s := Run(New(device), evs);
              Outstanding(At(s), s.ctx.asked, CameIn(evs, multiset{}))
  {
    NothingStored(device);
    RunIsOutstandingIff(New(device), evs, multiset{});
  }

  lemma {:induction false} CameSnoc(s: Socket, evs: seq<Event>, ev: Event, came: multiset<EndpointId>)
    ensures CameIn(evs + [ev], came) == CameFrom(CameIn(evs, came), FromOf(ev))
    ensures NoMoreThanAsked(s, evs + [ev], came)
            <==> NoMoreThanAsked(s, evs, came) && CameFrom(CameIn(evs, came), FromOf(ev)) <= multiset(Run(s, evs).ctx.asked)
    decreases |evs|
  {
    if evs == [] {
      assert (evs + [ev])[1..] == [];
    } else {
      assert (evs + [ev])[1..] == evs[1..] + [ev];
      CameSnoc(Step(s, evs[0]), evs[1..], ev, CameFrom(came, FromOf(evs[0])));
    }
  }

  lemma {:induction false} NoneCame(s: Socket, evs: seq<Event>)
    requires forall i :: 0 <= i < |evs| ==> !evs[i].RecvAck?
    ensures CameIn(evs, multiset{}) == multiset{} && NoMoreThanAsked(s, evs, multiset{})
    decreases |evs|
  {
    if evs != [] {
      NoneCame(Step(s, evs[0]), evs[1..]);
    }
  }

  const WAITING: seq<Event> := ADDED + [RecvReady(1)] + [Recv(None)]

  lemma WaitingRun() returns (s: Socket)
    ensures Run(New(false), WAITING) == s && OrderlyRun(New(false), WAITING)
    ensures s.state == Receiving(1, None) && s.ctx.asked == [1]
  {
    OneItem(1, 8);
    RunExtends(New(false), [], AddPipe(1, 8));
    assert [] + [AddPipe(1, 8)] == ADDED;
    s := AskNext(ADDED, Step(New(false), AddPipe(1, 8)));
  }

  /** A malformed request to the only ask: the receive goes on waiting for that pipe, of which nothing is outstanding. */
  lemma MalformedLeavesNothingAsked()
    ensures var evs := WAITING + [RecvAck(1, Message([], []))];
            var s := Run(New(false), evs);
            && OrderlyRun(New(false), evs) && NoMoreThanAsked(New(false), evs, multiset{})
            && At(s) == Some(1) && !Outstanding(At(s), s.ctx.asked, CameIn(evs, multiset{}))
  {
    var s := WaitingRun();
    var bad := RecvAck(1, Message([], []));
    assert RawToMsg(Message([], []), 1).None?;
    NoneCame(New(false), WAITING);
    CameSnoc(New(false), WAITING, bad, multiset{});
    RunExtends(New(false), WAITING, bad);
    assert Step(s, bad).state == s.state && Step(s, bad).ctx.asked == s.ctx.asked;
  }
}

/** The surveyor over what it was told: who is ready, whom a survey reaches, who is asked, and what the user gets. */
module SurveyorReports {
  import opened Core
  import opened Scheduling
  import opened SchedulingLaws
  import opened Contexts
  import opened Backtrace
  import opened RequestIds
  import opened Broadcast
  import opened Reports
  import opened SurveyorProtocol
  import opened SurveyorLaws

  function RecvReportOf(ev: Event): (r: Report) {
    match ev
    case AddPipe(eid, priority) => Joins(eid, priority)
    case RemovePipe(eid) => Leaves(eid)
    case RecvReady(eid) => Opens(eid)
    case RecvNotReady(eid) => Closes(eid)
    case _ => Nothing
  }

  function SendReportOf(ev: Event): (r: Report) {
    match ev
    case RemovePipe(eid) => Leaves(eid)
    case SendReady(eid) => Opens(eid)
    case SendNotReady(eid) => Closes(eid)
    case _ => Nothing
  }

  /** Who is there, who has a response, who is ready for a survey, and whether a survey is pending. */
  datatype Known = Known(present: set<EndpointId>, ready: set<EndpointId>, open: set<EndpointId>, pending: bool)

  const UNKNOWN: Known := Known({}, {}, {}, false)

  /**
   A survey is pending from its send on, until its deadline or a timeout finds no receive waiting, or the pipe that a
   receive waits for leaves, or a receive is called over one that waits; a device forgets it when it receives.
   */
  predicate PendingAfter(s: Socket, ev: Event, pending: bool) {
    || ev.Send?
    || (pending && !(ev.SurveyTimeout? && !Busy(s)) && !(ev.RecvTimeout? && !Busy(s))
        && !(ev.RemovePipe? && At(s) == Some(ev.eid)) && !(ev.Recv? && (s.device || Busy(s))))
  }

  /** A survey uses up everybody who is ready for one. */
  function KnownNow(s: Socket, ev: Event, k: Known): (r: Known) {
    var r := Step(s, ev);
    Known(PresentAfter(k.present, RecvReportOf(ev)),
          ReadyAfter(k.ready, k.present, RecvReportOf(ev)) - (set e | e in Grown(s.ctx.asked, r.ctx.asked)),
          if ev.Send? then {} else OpenAfter(k.open, SendReportOf(ev)),
          PendingAfter(s, ev, k.pending))
  }

  function KnownOver(s: Socket, evs: seq<Event>, k: Known): (r: Known)
    decreases |evs|
  {
    if evs == [] then k else KnownOver(Step(s, evs[0]), evs[1..], KnownNow(s, evs[0], k))
  }

  predicate HasSurvey(s: Socket) {
    s.state.Active? || (Busy(s) && s.state.survey.Some?)
  }

  ghost function Stored(s: Socket): (r: Known) {
    Known(s.pipes, ActiveIds(s.fq), s.bc, HasSurvey(s))
  }

  /** The pipe that a receive waits for. */
  function At(s: Socket): (r: Option<EndpointId>) {
    if s.state.Receiving? then Some(s.state.eid) else None
  }

  /** Besides what is conserved: who is waited for is there and was asked last; a receive waits for a survey but in a device. */
  ghost predicate Asking(s: Socket) {
    && Conserving(s)
    && (s.state.Receiving? ==> s.state.eid in s.pipes && Latest(s.ctx.asked, s.state.eid))
    && (Busy(s) ==> (s.state.survey.Some? <==> !s.device))
  }

  // ---------------------------------------------------------------- asking

  ghost predicate Requested(s: Socket, survey: Option<Pending>, r: Socket) {
    && r.pipes == s.pipes && r.bc == s.bc && r.device == s.device && r.ctx.sent == s.ctx.sent && r.ctx.replies == s.ctx.replies
    && Busy(r) && r.state.survey == survey
    && if ActiveIds(s.fq) == {} then r.state.RecvOnHold? && r.ctx.asked == s.ctx.asked && ActiveIds(r.fq) == {}
       else
         && r.state.Receiving? && r.state.eid in ActiveIds(s.fq) && r.state.eid in s.pipes
         && r.ctx.asked == s.ctx.asked + [r.state.eid] && ActiveIds(r.fq) == ActiveIds(s.fq) - {r.state.eid}
  }

  lemma AskRequests(s: Socket, survey: Option<Pending>, timeout: Timeout)
    requires InStep(s)
    ensures Requested(s, survey, Ask(s, survey, timeout))
  {
    PopKeeps(s.fq);
    assert ActiveIds(s.fq) <= Ids(s.fq);
  }

  /** What a message that comes from a pipe bears, if it is long enough. */
  predicate IsForAnother(s: Socket, raw: Message) {
    Busy(s) && s.state.survey.Some? && Unpacked(s, raw).Some? && Unpacked(s, raw).value.1 != s.state.survey.value.id
  }

  /**
   A receive starts while a survey is pending, a pipe reports a response while one waits, or the pipe waited for answers
   another survey. A device needs no survey, and goes on when the pipe waited for leaves.
   */
  predicate CallsForAsk(s: Socket, ev: Event) {
    || (ev.Recv? && (s.device || s.state.Active?))
    || (ev.RecvReady? && s.state.RecvOnHold?)
    || (ev.RecvAck? && At(s) == Some(ev.eid) && IsForAnother(s, ev.raw))
    || (ev.RemovePipe? && s.device && At(s) == Some(ev.eid))
  }

  /** How a step changes what is known of receiving, and whom it asks. */
  ghost predicate Asks(s: Socket, ev: Event, r: Socket) {
    var ready := ReadyAfter(ActiveIds(s.fq), s.pipes, RecvReportOf(ev));
    && r.pipes == PresentAfter(s.pipes, RecvReportOf(ev))
    && ActiveIds(r.fq) == ready - (set e | e in Grown(s.ctx.asked, r.ctx.asked))
    && (if CallsForAsk(s, ev) && ready != {} then AsksOne(s.ctx, r.ctx, ready) && At(r) == Some(r.ctx.asked[|s.ctx.asked|])
        else r.ctx.asked == s.ctx.asked && (CallsForAsk(s, ev) ==> r.state.RecvOnHold?))
    && (r.state.Receiving? ==> r.state.eid in r.pipes && Latest(r.ctx.asked, r.state.eid))
    && (Busy(r) ==> (r.state.survey.Some? <==> !r.device))
  }

  lemma AsksFrame(s: Socket, ev: Event, t: Socket, r: Socket)
    requires Asks(s, ev, t) && r == t.(ctx := t.ctx.(raised := r.ctx.raised))
    ensures Asks(s, ev, r)
  {
  }

  lemma RequestedAsks(s: Socket, ev: Event, s1: Socket, survey: Option<Pending>, r: Socket)
    requires CallsForAsk(s, ev) && s1.ctx.asked == s.ctx.asked && Requested(s1, survey, r)
    requires survey.Some? <==> !s1.device
    requires s1.pipes == PresentAfter(s.pipes, RecvReportOf(ev))
    requires ActiveIds(s1.fq) == ReadyAfter(ActiveIds(s.fq), s.pipes, RecvReportOf(ev))
    ensures Asks(s, ev, r)
  {
    if r.state.Receiving? {
      GrownBy(s.ctx.asked, [r.state.eid]);
    }
  }

  lemma RecvAsks(s: Socket, timeout: Timeout)
    requires Asking(s)
    ensures Asks(s, Recv(timeout), Transition(s, Recv(timeout)))
  {
    var s1 := s.(ctx := Call(s.ctx, timeout));
    if CallsForAsk(s, Recv(timeout)) {
      var survey := if s.device then None else Some(s.state.pending);
      AskRequests(s1, survey, timeout);
      RequestedAsks(s, Recv(timeout), s1, survey, Ask(s1, survey, timeout));
    }
  }

  lemma RecvReadyAsks(s: Socket, eid: EndpointId)
    requires Asking(s)
    ensures Asks(s, RecvReady(eid), OnRecvReady(s, eid))
  {
    var s1 := s.(fq := Activate(s.fq, eid));
    ActivateKeeps(s.fq, eid);
    if s.state.RecvOnHold? {
      var survey := s.state.survey;
      var s2 := s1.(state := if survey.None? then Idle else Active(survey.value));
      AskRequests(s2, survey, s.state.timeout);
      RequestedAsks(s, RecvReady(eid), s2, survey, Ask(s2, survey, s.state.timeout));
    }
  }

  lemma ReceiptAsks(s: Socket, eid: EndpointId, raw: Message)
    requires Asking(s)
    ensures Asks(s, RecvAck(eid, raw), Received(s, eid, raw))
  {
    if CallsForAsk(s, RecvAck(eid, raw)) {
      AskRequests(s, s.state.survey, s.state.timeout);
      RequestedAsks(s, RecvAck(eid, raw), s, s.state.survey, Ask(s, s.state.survey, s.state.timeout));
    }
  }

  lemma RemovalAsks(s: Socket, eid: EndpointId)
    requires Asking(s)
    ensures Asks(s, RemovePipe(eid), Removed(s, eid))
  {
    var ev, s1 := RemovePipe(eid), Forget(s, eid);
    RemoveFollowingKeeps(s.fq, eid);
    if CallsForAsk(s, ev) {
      var s2 := s1.(state := Idle);
      AskRequests(s2, None, s.state.timeout);
      RequestedAsks(s, ev, s2, None, Ask(s2, None, s.state.timeout));
      AsksFrame(s, ev, Ask(s2, None, s.state.timeout), Removed(s, eid));
    } else {
      AsksFrame(s, ev, if eid in s.pipes then OnPipeRemoved(s1, eid) else s1, Removed(s, eid));
    }
  }

  /** An event that is not about receiving leaves all this alone. */
  lemma OthersAskNobody(s: Socket, ev: Event)
    requires Asking(s) && !ev.AddPipe? && !ev.RemovePipe? && !ev.Recv? && !ev.RecvAck? && !ev.RecvReady? && !ev.RecvNotReady?
    ensures var r := Transition(s, ev);
            r.pipes == s.pipes && r.fq == s.fq && r.ctx.asked == s.ctx.asked && (Busy(r) ==> r.state == s.state)
  {
  }

  lemma TransitionAsks(s: Socket, ev: Event)
    requires Asking(s) && !ev.AddPipe? && !ev.RemovePipe?
    ensures Asks(s, ev, Transition(s, ev))
  {
    if ev.Recv? {
      RecvAsks(s, ev.timeout);
    } else if ev.RecvReady? {
      RecvReadyAsks(s, ev.eid);
    } else if ev.RecvAck? {
      ReceiptAsks(s, ev.eid, ev.raw);
    } else if ev.RecvNotReady? {
      DeactivateKeeps(s.fq, ev.eid);
    } else {
      OthersAskNobody(s, ev);
    }
  }

  lemma StepAsks(s: Socket, ev: Event)
    requires Asking(s) && Enabled(s, ev)
    ensures Asks(s, ev, Step(s, ev))
  {
    if ev.AddPipe? {
      InsertKeeps(s.fq, ev.eid, ev.priority);
    } else if ev.RemovePipe? {
      RemovalAsks(s, ev.eid);
    } else {
      TransitionAsks(s, ev);
      AsksFrame(s, ev, Transition(s, ev), Step(s, ev));
    }
  }

  // ---------------------------------------------------------------- answers and the survey

  /** What the user is due: a failure, an acknowledgment at once, or a response to the survey pending. */
  function Due(s: Socket, ev: Event): (r: seq<Reply>) {
    match ev
    case Send(_, _, _, _) => [SendDone]
    case Recv(_) => if s.device || s.state.Active? then [] else [Failed(Inactive)]
    case RecvAck(eid, raw) =>
      if |raw.body| < 4 then [Failed(Malformed)]
      else if At(s) != Some(eid) || IsForAnother(s, raw) then []
      else if s.device then [RecvDone(Decode(raw).value.0)] else [RecvDone(Message([], raw.body[4..]))]
    case RecvTimeout(_) => [Failed(TimedOut)]
    case RemovePipe(eid) => if At(s) == Some(eid) && !s.device then [Failed(Inactive)] else []
    case _ => []
  }

  /** How a step changes what is known of sending, and what the user is told. */
  ghost predicate Tells(s: Socket, ev: Event, r: Socket) {
    && r.ctx.replies == s.ctx.replies + Due(s, ev)
    && r.bc == (if ev.Send? then {} else OpenAfter(s.bc, SendReportOf(ev)))
    && (HasSurvey(r) <==> PendingAfter(s, ev, HasSurvey(s)))
    && (!ev.Send? ==> r.ctx.sent == s.ctx.sent)
  }

  lemma TellsFrame(s: Socket, ev: Event, t: Socket, r: Socket)
    requires Tells(s, ev, t) && r == t.(ctx := t.ctx.(raised := r.ctx.raised))
    ensures Tells(s, ev, r)
  {
  }

  lemma ReceiptTells(s: Socket, eid: EndpointId, raw: Message)
    requires Asking(s)
    ensures Tells(s, RecvAck(eid, raw), Received(s, eid, raw))
  {
  }

  lemma RecvTells(s: Socket, timeout: Timeout)
    requires Asking(s)
    ensures Tells(s, Recv(timeout), Transition(s, Recv(timeout)))
  {
  }

  lemma RecvReadyTells(s: Socket, eid: EndpointId)
    requires Asking(s)
    ensures Tells(s, RecvReady(eid), OnRecvReady(s, eid))
  {
  }

  lemma OthersTell(s: Socket, ev: Event)
    requires Asking(s) && !ev.AddPipe? && !ev.RemovePipe? && !ev.Recv? && !ev.RecvAck? && !ev.RecvReady?
    ensures Tells(s, ev, Transition(s, ev))
  {
  }

  lemma RemovalTells(s: Socket, eid: EndpointId)
    requires Asking(s)
    ensures Tells(s, RemovePipe(eid), Removed(s, eid))
  {
    var s1 := Forget(s, eid);
    TellsFrame(s, RemovePipe(eid), if eid in s.pipes then OnPipeRemoved(s1, eid) else s1, Removed(s, eid));
  }

  lemma StepTells(s: Socket, ev: Event)
    requires Asking(s)
    ensures Tells(s, ev, Step(s, ev))
  {
    if ev.AddPipe? {
    } else if ev.RemovePipe? {
      RemovalTells(s, ev.eid);
    } else {
      if ev.Recv? {
        RecvTells(s, ev.timeout);
      } else if ev.RecvAck? {
        ReceiptTells(s, ev.eid, ev.raw);
      } else if ev.RecvReady? {
        RecvReadyTells(s, ev.eid);
      } else {
        OthersTell(s, ev);
      }
      TellsFrame(s, ev, Transition(s, ev), Step(s, ev));
    }
  }

  // ---------------------------------------------------------------- runs

  lemma StepIsKnown(s: Socket, ev: Event)
    requires Asking(s) && Enabled(s, ev)
    ensures Asking(Step(s, ev)) && KnownNow(s, ev, Stored(s)) == Stored(Step(s, ev))
  {
    StepConserves(s, ev);
    StepAsks(s, ev);
    StepTells(s, ev);
  }

  lemma {:induction false} RunIsKnown(s: Socket, evs: seq<Event>)
    requires Asking(s) && EnabledRun(s, evs)
    ensures KnownOver(s, evs, Stored(s)) == Stored(Run(s, evs)) && Asking(Run(s, evs))
    decreases |evs|
  {
    if evs != [] {
      StepIsKnown(s, evs[0]);
      RunIsKnown(Step(s, evs[0]), evs[1..]);
    }
  }

  lemma NothingStored(seed: nat, device: bool)
    ensures Stored(New(seed, device)) == UNKNOWN && Asking(New(seed, device))
  {
    assert ActiveIds(New(seed, device).fq) == {};
  }

  /**
   After every run, of a regular socket or of a device's: the pipes known are those that joined and have not left; those
   that count as having a response are those that reported one and were not asked since; those that count as ready for a
   survey are those that said so with no survey sent since; a survey is pending from its send to its end; and who is
   waited for is there and was asked last.
   */
  lemma ReadyIsWhatWasReported(seed: nat, device: bool, evs: seq<Event>)
    requires EnabledRun(New(seed, device), evs)
    ensures KnownOver(New(seed, device), evs, UNKNOWN) == Stored(Run(New(seed, device), evs)) && Asking(Run(New(seed, device), evs))
  {
    NothingStored(seed, device);
    RunIsKnown(New(seed, device), evs);
  }

  /**
   After any run, exactly one pipe is asked, of those that have a response, exactly if a receive starts with a survey
   pending, a pipe reports a response while one waits for nobody, or the pipe waited for answers another survey (in a device,
   leaves), and somebody has one; it is then waited for.
   */
  lemma AsksExactlyIf(seed: nat, device: bool, evs: seq<Event>, ev: Event)
    requires EnabledRun(New(seed, device), evs) && Enabled(Run(New(seed, device), evs), ev)
    ensures var s, r := Run(New(seed, device), evs), Step(Run(New(seed, device), evs), ev);
            var k := KnownOver(New(seed, device), evs, UNKNOWN);
            var ready := ReadyAfter(k.ready, k.present, RecvReportOf(ev));
            if CallsForAsk(s, ev) && ready != {} then AsksOne(s.ctx, r.ctx, ready) && At(r) == Some(r.ctx.asked[|s.ctx.asked|])
            else r.ctx.asked == s.ctx.asked && (CallsForAsk(s, ev) ==> r.state.RecvOnHold?)
  {
    ReadyIsWhatWasReported(seed, device, evs);
    StepAsks(Run(New(seed, device), evs), ev);
  }

  /** After any run, what the user is told is exactly what the event is due. */
  lemma AnswersExactly(seed: nat, device: bool, evs: seq<Event>, ev: Event)
    requires EnabledRun(New(seed, device), evs)
    ensures var s := Run(New(seed, device), evs);
            Step(s, ev).ctx.replies == s.ctx.replies + Due(s, ev)
  {
    ReadyIsWhatWasReported(seed, device, evs);
    StepTells(Run(New(seed, device), evs), ev);
  }

  /** The message that goes out for a send, after `n` before it: as it is from a device, else under the id of its number. */
  function Outgoing(seed: nat, device: bool, n: nat, msg: Message): (r: Message) {
    if device then msg else Encode(msg, IdOf(SeqAfter(seed, n + 1)))
  }

  lemma NextIdIsUsed(s: Socket, seed: nat, msg: Message, timeout: Timeout, order: seq<EndpointId>, deadline: Timeout)
    requires !s.device && s.seqNo == SeqAfter(seed, |s.ctx.submitted|)
    ensures Step(s, Send(msg, timeout, order, deadline)).seqNo == SeqAfter(seed, |s.ctx.submitted| + 1)
  {
    NextSeq(seed, |s.ctx.submitted|);
  }

  lemma SurveySends(s: Socket, seed: nat, msg: Message, timeout: Timeout, order: seq<EndpointId>, deadline: Timeout)
    requires !s.device && s.seqNo == SeqAfter(seed, |s.ctx.submitted|) && IsDrain(order, s.bc)
    ensures var r := Step(s, Send(msg, timeout, order, deadline));
            var n := |s.ctx.submitted|;
            && multiset(r.ctx.sent) == multiset(s.ctx.sent) + Once(s.bc * s.pipes, Outgoing(seed, false, n, msg))
            && r.state == Active(Pending(IdOf(SeqAfter(seed, n + 1)), deadline))
  {
    NextIdIsUsed(s, seed, msg, timeout, order, deadline);
    SurveyReachesEachOnce(s, msg, timeout, order, deadline);
  }

  lemma DeviceSends(s: Socket, seed: nat, msg: Message, timeout: Timeout, order: seq<EndpointId>, deadline: Timeout)
    requires s.device && IsDrain(order, s.bc)
    ensures var r := Step(s, Send(msg, timeout, order, deadline));
            && multiset(r.ctx.sent) == multiset(s.ctx.sent) + Once(s.bc * s.pipes, msg)
            && r.state.Active? && r.state.pending.deadline == deadline
  {
    PublicationReachesEachOnce(s.(ctx := Submit(s.ctx, msg, timeout)), msg, timeout, order, deadline);
  }

  /**
   After any run, a survey reaches exactly the pipes that are there and said they are ready for one since the last, each
   once, from a regular socket under the id of its number, which is then the one pending; nothing else is ever sent.
   */
  lemma SendsExactly(seed: nat, device: bool, evs: seq<Event>, ev: Event)
    requires EnabledRun(New(seed, device), evs)
    requires ev.Send? ==> IsDrain(ev.order, KnownOver(New(seed, device), evs, UNKNOWN).open)
    ensures var s, r := Run(New(seed, device), evs), Step(Run(New(seed, device), evs), ev);
            var k, n := KnownOver(New(seed, device), evs, UNKNOWN), |s.ctx.submitted|;
            if ev.Send? then
              && multiset(r.ctx.sent) == multiset(s.ctx.sent) + Once(k.open * k.present, Outgoing(seed, device, n, ev.msg))
              && r.state.Active? && r.state.pending.deadline == ev.deadline
              && (!device ==> r.state.pending.id == IdOf(SeqAfter(seed, n + 1)))
            else r.ctx.sent == s.ctx.sent
  {
    var s := Run(New(seed, device), evs);
    ReadyIsWhatWasReported(seed, device, evs);
    RunKeepsMode(New(seed, device), evs);
    if !ev.Send? {
      StepTells(s, ev);
    } else if device {
      DeviceSends(s, seed, ev.msg, ev.timeout, ev.order, ev.deadline);
    } else {
      EveryRunMatches(seed, evs);
      SurveySends(s, seed, ev.msg, ev.timeout, ev.order, ev.deadline);
    }
  }

  /** After every run the last notices are what is known. */
  lemma ToldWhatWasReported(seed: nat, device: bool, evs: seq<Event>)
    requires EnabledRun(New(seed, device), evs)
    ensures var s, k := Run(New(seed, device), evs), KnownOver(New(seed, device), evs, UNKNOWN);
            Told(s.ctx, k.open != {}, (device || (k.pending && !Busy(s))) && k.ready != {})
  {
    ReadyIsWhatWasReported(seed, device, evs);
    ReadinessIsTold(seed, device, evs);
    RunKeepsMode(New(seed, device), evs);
    ActiveMeansPeek(Run(New(seed, device), evs).fq);
  }

  lemma {:induction false} RunKeepsMode(s: Socket, evs: seq<Event>)
    ensures Run(s, evs).device == s.device
    decreases |evs|
  {
    if evs != [] {
      RunKeepsMode(Step(s, evs[0]), evs[1..]);
    }
  }

  // ---------------------------------------------------------------- priorities

  /** The priorities, from the events alone. */
  function Ranked(evs: seq<Event>, ranks: map<EndpointId, Priority>): (r: map<EndpointId, Priority>) {
    if evs == [] then ranks else Ranked(evs[1..], RanksAfter(ranks, RecvReportOf(evs[0])))
  }

  /** The scheduler `h` was popped, or not, on the way to `r`, and what was asked is exactly what was popped. */
  ghost predicate Pops(h: Sched, s: Socket, r: Socket) {
    && (r.fq == h || r.fq == Pop(h).1)
    && (r.ctx.asked != s.ctx.asked ==> Pop(h).0.Some? && r.ctx.asked == s.ctx.asked + [Pop(h).0.value])
  }

  lemma ReceiptPops(s: Socket, eid: EndpointId, raw: Message)
    ensures Pops(s.fq, s, Received(s, eid, raw))
  {
  }

  lemma TransitionPops(s: Socket, ev: Event)
    requires !ev.AddPipe? && !ev.RemovePipe?
    ensures Pops(Heard(s.fq, RecvReportOf(ev)), s, Transition(s, ev))
  {
    if ev.RecvAck? {
      ReceiptPops(s, ev.eid, ev.raw);
    } else if !ev.Recv? && !ev.RecvReady? && !ev.RecvNotReady? {
      assert Transition(s, ev).fq == s.fq && Transition(s, ev).ctx.asked == s.ctx.asked;
    }
  }

  lemma RemovalPops(s: Socket, eid: EndpointId)
    ensures Pops(RemoveFollowing(s.fq, eid), s, Removed(s, eid))
  {
    var s1 := Forget(s, eid);
    assert Pops(s1.fq, s, OnPipeRemoved(s1, eid));
  }

  /** A step pops what the scheduler becomes by the report, or nothing. */
  lemma StepPops(s: Socket, ev: Event)
    ensures Pops(Heard(s.fq, RecvReportOf(ev)), s, Step(s, ev))
  {
    if ev.RemovePipe? {
      RemovalPops(s, ev.eid);
    } else if !ev.AddPipe? {
      TransitionPops(s, ev);
    }
  }

  lemma {:induction false} RankedRun(s: Socket, evs: seq<Event>)
    requires Asking(s) && EnabledRun(s, evs)
    ensures RanksOf(Run(s, evs).fq) == Ranked(evs, RanksOf(s.fq))
    decreases |evs|
  {
    if evs != [] {
      StepPops(s, evs[0]);
      HeardPicksBest(s.fq, RecvReportOf(evs[0]));
      StepIsKnown(s, evs[0]);
      RankedRun(Step(s, evs[0]), evs[1..]);
    }
  }

  /** After any run, who is asked has the best priority among those that are ready. */
  lemma BestIsAsked(seed: nat, device: bool, evs: seq<Event>, ev: Event)
    requires EnabledRun(New(seed, device), evs) && Enabled(Run(New(seed, device), evs), ev)
    requires Step(Run(New(seed, device), evs), ev).ctx.asked != Run(New(seed, device), evs).ctx.asked
    ensures var c, c' := Run(New(seed, device), evs).ctx, Step(Run(New(seed, device), evs), ev).ctx;
            var k := KnownOver(New(seed, device), evs, UNKNOWN);
            var ready := ReadyAfter(k.ready, k.present, RecvReportOf(ev));
            |c'.asked| == |c.asked| + 1 && c'.asked[|c.asked|] in BestOf(RanksAfter(Ranked(evs, map[]), RecvReportOf(ev)), ready)
  {
    var s := Run(New(seed, device), evs);
    assert RanksOf(EMPTY) == map[];
    ReadyIsWhatWasReported(seed, device, evs);
    NothingStored(seed, device);
    RankedRun(New(seed, device), evs);
    StepPops(s, ev);
    HeardPicksBest(s.fq, RecvReportOf(ev));
  }

  // ---------------------------------------------------------------- asks and responses

  function FromOf(ev: Event): (r: Option<EndpointId>) {
    if ev.RecvAck? then Some(ev.eid) else None
  }

  /** How many messages came from whom. */
  function CameIn(evs: seq<Event>, came: multiset<EndpointId>): (r: multiset<EndpointId>) {
    if evs == [] then came else CameIn(evs[1..], CameFrom(came, FromOf(evs[0])))
  }

  /** No pipe delivers more than it was asked for. */
  predicate NoMoreThanAsked(s: Socket, evs: seq<Event>, came: multiset<EndpointId>)
    decreases |evs|
  {
    evs == [] || (CameFrom(came, FromOf(evs[0])) <= multiset(s.ctx.asked)
                  && NoMoreThanAsked(Step(s, evs[0]), evs[1..], CameFrom(came, FromOf(evs[0]))))
  }

  predicate AlwaysOutstanding(s: Socket, evs: seq<Event>, came: multiset<EndpointId>)
    decreases |evs|
  {
    && Outstanding(At(s), s.ctx.asked, came)
    && (evs == [] || AlwaysOutstanding(Step(s, evs[0]), evs[1..], CameFrom(came, FromOf(evs[0]))))
  }

  /** No malformed response is all that was outstanding of the pipe waited for. */
  predicate NeverRefusesLast(s: Socket, evs: seq<Event>, came: multiset<EndpointId>)
    decreases |evs|
  {
    evs == [] || (!RefusesLast(At(s), s.ctx.asked, came, FromOf(evs[0]), IsMalformed(evs[0]))
                  && NeverRefusesLast(Step(s, evs[0]), evs[1..], CameFrom(came, FromOf(evs[0]))))
  }

  lemma ReceiptKeepsAsking(s: Socket, eid: EndpointId, raw: Message)
    ensures var r := Step(s, RecvAck(eid, raw));
            && (!CallsForAsk(s, RecvAck(eid, raw)) && r.state.Receiving? ==> At(r) == At(s) && (At(s) == Some(eid) ==> |raw.body| < 4))
            && (|raw.body| < 4 ==> r.state == s.state && r.ctx.asked == s.ctx.asked)
  {
  }

  lemma StepKeepsAsking(s: Socket, ev: Event)
    requires Asking(s) && Enabled(s, ev)
    ensures var r := Step(s, ev);
            && KeepsAsking(At(s), s.ctx.asked, FromOf(ev), IsMalformed(ev), At(r), r.ctx.asked)
            && (IsMalformed(ev) ==> At(r) == At(s) && r.ctx.asked == s.ctx.asked)
  {
    if ev.RecvAck? {
      ReceiptKeepsAsking(s, ev.eid, ev.raw);
      StepAsks(s, ev);
    } else if ev.Recv? || ev.RecvReady? || ev.RemovePipe? {
      StepAsks(s, ev);
    } else if !ev.AddPipe? && !ev.RecvNotReady? {
      OthersAskNobody(s, ev);
    }
  }

  lemma {:induction false} RunIsOutstandingIff(s: Socket, evs: seq<Event>, came: multiset<EndpointId>)
    requires Asking(s) && EnabledRun(s, evs) && NoMoreThanAsked(s, evs, came) && Outstanding(At(s), s.ctx.asked, came)
    ensures AlwaysOutstanding(s, evs, came) <==> NeverRefusesLast(s, evs, came)
    ensures NeverRefusesLast(s, evs, came) ==> Outstanding(At(Run(s, evs)), Run(s, evs).ctx.asked, CameIn(evs, came))
    decreases |evs|
  {
    if evs != [] {
      var ev, r := evs[0], Step(s, evs[0]);
      StepKeepsAsking(s, ev);
      StepIsKnown(s, ev);
      OutstandingIff(At(s), s.ctx.asked, FromOf(ev), IsMalformed(ev), At(r), r.ctx.asked, came);
      if Outstanding(At(r), r.ctx.asked, CameFrom(came, FromOf(ev))) {
        RunIsOutstandingIff(r, evs[1..], CameFrom(came, FromOf(ev)));
      }
    }
  }

  /**
   In a run in which no pipe delivers more than it was asked for, more is asked of the pipe waited for than came from it,
   at every point, exactly if no malformed response is all that was outstanding: then a receive never waits in vain.
   */
  lemma EveryRunIsOutstandingIff(seed: nat, device: bool, evs: seq<Event>)
    requires EnabledRun(New(seed, device), evs) && NoMoreThanAsked(New(seed, device), evs, multiset{})
    ensures AlwaysOutstanding(New(seed, device), evs, multiset{}) <==> NeverRefusesLast(New(seed, device), evs, multiset{})
    ensures NeverRefusesLast(New(seed, device), evs, multiset{}) ==>
              var s := Run(New(seed, device), evs);
              Outstanding(At(s), s.ctx.asked, CameIn(evs, multiset{}))
  {
    NothingStored(seed, device);
    RunIsOutstandingIff(New(seed, device), evs, multiset{});
  }

  lemma {:induction false} CameSnoc(s: Socket, evs: seq<Event>, ev: Event, came: multiset<EndpointId>)
    ensures CameIn(evs + [ev], came) == CameFrom(CameIn(evs, came), FromOf(ev))
    ensures NoMoreThanAsked(s, evs + [ev], came)
            <==> NoMoreThanAsked(s, evs, came) && CameFrom(CameIn(evs, came), FromOf(ev)) <= multiset(Run(s, evs).ctx.asked)
    decreases |evs|
  {
    if evs == [] {
      assert (evs + [ev])[1..] == [];
    } else {
      assert (evs + [ev])[1..] == evs[1..] + [ev];
      CameSnoc(Step(s, evs[0]), evs[1..], ev, CameFrom(came, FromOf(evs[0])));
    }
  }

  lemma {:induction false} NoneCame(s: Socket, evs: seq<Event>)
    requires forall i :: 0 <= i < |evs| ==> !evs[i].RecvAck?
    ensures CameIn(evs, multiset{}) == multiset{} && NoMoreThanAsked(s, evs, multiset{})
    decreases |evs|
  {
    if evs != [] {
      NoneCame(Step(s, evs[0]), evs[1..]);
    }
  }

  /** A malformed response to the only ask: the receive goes on waiting for that pipe, of which nothing is outstanding. */
  lemma MalformedLeavesNothingAsked()
    ensures var evs := WAITING + [RecvAck(1, Message([], []))];
            var s := Run(New(0, false), evs);
            && OrderlyRun(New(0, false), evs) && NoMoreThanAsked(New(0, false), evs, multiset{})
            && At(s) == Some(1) && !Outstanding(At(s), s.ctx.asked, CameIn(evs, multiset{}))
  {
    var s := WaitingRun();
    var bad := RecvAck(1, Message([], []));
    NoneCame(New(0, false), WAITING);
    CameSnoc(New(0, false), WAITING, bad, multiset{});
    RunExtends(New(0, false), WAITING, bad);
    assert Step(s, bad).state == s.state && Step(s, bad).ctx.asked == s.ctx.asked;
  }
}

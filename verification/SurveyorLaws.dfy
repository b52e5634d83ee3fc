/** What the surveyor keeps over every run. */
module SurveyorLaws {
  import opened Core
  import opened Scheduling
  import opened SchedulingLaws
  import opened Contexts
  import opened Backtrace
  import opened RequestIds
  import opened Broadcast
  import opened SurveyorProtocol

  // ---------------------------------------------------------------- readiness

  ghost predicate ToldOf(s: Socket) {
    Told(s.ctx, IsSendReady(s), IsRecvReady(s))
  }

  lemma AppliedTellsIff(s: Socket, t: Socket)
    requires t.ctx.raised == s.ctx.raised
    ensures ToldOf(Applied(s, t)) <==> ToldOf(s)
  {
    ChecksTellIff(t.ctx, IsSendReady(s), IsSendReady(t), IsRecvReady(s), IsRecvReady(t));
  }

  lemma NestedAppliedTellsIff(s: Socket, s1: Socket, t: Socket)
    requires t.ctx.raised == s.ctx.raised
    requires IsSendReady(s) == IsSendReady(s1) || IsSendReady(s1) == IsSendReady(t)
    requires IsRecvReady(s) == IsRecvReady(s1) || IsRecvReady(s1) == IsRecvReady(t)
    ensures ToldOf(Noticed(s, s1, Applied(s1, t))) <==> ToldOf(s)
  {
    NestedChecksTellIff(t.ctx, IsSendReady(s), IsSendReady(s1), IsSendReady(t), IsRecvReady(s), IsRecvReady(s1), IsRecvReady(t));
  }

  /** Losing a pipe never makes a socket ready to receive, and what is ready no more is not changed again by the nested transition. */
  lemma RemovalChangesOnce(s: Socket, eid: EndpointId)
    ensures var s1 := Forget(s, eid);
            var t := OnPipeRemoved(s1, eid);
            && IsSendReady(s1) == IsSendReady(t)
            && (IsRecvReady(s) == IsRecvReady(s1) || IsRecvReady(s1) == IsRecvReady(t))
  {
  }

  lemma RemovalTellsIff(s: Socket, eid: EndpointId)
    ensures ToldOf(Removed(s, eid)) <==> ToldOf(s)
  {
    var s1 := Forget(s, eid);
    if eid in s.pipes {
      RemovalChangesOnce(s, eid);
      NestedAppliedTellsIff(s, s1, OnPipeRemoved(s1, eid));
    } else {
      ChecksTellIff(s1.ctx, IsSendReady(s), IsSendReady(s1), IsRecvReady(s), IsRecvReady(s1));
    }
  }

  lemma StepTellsIff(s: Socket, ev: Event)
    ensures ToldOf(Step(s, ev)) <==> ToldOf(s)
  {
    if ev.AddPipe? {
    } else if ev.RemovePipe? {
      RemovalTellsIff(s, ev.eid);
    } else {
      AppliedTellsIff(s, Transition(s, ev));
    }
  }

  lemma {:induction false} RunTellsIff(s: Socket, evs: seq<Event>)
    ensures ToldOf(Run(s, evs)) <==> ToldOf(s)
    decreases |evs|
  {
    if evs != [] {
      StepTellsIff(s, evs[0]);
      RunTellsIff(Step(s, evs[0]), evs[1..]);
    }
  }

  /** After every run the last notices are the actual readiness, and notices strictly alternate. */
  lemma ReadinessIsTold(seed: nat, device: bool, evs: seq<Event>)
    ensures ToldOf(Run(New(seed, device), evs))
  {
    RunTellsIff(New(seed, device), evs);
  }

  /**
   Plugging raises no notice. After any run before it and any run after it the notices are right exactly if, when it
   was plugged, a pipe had something to read only while a survey was active.
   */
  lemma PluggingTellsIff(seed: nat, before: seq<Event>, after: seq<Event>)
    ensures var s := Run(New(seed, false), before);
            ToldOf(Run(Plugged(s), after)) <==> (Peek(s.fq) ==> s.state.Active?)
  {
    ReadinessIsTold(seed, false, before);
    EveryRunMatches(seed, before);
    RunTellsIff(Plugged(Run(New(seed, false), before)), after);
  }

  // ---------------------------------------------------------------- agreement alone

  /** A side agrees after a step exactly if it did before or its readiness changed. */
  ghost predicate AgreesOn(s: Socket, r: Socket) {
    && (LastSend(r.ctx.raised) == IsSendReady(r) <==> LastSend(s.ctx.raised) == IsSendReady(s) || IsSendReady(s) != IsSendReady(r))
    && (LastRecv(r.ctx.raised) == IsRecvReady(r) <==> LastRecv(s.ctx.raised) == IsRecvReady(s) || IsRecvReady(s) != IsRecvReady(r))
  }

  lemma AppliedAgrees(s: Socket, t: Socket)
    requires t.ctx.raised == s.ctx.raised
    ensures AgreesOn(s, Applied(s, t))
  {
    ChecksAgreeIff(t.ctx, IsSendReady(s), IsSendReady(t), IsRecvReady(s), IsRecvReady(t));
  }

  lemma NestedAppliedAgrees(s: Socket, s1: Socket, t: Socket)
    requires t.ctx.raised == s.ctx.raised
    requires IsSendReady(s) == IsSendReady(s1) || IsSendReady(s1) == IsSendReady(t)
    requires IsRecvReady(s) == IsRecvReady(s1) || IsRecvReady(s1) == IsRecvReady(t)
    ensures AgreesOn(s, Noticed(s, s1, Applied(s1, t)))
  {
    NestedChecksAgreeIff(t.ctx, IsSendReady(s), IsSendReady(s1), IsSendReady(t), IsRecvReady(s), IsRecvReady(s1), IsRecvReady(t));
  }

  lemma RemovalAgrees(s: Socket, eid: EndpointId)
    ensures AgreesOn(s, Removed(s, eid))
  {
    var s1 := Forget(s, eid);
    if eid in s.pipes {
      RemovalChangesOnce(s, eid);
      NestedAppliedAgrees(s, s1, OnPipeRemoved(s1, eid));
    } else {
      ChecksAgreeIff(s1.ctx, IsSendReady(s), IsSendReady(s1), IsRecvReady(s), IsRecvReady(s1));
    }
  }

  lemma StepAgrees(s: Socket, ev: Event)
    ensures AgreesOn(s, Step(s, ev))
  {
    if ev.RemovePipe? {
      RemovalAgrees(s, ev.eid);
    } else if !ev.AddPipe? {
      AppliedAgrees(s, Transition(s, ev));
    }
  }

  /** The readiness of each side changes at some point of the run. */
  predicate SendChanges(s: Socket, evs: seq<Event>)
    decreases |evs|
  {
    evs != [] && (IsSendReady(s) != IsSendReady(Step(s, evs[0])) || SendChanges(Step(s, evs[0]), evs[1..]))
  }

  predicate RecvChanges(s: Socket, evs: seq<Event>)
    decreases |evs|
  {
    evs != [] && (IsRecvReady(s) != IsRecvReady(Step(s, evs[0])) || RecvChanges(Step(s, evs[0]), evs[1..]))
  }

  /** So from any state, plugged or not, a wrong last notice is put right by the next change of readiness, and by nothing else. */
  lemma {:induction false} RunAgreesIff(s: Socket, evs: seq<Event>)
    ensures var r := Run(s, evs);
            && (LastSend(r.ctx.raised) == IsSendReady(r) <==> LastSend(s.ctx.raised) == IsSendReady(s) || SendChanges(s, evs))
            && (LastRecv(r.ctx.raised) == IsRecvReady(r) <==> LastRecv(s.ctx.raised) == IsRecvReady(s) || RecvChanges(s, evs))
    decreases |evs|
  {
    if evs != [] {
      StepAgrees(s, evs[0]);
      RunAgreesIff(Step(s, evs[0]), evs[1..]);
    }
  }

  // ---------------------------------------------------------------- response matching

  /** `p` is the survey of the latest send. */
  predicate IsCurrent(s: Socket, p: Pending) {
    |s.ctx.submitted| > 0 && p.id == IdOf(s.seqNo)
  }

  /** A state that waits for a response always knows to which survey, and that is the latest; it waits for who was asked last. */
  predicate HoldsCurrent(s: Socket) {
    match s.state
    case Idle => true
    case Active(p) => IsCurrent(s, p)
    case Receiving(eid, survey, _) => survey.Some? && IsCurrent(s, survey.value) && Latest(s.ctx.asked, eid)
    case RecvOnHold(survey, _) => survey.Some? && IsCurrent(s, survey.value)
  }

  ghost predicate Matching(s: Socket, seed: nat) {
    && !s.device
    && s.seqNo == SeqAfter(seed, |s.ctx.submitted|)
    && OnlyRequests(seed, s.ctx)
    && HoldsCurrent(s)
  }

  lemma MatchingFrame(s: Socket, r: Socket, seed: nat)
    requires Matching(s, seed) && r.state == s.state && r.device == s.device && r.seqNo == s.seqNo
    requires r.ctx.submitted == s.ctx.submitted && r.ctx.sent == s.ctx.sent && r.ctx.asked == s.ctx.asked
    ensures Matching(r, seed)
  {
  }

  lemma {:induction false} SendEachMatches(c: Ctx, order: seq<EndpointId>, pipes: set<EndpointId>, seed: nat, msg: Message)
    requires OnlyRequests(seed, c) && IsRequest(seed, c.submitted, msg)
    ensures OnlyRequests(seed, SendEach(c, order, pipes, msg))
    decreases |order|
  {
    if order != [] {
      SendEachMatches(c, order[..|order| - 1], pipes, seed, msg);
    }
  }

  lemma SubmissionMatches(s: Socket, seed: nat, msg: Message, timeout: Timeout, order: seq<EndpointId>, deadline: Timeout)
    requires Matching(s, seed)
    ensures Matching(Submitted(s, msg, timeout, order, deadline), seed)
  {
    var n := |s.ctx.submitted|;
    var c := Submit(s.ctx, msg, timeout);
    SubmitKeepsRequests(seed, s.ctx, msg, timeout);
    NextSeq(seed, n);
    var seqNo := (s.seqNo + 1) % TWO32;
    var raw := Encode(msg, IdOf(seqNo));
    assert raw == Request(seed, c.submitted, n + 1);
    assert IsRequest(seed, c.submitted, raw);
    var c1 := if s.state.Active? then Cancel(c, s.state.pending.deadline) else c;
    SendEachMatches(c1, order, s.pipes, seed, raw);
    var r := Submitted(s, msg, timeout, order, deadline);
    assert r.ctx.sent == SendEach(c1, order, s.pipes, raw).sent;
    assert r.ctx.submitted == c.submitted;
  }

  lemma AskMatches(s: Socket, seed: nat, p: Pending, timeout: Timeout)
    requires Matching(s, seed) && IsCurrent(s, p)
    ensures Matching(Ask(s, Some(p), timeout), seed)
  {
  }

  lemma RecvMatches(s: Socket, seed: nat, timeout: Timeout)
    requires Matching(s, seed)
    ensures Matching(OnRecv(s, timeout), seed)
  {
    if s.state.Active? {
      AskMatches(s, seed, s.state.pending, timeout);
    }
  }

  lemma AckMatches(s: Socket, seed: nat, eid: EndpointId, msg: Message, id: nat)
    requires Matching(s, seed)
    ensures Matching(OnRecvAck(s, eid, msg, id), seed)
  {
    if s.state.Receiving? {
      AskMatches(s, seed, s.state.survey.value, s.state.timeout);
    }
  }

  lemma RecvReadyMatches(s: Socket, seed: nat, eid: EndpointId)
    requires Matching(s, seed)
    ensures Matching(OnRecvReady(s, eid), seed)
  {
    if s.state.RecvOnHold? {
      RecvMatches(s.(fq := Activate(s.fq, eid), state := Active(s.state.survey.value)), seed, s.state.timeout);
    }
  }

  lemma RemovalMatches(s: Socket, seed: nat, eid: EndpointId)
    requires Matching(s, seed)
    ensures Matching(Removed(s, eid), seed)
  {
    var s1 := Forget(s, eid);
    MatchingFrame(s, s1, seed);
    if s.state.Receiving? {
      RecvMatches(s1.(state := Idle), seed, s.state.timeout);
    }
    MatchingFrame(if eid in s.pipes then OnPipeRemoved(s1, eid) else s1, Removed(s, eid), seed);
  }

  lemma TransitionMatches(s: Socket, seed: nat, ev: Event)
    requires Matching(s, seed)
    ensures Matching(Transition(s, ev), seed)
  {
    match ev
    case Send(msg, t, order, deadline) => SubmissionMatches(s, seed, msg, t, order, deadline);
    case Recv(t) => RecvMatches(s.(ctx := Call(s.ctx, t)), seed, t);
    case RecvAck(eid, raw) =>
      if Unpacked(s, raw).Some? {
        AckMatches(s, seed, eid, Unpacked(s, raw).value.0, Unpacked(s, raw).value.1);
      }
    case RecvReady(eid) => RecvReadyMatches(s, seed, eid);
    case _ =>
  }

  lemma StepMatches(s: Socket, seed: nat, ev: Event)
    requires Matching(s, seed)
    ensures Matching(Step(s, ev), seed)
  {
    if ev.AddPipe? {
    } else if ev.RemovePipe? {
      RemovalMatches(s, seed, ev.eid);
    } else {
      TransitionMatches(s, seed, ev);
      MatchingFrame(Transition(s, ev), Step(s, ev), seed);
    }
  }

  lemma {:induction false} RunMatches(s: Socket, seed: nat, evs: seq<Event>)
    requires Matching(s, seed)
    ensures Matching(Run(s, evs), seed)
    decreases |evs|
  {
    if evs != [] {
      StepMatches(s, seed, evs[0]);
      RunMatches(Step(s, evs[0]), seed, evs[1..]);
    }
  }

  /** In every run of a regular socket, a pending survey is that of the latest send and no receive waits without one. */
  lemma EveryRunMatches(seed: nat, evs: seq<Event>)
    ensures Matching(Run(New(seed, false), evs), seed)
  {
    RunMatches(New(seed, false), seed, evs);
  }

  lemma DeliveryComesFromReceiving(s: Socket, ev: Event, msg: Message)
    requires !s.device && Step(s, ev).ctx.replies == s.ctx.replies + [RecvDone(msg)]
    ensures ev.RecvAck? && Decode(ev.raw).Some? && Message([], Decode(ev.raw).value.0.body) == msg
    ensures s.state.Receiving? && s.state.eid == ev.eid
    ensures s.state.survey.Some? ==> Decode(ev.raw).value.1 == s.state.survey.value.id
  {
    var replies := Step(s, ev).ctx.replies;
    assert replies[|s.ctx.replies|] == RecvDone(msg);
  }

  /**
   After any run, a message is handed to the user only if it is the payload of a response bearing the id of the
   latest send, from the pipe that was asked last.
   */
  lemma OnlyTheLatestSurveyDelivers(seed: nat, evs: seq<Event>, ev: Event, msg: Message)
    requires var s := Run(New(seed, false), evs);
             Step(s, ev).ctx.replies == s.ctx.replies + [RecvDone(msg)]
    ensures var c := Run(New(seed, false), evs).ctx;
            && ev.RecvAck? && |c.submitted| > 0 && Latest(c.asked, ev.eid)
            && |ev.raw.body| >= 4 && msg == Message([], ev.raw.body[4..])
            && ReadBigEndian(ev.raw.body[..4]) == IdOf(SeqAfter(seed, |c.submitted|))
  {
    EveryRunMatches(seed, evs);
    DeliveryComesFromReceiving(Run(New(seed, false), evs), ev, msg);
  }

  /** So a response to survey `j` that is handed over after `n` surveys means that `n - j` is a multiple of 2^31. */
  lemma OnlyTheLatestSurveyIsAnswered(seed: nat, evs: seq<Event>, ev: Event, msg: Message, j: nat)
    requires var s := Run(New(seed, false), evs);
             Step(s, ev).ctx.replies == s.ctx.replies + [RecvDone(msg)]
    requires ev.RecvAck? && |ev.raw.body| >= 4 ==> ReadBigEndian(ev.raw.body[..4]) == IdOf(SeqAfter(seed, j))
    requires j <= |Run(New(seed, false), evs).ctx.submitted|
    ensures var n := |Run(New(seed, false), evs).ctx.submitted|;
            (n - j) % TWO31 == 0 && (n < j + TWO31 ==> j == n)
  {
    OnlyTheLatestSurveyDelivers(seed, evs, ev, msg);
    IdsCollideIff(seed, j, |Run(New(seed, false), evs).ctx.submitted|);
  }

  /** Conversely, such a response is handed over at once, and the survey goes on. */
  lemma TheLatestSurveyDelivers(seed: nat, evs: seq<Event>, eid: EndpointId, raw: Message)
    requires var s := Run(New(seed, false), evs);
             && s.state.Receiving? && s.state.eid == eid && |raw.body| >= 4
             && ReadBigEndian(raw.body[..4]) == IdOf(SeqAfter(seed, |s.ctx.submitted|))
    ensures var s := Run(New(seed, false), evs);
            var r := Step(s, RecvAck(eid, raw));
            && r.ctx.replies == s.ctx.replies + [RecvDone(Message([], raw.body[4..]))]
            && r.state.Active? && s.state.survey == Some(r.state.pending)
  {
    EveryRunMatches(seed, evs);
  }

  lemma PublicationReachesEachOnce(s: Socket, msg: Message, timeout: Timeout, order: seq<EndpointId>, deadline: Timeout)
    requires IsDrain(order, s.bc)
    ensures var r := OnSend(s, msg, timeout, order, deadline);
            multiset(r.ctx.sent) == multiset(s.ctx.sent) + Once(s.bc * s.pipes, msg)
  {
    var c := if s.state.Active? then Cancel(s.ctx, s.state.pending.deadline) else s.ctx;
    ReachesEachOnce(c, order, s.bc, s.pipes, msg);
  }

  /** A survey reaches every ready pipe exactly once, under the id that the socket then waits for. */
  lemma SurveyReachesEachOnce(s: Socket, msg: Message, timeout: Timeout, order: seq<EndpointId>, deadline: Timeout)
    requires !s.device && IsDrain(order, s.bc)
    ensures var r := Step(s, Send(msg, timeout, order, deadline));
            && multiset(r.ctx.sent) == multiset(s.ctx.sent) + Once(s.bc * s.pipes, Encode(msg, IdOf(r.seqNo)))
            && r.bc == {} && r.state == Active(Pending(IdOf(r.seqNo), deadline))
  {
    var seqNo := (s.seqNo + 1) % TWO32;
    var s1 := s.(ctx := Submit(s.ctx, msg, timeout), seqNo := seqNo);
    var raw := Encode(msg, IdOf(seqNo));
    PublicationReachesEachOnce(s1, raw, timeout, order, deadline);
    assert Submitted(s, msg, timeout, order, deadline) == OnSend(s1, raw, timeout, order, deadline);
  }

  // ---------------------------------------------------------------- answers

  /** A receive of the user is waiting; sends are answered at once. */
  predicate Busy(s: Socket) {
    s.state.Receiving? || s.state.RecvOnHold?
  }

  function Held(s: Socket): (t: Timeout) {
    if Busy(s) then s.state.timeout else None
  }

  /** The deadline of the pending survey. */
  function HeldDeadline(s: Socket): (t: Timeout) {
    match s.state
    case Active(p) => p.deadline
    case Receiving(_, Some(p), _) => p.deadline
    case RecvOnHold(Some(p), _) => p.deadline
    case _ => None
  }

  /** Each timer held is of its kind. */
  predicate Timed(s: Socket) {
    IsKind(Held(s), RecvTimer) && IsKind(HeldDeadline(s), SurveyTimer)
  }

  /** Every call but the one waiting was answered once, and only that one has a timer. */
  ghost predicate OneEach(s: Socket) {
    && |s.ctx.replies| + (if Busy(s) then 1 else 0) == s.ctx.calls
    && OwnsTimers(s.ctx, Held(s))
    && Timed(s)
  }

  /** Calls wait for the answer to the previous one, and timers fire only while live. */
  predicate Orderly(s: Socket, ev: Event) {
    match ev
    case Send(_, t, _, deadline) => Answered(s.ctx) && FreshTimer(s.ctx, t, SendTimer) && FreshTimer(s.ctx, deadline, SurveyTimer)
    case Recv(t) => Answered(s.ctx) && FreshTimer(s.ctx, t, RecvTimer)
    case RecvTimeout(t) => t in s.ctx.timers && t.kind == RecvTimer
    case SurveyTimeout(t) => t in s.ctx.timers && t.kind == SurveyTimer
    case _ => true
  }

  predicate OrderlyRun(s: Socket, evs: seq<Event>)
    decreases |evs|
  {
    evs == [] || (Orderly(s, evs[0]) && OrderlyRun(Step(s, evs[0]), evs[1..]))
  }

  /** A response too short to hold an id. */
  predicate IsMalformed(ev: Event) {
    ev.RecvAck? && |ev.raw.body| < 4
  }

  lemma OneEachFrame(s: Socket, r: Socket)
    requires r.state == s.state && r.ctx == s.ctx.(raised := r.ctx.raised)
    ensures OneEach(r) <==> OneEach(s)
  {
  }

  lemma TimersOfSubmission(s: Socket, msg: Message, timeout: Timeout, order: seq<EndpointId>, deadline: Timeout)
    ensures var r := Submitted(s, msg, timeout, order, deadline);
            var c := Submit(s.ctx, msg, timeout);
            var c1 := if s.state.Active? then Cancel(c, s.state.pending.deadline) else c;
            && r.ctx.calls == s.ctx.calls + 1
            && r.ctx.timers == c1.timers - TimerSet(timeout) + TimerSet(deadline)
            && r.state.Active? && r.state.pending.deadline == deadline
  {
  }

  lemma SubmissionAnswers(s: Socket, msg: Message, timeout: Timeout, order: seq<EndpointId>, deadline: Timeout)
    requires OneEach(s) && Orderly(s, Send(msg, timeout, order, deadline))
    ensures OneEach(Submitted(s, msg, timeout, order, deadline))
  {
    TimersOfSubmission(s, msg, timeout, order, deadline);
  }

  lemma RecvAnswers(s: Socket, timeout: Timeout)
    requires |s.ctx.replies| + 1 == s.ctx.calls && OwnsTimers(s.ctx, timeout) && IsKind(timeout, RecvTimer)
    requires IsKind(HeldDeadline(s), SurveyTimer)
    ensures OneEach(OnRecv(s, timeout))
  {
  }

  lemma RemovalAnswers(s: Socket, eid: EndpointId)
    requires OneEach(s)
    ensures OneEach(Removed(s, eid))
  {
    var s1 := Forget(s, eid);
    OneEachFrame(s, s1);
    if s.state.Receiving? {
      RecvAnswers(s1.(state := Idle), s.state.timeout);
    }
    OneEachFrame(if eid in s.pipes then OnPipeRemoved(s1, eid) else s1, Removed(s, eid));
  }

  lemma RecvReadyAnswers(s: Socket, eid: EndpointId)
    requires OneEach(s)
    ensures OneEach(OnRecvReady(s, eid))
  {
    var s1 := s.(fq := Activate(s.fq, eid));
    match s.state
    case RecvOnHold(None, timeout) => RecvAnswers(s1.(state := Idle), timeout);
    case RecvOnHold(Some(p), timeout) => RecvAnswers(s1.(state := Active(p)), timeout);
    case _ =>
  }

  lemma AckAnswers(s: Socket, eid: EndpointId, msg: Message, id: nat)
    requires OneEach(s)
    ensures OneEach(OnRecvAck(s, eid, msg, id))
  {
  }

  lemma ReceiptAnswersIff(s: Socket, eid: EndpointId, raw: Message)
    requires OneEach(s)
    ensures OneEach(Received(s, eid, raw)) <==> |raw.body| >= 4
  {
    if Unpacked(s, raw).Some? {
      AckAnswers(s, eid, Unpacked(s, raw).value.0, Unpacked(s, raw).value.1);
    }
  }

  lemma TimeoutAnswers(s: Socket, t: Timer)
    requires OneEach(s) && t in s.ctx.timers && t.kind == RecvTimer
    ensures OneEach(OnRecvTimeout(s.(ctx := Fire(s.ctx, t))))
  {
    assert IsCallTimer(t);
  }

  lemma TransitionAnswersIff(s: Socket, ev: Event)
    requires OneEach(s) && Orderly(s, ev)
    ensures OneEach(Transition(s, ev)) <==> !IsMalformed(ev)
  {
    match ev
    case Send(msg, t, order, deadline) => SubmissionAnswers(s, msg, t, order, deadline);
    case Recv(t) => RecvAnswers(s.(ctx := Call(s.ctx, t)), t);
    case RecvAck(eid, raw) => ReceiptAnswersIff(s, eid, raw);
    case RecvTimeout(t) => TimeoutAnswers(s, t);
    case RecvReady(eid) => RecvReadyAnswers(s, eid);
    case _ =>
  }

  /** From a state in order, a step keeps the balance exactly when it is not the receipt of a malformed response. */
  lemma StepAnswersIff(s: Socket, ev: Event)
    requires OneEach(s) && Orderly(s, ev)
    ensures OneEach(Step(s, ev)) <==> !IsMalformed(ev)
  {
    if ev.AddPipe? {
    } else if ev.RemovePipe? {
      RemovalAnswers(s, ev.eid);
    } else {
      TransitionAnswersIff(s, ev);
      OneEachFrame(Transition(s, ev), Step(s, ev));
    }
  }

  /** The balance holds at every point of a run. */
  ghost predicate AlwaysOneEach(s: Socket, evs: seq<Event>)
    decreases |evs|
  {
    OneEach(s) && (evs == [] || AlwaysOneEach(Step(s, evs[0]), evs[1..]))
  }

  predicate WellFormed(evs: seq<Event>) {
    forall i :: 0 <= i < |evs| ==> !IsMalformed(evs[i])
  }

  lemma {:induction false} RunAnswersIff(s: Socket, evs: seq<Event>)
    requires OneEach(s) && OrderlyRun(s, evs)
    ensures AlwaysOneEach(s, evs) <==> WellFormed(evs)
    ensures WellFormed(evs) ==> OneEach(Run(s, evs))
    decreases |evs|
  {
    if evs != [] {
      StepAnswersIff(s, evs[0]);
      if !IsMalformed(evs[0]) {
        RunAnswersIff(Step(s, evs[0]), evs[1..]);
        assert forall i :: 0 < i < |evs| ==> evs[i] == evs[1..][i - 1];
      }
    }
  }

  /** A run answers each call exactly once and leaves no timer of a call behind exactly if it receives no malformed response. */
  lemma EveryRunAnswersIff(seed: nat, device: bool, evs: seq<Event>)
    requires OrderlyRun(New(seed, device), evs)
    ensures AlwaysOneEach(New(seed, device), evs) <==> WellFormed(evs)
    ensures WellFormed(evs) ==> OneEach(Run(New(seed, device), evs))
  {
    RunAnswersIff(New(seed, device), evs);
  }

  // ---------------------------------------------------------------- the deadline timer

  /** The only live deadline is the one held; a receive of a device knows of no survey. */
  ghost predicate OwnsDeadline(s: Socket) {
    && (forall t :: t in s.ctx.timers && t.kind == SurveyTimer ==> HeldDeadline(s) == Some(t))
    && (s.device && Busy(s) ==> s.state.survey == None)
  }

  predicate DeadlineIsLive(s: Socket) {
    HeldDeadline(s).Some? && HeldDeadline(s).value in s.ctx.timers
  }

  /** With the deadline live, the pending survey is dropped by something that does not cancel it. */
  predicate DropsDeadline(s: Socket, ev: Event) {
    && DeadlineIsLive(s)
    && match ev
       case RemovePipe(eid) => eid in s.pipes && s.state.Receiving? && s.state.eid == eid
       case Send(_, _, _, _) => !s.state.Active?
       case Recv(_) => s.device || !s.state.Active?
       case RecvTimeout(_) => s.state.Active?
       case _ => false
  }

  lemma OwnsDeadlineFrame(s: Socket, r: Socket)
    requires r.state == s.state && r.ctx.timers == s.ctx.timers && r.device == s.device
    ensures OwnsDeadline(r) <==> OwnsDeadline(s)
  {
  }

  lemma TimedFrame(s: Socket, r: Socket)
    requires r.state == s.state
    ensures Timed(r) <==> Timed(s)
  {
  }

  lemma RecvSideIsTimed(s: Socket, ev: Event)
    requires Timed(s) && Orderly(s, ev) && (ev.Recv? || ev.RecvAck? || ev.RecvTimeout? || ev.RecvReady? || ev.RecvNotReady?)
    ensures Timed(Transition(s, ev))
  {
  }

  lemma TransitionIsTimed(s: Socket, ev: Event)
    requires Timed(s) && Orderly(s, ev)
    ensures Timed(Transition(s, ev))
  {
    if ev.Recv? || ev.RecvAck? || ev.RecvTimeout? || ev.RecvReady? || ev.RecvNotReady? {
      RecvSideIsTimed(s, ev);
    }
  }

  lemma StepIsTimed(s: Socket, ev: Event)
    requires Timed(s) && Orderly(s, ev)
    ensures Timed(Step(s, ev))
  {
    if ev.RemovePipe? {
      var s1 := Forget(s, ev.eid);
      TimedFrame(if ev.eid in s.pipes then OnPipeRemoved(s1, ev.eid) else s1, Step(s, ev));
    } else if !ev.AddPipe? {
      TransitionIsTimed(s, ev);
      TimedFrame(Transition(s, ev), Step(s, ev));
    }
  }

  lemma SubmissionOwnsIff(s: Socket, msg: Message, timeout: Timeout, order: seq<EndpointId>, deadline: Timeout)
    requires Timed(s) && OwnsDeadline(s) && Orderly(s, Send(msg, timeout, order, deadline))
    ensures OwnsDeadline(Submitted(s, msg, timeout, order, deadline)) <==> !DropsDeadline(s, Send(msg, timeout, order, deadline))
  {
    TimersOfSubmission(s, msg, timeout, order, deadline);
    var r := Submitted(s, msg, timeout, order, deadline);
    assert HeldDeadline(r) == deadline;
    if DropsDeadline(s, Send(msg, timeout, order, deadline)) {
      assert HeldDeadline(s).value in r.ctx.timers;
    }
  }

  /** A receive keeps the survey of an active regular socket; of any other it drops it. */
  lemma RecvOwnsIff(s: Socket, timeout: Timeout)
    requires OwnsDeadline(s) && IsKind(timeout, RecvTimer) && IsKind(HeldDeadline(s), SurveyTimer)
    ensures OwnsDeadline(OnRecv(s, timeout)) <==> (!s.device && s.state.Active?) || !DeadlineIsLive(s)
  {
    var r := OnRecv(s, timeout);
    if s.device || !s.state.Active? {
      assert HeldDeadline(r) == None;
      assert DeadlineIsLive(s) ==> HeldDeadline(s).value in r.ctx.timers;
    }
  }

  lemma RecvReadyOwns(s: Socket, eid: EndpointId)
    requires Timed(s) && OwnsDeadline(s)
    ensures OwnsDeadline(OnRecvReady(s, eid))
  {
    var s1 := s.(fq := Activate(s.fq, eid));
    match s.state
    case RecvOnHold(None, timeout) => RecvOwnsIff(s1.(state := Idle), timeout);
    case RecvOnHold(Some(p), timeout) => RecvOwnsIff(s1.(state := Active(p)), timeout);
    case _ =>
  }

  lemma ReceiptOwns(s: Socket, eid: EndpointId, raw: Message)
    requires Timed(s) && OwnsDeadline(s)
    ensures OwnsDeadline(Received(s, eid, raw))
  {
  }

  lemma TimeoutOwnsIff(s: Socket, t: Timer)
    requires OwnsDeadline(s) && t.kind == RecvTimer && Timed(s)
    ensures OwnsDeadline(OnRecvTimeout(s.(ctx := Fire(s.ctx, t)))) <==> !(s.state.Active? && DeadlineIsLive(s))
  {
    var r := OnRecvTimeout(s.(ctx := Fire(s.ctx, t)));
    assert DeadlineIsLive(s) ==> HeldDeadline(s).value in r.ctx.timers;
  }

  lemma TransitionOwnsIff(s: Socket, ev: Event)
    requires Timed(s) && OwnsDeadline(s) && Orderly(s, ev) && !ev.RemovePipe?
    ensures OwnsDeadline(Transition(s, ev)) <==> !DropsDeadline(s, ev)
  {
    match ev
    case Send(msg, t, order, deadline) => SubmissionOwnsIff(s, msg, t, order, deadline);
    case Recv(t) => RecvOwnsIff(s.(ctx := Call(s.ctx, t)), t);
    case RecvAck(eid, raw) => ReceiptOwns(s, eid, raw);
    case RecvTimeout(t) => TimeoutOwnsIff(s, t);
    case RecvReady(eid) => RecvReadyOwns(s, eid);
    case _ =>
  }

  lemma RemovalOwnsIff(s: Socket, eid: EndpointId)
    requires Timed(s) && OwnsDeadline(s)
    ensures OwnsDeadline(Removed(s, eid)) <==> !DropsDeadline(s, RemovePipe(eid))
  {
    var s1 := Forget(s, eid);
    var t := if eid in s.pipes then OnPipeRemoved(s1, eid) else s1;
    OwnsDeadlineFrame(s, s1);
    OwnsDeadlineFrame(t, Removed(s, eid));
    if eid in s.pipes && s.state.Receiving? && s.state.eid == eid {
      assert HeldDeadline(t) == None;
      assert t.ctx.timers == s.ctx.timers || t.ctx.timers == s.ctx.timers - TimerSet(s.state.timeout);
    }
  }

  lemma StepOwnsIff(s: Socket, ev: Event)
    requires Timed(s) && OwnsDeadline(s) && Orderly(s, ev)
    ensures OwnsDeadline(Step(s, ev)) <==> !DropsDeadline(s, ev)
  {
    if ev.RemovePipe? {
      RemovalOwnsIff(s, ev.eid);
    } else if !ev.AddPipe? {
      TransitionOwnsIff(s, ev);
      OwnsDeadlineFrame(Transition(s, ev), Step(s, ev));
    }
  }

  ghost predicate AlwaysOwnsDeadline(s: Socket, evs: seq<Event>)
    decreases |evs|
  {
    OwnsDeadline(s) && (evs == [] || AlwaysOwnsDeadline(Step(s, evs[0]), evs[1..]))
  }

  predicate NeverDropsDeadline(s: Socket, evs: seq<Event>)
    decreases |evs|
  {
    evs == [] || (!DropsDeadline(s, evs[0]) && NeverDropsDeadline(Step(s, evs[0]), evs[1..]))
  }

  lemma {:induction false} RunOwnsIff(s: Socket, evs: seq<Event>)
    requires Timed(s) && OwnsDeadline(s) && OrderlyRun(s, evs)
    ensures AlwaysOwnsDeadline(s, evs) <==> NeverDropsDeadline(s, evs)
    decreases |evs|
  {
    if evs != [] {
      StepIsTimed(s, evs[0]);
      StepOwnsIff(s, evs[0]);
      if !DropsDeadline(s, evs[0]) {
        RunOwnsIff(Step(s, evs[0]), evs[1..]);
      }
    }
  }

  /** An orderly run leaves no deadline behind exactly if it never drops a survey whose deadline is live. */
  lemma EveryRunOwnsDeadlineIff(seed: nat, device: bool, evs: seq<Event>)
    requires OrderlyRun(New(seed, device), evs)
    ensures AlwaysOwnsDeadline(New(seed, device), evs) <==> NeverDropsDeadline(New(seed, device), evs)
  {
    RunOwnsIff(New(seed, device), evs);
  }

  /** While no response is malformed, it is dropped only by losing the pipe being received from and, for a device, by receiving. */
  lemma OnlyLossDropsDeadline(s: Socket, ev: Event)
    requires OneEach(s) && Orderly(s, ev)
    ensures DropsDeadline(s, ev) ==> (ev.RemovePipe? && s.state.Receiving? && s.state.eid == ev.eid) || (s.device && ev.Recv?)
  {
    if ev.RecvTimeout? {
      assert IsCallTimer(ev.timer);
    }
  }

  // ---------------------------------------------------------------- after the deadline

  /** The deadline of the pending survey fires. */
  predicate Fires(s: Socket, ev: Event) {
    ev.SurveyTimeout? && HeldDeadline(s) == Some(ev.timer)
  }

  /** Whether the deadline of the latest survey has fired, given whether it had before this step. */
  predicate FiredNow(s: Socket, ev: Event, fired: bool) {
    !ev.Send? && (fired || Fires(s, ev))
  }

  predicate Fired(s: Socket, evs: seq<Event>, fired: bool)
    decreases |evs|
  {
    if evs == [] then fired else Fired(Step(s, evs[0]), evs[1..], FiredNow(s, evs[0], fired))
  }

  /** Whether it has fired while a receive was waiting. */
  predicate FiredLateNow(s: Socket, ev: Event, late: bool) {
    !ev.Send? && (late || (Fires(s, ev) && Busy(s)))
  }

  predicate FiredLate(s: Socket, evs: seq<Event>, late: bool)
    decreases |evs|
  {
    if evs == [] then late else FiredLate(Step(s, evs[0]), evs[1..], FiredLateNow(s, evs[0], late))
  }

  /** A survey whose deadline fired while no receive was waiting is over. */
  predicate OverIfFired(s: Socket, fired: bool, late: bool) {
    (fired && !late ==> s.state.Idle?) && (late ==> fired)
  }

  lemma IdleStaysIdle(s: Socket, ev: Event)
    requires !s.device && s.state.Idle? && !ev.Send?
    ensures Step(s, ev).state.Idle?
  {
  }

  lemma FiringEndsActive(s: Socket, ev: Event)
    requires Fires(s, ev)
    ensures if Busy(s) then Step(s, ev).state == s.state else Step(s, ev).state.Idle?
  {
  }

  lemma {:induction false} RunIsOverIfFired(s: Socket, evs: seq<Event>, fired: bool, late: bool)
    requires !s.device && OverIfFired(s, fired, late)
    ensures OverIfFired(Run(s, evs), Fired(s, evs, fired), FiredLate(s, evs, late))
    decreases |evs|
  {
    if evs != [] {
      var ev := evs[0];
      if fired && !late && !ev.Send? {
        IdleStaysIdle(s, ev);
      }
      if Fires(s, ev) {
        FiringEndsActive(s, ev);
      }
      RunIsOverIfFired(Step(s, ev), evs[1..], FiredNow(s, ev, fired), FiredLateNow(s, ev, late));
    }
  }

  /**
   After any run of a regular socket, a response that is handed over comes after the deadline of its survey fired
   exactly if that fired while a receive was waiting.
   */
  lemma LateResponses(seed: nat, evs: seq<Event>, ev: Event, msg: Message)
    requires var s := Run(New(seed, false), evs);
             Step(s, ev).ctx.replies == s.ctx.replies + [RecvDone(msg)]
    ensures Fired(New(seed, false), evs, false) <==> FiredLate(New(seed, false), evs, false)
  {
    RunIsOverIfFired(New(seed, false), evs, false, false);
    EveryRunMatches(seed, evs);
    DeliveryComesFromReceiving(Run(New(seed, false), evs), ev, msg);
  }

  /** And firing while a receive waits leaves it to be answered as before. */
  lemma WaitingOutlivesDeadline(seed: nat, evs: seq<Event>, t: Timer, eid: EndpointId, raw: Message)
    requires var s := Run(New(seed, false), evs);
             && Fires(s, SurveyTimeout(t)) && s.state.Receiving? && s.state.eid == eid && |raw.body| >= 4
             && ReadBigEndian(raw.body[..4]) == IdOf(SeqAfter(seed, |s.ctx.submitted|))
    ensures var s := Step(Run(New(seed, false), evs), SurveyTimeout(t));
            Step(s, RecvAck(eid, raw)).ctx.replies == s.ctx.replies + [RecvDone(Message([], raw.body[4..]))]
  {
    RunExtends(New(seed, false), evs, SurveyTimeout(t));
    TheLatestSurveyDelivers(seed, evs + [SurveyTimeout(t)], eid, raw);
  }

  // ---------------------------------------------------------------- work conservation

  /** Endpoint ids are distinct, and priorities are those the facade documents. */
  predicate Enabled(s: Socket, ev: Event) {
    ev.AddPipe? ==> ev.eid !in s.pipes && ev.priority <= LOWEST
  }

  predicate EnabledRun(s: Socket, evs: seq<Event>)
    decreases |evs|
  {
    evs == [] || (Enabled(s, evs[0]) && EnabledRun(Step(s, evs[0]), evs[1..]))
  }

  ghost predicate InStep(s: Socket) {
    Valid(s.fq) && Ids(s.fq) == s.pipes
  }

  /** A receive waits only if no pipe has a response. */
  ghost predicate Conserving(s: Socket) {
    InStep(s) && (s.state.RecvOnHold? ==> ActiveIds(s.fq) == {})
  }

  lemma ConservingFrame(s: Socket, r: Socket)
    requires Conserving(s) && r == s.(ctx := r.ctx)
    ensures Conserving(r)
  {
  }

  lemma AskConserves(s: Socket, survey: Option<Pending>, timeout: Timeout)
    requires InStep(s)
    ensures Conserving(Ask(s, survey, timeout))
  {
    PopKeeps(s.fq);
    assert ActiveIds(s.fq) <= Ids(s.fq);
  }

  lemma RecvConserves(s: Socket, timeout: Timeout)
    requires InStep(s)
    ensures Conserving(OnRecv(s, timeout))
  {
    AskConserves(s, None, timeout);
    if s.state.Active? {
      AskConserves(s, Some(s.state.pending), timeout);
    }
  }

  lemma RemovalConserves(s: Socket, eid: EndpointId)
    requires Conserving(s)
    ensures Conserving(Removed(s, eid))
  {
    RemoveFollowingKeeps(s.fq, eid);
    var s1 := Forget(s, eid);
    if s.state.Receiving? {
      RecvConserves(s1.(state := Idle), s.state.timeout);
    }
    ConservingFrame(if eid in s.pipes then OnPipeRemoved(s1, eid) else s1, Removed(s, eid));
  }

  lemma RecvReadyConserves(s: Socket, eid: EndpointId)
    requires Conserving(s)
    ensures Conserving(OnRecvReady(s, eid))
  {
    ActivateKeeps(s.fq, eid);
    var s1 := s.(fq := Activate(s.fq, eid));
    match s.state
    case RecvOnHold(None, timeout) => RecvConserves(s1.(state := Idle), timeout);
    case RecvOnHold(Some(p), timeout) => RecvConserves(s1.(state := Active(p)), timeout);
    case _ =>
  }

  lemma AckConserves(s: Socket, eid: EndpointId, msg: Message, id: nat)
    requires Conserving(s)
    ensures Conserving(OnRecvAck(s, eid, msg, id))
  {
    if s.state.Receiving? {
      AskConserves(s, s.state.survey, s.state.timeout);
    }
  }

  lemma ReceiptConserves(s: Socket, eid: EndpointId, raw: Message)
    requires Conserving(s)
    ensures Conserving(Received(s, eid, raw))
  {
    if Unpacked(s, raw).Some? {
      AckConserves(s, eid, Unpacked(s, raw).value.0, Unpacked(s, raw).value.1);
    }
  }

  lemma TransitionConserves(s: Socket, ev: Event)
    requires Conserving(s)
    ensures Conserving(Transition(s, ev))
  {
    match ev
    case Recv(t) => RecvConserves(s.(ctx := Call(s.ctx, t)), t);
    case RecvAck(eid, raw) => ReceiptConserves(s, eid, raw);
    case RecvReady(eid) => RecvReadyConserves(s, eid);
    case RecvNotReady(eid) => DeactivateKeeps(s.fq, eid);
    case _ =>
  }

  lemma StepConserves(s: Socket, ev: Event)
    requires Conserving(s) && Enabled(s, ev)
    ensures Conserving(Step(s, ev))
  {
    if ev.AddPipe? {
      InsertKeeps(s.fq, ev.eid, ev.priority);
    } else if ev.RemovePipe? {
      RemovalConserves(s, ev.eid);
    } else {
      TransitionConserves(s, ev);
      ConservingFrame(Transition(s, ev), Step(s, ev));
    }
  }

  lemma {:induction false} RunConserves(s: Socket, evs: seq<Event>)
    requires Conserving(s) && EnabledRun(s, evs)
    ensures Conserving(Run(s, evs))
    decreases |evs|
  {
    if evs != [] {
      StepConserves(s, evs[0]);
      RunConserves(Step(s, evs[0]), evs[1..]);
    }
  }

  /** Every run, of a regular socket or of a device's, keeps the scheduler in step with the pipes and wastes no readiness. */
  lemma EveryRunConserves(seed: nat, device: bool, evs: seq<Event>)
    requires EnabledRun(New(seed, device), evs)
    ensures Conserving(Run(New(seed, device), evs))
  {
    RunConserves(New(seed, device), evs);
  }

  // ---------------------------------------------------------------- the code's own removal

  predicate Strands(s: Socket, ev: Event) {
    ev.RemovePipe? && CursorStranded(s.fq, ev.eid)
  }

  predicate NeverStrands(s: Socket, evs: seq<Event>)
    decreases |evs|
  {
    evs == [] || (!Strands(s, evs[0]) && NeverStrands(Step(s, evs[0]), evs[1..]))
  }

  /** At every point of the run the code does what the laws are about. */
  predicate AlwaysTheCodes(s: Socket, evs: seq<Event>)
    decreases |evs|
  {
    evs == [] || (CodeStep(s, evs[0]) == Some(Step(s, evs[0])) && AlwaysTheCodes(Step(s, evs[0]), evs[1..]))
  }

  lemma NothingPanics(s: Socket, ev: Event)
    requires Valid(s.fq) && !ev.RemovePipe?
    ensures !Panics(s, ev)
  {
    if ev.RecvReady? {
      ActivateKeeps(s.fq, ev.eid);
    }
  }

  /** From a state in order the code takes the documented step exactly if no removal strands the cursor. */
  lemma CodeStepIff(s: Socket, ev: Event)
    requires Valid(s.fq)
    ensures CodeStep(s, ev) == Some(Step(s, ev)) <==> !Strands(s, ev)
  {
    if ev.RemovePipe? {
      RemoveKeepsCursorIff(s.fq, ev.eid);
    } else {
      NothingPanics(s, ev);
    }
  }

  lemma {:induction false} CodeRunIff(s: Socket, evs: seq<Event>)
    requires Conserving(s) && EnabledRun(s, evs)
    ensures AlwaysTheCodes(s, evs) <==> NeverStrands(s, evs)
    ensures NeverStrands(s, evs) ==> CodeRun(s, evs) == Some(Run(s, evs))
    decreases |evs|
  {
    if evs != [] {
      CodeStepIff(s, evs[0]);
      StepConserves(s, evs[0]);
      CodeRunIff(Step(s, evs[0]), evs[1..]);
    }
  }

  /** A run of the code is at every point what the laws are about exactly if no removal strands the cursor. */
  lemma EveryCodeRunIff(seed: nat, device: bool, evs: seq<Event>)
    requires EnabledRun(New(seed, device), evs)
    ensures AlwaysTheCodes(New(seed, device), evs) <==> NeverStrands(New(seed, device), evs)
    ensures NeverStrands(New(seed, device), evs) ==> CodeRun(New(seed, device), evs) == Some(Run(New(seed, device), evs))
  {
    CodeRunIff(New(seed, device), evs);
  }

  // ---------------------------------------------------------------- runs that go wrong

  lemma {:induction false} RunExtends(s: Socket, evs: seq<Event>, ev: Event)
    ensures Run(s, evs + [ev]) == Step(Run(s, evs), ev)
    ensures OrderlyRun(s, evs + [ev]) <==> OrderlyRun(s, evs) && Orderly(Run(s, evs), ev)
    decreases |evs|
  {
    if evs == [] {
      assert (evs + [ev])[1..] == [];
    } else {
      RunExtends(Step(s, evs[0]), evs[1..], ev);
      assert (evs + [ev])[1..] == evs[1..] + [ev];
    }
  }

  const DEADLINE: Timer := Timer(SurveyTimer, 7)
  const SURVEY: Event := Send(Message([], []), None, [], Some(DEADLINE))
  const READY: seq<Event> := [AddPipe(1, 8)] + [RecvReady(1)]
  const OUT: seq<Event> := READY + [SURVEY]
  /** A survey is out and the user waits for a response to it. */
  const WAITING: seq<Event> := OUT + [Recv(None)]

  lemma ReadyRun() returns (s: Socket)
    ensures Run(New(0, false), READY) == s && OrderlyRun(New(0, false), READY)
    ensures !s.device && s.pipes == {1} && s.fq == One(1, 8, true) && s.state == Idle
    ensures s.ctx.calls == 0 && s.ctx.replies == [] && s.ctx.timers == {} && s.ctx.asked == []
  {
    OneItem(1, 8);
    RunExtends(New(0, false), [AddPipe(1, 8)], RecvReady(1));
    var s0 := Run(New(0, false), [AddPipe(1, 8)]);
    assert s0.fq == One(1, 8, false) && s0.state == Idle && s0.pipes == {1} && s0.ctx == START;
    s := Step(s0, RecvReady(1));
  }

  lemma OutRun() returns (s: Socket)
    ensures Run(New(0, false), OUT) == s && OrderlyRun(New(0, false), OUT)
    ensures !s.device && s.pipes == {1} && s.fq == One(1, 8, true) && s.state.Active?
    ensures s.state.pending.deadline == Some(DEADLINE) && s.ctx.timers == {DEADLINE} && Answered(s.ctx) && s.ctx.asked == []
  {
    var s1 := ReadyRun();
    RunExtends(New(0, false), READY, SURVEY);
    TimersOfSubmission(s1, Message([], []), None, [], Some(DEADLINE));
    s := Step(s1, SURVEY);
  }

  lemma WaitingRun() returns (s: Socket)
    ensures Run(New(0, false), WAITING) == s && OrderlyRun(New(0, false), WAITING)
    ensures !s.device && s.pipes == {1} && s.state.Receiving? && s.state.eid == 1 && s.state.timeout == None
    ensures |s.ctx.replies| + 1 == s.ctx.calls
    ensures HeldDeadline(s) == Some(DEADLINE) && s.ctx.timers == {DEADLINE} && s.ctx.asked == [1]
  {
    OneItem(1, 8);
    var s2 := OutRun();
    RunExtends(New(0, false), OUT, Recv(None));
    s := Step(s2, Recv(None));
  }

  /** Losing the pipe there leaves the deadline live in an idle socket. */
  lemma DeadlineCanBeLost()
    ensures OrderlyRun(New(0, false), WAITING)
    ensures var s := Run(New(0, false), WAITING + [RemovePipe(1)]);
            s.state == Idle && s.ctx.timers == {DEADLINE} && !OwnsDeadline(s)
  {
    var s := WaitingRun();
    RunExtends(New(0, false), WAITING, RemovePipe(1));
    var t := OnPipeRemoved(Forget(s, 1), 1);
    assert t.state == Idle && t.ctx.timers == {DEADLINE};
    assert DEADLINE in t.ctx.timers;
  }

  /** A device plugged while an idle socket has something to read: nobody is told. */
  lemma PluggingCanLie()
    ensures !ToldOf(Plugged(Run(New(0, false), READY)))
  {
    var s := ReadyRun();
    PluggingTellsIff(0, READY, []);
  }

  /** After a malformed response, the next receive of the user drops the deadline too. */
  lemma DeadlineCanBeReceivedOver()
    ensures OrderlyRun(New(0, false), WAITING + [RecvAck(1, Message([], []))] + [Recv(None)])
    ensures var s := Run(New(0, false), WAITING + [RecvAck(1, Message([], []))] + [Recv(None)]);
            s.state == Idle && s.ctx.timers == {DEADLINE} && !OwnsDeadline(s)
  {
    var s := WaitingRun();
    var bad := RecvAck(1, Message([], []));
    RunExtends(New(0, false), WAITING, bad);
    RunExtends(New(0, false), WAITING + [bad], Recv(None));
    var s1 := Step(s, bad);
    assert s1.state == s.state && s1.ctx.timers == {DEADLINE} && !s1.device && Answered(s1.ctx);
    var t := OnRecv(s1.(ctx := Call(s1.ctx, None)), None);
    assert t.state == Idle && t.ctx.timers == {DEADLINE} && DEADLINE in t.ctx.timers;
  }
}

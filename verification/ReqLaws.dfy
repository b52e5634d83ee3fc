/** What the requester keeps over every run. */
module ReqLaws {
  import opened Core
  import opened Scheduling
  import opened SchedulingLaws
  import opened Contexts
  import opened Backtrace
  import opened RequestIds
  import opened ReqProtocol

  // ---------------------------------------------------------------- readiness

  ghost predicate ToldOf(s: Socket) {
    Told(s.ctx, IsSendReady(s), IsRecvReady(s))
  }

  lemma AppliedTellsIff(s: Socket, t: Socket)
    requires t.ctx.raised == s.ctx.raised
    ensures ToldOf(Applied(s, t)) <==> ToldOf(s)
  {
    ChecksTellIff(t.ctx, IsSendReady(s), IsSendReady(t), IsRecvReady(s), IsRecvReady(t));
  }

  /** Removing an item never gives a cursor to a scheduler that has none, and a pop finds nothing there. */
  lemma NoneStaysNone(s: Sched, eid: EndpointId)
    requires !Peek(s)
    ensures !Peek(RemoveFollowing(s, eid)) && Pop(s) == (None, s)
  {
  }

  lemma NestedMovesOneSide(s: Socket, eid: EndpointId)
    ensures var t := OnPipeRemoved(s, eid);
            && t.device == s.device
            && (t.lb == s.lb || t.lb == Pop(s.lb).1)
            && (t.fq == s.fq || t.fq == Pop(s.fq).1)
            && (s.device || IsRecvReady(t) == IsRecvReady(s))
  {
  }

  lemma NestedAppliedTellsIff(s: Socket, s1: Socket, t: Socket)
    requires t.ctx.raised == s.ctx.raised
    requires IsSendReady(s) == IsSendReady(s1) || IsSendReady(s1) == IsSendReady(t)
    requires IsRecvReady(s) == IsRecvReady(s1) || IsRecvReady(s1) == IsRecvReady(t)
    ensures ToldOf(Noticed(s, s1, Applied(s1, t))) <==> ToldOf(s)
  {
    NestedChecksTellIff(t.ctx, IsSendReady(s), IsSendReady(s1), IsSendReady(t), IsRecvReady(s), IsRecvReady(s1), IsRecvReady(t));
  }

  /** Losing a pipe never makes a socket ready, and what is ready no more is not changed again by the nested transition. */
  lemma RemovalTellsIff(s: Socket, eid: EndpointId)
    ensures ToldOf(Removed(s, eid)) <==> ToldOf(s)
  {
    var s1 := Forget(s, eid);
    if eid in s.pipes {
      NestedMovesOneSide(s1, eid);
      if !Peek(s1.lb) {
        NoneStaysNone(s1.lb, eid);
      }
      if !Peek(s1.fq) {
        NoneStaysNone(s1.fq, eid);
      }
      NestedAppliedTellsIff(s, s1, OnPipeRemoved(s1, eid));
    } else {
      ChecksTellIff(s1.ctx, IsSendReady(s), IsSendReady(s1), IsRecvReady(s), IsRecvReady(s1));
    }
  }

  lemma StepTellsIff(s: Socket, ev: Event)
    ensures ToldOf(Step(s, ev)) <==> ToldOf(s)
  {
    if ev.AddPipe? {
    } else if ev.RemovePipe? {
      RemovalTellsIff(s, ev.eid);
    } else {
      AppliedTellsIff(s, Transition(s, ev));
    }
  }

  lemma {:induction false} RunTellsIff(s: Socket, evs: seq<Event>)
    ensures ToldOf(Run(s, evs)) <==> ToldOf(s)
    decreases |evs|
  {
    if evs != [] {
      StepTellsIff(s, evs[0]);
      RunTellsIff(Step(s, evs[0]), evs[1..]);
    }
  }

  /** After every run the last notices are the actual readiness, and notices strictly alternate. */
  lemma ReadinessIsTold(seed: nat, device: bool, evs: seq<Event>)
    ensures ToldOf(Run(New(seed, device), evs))
  {
    RunTellsIff(New(seed, device), evs);
  }

  /**
   Plugging raises no notice. After any run before it and any run after it the notices are right exactly if, when it
   was plugged, the socket was as ready to receive as a device as it had been for the user.
   */
  lemma PluggingTellsIff(seed: nat, before: seq<Event>, after: seq<Event>)
    ensures var s := Run(New(seed, false), before);
            ToldOf(Run(Plugged(s), after)) <==> (Peek(s.fq) <==> s.state.Active? && s.state.eid in s.rv)
  {
    ReadinessIsTold(seed, false, before);
    EveryRunMatches(seed, before);
    RunTellsIff(Plugged(Run(New(seed, false), before)), after);
  }

  // ---------------------------------------------------------------- agreement alone

  /** A side agrees after a step exactly if it did before or its readiness changed. */
  ghost predicate AgreesOn(s: Socket, r: Socket) {
    && (LastSend(r.ctx.raised) == IsSendReady(r) <==> LastSend(s.ctx.raised) == IsSendReady(s) || IsSendReady(s) != IsSendReady(r))
    && (LastRecv(r.ctx.raised) == IsRecvReady(r) <==> LastRecv(s.ctx.raised) == IsRecvReady(s) || IsRecvReady(s) != IsRecvReady(r))
  }

  lemma AppliedAgrees(s: Socket, t: Socket)
    requires t.ctx.raised == s.ctx.raised
    ensures AgreesOn(s, Applied(s, t))
  {
    ChecksAgreeIff(t.ctx, IsSendReady(s), IsSendReady(t), IsRecvReady(s), IsRecvReady(t));
  }

  lemma NestedAppliedAgrees(s: Socket, s1: Socket, t: Socket)
    requires t.ctx.raised == s.ctx.raised
    requires IsSendReady(s) == IsSendReady(s1) || IsSendReady(s1) == IsSendReady(t)
    requires IsRecvReady(s) == IsRecvReady(s1) || IsRecvReady(s1) == IsRecvReady(t)
    ensures AgreesOn(s, Noticed(s, s1, Applied(s1, t)))
  {
    NestedChecksAgreeIff(t.ctx, IsSendReady(s), IsSendReady(s1), IsSendReady(t), IsRecvReady(s), IsRecvReady(s1), IsRecvReady(t));
  }

  lemma RemovalAgrees(s: Socket, eid: EndpointId)
    ensures AgreesOn(s, Removed(s, eid))
  {
    var s1 := Forget(s, eid);
    if eid in s.pipes {
      NestedMovesOneSide(s1, eid);
      if !Peek(s1.lb) {
        NoneStaysNone(s1.lb, eid);
      }
      if !Peek(s1.fq) {
        NoneStaysNone(s1.fq, eid);
      }
      NestedAppliedAgrees(s, s1, OnPipeRemoved(s1, eid));
    } else {
      ChecksAgreeIff(s1.ctx, IsSendReady(s), IsSendReady(s1), IsRecvReady(s), IsRecvReady(s1));
    }
  }

  lemma StepAgrees(s: Socket, ev: Event)
    ensures AgreesOn(s, Step(s, ev))
  {
    if ev.RemovePipe? {
      RemovalAgrees(s, ev.eid);
    } else if !ev.AddPipe? {
      AppliedAgrees(s, Transition(s, ev));
    }
  }

  /** The readiness of each side changes at some point of the run. */
  predicate SendChanges(s: Socket, evs: seq<Event>)
    decreases |evs|
  {
    evs != [] && (IsSendReady(s) != IsSendReady(Step(s, evs[0])) || SendChanges(Step(s, evs[0]), evs[1..]))
  }

  predicate RecvChanges(s: Socket, evs: seq<Event>)
    decreases |evs|
  {
    evs != [] && (IsRecvReady(s) != IsRecvReady(Step(s, evs[0])) || RecvChanges(Step(s, evs[0]), evs[1..]))
  }

  /** So from any state, plugged or not, a wrong last notice is put right by the next change of readiness, and by nothing else. */
  lemma {:induction false} RunAgreesIff(s: Socket, evs: seq<Event>)
    ensures var r := Run(s, evs);
            && (LastSend(r.ctx.raised) == IsSendReady(r) <==> LastSend(s.ctx.raised) == IsSendReady(s) || SendChanges(s, evs))
            && (LastRecv(r.ctx.raised) == IsRecvReady(r) <==> LastRecv(s.ctx.raised) == IsRecvReady(s) || RecvChanges(s, evs))
    decreases |evs|
  {
    if evs != [] {
      StepAgrees(s, evs[0]);
      RunAgreesIff(Step(s, evs[0]), evs[1..]);
    }
  }

  // ---------------------------------------------------------------- reply matching

  /** `msg` is the request of the latest send. */
  predicate IsCurrent(s: Socket, seed: nat, msg: Message) {
    |s.ctx.submitted| > 0 && msg == Request(seed, s.ctx.submitted, |s.ctx.submitted|)
  }

  /** `msg` is the request of the latest send, and `eid` got the latest copy of it. */
  predicate IsOut(s: Socket, seed: nat, eid: EndpointId, msg: Message) {
    IsCurrent(s, seed, msg) && Latest(s.ctx.sent, (eid, msg))
  }

  /** The request held in a state is the current one, and a state that waits for a reply always knows of whom and to what. */
  predicate HoldsCurrent(s: Socket, seed: nat) {
    match s.state
    case Idle => true
    case Sending(eid, msg, _, _) => IsOut(s, seed, eid, msg)
    case SendOnHold(msg, _, _) => IsCurrent(s, seed, msg)
    case Active(eid, p) => IsOut(s, seed, eid, p.req)
    case Receiving(eid, expected, _) => expected.Some? && IsOut(s, seed, eid, expected.value.req)
    case RecvOnHold(from, expected, _) => from.Some? && expected.Some? && IsOut(s, seed, from.value, expected.value.req)
  }

  ghost predicate Matching(s: Socket, seed: nat) {
    && !s.device
    && s.seqNo == SeqAfter(seed, |s.ctx.submitted|)
    && OnlyRequests(seed, s.ctx)
    && HoldsCurrent(s, seed)
  }

  /** What matching looks at: the notices and the schedulers are no part of it. */
  lemma MatchingFrame(s: Socket, r: Socket, seed: nat)
    requires Matching(s, seed) && r.state == s.state && r.device == s.device && r.seqNo == s.seqNo
    requires r.ctx.submitted == s.ctx.submitted && r.ctx.sent == s.ctx.sent
    ensures Matching(r, seed)
  {
  }

  lemma TransmitMatches(s: Socket, seed: nat, msg: Message, timeout: Timeout, isRetry: bool)
    requires Matching(s.(state := Idle), seed) && IsCurrent(s, seed, msg)
    ensures Matching(Transmit(s, msg, timeout, isRetry), seed)
  {
    var r := Transmit(s, msg, timeout, isRetry);
    assert IsRequest(seed, s.ctx.submitted, msg);
    assert r.ctx.submitted == s.ctx.submitted;
  }

  lemma SubmissionMatches(s: Socket, seed: nat, msg: Message, timeout: Timeout)
    requires Matching(s, seed)
    ensures Matching(Submitted(s, msg, timeout), seed)
  {
    SubmitKeepsRequests(seed, s.ctx, msg, timeout);
    NextSeq(seed, |s.ctx.submitted|);
    var seqNo := (s.seqNo + 1) % TWO32;
    var s1 := s.(ctx := Submit(s.ctx, msg, timeout), seqNo := seqNo);
    var s2 := if s.state.Active? then s1.(ctx := Cancel(s1.ctx, s.state.pending.retry)) else s1;
    TransmitMatches(s2, seed, Encode(msg, IdOf(seqNo)), timeout, false);
  }

  lemma PipeLossMatches(s: Socket, seed: nat, eid: EndpointId)
    requires Matching(s, seed)
    ensures Matching(OnPipeRemoved(s, eid), seed)
  {
    match s.state
    case Sending(_, msg, timeout, isRetry) => TransmitMatches(s, seed, msg, timeout, isRetry);
    case Receiving(_, _, timeout) => RecvMatches(s.(state := Idle), seed, timeout);
    case _ =>
  }

  lemma RemovalMatches(s: Socket, seed: nat, eid: EndpointId)
    requires Matching(s, seed)
    ensures Matching(Removed(s, eid), seed)
  {
    var s1 := Forget(s, eid);
    MatchingFrame(s, s1, seed);
    PipeLossMatches(s1, seed, eid);
    MatchingFrame(if eid in s.pipes then OnPipeRemoved(s1, eid) else s1, Removed(s, eid), seed);
  }

  lemma ReplyForMatches(s: Socket, seed: nat, eid: EndpointId, p: Pending, timeout: Timeout)
    requires Matching(s.(state := Idle), seed) && IsOut(s, seed, eid, p.req)
    ensures Matching(RecvReplyFor(s, eid, p, timeout), seed)
  {
  }

  lemma RecvMatches(s: Socket, seed: nat, timeout: Timeout)
    requires Matching(s, seed)
    ensures Matching(OnRecv(s, timeout), seed)
  {
    if s.state.Active? {
      ReplyForMatches(s, seed, s.state.eid, s.state.pending, timeout);
    }
  }

  lemma AckMatches(s: Socket, seed: nat, eid: EndpointId, msg: Message, id: nat)
    requires Matching(s, seed)
    ensures Matching(OnRecvAck(s, eid, msg, id), seed)
  {
    if s.state.Receiving? && s.state.eid == eid {
      ReplyForMatches(s, seed, eid, s.state.expected.value, s.state.timeout);
    }
  }

  lemma SendAckMatches(s: Socket, seed: nat, eid: EndpointId, scheduled: Timeout)
    requires Matching(s, seed)
    ensures Matching(OnSendAck(s, eid, scheduled), seed)
  {
  }

  lemma SendReadyMatches(s: Socket, seed: nat, eid: EndpointId)
    requires Matching(s, seed)
    ensures Matching(OnSendReady(s, eid), seed)
  {
    if s.state.SendOnHold? {
      TransmitMatches(s.(lb := Activate(s.lb, eid)), seed, s.state.msg, s.state.timeout, s.state.isRetry);
    }
  }

  lemma RetryMatches(s: Socket, seed: nat)
    requires Matching(s, seed)
    ensures Matching(OnRetry(s), seed)
  {
    if s.state.Active? {
      TransmitMatches(s, seed, s.state.pending.req, None, true);
    }
  }

  lemma RecvReadyMatches(s: Socket, seed: nat, eid: EndpointId)
    requires Matching(s, seed)
    ensures Matching(OnRecvReady(s, eid), seed)
  {
    if s.state.RecvOnHold? {
      var s1 := s.(fq := Activate(s.fq, eid), rv := s.rv + {eid}, state := Active(s.state.from.value, s.state.expected.value));
      RecvMatches(s1, seed, s.state.timeout);
    }
  }

  lemma TransitionMatches(s: Socket, seed: nat, ev: Event)
    requires Matching(s, seed)
    ensures Matching(Transition(s, ev), seed)
  {
    match ev
    case Send(msg, t) => SubmissionMatches(s, seed, msg, t);
    case SendAck(eid, scheduled) => SendAckMatches(s, seed, eid, scheduled);
    case SendReady(eid) => SendReadyMatches(s, seed, eid);
    case Retry(t) => RetryMatches(s.(ctx := Fire(s.ctx, t)), seed);
    case RecvAck(eid, raw) =>
      if Decode(raw).Some? {
        AckMatches(s, seed, eid, Decode(raw).value.0, Decode(raw).value.1);
      }
    case RecvReady(eid) => RecvReadyMatches(s, seed, eid);
    case Recv(t) => RecvMatches(s.(ctx := Call(s.ctx, t)), seed, t);
    case _ =>
  }

  lemma StepMatches(s: Socket, seed: nat, ev: Event)
    requires Matching(s, seed)
    ensures Matching(Step(s, ev), seed)
  {
    if ev.AddPipe? {
    } else if ev.RemovePipe? {
      RemovalMatches(s, seed, ev.eid);
    } else {
      TransitionMatches(s, seed, ev);
      MatchingFrame(Transition(s, ev), Step(s, ev), seed);
    }
  }

  lemma {:induction false} RunMatches(s: Socket, seed: nat, evs: seq<Event>)
    requires Matching(s, seed)
    ensures Matching(Run(s, evs), seed)
    decreases |evs|
  {
    if evs != [] {
      StepMatches(s, seed, evs[0]);
      RunMatches(Step(s, evs[0]), seed, evs[1..]);
    }
  }

  /**
   In every run of a regular socket, what a state holds (through retries and pipe losses) is the request of the
   latest send, the states without a pending request are not reached, and only requests are on the wire.
   */
  lemma EveryRunMatches(seed: nat, evs: seq<Event>)
    ensures Matching(Run(New(seed, false), evs), seed)
  {
    RunMatches(New(seed, false), seed, evs);
  }

  /** What an event may tell the user: a failure, or what an acknowledgment or a reply is due. */
  predicate MayTell(s: Socket, ev: Event, a: Reply) {
    match a
    case Failed(_) => true
    case SendDone => ev.SendAck? && s.state.Sending? && s.state.eid == ev.eid && !s.state.isRetry
    case RecvDone(msg) =>
      && ev.RecvAck? && s.state.Receiving? && s.state.eid == ev.eid
      && Decode(ev.raw).Some? && Decode(ev.raw).value.0 == msg
      && (!s.device && s.state.expected.Some? ==> Decode(ev.raw).value.1 == IdOf(s.seqNo))
  }

  ghost predicate Tells(s: Socket, ev: Event, replies: seq<Reply>) {
    replies == s.ctx.replies || exists a :: MayTell(s, ev, a) && replies == s.ctx.replies + [a]
  }

  lemma FailureIsTold(s: Socket, ev: Event, replies: seq<Reply>, p: Problem)
    requires replies == s.ctx.replies || replies == s.ctx.replies + [Failed(p)]
    ensures Tells(s, ev, replies)
  {
    assert MayTell(s, ev, Failed(p));
  }

  lemma SendAckTells(s: Socket, eid: EndpointId, scheduled: Timeout)
    ensures Tells(s, SendAck(eid, scheduled), OnSendAck(s, eid, scheduled).ctx.replies)
  {
    var r := OnSendAck(s, eid, scheduled);
    if r.ctx.replies != s.ctx.replies {
      assert MayTell(s, SendAck(eid, scheduled), SendDone);
      assert r.ctx.replies == s.ctx.replies + [SendDone];
    }
  }

  lemma ReceiptTells(s: Socket, eid: EndpointId, raw: Message)
    ensures Tells(s, RecvAck(eid, raw), Received(s, eid, raw).ctx.replies)
  {
    var ev, r := RecvAck(eid, raw), Received(s, eid, raw);
    if Decode(raw).None? {
      FailureIsTold(s, ev, r.ctx.replies, Malformed);
    } else if r.ctx.replies != s.ctx.replies {
      assert MayTell(s, ev, RecvDone(Decode(raw).value.0));
      assert r.ctx.replies == s.ctx.replies + [RecvDone(Decode(raw).value.0)];
    }
  }

  lemma TransitionTells(s: Socket, ev: Event)
    ensures Tells(s, ev, Transition(s, ev).ctx.replies)
  {
    var replies := Transition(s, ev).ctx.replies;
    match ev
    case SendAck(eid, scheduled) => SendAckTells(s, eid, scheduled);
    case RecvAck(eid, raw) => ReceiptTells(s, eid, raw);
    case SendTimeout(_) => FailureIsTold(s, ev, replies, TimedOut);
    case RecvTimeout(_) => FailureIsTold(s, ev, replies, TimedOut);
    case Recv(_) => FailureIsTold(s, ev, replies, Inactive);
    case RecvReady(_) => FailureIsTold(s, ev, replies, Inactive);
    case _ =>
  }

  lemma StepTellsTheUser(s: Socket, ev: Event)
    ensures Tells(s, ev, Step(s, ev).ctx.replies)
  {
    if ev.AddPipe? {
    } else if ev.RemovePipe? {
      FailureIsTold(s, ev, Step(s, ev).ctx.replies, Inactive);
    } else {
      TransitionTells(s, ev);
    }
  }

  lemma StepTellsOnly(s: Socket, ev: Event, a: Reply)
    requires Step(s, ev).ctx.replies == s.ctx.replies + [a]
    ensures MayTell(s, ev, a)
  {
    StepTellsTheUser(s, ev);
    assert Step(s, ev).ctx.replies[|s.ctx.replies|] == a;
  }

  /**
   After any run, a message is handed to the user only if it is a reply bearing the id of the latest send,
   from the endpoint that got the latest copy of that request.
   */
  lemma OnlyTheMatchingReplyDelivers(seed: nat, evs: seq<Event>, ev: Event, msg: Message)
    requires var s := Run(New(seed, false), evs);
             Step(s, ev).ctx.replies == s.ctx.replies + [RecvDone(msg)]
    ensures var c := Run(New(seed, false), evs).ctx;
            && ev.RecvAck? && |c.submitted| > 0
            && Decode(ev.raw) == Some((msg, IdOf(SeqAfter(seed, |c.submitted|))))
            && Latest(c.sent, (ev.eid, Request(seed, c.submitted, |c.submitted|)))
  {
    EveryRunMatches(seed, evs);
    StepTellsOnly(Run(New(seed, false), evs), ev, RecvDone(msg));
  }

  /** So a reply to send `j` that is handed over after `n` sends means that `n - j` is a multiple of 2^31. */
  lemma OnlyTheLatestSendIsAnswered(seed: nat, evs: seq<Event>, ev: Event, msg: Message, j: nat)
    requires var s := Run(New(seed, false), evs);
             Step(s, ev).ctx.replies == s.ctx.replies + [RecvDone(msg)]
    requires ev.RecvAck? ==> Decode(ev.raw) == Some((msg, IdOf(SeqAfter(seed, j))))
    requires j <= |Run(New(seed, false), evs).ctx.submitted|
    ensures var n := |Run(New(seed, false), evs).ctx.submitted|;
            (n - j) % TWO31 == 0 && (n < j + TWO31 ==> j == n)
  {
    OnlyTheMatchingReplyDelivers(seed, evs, ev, msg);
    var n := |Run(New(seed, false), evs).ctx.submitted|;
    IdsCollideIff(seed, j, n);
  }

  /** Conversely, that reply is handed over at once when it comes from the pipe being received from. */
  lemma TheMatchingReplyDelivers(seed: nat, evs: seq<Event>, eid: EndpointId, raw: Message, msg: Message)
    requires var s := Run(New(seed, false), evs);
             && s.state.Receiving? && s.state.eid == eid
             && Decode(raw) == Some((msg, IdOf(SeqAfter(seed, |s.ctx.submitted|))))
    ensures var s := Run(New(seed, false), evs);
            var r := Step(s, RecvAck(eid, raw));
            r.ctx.replies == s.ctx.replies + [RecvDone(msg)] && r.state == Idle
  {
    EveryRunMatches(seed, evs);
  }

  /** After any run, a send is acknowledged to the user only by the pipe that was given its request, and not for a retry. */
  lemma OnlyTheUsedPipeAcknowledges(seed: nat, evs: seq<Event>, ev: Event)
    requires Step(Run(New(seed, false), evs), ev).ctx.replies == Run(New(seed, false), evs).ctx.replies + [SendDone]
    ensures var s := Run(New(seed, false), evs);
            && ev.SendAck? && s.state.Sending? && !s.state.isRetry
            && |s.ctx.submitted| > 0 && Latest(s.ctx.sent, (ev.eid, Request(seed, s.ctx.submitted, |s.ctx.submitted|)))
  {
    EveryRunMatches(seed, evs);
    StepTellsOnly(Run(New(seed, false), evs), ev, SendDone);
  }

  // ---------------------------------------------------------------- work conservation

  /** Endpoint ids are distinct, and priorities are those the facade documents. */
  predicate Enabled(s: Socket, ev: Event) {
    ev.AddPipe? ==> ev.eid !in s.pipes && ev.sendPriority <= LOWEST && ev.recvPriority <= LOWEST
  }

  predicate EnabledRun(s: Socket, evs: seq<Event>)
    decreases |evs|
  {
    evs == [] || (Enabled(s, evs[0]) && EnabledRun(Step(s, evs[0]), evs[1..]))
  }

  ghost predicate InStep(s: Socket) {
    Valid(s.lb) && Valid(s.fq) && Ids(s.lb) == s.pipes && Ids(s.fq) == s.pipes
  }

  /** A send waits only if no pipe is ready for it, and a receive only if none that could serve it is. */
  ghost predicate WaitsForNothingReady(s: Socket) {
    match s.state
    case SendOnHold(_, _, _) => ActiveIds(s.lb) == {}
    case RecvOnHold(None, expected, _) => expected.None? && ActiveIds(s.fq) == {}
    case RecvOnHold(Some(eid), expected, _) => expected.Some? && eid !in s.rv
    case _ => true
  }

  ghost predicate Conserving(s: Socket) {
    InStep(s) && WaitsForNothingReady(s)
  }

  /** Only the schedulers, the sets and the state matter. */
  lemma ConservingFrame(s: Socket, r: Socket)
    requires Conserving(s) && r == s.(ctx := r.ctx)
    ensures Conserving(r)
  {
  }

  lemma TransmitConserves(s: Socket, msg: Message, timeout: Timeout, isRetry: bool)
    requires InStep(s)
    ensures Conserving(Transmit(s, msg, timeout, isRetry))
  {
    PopKeeps(s.lb);
    assert ActiveIds(s.lb) <= Ids(s.lb);
  }

  lemma DeviceRecvConserves(s: Socket, timeout: Timeout)
    requires InStep(s) && s.device
    ensures Conserving(OnRecv(s, timeout))
  {
    PopKeeps(s.fq);
    assert ActiveIds(s.fq) <= Ids(s.fq);
  }

  lemma RecvConserves(s: Socket, timeout: Timeout)
    requires InStep(s)
    ensures Conserving(OnRecv(s, timeout))
  {
    if s.device {
      DeviceRecvConserves(s, timeout);
    }
  }

  lemma ForgetConserves(s: Socket, eid: EndpointId)
    requires Conserving(s)
    ensures Conserving(Forget(s, eid))
  {
    RemoveFollowingKeeps(s.lb, eid);
    RemoveFollowingKeeps(s.fq, eid);
  }

  lemma PipeLossConserves(s: Socket, eid: EndpointId)
    requires Conserving(s)
    ensures Conserving(OnPipeRemoved(s, eid))
  {
    match s.state
    case Sending(_, msg, timeout, isRetry) => TransmitConserves(s, msg, timeout, isRetry);
    case Receiving(_, _, timeout) => RecvConserves(s.(state := Idle), timeout);
    case _ =>
  }

  lemma RemovalConserves(s: Socket, eid: EndpointId)
    requires Conserving(s)
    ensures Conserving(Removed(s, eid))
  {
    var s1 := Forget(s, eid);
    ForgetConserves(s, eid);
    PipeLossConserves(s1, eid);
    ConservingFrame(if eid in s.pipes then OnPipeRemoved(s1, eid) else s1, Removed(s, eid));
  }

  lemma RecvReadyConserves(s: Socket, eid: EndpointId)
    requires Conserving(s)
    ensures Conserving(OnRecvReady(s, eid))
  {
    ActivateKeeps(s.fq, eid);
    var s1 := s.(fq := Activate(s.fq, eid), rv := s.rv + {eid});
    match s.state
    case RecvOnHold(None, None, timeout) => RecvConserves(s1.(state := Idle), timeout);
    case RecvOnHold(Some(id), Some(p), timeout) => RecvConserves(s1.(state := Active(id, p)), timeout);
    case _ =>
  }

  lemma SubmissionConserves(s: Socket, msg: Message, t: Timeout)
    requires Conserving(s)
    ensures Conserving(Submitted(s, msg, t))
  {
    var s1 := s.(ctx := Submit(s.ctx, msg, t), seqNo := if s.device then s.seqNo else (s.seqNo + 1) % TWO32);
    var s2 := if s.state.Active? then s1.(ctx := Cancel(s1.ctx, s.state.pending.retry)) else s1;
    TransmitConserves(s2, if s.device then msg else Encode(msg, IdOf(s1.seqNo)), t, false);
  }

  lemma SendReadyConserves(s: Socket, eid: EndpointId)
    requires Conserving(s)
    ensures Conserving(OnSendReady(s, eid))
  {
    ActivateKeeps(s.lb, eid);
    if s.state.SendOnHold? {
      TransmitConserves(s.(lb := Activate(s.lb, eid)), s.state.msg, s.state.timeout, s.state.isRetry);
    }
  }

  lemma RetryConserves(s: Socket)
    requires Conserving(s)
    ensures Conserving(OnRetry(s))
  {
    if s.state.Active? {
      TransmitConserves(s, s.state.pending.req, None, true);
    }
  }

  lemma ReceiptConserves(s: Socket, eid: EndpointId, raw: Message)
    requires Conserving(s)
    ensures Conserving(Received(s, eid, raw))
  {
  }

  lemma TransitionConserves(s: Socket, ev: Event)
    requires Conserving(s)
    ensures Conserving(Transition(s, ev))
  {
    match ev
    case Send(msg, t) => SubmissionConserves(s, msg, t);
    case SendReady(eid) => SendReadyConserves(s, eid);
    case SendNotReady(eid) => DeactivateKeeps(s.lb, eid);
    case Recv(t) => RecvConserves(s.(ctx := Call(s.ctx, t)), t);
    case RecvAck(eid, raw) => ReceiptConserves(s, eid, raw);
    case RecvReady(eid) => RecvReadyConserves(s, eid);
    case RecvNotReady(eid) => DeactivateKeeps(s.fq, eid);
    case Retry(t) => RetryConserves(s.(ctx := Fire(s.ctx, t)));
    case _ =>
  }

  lemma StepConserves(s: Socket, ev: Event)
    requires Conserving(s) && Enabled(s, ev)
    ensures Conserving(Step(s, ev))
  {
    if ev.AddPipe? {
      InsertKeeps(s.lb, ev.eid, ev.sendPriority);
      InsertKeeps(s.fq, ev.eid, ev.recvPriority);
    } else if ev.RemovePipe? {
      RemovalConserves(s, ev.eid);
    } else {
      TransitionConserves(s, ev);
      ConservingFrame(Transition(s, ev), Step(s, ev));
    }
  }

  lemma {:induction false} RunConserves(s: Socket, evs: seq<Event>)
    requires Conserving(s) && EnabledRun(s, evs)
    ensures Conserving(Run(s, evs))
    decreases |evs|
  {
    if evs != [] {
      StepConserves(s, evs[0]);
      RunConserves(Step(s, evs[0]), evs[1..]);
    }
  }

  /** Every run, of a regular socket or of a device's, keeps the schedulers in step with the pipes and wastes no readiness. */
  lemma EveryRunConserves(seed: nat, device: bool, evs: seq<Event>)
    requires EnabledRun(New(seed, device), evs)
    ensures Conserving(Run(New(seed, device), evs))
  {
    RunConserves(New(seed, device), evs);
  }

  // ---------------------------------------------------------------- sending again

  /** A retry or a lost pipe calls for the request to go out again. */
  predicate CallsForResend(s: Socket, ev: Event) {
    || (ev.Retry? && s.state.Active?)
    || (ev.RemovePipe? && ev.eid in s.pipes && s.state.Sending? && s.state.eid == ev.eid)
  }

  /** The request that is held. */
  function HeldRequest(s: Socket): (m: Option<Message>) {
    match s.state
    case Idle => None
    case Sending(_, msg, _, _) => Some(msg)
    case SendOnHold(msg, _, _) => Some(msg)
    case Active(_, p) => Some(p.req)
    case Receiving(_, Some(p), _) => Some(p.req)
    case RecvOnHold(_, Some(p), _) => Some(p.req)
    case _ => None
  }

  /** The pipes that are left to send to. */
  ghost function ReadyLeft(s: Socket, ev: Event): (r: set<EndpointId>) {
    if ev.RemovePipe? then ActiveIds(s.lb) - {ev.eid} else ActiveIds(s.lb)
  }

  lemma TransmitsIff(s: Socket, msg: Message, timeout: Timeout, isRetry: bool)
    requires InStep(s)
    ensures var r := Transmit(s, msg, timeout, isRetry);
            if ActiveIds(s.lb) == {} then r.state == SendOnHold(msg, timeout, isRetry) && r.ctx == s.ctx
            else r.state.Sending? && r.state.eid in ActiveIds(s.lb) && r.ctx == SendTo(s.ctx, r.state.eid, msg)
  {
    PopKeeps(s.lb);
    assert ActiveIds(s.lb) <= Ids(s.lb);
  }

  /** The request goes out again, to a pipe that is ready, or waits for one. */
  ghost predicate GoesOut(s: Socket, ev: Event, r: Socket)
    requires HeldRequest(s).Some?
  {
    if ReadyLeft(s, ev) == {} then r.state.SendOnHold? && r.state.msg == HeldRequest(s).value && r.ctx.sent == s.ctx.sent
    else r.state.Sending? && r.state.eid in ReadyLeft(s, ev) && r.ctx.sent == s.ctx.sent + [(r.state.eid, HeldRequest(s).value)]
  }

  lemma RetryResendsIff(s: Socket, t: Timer)
    requires InStep(s)
    ensures var r := Step(s, Retry(t));
            if s.state.Active? then GoesOut(s, Retry(t), r) else r.ctx.sent == s.ctx.sent && r.state == s.state
  {
    if s.state.Active? {
      TransmitsIff(s.(ctx := Fire(s.ctx, t)), s.state.pending.req, None, true);
    }
  }

  lemma LossResendsIff(s: Socket, eid: EndpointId)
    requires InStep(s)
    ensures var r := Step(s, RemovePipe(eid));
            if CallsForResend(s, RemovePipe(eid)) then GoesOut(s, RemovePipe(eid), r) else r.ctx.sent == s.ctx.sent
  {
    var s1 := Forget(s, eid);
    RemoveFollowingKeeps(s.lb, eid);
    RemoveFollowingKeeps(s.fq, eid);
    if CallsForResend(s, RemovePipe(eid)) {
      TransmitsIff(s1, s.state.msg, s.state.timeout, s.state.isRetry);
    }
  }

  /**
   After any run, a retry that is due or a pipe that is lost puts the request of the latest send out again exactly if
   the socket is active, or was handing it to that very pipe, and a pipe is ready; without one it waits.
   */
  lemma ResentExactlyIf(seed: nat, evs: seq<Event>, ev: Event)
    requires EnabledRun(New(seed, false), evs) && (ev.Retry? || ev.RemovePipe?)
    ensures var s := Run(New(seed, false), evs);
            && (Step(s, ev).ctx.sent != s.ctx.sent <==> CallsForResend(s, ev) && ReadyLeft(s, ev) != {})
            && (CallsForResend(s, ev) ==> IsCurrent(s, seed, HeldRequest(s).value) && GoesOut(s, ev, Step(s, ev)))
  {
    var s := Run(New(seed, false), evs);
    RunConserves(New(seed, false), evs);
    EveryRunMatches(seed, evs);
    if ev.Retry? {
      RetryResendsIff(s, ev.timer);
    } else {
      LossResendsIff(s, ev.eid);
    }
  }

  // ---------------------------------------------------------------- the code's own removal

  predicate Strands(s: Socket, ev: Event) {
    ev.RemovePipe? && (CursorStranded(s.lb, ev.eid) || CursorStranded(s.fq, ev.eid))
  }

  predicate NeverStrands(s: Socket, evs: seq<Event>)
    decreases |evs|
  {
    evs == [] || (!Strands(s, evs[0]) && NeverStrands(Step(s, evs[0]), evs[1..]))
  }

  /** At every point of the run the code does what the laws are about. */
  predicate AlwaysTheCodes(s: Socket, evs: seq<Event>)
    decreases |evs|
  {
    evs == [] || (CodeStep(s, evs[0]) == Some(Step(s, evs[0])) && AlwaysTheCodes(Step(s, evs[0]), evs[1..]))
  }

  lemma NothingPanics(s: Socket, ev: Event)
    requires Valid(s.lb) && Valid(s.fq) && !ev.RemovePipe?
    ensures !Panics(s, ev)
  {
    if ev.SendReady? {
      ActivateKeeps(s.lb, ev.eid);
    }
    if ev.RecvReady? {
      ActivateKeeps(s.fq, ev.eid);
    }
  }

  /** What a removal leaves in a scheduler that it does not pop is what the socket holds. */
  lemma UnpoppedStays(s: Socket, s1: Socket, eid: EndpointId)
    ensures var r := AfterDrop(s, s1, eid);
            && (!(s1.state.Sending? && s1.state.eid == eid) ==> r.lb == s1.lb)
            && (!(s.device && s1.state.Receiving? && s1.state.eid == eid) && s1.device == s.device ==> r.fq == s1.fq)
            && (eid !in s.pipes ==> r.lb == s1.lb && r.fq == s1.fq)
  {
  }

  lemma CodeRemovalIff(s: Socket, eid: EndpointId)
    requires InStep(s)
    ensures CodeStep(s, RemovePipe(eid)) == Some(Step(s, RemovePipe(eid))) <==> !Strands(s, RemovePipe(eid))
  {
    RemoveKeepsCursorIff(s.lb, eid);
    RemoveKeepsCursorIff(s.fq, eid);
    if Strands(s, RemovePipe(eid)) && !Panics(s, RemovePipe(eid)) {
      UnpoppedStays(s, Dropped(s, eid, Remove(s.lb, eid), Remove(s.fq, eid)), eid);
      UnpoppedStays(s, Forget(s, eid), eid);
    } else if !Strands(s, RemovePipe(eid)) {
      assert Dropped(s, eid, Remove(s.lb, eid), Remove(s.fq, eid)) == Forget(s, eid);
    }
  }

  /** From a state in order the code takes the documented step exactly if no removal strands a cursor. */
  lemma CodeStepIff(s: Socket, ev: Event)
    requires InStep(s)
    ensures CodeStep(s, ev) == Some(Step(s, ev)) <==> !Strands(s, ev)
  {
    if ev.RemovePipe? {
      CodeRemovalIff(s, ev.eid);
    } else {
      NothingPanics(s, ev);
    }
  }

  lemma {:induction false} CodeRunIff(s: Socket, evs: seq<Event>)
    requires Conserving(s) && EnabledRun(s, evs)
    ensures AlwaysTheCodes(s, evs) <==> NeverStrands(s, evs)
    ensures NeverStrands(s, evs) ==> CodeRun(s, evs) == Some(Run(s, evs))
    decreases |evs|
  {
    if evs != [] {
      CodeStepIff(s, evs[0]);
      StepConserves(s, evs[0]);
      CodeRunIff(Step(s, evs[0]), evs[1..]);
    }
  }

  /** A run of the code is at every point what the laws are about exactly if no removal strands a cursor. */
  lemma EveryCodeRunIff(seed: nat, device: bool, evs: seq<Event>)
    requires EnabledRun(New(seed, device), evs)
    ensures AlwaysTheCodes(New(seed, device), evs) <==> NeverStrands(New(seed, device), evs)
    ensures NeverStrands(New(seed, device), evs) ==> CodeRun(New(seed, device), evs) == Some(Run(New(seed, device), evs))
  {
    CodeRunIff(New(seed, device), evs);
  }

  // ---------------------------------------------------------------- answers

  /** A call of the user is waiting; a retry is none. */
  predicate Busy(s: Socket) {
    match s.state
    case Idle => false
    case Active(_, _) => false
    case Sending(_, _, _, isRetry) => !isRetry
    case SendOnHold(_, _, isRetry) => !isRetry
    case Receiving(_, _, _) => true
    case RecvOnHold(_, _, _) => true
  }

  function Held(s: Socket): (t: Timeout) {
    if Busy(s) then s.state.timeout else None
  }

  /** The retry timer of the pending request. */
  function HeldRetry(s: Socket): (t: Timeout) {
    match s.state
    case Active(_, p) => p.retry
    case Receiving(_, Some(p), _) => p.retry
    case RecvOnHold(_, Some(p), _) => p.retry
    case _ => None
  }

  /** Each timer held is of its kind, and a retry is not timed. */
  predicate Timed(s: Socket) {
    && IsKind(HeldRetry(s), ResendTimer)
    && match s.state
       case Sending(_, _, timeout, isRetry) => if isRetry then timeout == None else IsKind(timeout, SendTimer)
       case SendOnHold(_, timeout, isRetry) => if isRetry then timeout == None else IsKind(timeout, SendTimer)
       case Receiving(_, _, timeout) => IsKind(timeout, RecvTimer)
       case RecvOnHold(_, _, timeout) => IsKind(timeout, RecvTimer)
       case _ => true
  }

  /** Every call but the one waiting was answered once, and only that one has a timer. */
  ghost predicate OneEach(s: Socket) {
    && |s.ctx.replies| + (if Busy(s) then 1 else 0) == s.ctx.calls
    && OwnsTimers(s.ctx, Held(s))
    && Timed(s)
  }

  /** Calls wait for the answer to the previous one, and timers fire only while live. */
  predicate Orderly(s: Socket, ev: Event) {
    match ev
    case Send(_, t) => Answered(s.ctx) && FreshTimer(s.ctx, t, SendTimer)
    case Recv(t) => Answered(s.ctx) && FreshTimer(s.ctx, t, RecvTimer)
    case SendAck(_, t) => FreshTimer(s.ctx, t, ResendTimer)
    case SendTimeout(t) => t in s.ctx.timers && t.kind == SendTimer
    case RecvTimeout(t) => t in s.ctx.timers && t.kind == RecvTimer
    case Retry(t) => t in s.ctx.timers && t.kind == ResendTimer
    case _ => true
  }

  predicate OrderlyRun(s: Socket, evs: seq<Event>)
    decreases |evs|
  {
    evs == [] || (Orderly(s, evs[0]) && OrderlyRun(Step(s, evs[0]), evs[1..]))
  }

  /** A reply too short to hold an id. */
  predicate IsMalformed(ev: Event) {
    ev.RecvAck? && |ev.raw.body| < 4
  }

  /** What a transition may do to the answers: `n` more calls than answers, and the timer of the one waiting. */
  ghost predicate Balanced(c: Ctx, calls: nat, held: Timeout) {
    |c.replies| + calls == c.calls && OwnsTimers(c, held)
  }

  lemma OneEachFrame(s: Socket, r: Socket)
    requires r.state == s.state && r.ctx == s.ctx.(raised := r.ctx.raised)
    ensures OneEach(r) <==> OneEach(s)
  {
  }

  lemma TransmitAnswers(s: Socket, msg: Message, timeout: Timeout, isRetry: bool)
    requires Balanced(s.ctx, if isRetry then 0 else 1, timeout)
    requires if isRetry then timeout == None else IsKind(timeout, SendTimer)
    ensures OneEach(Transmit(s, msg, timeout, isRetry))
  {
  }

  lemma RecvAnswers(s: Socket, timeout: Timeout)
    requires Balanced(s.ctx, 1, timeout) && IsKind(timeout, RecvTimer) && IsKind(HeldRetry(s), ResendTimer)
    ensures OneEach(OnRecv(s, timeout))
  {
  }

  lemma SubmissionAnswers(s: Socket, msg: Message, timeout: Timeout)
    requires OneEach(s) && Orderly(s, Send(msg, timeout))
    ensures OneEach(Submitted(s, msg, timeout))
  {
    var s1 := s.(ctx := Submit(s.ctx, msg, timeout), seqNo := if s.device then s.seqNo else (s.seqNo + 1) % TWO32);
    var s2 := if s.state.Active? then s1.(ctx := Cancel(s1.ctx, s.state.pending.retry)) else s1;
    TransmitAnswers(s2, if s.device then msg else Encode(msg, IdOf(s1.seqNo)), timeout, false);
  }

  lemma PipeLossAnswers(s: Socket, eid: EndpointId)
    requires OneEach(s)
    ensures OneEach(OnPipeRemoved(s, eid))
  {
    match s.state
    case Sending(_, msg, timeout, isRetry) => TransmitAnswers(s, msg, timeout, isRetry);
    case Receiving(_, _, timeout) => RecvAnswers(s.(state := Idle), timeout);
    case _ =>
  }

  lemma RemovalAnswers(s: Socket, eid: EndpointId)
    requires OneEach(s)
    ensures OneEach(Removed(s, eid))
  {
    var s1 := Forget(s, eid);
    OneEachFrame(s, s1);
    PipeLossAnswers(s1, eid);
    OneEachFrame(if eid in s.pipes then OnPipeRemoved(s1, eid) else s1, Removed(s, eid));
  }

  lemma RecvReadyAnswers(s: Socket, eid: EndpointId)
    requires OneEach(s)
    ensures OneEach(OnRecvReady(s, eid))
  {
    var s1 := s.(fq := Activate(s.fq, eid), rv := s.rv + {eid});
    match s.state
    case RecvOnHold(None, None, timeout) => RecvAnswers(s1.(state := Idle), timeout);
    case RecvOnHold(Some(id), Some(p), timeout) => RecvAnswers(s1.(state := Active(id, p)), timeout);
    case _ =>
  }

  lemma AckAnswers(s: Socket, eid: EndpointId, msg: Message, id: nat)
    requires OneEach(s)
    ensures OneEach(OnRecvAck(s, eid, msg, id))
  {
  }

  lemma ReceiptAnswersIff(s: Socket, eid: EndpointId, raw: Message)
    requires OneEach(s)
    ensures OneEach(Received(s, eid, raw)) <==> |raw.body| >= 4
  {
    if Decode(raw).Some? {
      AckAnswers(s, eid, Decode(raw).value.0, if s.device then IdOf(s.seqNo) else Decode(raw).value.1);
    }
  }

  lemma SendAckAnswers(s: Socket, eid: EndpointId, scheduled: Timeout)
    requires OneEach(s) && IsKind(scheduled, ResendTimer)
    ensures OneEach(OnSendAck(s, eid, scheduled))
  {
  }

  lemma SendReadyAnswers(s: Socket, eid: EndpointId)
    requires OneEach(s)
    ensures OneEach(OnSendReady(s, eid))
  {
    if s.state.SendOnHold? {
      TransmitAnswers(s.(lb := Activate(s.lb, eid)), s.state.msg, s.state.timeout, s.state.isRetry);
    }
  }

  lemma SendTimeoutAnswers(s: Socket, t: Timer)
    requires OneEach(s) && t in s.ctx.timers && t.kind == SendTimer
    ensures OneEach(s.(ctx := Answer(Fire(s.ctx, t), Failed(TimedOut)), state := Idle))
  {
    assert IsCallTimer(t);
  }

  lemma RecvTimeoutAnswers(s: Socket, t: Timer)
    requires OneEach(s) && t in s.ctx.timers && t.kind == RecvTimer
    ensures OneEach(OnRecvTimeout(s.(ctx := Fire(s.ctx, t))))
  {
    assert IsCallTimer(t);
  }

  lemma RetryAnswers(s: Socket, t: Timer)
    requires OneEach(s) && t.kind == ResendTimer
    ensures OneEach(OnRetry(s.(ctx := Fire(s.ctx, t))))
  {
    if s.state.Active? {
      TransmitAnswers(s.(ctx := Fire(s.ctx, t)), s.state.pending.req, None, true);
    }
  }

  lemma TransitionAnswersIff(s: Socket, ev: Event)
    requires OneEach(s) && Orderly(s, ev)
    ensures OneEach(Transition(s, ev)) <==> !IsMalformed(ev)
  {
    match ev
    case Send(msg, t) => SubmissionAnswers(s, msg, t);
    case SendAck(eid, scheduled) => SendAckAnswers(s, eid, scheduled);
    case SendTimeout(t) => SendTimeoutAnswers(s, t);
    case SendReady(eid) => SendReadyAnswers(s, eid);
    case Recv(t) => RecvAnswers(s.(ctx := Call(s.ctx, t)), t);
    case RecvAck(eid, raw) => ReceiptAnswersIff(s, eid, raw);
    case RecvTimeout(t) => RecvTimeoutAnswers(s, t);
    case RecvReady(eid) => RecvReadyAnswers(s, eid);
    case Retry(t) => RetryAnswers(s, t);
    case _ =>
  }

  /** From a state in order, a step keeps the balance exactly when it is not the receipt of a malformed reply. */
  lemma StepAnswersIff(s: Socket, ev: Event)
    requires OneEach(s) && Orderly(s, ev)
    ensures OneEach(Step(s, ev)) <==> !IsMalformed(ev)
  {
    if ev.AddPipe? {
    } else if ev.RemovePipe? {
      RemovalAnswers(s, ev.eid);
    } else {
      TransitionAnswersIff(s, ev);
      OneEachFrame(Transition(s, ev), Step(s, ev));
    }
  }

  /** The balance holds at every point of a run. */
  ghost predicate AlwaysOneEach(s: Socket, evs: seq<Event>)
    decreases |evs|
  {
    OneEach(s) && (evs == [] || AlwaysOneEach(Step(s, evs[0]), evs[1..]))
  }

  predicate WellFormed(evs: seq<Event>) {
    forall i :: 0 <= i < |evs| ==> !IsMalformed(evs[i])
  }

  lemma {:induction false} RunAnswersIff(s: Socket, evs: seq<Event>)
    requires OneEach(s) && OrderlyRun(s, evs)
    ensures AlwaysOneEach(s, evs) <==> WellFormed(evs)
    ensures WellFormed(evs) ==> OneEach(Run(s, evs))
    decreases |evs|
  {
    if evs != [] {
      StepAnswersIff(s, evs[0]);
      if !IsMalformed(evs[0]) {
        RunAnswersIff(Step(s, evs[0]), evs[1..]);
        assert forall i :: 0 < i < |evs| ==> evs[i] == evs[1..][i - 1];
      }
    }
  }

  /**
   A run answers each call exactly once, retries or not, and leaves no timer of a call behind, exactly if it
   receives no malformed reply.
   */
  lemma EveryRunAnswersIff(seed: nat, device: bool, evs: seq<Event>)
    requires OrderlyRun(New(seed, device), evs)
    ensures AlwaysOneEach(New(seed, device), evs) <==> WellFormed(evs)
    ensures WellFormed(evs) ==> OneEach(Run(New(seed, device), evs))
  {
    RunAnswersIff(New(seed, device), evs);
  }

  // ---------------------------------------------------------------- the retry timer

  /** The only live retry timer is the one held; a device holds none. */
  ghost predicate OwnsRetry(s: Socket) {
    && (forall t :: t in s.ctx.timers && t.kind == ResendTimer ==> HeldRetry(s) == Some(t))
    && (s.device ==> HeldRetry(s) == None)
  }

  predicate RetryIsLive(s: Socket) {
    HeldRetry(s).Some? && HeldRetry(s).value in s.ctx.timers
  }

  /** With the retry timer live, the pending request is dropped by something that does not cancel it. */
  predicate DropsRetry(s: Socket, ev: Event) {
    && RetryIsLive(s)
    && match ev
       case RemovePipe(eid) => eid in s.pipes && s.state.Receiving? && s.state.eid == eid
       case Send(_, _) => !s.state.Active?
       case Recv(_) => !s.state.Active?
       case SendTimeout(_) => true
       case RecvTimeout(_) => s.state.Active?
       case _ => false
  }

  lemma OwnsRetryFrame(s: Socket, r: Socket)
    requires r.state == s.state && r.ctx.timers == s.ctx.timers && r.device == s.device
    ensures OwnsRetry(r) <==> OwnsRetry(s)
  {
  }

  lemma TimedFrame(s: Socket, r: Socket)
    requires r.state == s.state
    ensures Timed(r) <==> Timed(s)
  {
  }

  lemma SendSideIsTimed(s: Socket, ev: Event)
    requires Timed(s) && Orderly(s, ev) && (ev.Send? || ev.SendAck? || ev.SendTimeout? || ev.SendReady? || ev.SendNotReady? || ev.Retry?)
    ensures Timed(Transition(s, ev))
  {
  }

  lemma RecvSideIsTimed(s: Socket, ev: Event)
    requires Timed(s) && Orderly(s, ev) && (ev.Recv? || ev.RecvAck? || ev.RecvTimeout? || ev.RecvReady? || ev.RecvNotReady?)
    ensures Timed(Transition(s, ev))
  {
  }

  lemma TransitionIsTimed(s: Socket, ev: Event)
    requires Timed(s) && Orderly(s, ev)
    ensures Timed(Transition(s, ev))
  {
    if ev.Recv? || ev.RecvAck? || ev.RecvTimeout? || ev.RecvReady? || ev.RecvNotReady? {
      RecvSideIsTimed(s, ev);
    } else if !ev.AddPipe? && !ev.RemovePipe? {
      SendSideIsTimed(s, ev);
    }
  }

  lemma RemovalIsTimed(s: Socket, eid: EndpointId)
    requires Timed(s)
    ensures Timed(Removed(s, eid))
  {
    var s1 := Forget(s, eid);
    TimedFrame(if eid in s.pipes then OnPipeRemoved(s1, eid) else s1, Removed(s, eid));
  }

  lemma StepIsTimed(s: Socket, ev: Event)
    requires Timed(s) && Orderly(s, ev)
    ensures Timed(Step(s, ev))
  {
    if ev.RemovePipe? {
      RemovalIsTimed(s, ev.eid);
    } else if !ev.AddPipe? {
      TransitionIsTimed(s, ev);
      TimedFrame(Transition(s, ev), Step(s, ev));
    }
  }

  lemma SubmissionOwnsIff(s: Socket, msg: Message, timeout: Timeout)
    requires Timed(s) && OwnsRetry(s) && Orderly(s, Send(msg, timeout))
    ensures OwnsRetry(Submitted(s, msg, timeout)) <==> !DropsRetry(s, Send(msg, timeout))
  {
    var c := Submit(s.ctx, msg, timeout);
    var c1 := if s.state.Active? then Cancel(c, s.state.pending.retry) else c;
    var r := Submitted(s, msg, timeout);
    assert r.ctx.timers == c1.timers && HeldRetry(r) == None && r.device == s.device;
  }

  lemma SendAckOwns(s: Socket, eid: EndpointId, scheduled: Timeout)
    requires Timed(s) && OwnsRetry(s)
    ensures OwnsRetry(OnSendAck(s, eid, scheduled))
  {
  }

  lemma SendReadyOwns(s: Socket, eid: EndpointId)
    requires OwnsRetry(s)
    ensures OwnsRetry(OnSendReady(s, eid))
  {
  }

  lemma RetryOwns(s: Socket, t: Timer)
    requires OwnsRetry(s) && t in s.ctx.timers && t.kind == ResendTimer
    ensures OwnsRetry(OnRetry(s.(ctx := Fire(s.ctx, t))))
  {
  }

  /** A receive keeps the pending request of an active socket; of any other it drops it. */
  lemma RecvOwnsIff(s: Socket, timeout: Timeout)
    requires OwnsRetry(s) && IsKind(timeout, RecvTimer) && IsKind(HeldRetry(s), ResendTimer)
    ensures OwnsRetry(OnRecv(s, timeout)) <==> s.state.Active? || !RetryIsLive(s)
  {
  }

  lemma RecvReadyOwns(s: Socket, eid: EndpointId)
    requires Timed(s) && OwnsRetry(s)
    ensures OwnsRetry(OnRecvReady(s, eid))
  {
    var s1 := s.(fq := Activate(s.fq, eid), rv := s.rv + {eid});
    match s.state
    case RecvOnHold(None, None, timeout) => RecvOwnsIff(s1.(state := Idle), timeout);
    case RecvOnHold(Some(id), Some(p), timeout) => RecvOwnsIff(s1.(state := Active(id, p)), timeout);
    case _ =>
  }

  lemma ReceiptOwns(s: Socket, eid: EndpointId, raw: Message)
    requires Timed(s) && OwnsRetry(s)
    ensures OwnsRetry(Received(s, eid, raw))
  {
  }

  lemma TimeoutsOwnIff(s: Socket, t: Timer)
    requires Timed(s) && OwnsRetry(s) && t.kind != ResendTimer
    ensures OwnsRetry(s.(ctx := Answer(Fire(s.ctx, t), Failed(TimedOut)), state := Idle)) <==> !RetryIsLive(s)
    ensures OwnsRetry(OnRecvTimeout(s.(ctx := Fire(s.ctx, t)))) <==> !(s.state.Active? && RetryIsLive(s))
  {
  }

  lemma TransitionOwnsIff(s: Socket, ev: Event)
    requires Timed(s) && OwnsRetry(s) && Orderly(s, ev) && !ev.RemovePipe?
    ensures OwnsRetry(Transition(s, ev)) <==> !DropsRetry(s, ev)
  {
    match ev
    case Send(msg, t) => SubmissionOwnsIff(s, msg, t);
    case SendAck(eid, scheduled) => SendAckOwns(s, eid, scheduled);
    case SendTimeout(t) => TimeoutsOwnIff(s, t);
    case SendReady(eid) => SendReadyOwns(s, eid);
    case Recv(t) => RecvOwnsIff(s.(ctx := Call(s.ctx, t)), t);
    case RecvAck(eid, raw) => ReceiptOwns(s, eid, raw);
    case RecvTimeout(t) => TimeoutsOwnIff(s, t);
    case RecvReady(eid) => RecvReadyOwns(s, eid);
    case Retry(t) => RetryOwns(s, t);
    case _ =>
  }

  lemma PipeLossOwnsIff(s: Socket, eid: EndpointId)
    requires Timed(s) && OwnsRetry(s)
    ensures OwnsRetry(OnPipeRemoved(s, eid)) <==> !(s.state.Receiving? && s.state.eid == eid && RetryIsLive(s))
  {
    if s.state.Receiving? && s.state.eid == eid {
      var r := OnPipeRemoved(s, eid);
      assert HeldRetry(r) == None;
      assert RetryIsLive(s) ==> HeldRetry(s).value in r.ctx.timers;
    }
  }

  lemma RemovalOwnsIff(s: Socket, eid: EndpointId)
    requires Timed(s) && OwnsRetry(s)
    ensures OwnsRetry(Removed(s, eid)) <==> !DropsRetry(s, RemovePipe(eid))
  {
    var s1 := Forget(s, eid);
    OwnsRetryFrame(s, s1);
    PipeLossOwnsIff(s1, eid);
    OwnsRetryFrame(if eid in s.pipes then OnPipeRemoved(s1, eid) else s1, Removed(s, eid));
  }

  lemma StepOwnsIff(s: Socket, ev: Event)
    requires Timed(s) && OwnsRetry(s) && Orderly(s, ev)
    ensures OwnsRetry(Step(s, ev)) <==> !DropsRetry(s, ev)
  {
    if ev.RemovePipe? {
      RemovalOwnsIff(s, ev.eid);
    } else if !ev.AddPipe? {
      TransitionOwnsIff(s, ev);
      OwnsRetryFrame(Transition(s, ev), Step(s, ev));
    }
  }

  ghost predicate AlwaysOwnsRetry(s: Socket, evs: seq<Event>)
    decreases |evs|
  {
    OwnsRetry(s) && (evs == [] || AlwaysOwnsRetry(Step(s, evs[0]), evs[1..]))
  }

  predicate NeverDropsRetry(s: Socket, evs: seq<Event>)
    decreases |evs|
  {
    evs == [] || (!DropsRetry(s, evs[0]) && NeverDropsRetry(Step(s, evs[0]), evs[1..]))
  }

  lemma {:induction false} RunOwnsIff(s: Socket, evs: seq<Event>)
    requires Timed(s) && OwnsRetry(s) && OrderlyRun(s, evs)
    ensures AlwaysOwnsRetry(s, evs) <==> NeverDropsRetry(s, evs)
    decreases |evs|
  {
    if evs != [] {
      StepIsTimed(s, evs[0]);
      StepOwnsIff(s, evs[0]);
      if !DropsRetry(s, evs[0]) {
        RunOwnsIff(Step(s, evs[0]), evs[1..]);
      }
    }
  }

  /** An orderly run leaves no retry timer behind exactly if it never drops a request whose timer is live. */
  lemma EveryRunOwnsRetryIff(seed: nat, device: bool, evs: seq<Event>)
    requires OrderlyRun(New(seed, device), evs)
    ensures AlwaysOwnsRetry(New(seed, device), evs) <==> NeverDropsRetry(New(seed, device), evs)
  {
    RunOwnsIff(New(seed, device), evs);
  }

  /** While no reply is malformed, the only way to drop it is to lose the pipe being received from. */
  lemma OnlyLossDropsRetry(s: Socket, ev: Event)
    requires OneEach(s) && Orderly(s, ev)
    ensures DropsRetry(s, ev) ==> ev.RemovePipe? && s.state.Receiving? && s.state.eid == ev.eid
  {
    if ev.SendTimeout? || ev.RecvTimeout? {
      assert IsCallTimer(ev.timer);
    }
  }

  // ---------------------------------------------------------------- runs that go wrong

  /** A socket with one pipe and nothing under way. */
  function Lone(active: bool, ready: bool, seqNo: nat, state: State, ctx: Ctx): (s: Socket) {
    Socket(state, One(1, 8, active), One(1, 8, ready), if ready then {1} else {}, {1}, seqNo, false, ctx)
  }

  lemma {:induction false} RunExtends(s: Socket, evs: seq<Event>, ev: Event)
    ensures Run(s, evs + [ev]) == Step(Run(s, evs), ev)
    ensures OrderlyRun(s, evs + [ev]) <==> OrderlyRun(s, evs) && Orderly(Run(s, evs), ev)
    decreases |evs|
  {
    if evs == [] {
      assert (evs + [ev])[1..] == [];
    } else {
      RunExtends(Step(s, evs[0]), evs[1..], ev);
      assert (evs + [ev])[1..] == evs[1..] + [ev];
    }
  }

  const RETRY: Timer := Timer(ResendTimer, 7)
  const READY: seq<Event> := [AddPipe(1, 8, 8)] + [SendReady(1)]
  const OUT: seq<Event> := READY + [Send(Message([], []), None)]
  const ACKNOWLEDGED: seq<Event> := OUT + [SendAck(1, Some(RETRY))]
  /** The request is out and the user waits for the reply to it. */
  const WAITING: seq<Event> := ACKNOWLEDGED + [Recv(None)]

  /** A run of the user's that is in order and leads to `s`. */
  predicate Reaches(evs: seq<Event>, s: Socket) {
    Run(New(0, false), evs) == s && OrderlyRun(New(0, false), evs)
  }

  lemma OutRun() returns (s: Socket)
    ensures Reaches(OUT, s) && !s.device && s.pipes == {1}
    ensures s.state.Sending? && s.state.eid == 1 && s.state.timeout == None && !s.state.isRetry
    ensures s.ctx.calls == 1 && s.ctx.replies == [] && s.ctx.timers == {} && s.ctx.asked == []
  {
    OneItem(1, 8);
    var s0 := Run(New(0, false), [AddPipe(1, 8, 8)]);
    assert s0 == Lone(false, false, 0, Idle, START);
    RunExtends(New(0, false), [AddPipe(1, 8, 8)], SendReady(1));
    var s1 := Step(s0, SendReady(1));
    assert s1.lb == One(1, 8, true) && s1.state == Idle && s1.ctx.calls == 0 && s1.ctx.replies == [] && s1.ctx.asked == [];
    RunExtends(New(0, false), READY, Send(Message([], []), None));
    s := Step(s1, Send(Message([], []), None));
  }

  lemma AcknowledgedRun() returns (s: Socket)
    ensures Reaches(ACKNOWLEDGED, s) && !s.device && s.pipes == {1}
    ensures s.state.Active? && s.state.eid == 1 && s.state.pending.retry == Some(RETRY)
    ensures s.ctx.calls == 1 && s.ctx.replies == [SendDone] && s.ctx.timers == {RETRY} && s.ctx.asked == []
  {
    var s2 := OutRun();
    RunExtends(New(0, false), OUT, SendAck(1, Some(RETRY)));
    s := Step(s2, SendAck(1, Some(RETRY)));
  }

  lemma WaitingRun() returns (s: Socket)
    ensures Reaches(WAITING, s) && !s.device && s.pipes == {1}
    ensures s.state.Receiving? && s.state.eid == 1 && s.state.timeout == None && |s.ctx.replies| + 1 == s.ctx.calls
    ensures HeldRetry(s) == Some(RETRY) && s.ctx.timers == {RETRY} && s.ctx.asked == [1]
  {
    var s3 := AcknowledgedRun();
    RunExtends(New(0, false), ACKNOWLEDGED, Recv(None));
    s := Step(s3, Recv(None));
  }

  /** Losing the pipe there leaves the retry timer live in an idle socket. */
  lemma RetryCanBeLost()
    ensures OrderlyRun(New(0, false), WAITING)
    ensures var s := Run(New(0, false), WAITING + [RemovePipe(1)]);
            s.state == Idle && s.ctx.timers == {RETRY} && !OwnsRetry(s)
  {
    var s := WaitingRun();
    RunExtends(New(0, false), WAITING, RemovePipe(1));
    var t := OnPipeRemoved(Forget(s, 1), 1);
    assert t.state == Idle && t.ctx.timers == {RETRY};
    assert RETRY in t.ctx.timers;
  }

  /** A device plugged while an idle socket has something to read: nobody is told. */
  lemma PluggingCanLie()
    ensures !ToldOf(Plugged(Run(New(0, false), [AddPipe(1, 8, 8)] + [RecvReady(1)])))
  {
    OneItem(1, 8);
    var s0 := Run(New(0, false), [AddPipe(1, 8, 8)]);
    assert s0 == Lone(false, false, 0, Idle, START);
    RunExtends(New(0, false), [AddPipe(1, 8, 8)], RecvReady(1));
    var s := Step(s0, RecvReady(1));
    assert s.fq == One(1, 8, true) && s.state == Idle;
    PluggingTellsIff(0, [AddPipe(1, 8, 8)] + [RecvReady(1)], []);
  }

  /** After a malformed reply, so does the next send of the user. */
  lemma RetryCanBeSentOver()
    ensures OrderlyRun(New(0, false), WAITING + [RecvAck(1, Message([], []))] + [Send(Message([], []), None)])
    ensures var s := Run(New(0, false), WAITING + [RecvAck(1, Message([], []))] + [Send(Message([], []), None)]);
            RETRY in s.ctx.timers && !OwnsRetry(s)
  {
    var s := WaitingRun();
    var bad, again := RecvAck(1, Message([], [])), Send(Message([], []), None);
    RunExtends(New(0, false), WAITING, bad);
    RunExtends(New(0, false), WAITING + [bad], again);
    var s1 := Step(s, bad);
    assert s1.state == s.state && s1.ctx.timers == {RETRY} && !s1.device && Answered(s1.ctx);
    TransitionDropsAtSend(s1);
  }

  lemma TransitionDropsAtSend(s: Socket)
    requires !s.device && s.state.Receiving? && s.ctx.timers == {RETRY}
    ensures var r := Step(s, Send(Message([], []), None));
            RETRY in r.ctx.timers && !OwnsRetry(r)
  {
    var r := Submitted(s, Message([], []), None);
    assert HeldRetry(r) == None && RETRY in r.ctx.timers;
  }
}

/** What the bus keeps over every run. */
module BusLaws {
  import opened Core
  import opened Scheduling
  import opened SchedulingLaws
  import opened Contexts
  import opened Broadcast
  import opened BusProtocol

  // ---------------------------------------------------------------- readiness

  ghost predicate ToldOf(s: Socket) {
    Told(s.ctx, IsSendReady(s), IsRecvReady(s))
  }

  lemma AppliedTellsIff(s: Socket, t: Socket)
    requires t.ctx.raised == s.ctx.raised
    ensures ToldOf(Applied(s, t)) <==> ToldOf(s)
  {
    ChecksTellIff(t.ctx, IsSendReady(s), IsSendReady(t), IsRecvReady(s), IsRecvReady(t));
  }

  lemma NestedAppliedTellsIff(s: Socket, s1: Socket, t: Socket)
    requires t.ctx.raised == s.ctx.raised
    requires IsSendReady(s) == IsSendReady(s1) || IsSendReady(s1) == IsSendReady(t)
    requires IsRecvReady(s) == IsRecvReady(s1) || IsRecvReady(s1) == IsRecvReady(t)
    ensures ToldOf(Noticed(s, s1, Applied(s1, t))) <==> ToldOf(s)
  {
    NestedChecksTellIff(t.ctx, IsSendReady(s), IsSendReady(s1), IsSendReady(t), IsRecvReady(s), IsRecvReady(s1), IsRecvReady(t));
  }

  /** Losing a pipe never makes a socket ready to receive, and what is ready no more is not changed again by the nested transition. */
  lemma RemovalChangesOnce(s: Socket, eid: EndpointId)
    ensures var s1 := Forget(s, eid);
            var t := OnPipeRemoved(s1, eid);
            && IsSendReady(s1) == IsSendReady(t)
            && (IsRecvReady(s) == IsRecvReady(s1) || IsRecvReady(s1) == IsRecvReady(t))
  {
  }

  lemma RemovalTellsIff(s: Socket, eid: EndpointId)
    ensures ToldOf(Removed(s, eid)) <==> ToldOf(s)
  {
    var s1 := Forget(s, eid);
    if eid in s.pipes {
      RemovalChangesOnce(s, eid);
      NestedAppliedTellsIff(s, s1, OnPipeRemoved(s1, eid));
    } else {
      ChecksTellIff(s1.ctx, IsSendReady(s), IsSendReady(s1), IsRecvReady(s), IsRecvReady(s1));
    }
  }

  lemma StepTellsIff(s: Socket, ev: Event)
    ensures ToldOf(Step(s, ev)) <==> ToldOf(s)
  {
    if ev.AddPipe? {
    } else if ev.RemovePipe? {
      RemovalTellsIff(s, ev.eid);
    } else {
      AppliedTellsIff(s, Transition(s, ev));
    }
  }

  lemma {:induction false} RunTellsIff(s: Socket, evs: seq<Event>)
    ensures ToldOf(Run(s, evs)) <==> ToldOf(s)
    decreases |evs|
  {
    if evs != [] {
      StepTellsIff(s, evs[0]);
      RunTellsIff(Step(s, evs[0]), evs[1..]);
    }
  }

  /** After every run the last notices are the actual readiness, and notices strictly alternate. */
  lemma ReadinessIsTold(evs: seq<Event>)
    ensures ToldOf(Run(NEW, evs))
  {
    RunTellsIff(NEW, evs);
  }

  // ---------------------------------------------------------------- one send

  /** What came off the wire is what is put back on it, and its endpoint is named modulo 2^32. */
  lemma CodecRoundTrip(body: Bytes, eid: EndpointId)
    ensures Encode(Decode(Message([], body), eid)) == (Message([], body), Some(eid % TWO32))
  {
    Word32(eid);
    assert [] + BE32(eid) == BE32(eid);
    assert BE32(eid)[..4] == BE32(eid) && BE32(eid)[4..] == [];
  }

  /** A message without an originator reaches every ready pipe exactly once. */
  lemma PlainSendReachesAll(s: Socket, msg: Message, timeout: Timeout, order: seq<EndpointId>)
    requires IsDrain(order, s.bc) && |msg.header| < 4
    ensures var r := Step(s, Send(msg, timeout, order));
            multiset(r.ctx.sent) == multiset(s.ctx.sent) + Once(s.bc * s.pipes, msg) && r.bc == {}
  {
    ReachesEachOnce(Submit(s.ctx, msg, timeout), order, s.bc, s.pipes, msg);
  }

  /** What goes out when what came from `eid` is sent on. */
  ghost predicate GoesToTheOthers(s: Socket, r: Socket, raw: Message, eid: EndpointId) {
    && multiset(r.ctx.sent) == multiset(s.ctx.sent) + Once(s.bc * s.pipes - {eid % TWO32}, raw)
    && (eid in s.bc * s.pipes - {eid % TWO32} <==> eid >= TWO32 && eid in s.bc && eid in s.pipes)
    && r.bc == s.bc * {eid % TWO32}
  }

  lemma SentByStep(s: Socket, msg: Message, timeout: Timeout, order: seq<EndpointId>)
    ensures var r := Step(s, Send(msg, timeout, order));
            var t := Transmit(s.(ctx := Submit(s.ctx, msg, timeout)), Encode(msg).0, Encode(msg).1, order);
            r.ctx.sent == t.ctx.sent && r.bc == t.bc
  {
  }

  /** The originator is left out, ready or not. */
  lemma TransmitReachesOthers(s: Socket, raw: Message, oid: EndpointId, order: seq<EndpointId>)
    requires IsDrain(order, s.bc)
    ensures var r := Transmit(s, raw, Some(oid), order);
            multiset(r.ctx.sent) == multiset(s.ctx.sent) + Once(s.bc * s.pipes - {oid}, raw) && r.bc == s.bc * {oid}
  {
    if oid in s.bc {
      ReachesEachOnce(s.ctx, order, s.bc, s.pipes - {oid}, raw);
      assert s.bc * (s.pipes - {oid}) == s.bc * s.pipes - {oid};
    } else {
      ReachesEachOnce(s.ctx, order, s.bc, s.pipes, raw);
      assert s.bc * s.pipes == s.bc * s.pipes - {oid};
    }
  }

  /**
   A message received from `eid` and sent on unchanged reaches every other ready pipe exactly once, as it came off
   the wire, whether or not `eid` is ready. It never goes back to an endpoint below 2^32; it goes back to a larger
   one exactly when that one is ready.
   */
  lemma NoEcho(s: Socket, body: Bytes, eid: EndpointId, timeout: Timeout, order: seq<EndpointId>)
    requires IsDrain(order, s.bc)
    ensures var raw := Message([], body);
            GoesToTheOthers(s, Step(s, Send(Decode(raw, eid), timeout, order)), raw, eid)
  {
    var raw := Message([], body);
    var msg := Decode(raw, eid);
    CodecRoundTrip(body, eid);
    SentByStep(s, msg, timeout, order);
    TransmitReachesOthers(s.(ctx := Submit(s.ctx, msg, timeout)), raw, eid % TWO32, order);
  }

  // ---------------------------------------------------------------- no echo over runs

  /** The messages handed to the user, in order. */
  function HandedOver(replies: seq<Reply>): (r: seq<Message>) {
    if replies == [] then []
    else
      var n := |replies| - 1;
      HandedOver(replies[..n]) + if replies[n].RecvDone? then [replies[n].msg] else []
  }

  lemma HandedSnoc(replies: seq<Reply>, reply: Reply)
    ensures HandedOver(replies + [reply]) == HandedOver(replies) + if reply.RecvDone? then [reply.msg] else []
  {
    assert (replies + [reply])[..|replies|] == replies;
  }

  /** What a step takes off a wire for the user, and from whom. */
  function Taken(s: Socket, ev: Event): (r: seq<(EndpointId, Message)>) {
    if ev.RecvAck? && s.state.Receiving? && s.state.eid == ev.eid then [(ev.eid, ev.raw)] else []
  }

  function AllTaken(s: Socket, evs: seq<Event>): (r: seq<(EndpointId, Message)>)
    decreases |evs|
  {
    if evs == [] then [] else Taken(s, evs[0]) + AllTaken(Step(s, evs[0]), evs[1..])
  }

  function Decoded(taken: seq<(EndpointId, Message)>): (r: seq<Message>)
    ensures |r| == |taken| && forall i :: 0 <= i < |r| ==> r[i] == Decode(taken[i].1, taken[i].0)
  {
    seq(|taken|, i requires 0 <= i < |taken| => Decode(taken[i].1, taken[i].0))
  }

  lemma TransitionHands(s: Socket, ev: Event)
    ensures HandedOver(Transition(s, ev).ctx.replies) == HandedOver(s.ctx.replies) + Decoded(Taken(s, ev))
  {
    if Taken(s, ev) != [] {
      HandedSnoc(s.ctx.replies, RecvDone(Decode(ev.raw, ev.eid)));
      assert Decoded(Taken(s, ev)) == [Decode(ev.raw, ev.eid)];
    } else {
      assert Decoded([]) == [];
      HandedSnoc(s.ctx.replies, SendDone);
      HandedSnoc(s.ctx.replies, Failed(TimedOut));
    }
  }

  lemma StepHands(s: Socket, ev: Event)
    ensures HandedOver(Step(s, ev).ctx.replies) == HandedOver(s.ctx.replies) + Decoded(Taken(s, ev))
  {
    if ev.RemovePipe? {
      assert Removed(s, ev.eid).ctx.replies == s.ctx.replies;
    } else if !ev.AddPipe? {
      TransitionHands(s, ev);
    }
  }

  lemma DecodedJoins(now: seq<(EndpointId, Message)>, later: seq<(EndpointId, Message)>, before: seq<Message>)
    ensures before + Decoded(now) + Decoded(later) == before + Decoded(now + later)
  {
    assert Decoded(now + later) == Decoded(now) + Decoded(later);
  }

  lemma {:induction false} RunHands(s: Socket, evs: seq<Event>)
    ensures HandedOver(Run(s, evs).ctx.replies) == HandedOver(s.ctx.replies) + Decoded(AllTaken(s, evs))
    decreases |evs|
  {
    if evs != [] {
      StepHands(s, evs[0]);
      RunHands(Step(s, evs[0]), evs[1..]);
      DecodedJoins(Taken(s, evs[0]), AllTaken(Step(s, evs[0]), evs[1..]), HandedOver(s.ctx.replies));
    }
  }

  /** A pipe hands up messages without a header. */
  predicate OffTheWire(evs: seq<Event>) {
    forall i :: 0 <= i < |evs| && evs[i].RecvAck? ==> evs[i].raw.header == []
  }

  lemma {:induction false} TakenOffTheWire(s: Socket, evs: seq<Event>)
    requires OffTheWire(evs)
    ensures forall i :: 0 <= i < |AllTaken(s, evs)| ==> AllTaken(s, evs)[i].1.header == []
    decreases |evs|
  {
    if evs != [] {
      TakenOffTheWire(Step(s, evs[0]), evs[1..]);
    }
  }

  /**
   After any run, each message the user ever got in it is the one taken off the wire at that turn, and sent on, however
   late, it reaches every other ready pipe exactly once, as it came off the wire, and never the endpoint it came from
   if that is below 2^32.
   */
  lemma NoEchoOverRuns(evs: seq<Event>, k: nat, timeout: Timeout, order: seq<EndpointId>)
    requires OffTheWire(evs) && k < |HandedOver(Run(NEW, evs).ctx.replies)| && IsDrain(order, Run(NEW, evs).bc)
    ensures var s := Run(NEW, evs);
            var msg := HandedOver(s.ctx.replies)[k];
            && |AllTaken(NEW, evs)| == |HandedOver(s.ctx.replies)|
            && var (eid, raw) := AllTaken(NEW, evs)[k];
               GoesToTheOthers(s, Step(s, Send(msg, timeout, order)), raw, eid)
  {
    var s := Run(NEW, evs);
    RunHands(NEW, evs);
    TakenOffTheWire(NEW, evs);
    var (eid, raw) := AllTaken(NEW, evs)[k];
    assert raw == Message([], raw.body);
    NoEcho(s, raw.body, eid, timeout, order);
  }

  // ---------------------------------------------------------------- answers, timers and work

  /** Calls wait for the answer to the previous one, timers fire only while live, endpoint ids are distinct. */
  predicate Enabled(s: Socket, ev: Event) {
    match ev
    case AddPipe(eid, p) => eid !in s.pipes && p <= LOWEST
    case Send(_, t, _) => Answered(s.ctx) && FreshTimer(s.ctx, t, SendTimer)
    case Recv(t) => Answered(s.ctx) && FreshTimer(s.ctx, t, RecvTimer)
    case SendTimeout(t) => t in s.ctx.timers && t.kind == SendTimer
    case RecvTimeout(t) => t in s.ctx.timers && t.kind == RecvTimer
    case _ => true
  }

  predicate EnabledRun(s: Socket, evs: seq<Event>)
    decreases |evs|
  {
    evs == [] || (Enabled(s, evs[0]) && EnabledRun(Step(s, evs[0]), evs[1..]))
  }

  /**
   One answer per call, the live timers are those held, a call waits only if no pipe has anything to read, and the
   pipe awaited is the one asked last and still there.
   */
  ghost predicate Inv(s: Socket) {
    && Valid(s.fq) && Ids(s.fq) == s.pipes
    && (s.state.Receiving? ==> s.state.eid in s.pipes && Latest(s.ctx.asked, s.state.eid))
    && |s.ctx.replies| + (if s.state.Idle? then 0 else 1) == s.ctx.calls
    && s.ctx.timers == (if s.state.Idle? then {} else TimerSet(s.state.timeout))
    && (!s.state.Idle? && s.state.timeout.Some? ==> s.state.timeout.value.kind == RecvTimer)
    && (s.state.RecvOnHold? ==> ActiveIds(s.fq) == {})
  }

  lemma RequestKeeps(s: Socket, timeout: Timeout)
    requires Valid(s.fq) && Ids(s.fq) == s.pipes
    ensures var r := Request(s, timeout);
            && Valid(r.fq) && Ids(r.fq) == r.pipes == s.pipes
            && (r.state.Receiving? || r.state.RecvOnHold?) && r.state.timeout == timeout
            && (r.state.RecvOnHold? ==> ActiveIds(r.fq) == {})
            && (r.state.Receiving? ==> r.state.eid in r.pipes)
            && r.ctx == if r.state.Receiving? then RecvFrom(s.ctx, r.state.eid) else s.ctx
  {
    PopKeeps(s.fq);
    var (id, fq) := Pop(s.fq);
    assert id.Some? ==> id.value in Ids(s.fq) by {
      assert ActiveIds(s.fq) <= Ids(s.fq);
    }
  }

  lemma InvFrame(s: Socket, r: Socket)
    requires Inv(s) && r == s.(bc := r.bc, ctx := s.ctx.(raised := r.ctx.raised, sent := r.ctx.sent))
    ensures Inv(r)
  {
  }

  /** A send leaves the receiving half alone. */
  lemma SendKeeps(s: Socket, msg: Message, t: Timeout, order: seq<EndpointId>)
    requires Inv(s) && Enabled(s, Send(msg, t, order))
    ensures Inv(Transition(s, Send(msg, t, order)))
  {
    var (raw, oid) := Encode(msg);
    var s1 := Transmit(s.(ctx := Submit(s.ctx, msg, t)), raw, oid, order);
    assert s1 == s.(bc := s1.bc, ctx := Submit(s.ctx, msg, t).(sent := s1.ctx.sent));
    assert s.ctx.timers + TimerSet(t) - TimerSet(t) == s.ctx.timers;
  }

  lemma PipeLossKeeps(s: Socket, s1: Socket, eid: EndpointId)
    requires Inv(s) && s.state.Receiving? && s.state.eid == eid && s1 == Forget(s, eid)
    ensures Inv(OnPipeRemoved(s1, eid))
  {
    RemoveFollowingKeeps(s.fq, eid);
    RequestKeeps(s1, s.state.timeout);
  }

  lemma RemovalKeeps(s: Socket, eid: EndpointId)
    requires Inv(s)
    ensures Inv(Removed(s, eid))
  {
    var s1 := Forget(s, eid);
    RemoveFollowingKeeps(s.fq, eid);
    if s.state.Receiving? && s.state.eid == eid {
      PipeLossKeeps(s, s1, eid);
      InvFrame(OnPipeRemoved(s1, eid), Removed(s, eid));
    } else {
      InvFrame(s1, Removed(s, eid));
    }
  }

  lemma RecvKeeps(s: Socket, t: Timeout)
    requires Inv(s) && Enabled(s, Recv(t))
    ensures Inv(Transition(s, Recv(t)))
  {
    RequestKeeps(s.(ctx := Call(s.ctx, t)), t);
  }

  lemma RecvReadyKeeps(s: Socket, eid: EndpointId)
    requires Inv(s)
    ensures Inv(Transition(s, RecvReady(eid)))
  {
    var s1 := s.(fq := Activate(s.fq, eid));
    ActivateKeeps(s.fq, eid);
    if s.state.RecvOnHold? {
      RequestKeeps(s1, s.state.timeout);
    }
  }

  lemma TransitionKeeps(s: Socket, ev: Event)
    requires Inv(s) && Enabled(s, ev)
    ensures Inv(Transition(s, ev))
  {
    if ev.Send? {
      SendKeeps(s, ev.msg, ev.timeout, ev.order);
    } else if ev.Recv? {
      RecvKeeps(s, ev.timeout);
    } else if ev.RecvReady? {
      RecvReadyKeeps(s, ev.eid);
    } else if ev.RecvNotReady? {
      DeactivateKeeps(s.fq, ev.eid);
    }
  }

  lemma StepKeeps(s: Socket, ev: Event)
    requires Inv(s) && Enabled(s, ev)
    ensures Inv(Step(s, ev))
  {
    if ev.AddPipe? {
      InsertKeeps(s.fq, ev.eid, ev.priority);
    } else if ev.RemovePipe? {
      RemovalKeeps(s, ev.eid);
    } else {
      TransitionKeeps(s, ev);
      InvFrame(Transition(s, ev), Step(s, ev));
    }
  }

  lemma {:induction false} RunKeeps(s: Socket, evs: seq<Event>)
    requires Inv(s) && EnabledRun(s, evs)
    ensures Inv(Run(s, evs))
    decreases |evs|
  {
    if evs != [] {
      StepKeeps(s, evs[0]);
      RunKeeps(Step(s, evs[0]), evs[1..]);
    }
  }

  /** Every run answers each call exactly once, leaves no timer behind, and never waits while a pipe has anything to read. */
  lemma EveryRun(evs: seq<Event>)
    requires EnabledRun(NEW, evs)
    ensures Inv(Run(NEW, evs))
  {
    RunKeeps(NEW, evs);
  }

  /** After any run, what is handed to the user came from the pipe that was asked last, and says so. */
  lemma OnlyTheAskedPipeDelivers(evs: seq<Event>, ev: Event, msg: Message)
    requires EnabledRun(NEW, evs) && Enabled(Run(NEW, evs), ev)
    requires var s := Run(NEW, evs);
             Step(s, ev).ctx.replies == s.ctx.replies + [RecvDone(msg)]
    ensures ev.RecvAck? && msg == Decode(ev.raw, ev.eid) && Latest(Run(NEW, evs).ctx.asked, ev.eid)
  {
    RunKeeps(NEW, evs);
    var s := Run(NEW, evs);
    assert Step(s, ev).ctx.replies[|s.ctx.replies|] == RecvDone(msg);
  }

  // ---------------------------------------------------------------- the code's own removal

  predicate Strands(s: Socket, ev: Event) {
    ev.RemovePipe? && CursorStranded(s.fq, ev.eid)
  }

  predicate NeverStrands(s: Socket, evs: seq<Event>)
    decreases |evs|
  {
    evs == [] || (!Strands(s, evs[0]) && NeverStrands(Step(s, evs[0]), evs[1..]))
  }

  /** At every point of the run the code does what the laws are about. */
  predicate AlwaysTheCodes(s: Socket, evs: seq<Event>)
    decreases |evs|
  {
    evs == [] || (CodeStep(s, evs[0]) == Some(Step(s, evs[0])) && AlwaysTheCodes(Step(s, evs[0]), evs[1..]))
  }

  lemma NothingPanics(s: Socket, ev: Event)
    requires Valid(s.fq) && !ev.RemovePipe?
    ensures !Panics(s, ev)
  {
    if ev.RecvReady? {
      ActivateKeeps(s.fq, ev.eid);
    }
  }

  /** From a state in order the code takes the documented step exactly if no removal strands the cursor. */
  lemma CodeStepIff(s: Socket, ev: Event)
    requires Valid(s.fq)
    ensures CodeStep(s, ev) == Some(Step(s, ev)) <==> !Strands(s, ev)
  {
    if ev.RemovePipe? {
      RemoveKeepsCursorIff(s.fq, ev.eid);
    } else {
      NothingPanics(s, ev);
    }
  }

  lemma {:induction false} CodeRunIff(s: Socket, evs: seq<Event>)
    requires Inv(s) && EnabledRun(s, evs)
    ensures AlwaysTheCodes(s, evs) <==> NeverStrands(s, evs)
    ensures NeverStrands(s, evs) ==> CodeRun(s, evs) == Some(Run(s, evs))
    decreases |evs|
  {
    if evs != [] {
      CodeStepIff(s, evs[0]);
      StepKeeps(s, evs[0]);
      CodeRunIff(Step(s, evs[0]), evs[1..]);
    }
  }

  /** A run of the code is at every point what the laws are about exactly if no removal strands the cursor. */
  lemma EveryCodeRunIff(evs: seq<Event>)
    requires EnabledRun(NEW, evs)
    ensures AlwaysTheCodes(NEW, evs) <==> NeverStrands(NEW, evs)
    ensures NeverStrands(NEW, evs) ==> CodeRun(NEW, evs) == Some(Run(NEW, evs))
  {
    CodeRunIff(NEW, evs);
  }
}

/** The load-balanced sender: one message at a time, to the next ready pipe, or on hold until there is one. */
module PushProtocol {
  import opened Core
  import opened Scheduling
  import opened SchedulingLaws
  import opened Contexts

  datatype State =
    | Idle
    | Sending(eid: EndpointId, msg: Message, timeout: Timeout)
    | SendOnHold(msg: Message, timeout: Timeout)

  datatype Socket = Socket(state: State, lb: Sched, pipes: set<EndpointId>, ctx: Ctx)

  datatype Event =
    | AddPipe(eid: EndpointId, priority: Priority)
    | RemovePipe(eid: EndpointId)
    | Send(msg: Message, timeout: Timeout)
    | SendAck(eid: EndpointId)
    | SendTimeout(timer: Timer)
    | SendReady(eid: EndpointId)
    | SendNotReady(eid: EndpointId)
    | Recv(timeout: Timeout)
    | RecvTimeout(timer: Timer)

  const NEW: Socket := Socket(Idle, EMPTY, {}, START)

  /** `State::send`: to the pipe the scheduler picks, or on hold. */
  function Transmit(s: Socket, msg: Message, timeout: Timeout): (r: Socket)
    ensures r.ctx.raised == s.ctx.raised
    ensures r.ctx.replies == s.ctx.replies
  {
    var (id, lb) := Pop(s.lb);
    if id.Some? && id.value in s.pipes then
      s.(lb := lb, ctx := SendTo(s.ctx, id.value, msg), state := Sending(id.value, msg, timeout))
    else
      s.(lb := lb, state := SendOnHold(msg, timeout))
  }

  function OnPipeRemoved(s: Socket, eid: EndpointId): (r: Socket)
    ensures r.ctx.raised == s.ctx.raised
    ensures r.ctx.replies == s.ctx.replies
  {
    if s.state.Sending? && s.state.eid == eid then Transmit(s, s.state.msg, s.state.timeout) else s
  }

  function OnSendAck(s: Socket, eid: EndpointId): (r: Socket)
    ensures r.ctx.raised == s.ctx.raised
  {
    if s.state.Sending? && s.state.eid == eid then
      s.(ctx := Cancel(Answer(s.ctx, SendDone), s.state.timeout), state := Idle)
    else s
  }

  function OnSendReady(s: Socket, eid: EndpointId): (r: Socket)
    ensures r.ctx.raised == s.ctx.raised
    ensures r.ctx.replies == s.ctx.replies
  {
    var s1 := s.(lb := Activate(s.lb, eid));
    if s.state.SendOnHold? then Transmit(s1, s.state.msg, s.state.timeout) else s1
  }

  /** The transition of an event, which `apply` carries out. */
  function Transition(s: Socket, ev: Event): (r: Socket)
    ensures r.ctx.raised == s.ctx.raised
  {
    match ev
    case Send(msg, t) => Transmit(s.(ctx := Submit(s.ctx, msg, t)), msg, t)
    case SendAck(eid) => OnSendAck(s, eid)
    case SendTimeout(t) => s.(ctx := Answer(Fire(s.ctx, t), Failed(TimedOut)), state := Idle)
    case SendReady(eid) => OnSendReady(s, eid)
    case SendNotReady(eid) => s.(lb := Deactivate(s.lb, eid))
    case Recv(t) => s.(ctx := Cancel(Answer(Call(s.ctx, t), Failed(Unsupported)), t))
    case RecvTimeout(t) => s.(ctx := Fire(s.ctx, t))
    case AddPipe(_, _) => s
    case RemovePipe(_) => s
  }

  /** `apply`: a transition, and a notice if the scheduler's readiness changed. */
  function Applied(s: Socket, t: Socket): (r: Socket)
    ensures r == t.(ctx := t.ctx.(raised := r.ctx.raised))
  {
    t.(ctx := CheckSend(t.ctx, Peek(s.lb), Peek(t.lb)))
  }

  /** The socket without the pipe, given what the scheduler becomes. */
  function Dropped(s: Socket, eid: EndpointId, lb: Sched): (r: Socket) {
    s.(lb := lb, pipes := s.pipes - {eid})
  }

  function Forget(s: Socket, eid: EndpointId): (r: Socket) {
    Dropped(s, eid, RemoveFollowing(s.lb, eid))
  }

  /** `remove_pipe` once the pipe is gone: the notice of the removal, then the nested transition. */
  function AfterDrop(s: Socket, s1: Socket, eid: EndpointId): (r: Socket) {
    var s2 := Applied(s, s1);
    if eid in s.pipes then Applied(s2, OnPipeRemoved(s2, eid)) else s2
  }

  function Removed(s: Socket, eid: EndpointId): (r: Socket) {
    AfterDrop(s, Forget(s, eid), eid)
  }

  function Step(s: Socket, ev: Event): (r: Socket) {
    if ev.AddPipe? then s.(lb := Insert(s.lb, ev.eid, ev.priority), pipes := s.pipes + {ev.eid})
    else if ev.RemovePipe? then Removed(s, ev.eid)
    else Applied(s, Transition(s, ev))
  }

  function Run(s: Socket, evs: seq<Event>): (r: Socket)
    decreases |evs|
  {
    if evs == [] then s else Run(Step(s, evs[0]), evs[1..])
  }

  /** The scheduler that a step of the code pops, if it pops one. */
  function Popped(s: Socket, ev: Event): (r: Option<Sched>) {
    match ev
    case Send(_, _) => Some(s.lb)
    case SendReady(eid) => if s.state.SendOnHold? then Some(Activate(s.lb, eid)) else None
    case RemovePipe(eid) => if eid in s.pipes && s.state.Sending? && s.state.eid == eid then Some(Remove(s.lb, eid)) else None
    case _ => None
  }

  /** A step pops past the end of the vector. */
  predicate Panics(s: Socket, ev: Event) {
    Popped(s, ev).Some? && !InRange(Popped(s, ev).value)
  }

  /** A step as the code takes it, with the scheduler's own removal; nothing if it panics. */
  function CodeStep(s: Socket, ev: Event): (r: Option<Socket>) {
    if Panics(s, ev) then None
    else if ev.RemovePipe? then Some(AfterDrop(s, Dropped(s, ev.eid, Remove(s.lb, ev.eid)), ev.eid))
    else Some(Step(s, ev))
  }

  function CodeRun(s: Socket, evs: seq<Event>): (r: Option<Socket>)
    decreases |evs|
  {
    if evs == [] then Some(s)
    else
      match CodeStep(s, evs[0])
      case None => None
      case Some(r) => CodeRun(r, evs[1..])
  }

  /** Calls wait for the answer to the previous one, timers fire only while live, endpoint ids are distinct. */
  predicate Enabled(s: Socket, ev: Event) {
    match ev
    case AddPipe(eid, p) => eid !in s.pipes && p <= LOWEST
    case Send(_, t) => Answered(s.ctx) && FreshTimer(s.ctx, t, SendTimer)
    case Recv(t) => Answered(s.ctx) && FreshTimer(s.ctx, t, RecvTimer)
    case SendTimeout(t) => t in s.ctx.timers && t.kind == SendTimer
    case RecvTimeout(t) => t in s.ctx.timers && t.kind == RecvTimer
    case _ => true
  }

  predicate EnabledRun(s: Socket, evs: seq<Event>)
    decreases |evs|
  {
    evs == [] || (Enabled(s, evs[0]) && EnabledRun(Step(s, evs[0]), evs[1..]))
  }

  // ---------------------------------------------------------------- readiness

  ghost predicate ToldOf(s: Socket) {
    Told(s.ctx, Peek(s.lb), false)
  }

  lemma AppliedTellsIff(s: Socket, t: Socket)
    requires t.ctx.raised == s.ctx.raised
    ensures ToldOf(Applied(s, t)) <==> ToldOf(s)
  {
    CheckSendTellsIff(t.ctx, Peek(s.lb), Peek(t.lb), false);
  }

  lemma StepTellsIff(s: Socket, ev: Event)
    ensures ToldOf(Step(s, ev)) <==> ToldOf(s)
  {
    if ev.AddPipe? {
    } else if ev.RemovePipe? {
      var s2 := Applied(s, Forget(s, ev.eid));
      AppliedTellsIff(s, Forget(s, ev.eid));
      AppliedTellsIff(s2, OnPipeRemoved(s2, ev.eid));
    } else {
      AppliedTellsIff(s, Transition(s, ev));
    }
  }

  lemma {:induction false} RunTellsIff(s: Socket, evs: seq<Event>)
    ensures ToldOf(Run(s, evs)) <==> ToldOf(s)
    decreases |evs|
  {
    if evs != [] {
      StepTellsIff(s, evs[0]);
      RunTellsIff(Step(s, evs[0]), evs[1..]);
    }
  }

  /** After every run the last notice is the actual readiness, and notices strictly alternate. */
  lemma ReadinessIsTold(evs: seq<Event>)
    ensures ToldOf(Run(NEW, evs))
  {
    RunTellsIff(NEW, evs);
  }

  // ---------------------------------------------------------------- answers, timers and work

  /**
   One answer per call, the live timers are those held, a message waits only if no pipe is ready, and the
   message under way is the one submitted last, on the wire of a pipe that is still there.
   */
  ghost predicate Inv(s: Socket) {
    && Valid(s.lb) && Ids(s.lb) == s.pipes
    && (!s.state.Idle? ==> Latest(s.ctx.submitted, s.state.msg))
    && (s.state.Sending? ==> s.state.eid in s.pipes && Latest(s.ctx.sent, (s.state.eid, s.state.msg)))
    && |s.ctx.replies| + (if s.state.Idle? then 0 else 1) == s.ctx.calls
    && s.ctx.timers == (if s.state.Idle? then {} else TimerSet(s.state.timeout))
    && (!s.state.Idle? && s.state.timeout.Some? ==> s.state.timeout.value.kind == SendTimer)
    && (s.state.SendOnHold? ==> ActiveIds(s.lb) == {})
  }

  lemma TransmitKeeps(s: Socket, msg: Message, timeout: Timeout)
    requires Valid(s.lb) && Ids(s.lb) == s.pipes
    ensures var r := Transmit(s, msg, timeout);
            && Valid(r.lb) && Ids(r.lb) == r.pipes == s.pipes
            && (r.state.Sending? || r.state.SendOnHold?) && r.state.msg == msg && r.state.timeout == timeout
            && (r.state.SendOnHold? ==> ActiveIds(r.lb) == {})
            && (r.state.Sending? ==> r.state.eid in r.pipes)
            && r.ctx == if r.state.Sending? then SendTo(s.ctx, r.state.eid, msg) else s.ctx
  {
    PopKeeps(s.lb);
    var (id, lb) := Pop(s.lb);
    assert id.Some? ==> id.value in Ids(s.lb) by {
      assert ActiveIds(s.lb) <= Ids(s.lb);
    }
  }

  lemma InvFrame(s: Socket, r: Socket)
    requires Inv(s) && r == s.(ctx := s.ctx.(raised := r.ctx.raised))
    ensures Inv(r)
  {
  }

  /** The pipe in use is lost and another is found, or none. */
  lemma PipeLossKeeps(s: Socket, s1: Socket, eid: EndpointId)
    requires Inv(s) && s.state.Sending? && s.state.eid == eid
    requires s1 == Forget(s, eid).(ctx := s.ctx.(raised := s1.ctx.raised))
    ensures Inv(OnPipeRemoved(s1, eid))
  {
    RemoveFollowingKeeps(s.lb, eid);
    TransmitKeeps(s1, s.state.msg, s.state.timeout);
  }

  lemma RemovalKeeps(s: Socket, eid: EndpointId)
    requires Inv(s)
    ensures Inv(Removed(s, eid))
  {
    var s1 := Forget(s, eid);
    RemoveFollowingKeeps(s.lb, eid);
    if s.state.Sending? && s.state.eid == eid {
      PipeLossKeeps(s, Applied(s, s1), eid);
      InvFrame(OnPipeRemoved(Applied(s, s1), eid), Removed(s, eid));
    } else {
      InvFrame(s1, Removed(s, eid));
    }
  }

  lemma SubmissionKeeps(s: Socket, msg: Message, t: Timeout)
    requires Inv(s) && Enabled(s, Send(msg, t))
    ensures Inv(Transition(s, Send(msg, t)))
  {
    TransmitKeeps(s.(ctx := Submit(s.ctx, msg, t)), msg, t);
  }

  lemma SendReadyKeeps(s: Socket, eid: EndpointId)
    requires Inv(s)
    ensures Inv(Transition(s, SendReady(eid)))
  {
    var s1 := s.(lb := Activate(s.lb, eid));
    ActivateKeeps(s.lb, eid);
    if s.state.SendOnHold? {
      TransmitKeeps(s1, s.state.msg, s.state.timeout);
    }
  }

  lemma TransitionKeeps(s: Socket, ev: Event)
    requires Inv(s) && Enabled(s, ev)
    ensures Inv(Transition(s, ev))
  {
    match ev
    case Send(msg, t) => SubmissionKeeps(s, msg, t);
    case SendReady(eid) => SendReadyKeeps(s, eid);
    case SendNotReady(eid) => DeactivateKeeps(s.lb, eid);
    case _ =>
  }

  lemma StepKeeps(s: Socket, ev: Event)
    requires Inv(s) && Enabled(s, ev)
    ensures Inv(Step(s, ev))
  {
    if ev.AddPipe? {
      InsertKeeps(s.lb, ev.eid, ev.priority);
    } else if ev.RemovePipe? {
      RemovalKeeps(s, ev.eid);
    } else {
      TransitionKeeps(s, ev);
      InvFrame(Transition(s, ev), Step(s, ev));
    }
  }

  lemma {:induction false} RunKeeps(s: Socket, evs: seq<Event>)
    requires Inv(s) && EnabledRun(s, evs)
    ensures Inv(Run(s, evs))
    decreases |evs|
  {
    if evs != [] {
      StepKeeps(s, evs[0]);
      RunKeeps(Step(s, evs[0]), evs[1..]);
    }
  }

  /** Every run answers each call exactly once, leaves no timer behind, and never holds a message while a pipe is ready. */
  lemma EveryRun(evs: seq<Event>)
    requires EnabledRun(NEW, evs)
    ensures Inv(Run(NEW, evs))
  {
    RunKeeps(NEW, evs);
  }

  /** After any run, a send is acknowledged to the user only by the pipe that was given the message submitted last. */
  lemma OnlyTheUsedPipeAcknowledges(evs: seq<Event>, ev: Event)
    requires EnabledRun(NEW, evs) && Enabled(Run(NEW, evs), ev)
    requires Step(Run(NEW, evs), ev).ctx.replies == Run(NEW, evs).ctx.replies + [SendDone]
    ensures var c := Run(NEW, evs).ctx;
            ev.SendAck? && |c.submitted| > 0 && Latest(c.sent, (ev.eid, c.submitted[|c.submitted| - 1]))
  {
    RunKeeps(NEW, evs);
    var s := Run(NEW, evs);
    assert Step(s, ev).ctx.replies[|s.ctx.replies|] == SendDone;
  }

  // ---------------------------------------------------------------- the code's own removal

  predicate Strands(s: Socket, ev: Event) {
    ev.RemovePipe? && CursorStranded(s.lb, ev.eid)
  }

  predicate NeverStrands(s: Socket, evs: seq<Event>)
    decreases |evs|
  {
    evs == [] || (!Strands(s, evs[0]) && NeverStrands(Step(s, evs[0]), evs[1..]))
  }

  /** At every point of the run the code does what the laws are about. */
  predicate AlwaysTheCodes(s: Socket, evs: seq<Event>)
    decreases |evs|
  {
    evs == [] || (CodeStep(s, evs[0]) == Some(Step(s, evs[0])) && AlwaysTheCodes(Step(s, evs[0]), evs[1..]))
  }

  lemma NothingPanics(s: Socket, ev: Event)
    requires Valid(s.lb) && !ev.RemovePipe?
    ensures !Panics(s, ev)
  {
    if ev.SendReady? {
      ActivateKeeps(s.lb, ev.eid);
    }
  }

  /** From a state in order the code takes the documented step exactly if no removal strands the cursor. */
  lemma CodeStepIff(s: Socket, ev: Event)
    requires Valid(s.lb)
    ensures CodeStep(s, ev) == Some(Step(s, ev)) <==> !Strands(s, ev)
  {
    if ev.RemovePipe? {
      RemoveKeepsCursorIff(s.lb, ev.eid);
    } else {
      NothingPanics(s, ev);
    }
  }

  lemma {:induction false} CodeRunIff(s: Socket, evs: seq<Event>)
    requires Inv(s) && EnabledRun(s, evs)
    ensures AlwaysTheCodes(s, evs) <==> NeverStrands(s, evs)
    ensures NeverStrands(s, evs) ==> CodeRun(s, evs) == Some(Run(s, evs))
    decreases |evs|
  {
    if evs != [] {
      CodeStepIff(s, evs[0]);
      StepKeeps(s, evs[0]);
      CodeRunIff(Step(s, evs[0]), evs[1..]);
    }
  }

  /** A run of the code is at every point what the laws are about exactly if no removal strands the cursor. */
  lemma EveryCodeRunIff(evs: seq<Event>)
    requires EnabledRun(NEW, evs)
    ensures AlwaysTheCodes(NEW, evs) <==> NeverStrands(NEW, evs)
    ensures NeverStrands(NEW, evs) ==> CodeRun(NEW, evs) == Some(Run(NEW, evs))
  {
    CodeRunIff(NEW, evs);
  }

  // ---------------------------------------------------------------- after a stranding

  lemma {:induction false} RunExtends(s: Socket, evs: seq<Event>, ev: Event)
    ensures Run(s, evs + [ev]) == Step(Run(s, evs), ev)
    ensures CodeRun(s, evs + [ev]) == match CodeRun(s, evs) case None => None case Some(r) => CodeStep(r, ev)
    ensures NeverStrands(s, evs + [ev]) <==> NeverStrands(s, evs) && !Strands(Run(s, evs), ev)
    decreases |evs|
  {
    if evs == [] {
      assert (evs + [ev])[1..] == [];
    } else {
      assert (evs + [ev])[1..] == evs[1..] + [ev];
      RunExtends(Step(s, evs[0]), evs[1..], ev);
      if CodeStep(s, evs[0]).Some? {
        CodeRunExtends(CodeStep(s, evs[0]).value, evs[1..], ev);
      }
    }
  }

  lemma {:induction false} CodeRunExtends(s: Socket, evs: seq<Event>, ev: Event)
    ensures CodeRun(s, evs + [ev]) == match CodeRun(s, evs) case None => None case Some(r) => CodeStep(r, ev)
    decreases |evs|
  {
    if evs == [] {
      assert (evs + [ev])[1..] == [];
    } else {
      assert (evs + [ev])[1..] == evs[1..] + [ev];
      if CodeStep(s, evs[0]).Some? {
        CodeRunExtends(CodeStep(s, evs[0]).value, evs[1..], ev);
      }
    }
  }

  /** An idle socket that has told its user it can send. */
  function Resting(lb: Sched, pipes: set<EndpointId>): (s: Socket) {
    Socket(Idle, lb, pipes, START.(raised := [CanSend(true)]))
  }

  /** The run of the code and the documented one are at the same or at different schedulers, both ready. */
  predicate Both(evs: seq<Event>, code: Sched, doc: Sched, pipes: set<EndpointId>) {
    Peek(code) && Peek(doc) && CodeRun(NEW, evs) == Some(Resting(code, pipes)) && Run(NEW, evs) == Resting(doc, pipes)
  }

  lemma BothInsert(evs: seq<Event>, code: Sched, doc: Sched, pipes: set<EndpointId>, eid: EndpointId)
    requires Both(evs, code, doc, pipes)
    ensures Both(evs + [AddPipe(eid, 8)], Insert(code, eid, 8), Insert(doc, eid, 8), pipes + {eid})
  {
    RunExtends(NEW, evs, AddPipe(eid, 8));
  }

  lemma BothReady(evs: seq<Event>, code: Sched, doc: Sched, pipes: set<EndpointId>, eid: EndpointId)
    requires Both(evs, code, doc, pipes) && Peek(Activate(code, eid)) && Peek(Activate(doc, eid))
    ensures Both(evs + [SendReady(eid)], Activate(code, eid), Activate(doc, eid), pipes)
  {
    RunExtends(NEW, evs, SendReady(eid));
  }

  lemma BothNotReady(evs: seq<Event>, code: Sched, doc: Sched, pipes: set<EndpointId>, eid: EndpointId)
    requires Both(evs, code, doc, pipes) && Peek(Deactivate(code, eid)) && Peek(Deactivate(doc, eid))
    ensures Both(evs + [SendNotReady(eid)], Deactivate(code, eid), Deactivate(doc, eid), pipes)
  {
    RunExtends(NEW, evs, SendNotReady(eid));
  }

  const THREE: seq<Event> := [AddPipe(1, 8)] + [AddPipe(2, 8)] + [AddPipe(3, 8)]
  const READY: seq<Event> := THREE + [SendReady(3)] + [SendReady(2)]
  const STRANDED: seq<Event> := READY + [RemovePipe(1)]
  const BACK: seq<Event> := STRANDED + [AddPipe(4, 8)] + [SendNotReady(3)] + [SendReady(4)] + [SendNotReady(2)]

  function All(two: bool, three: bool): (items: seq<Item>) {
    [Item(1, 8, false), Item(2, 8, two), Item(3, 8, three)]
  }

  lemma ThreeRun()
    ensures var s := Socket(Idle, Sched(All(false, false), None), {1, 2, 3}, START);
            Run(NEW, THREE) == s && CodeRun(NEW, THREE) == Some(s) && NeverStrands(NEW, THREE)
  {
    RunExtends(NEW, [], AddPipe(1, 8));
    assert [] + [AddPipe(1, 8)] == [AddPipe(1, 8)];
    RunExtends(NEW, [AddPipe(1, 8)], AddPipe(2, 8));
    RunExtends(NEW, [AddPipe(1, 8)] + [AddPipe(2, 8)], AddPipe(3, 8));
    assert Insert(Insert(Insert(EMPTY, 1, 8), 2, 8), 3, 8) == Sched(All(false, false), None);
  }

  lemma ReadyRun()
    ensures var lb := Sched(All(true, true), Some(Cursor(2, 8)));
            Both(READY, lb, lb, {1, 2, 3})
  {
    ThreeRun();
    var off, one, both := Sched(All(false, false), None), Sched(All(false, true), Some(Cursor(2, 8))), Sched(All(true, true), Some(Cursor(2, 8)));
    FoundAt(off.items, off.current, 2, 3);
    assert Activate(off, 3) == one;
    assert START.raised + [CanSend(true)] == [CanSend(true)];
    assert Step(Socket(Idle, off, {1, 2, 3}, START), SendReady(3)) == Resting(one, {1, 2, 3});
    RunExtends(NEW, THREE, SendReady(3));
    FoundAt(one.items, one.current, 1, 2);
    assert Activate(one, 2) == both;
    BothReady(THREE + [SendReady(3)], one, one, {1, 2, 3}, 2);
  }

  /** Removing the first pipe strands the cursor, and nobody notices. */
  lemma StrandedRunOfBoth()
    ensures Both(STRANDED, Rest(true, true, None, 2), Rest(true, true, None, 0), {2, 3})
    ensures !NeverStrands(NEW, STRANDED)
  {
    ReadyRun();
    var lb := Sched(All(true, true), Some(Cursor(2, 8)));
    FoundAt(lb.items, lb.current, 0, 1);
    assert SwapRemove(lb.items, 0) == Rest(true, true, None, 0).items;
    assert {1, 2, 3} - {1} == {2, 3};
    RunExtends(NEW, READY, RemovePipe(1));
  }

  lemma {:induction false} StrandingLasts(s: Socket, evs: seq<Event>, more: seq<Event>)
    requires !NeverStrands(s, evs)
    ensures !NeverStrands(s, evs + more)
    decreases |evs|
  {
    assert (evs + more)[0] == evs[0] && (evs + more)[1..] == evs[1..] + more;
    if !Strands(s, evs[0]) {
      StrandingLasts(Step(s, evs[0]), evs[1..], more);
    }
  }

  /** A run that strands the cursor can yet end where the documented one does: only at every point is the condition exact. */
  lemma CodeCanComeBack()
    ensures CodeRun(NEW, BACK) == Some(Run(NEW, BACK)) && !NeverStrands(NEW, BACK)
  {
    StrandedRunOfBoth();
    StrandedRun();
    FollowedRun();
    var pipes := {2, 3} + {4};
    BothInsert(STRANDED, Rest(true, true, None, 2), Rest(true, true, None, 0), {2, 3}, 4);
    var e1 := STRANDED + [AddPipe(4, 8)];
    BothNotReady(e1, Rest(true, true, Some(false), 2), Rest(true, true, Some(false), 0), pipes, 3);
    var e2 := e1 + [SendNotReady(3)];
    BothReady(e2, Rest(false, true, Some(false), 2), Rest(false, true, Some(false), 1), pipes, 4);
    var e3 := e2 + [SendReady(4)];
    BothNotReady(e3, Rest(false, true, Some(true), 2), Rest(false, true, Some(true), 1), pipes, 2);
    assert BACK == STRANDED + [AddPipe(4, 8), SendNotReady(3), SendReady(4), SendNotReady(2)];
    StrandingLasts(NEW, STRANDED, [AddPipe(4, 8), SendNotReady(3), SendReady(4), SendNotReady(2)]);
  }

  /** And a send right after the stranding panics. */
  lemma StrandedSendPanics(msg: Message, timeout: Timeout)
    ensures CodeRun(NEW, STRANDED + [Send(msg, timeout)]) == None
  {
    StrandedRunOfBoth();
    RunExtends(NEW, STRANDED, Send(msg, timeout));
  }
}

/** The socket in place. */
module PushSockets {
  import opened Core
  import opened Scheduling
  import opened Priolists
  import opened Contexts
  import opened PushProtocol

  class Push {
    var state: State
    const lb: Priolist
    var pipes: set<EndpointId>
    var ctx: Ctx

    ghost function View(): (s: Socket)
      reads this, lb
    {
      Socket(state, lb.View(), pipes, ctx)
    }

    constructor ()
      ensures fresh(lb) && View() == NEW
    {
      state, pipes, ctx := Idle, {}, START;
      lb := new Priolist();
    }

    method Transmit(msg: Message, timeout: Timeout)
      requires InRange(lb.View())
      modifies this, lb
      ensures View() == PushProtocol.Transmit(old(View()), msg, timeout)
    {
      var picked := lb.Pop();
      if picked.Some? && picked.value in pipes {
        ctx := SendTo(ctx, picked.value, msg);
        state := Sending(picked.value, msg, timeout);
      } else {
        state := SendOnHold(msg, timeout);
      }
    }

    /** The end of `apply`. */
    method CheckReadiness(was: bool)
      modifies this`ctx
      ensures ctx == CheckSend(old(ctx), was, Scheduling.Peek(lb.View()))
    {
      var now := lb.Peek();
      ctx := CheckSend(ctx, was, now);
    }

    method AddPipe(eid: EndpointId, priority: Priority)
      modifies this, lb
      ensures CodeStep(old(View()), Event.AddPipe(eid, priority)) == Some(View())
    {
      lb.Insert(eid, priority);
      pipes := pipes + {eid};
    }

    method RemovePipe(eid: EndpointId)
      requires !Panics(View(), Event.RemovePipe(eid))
      modifies this, lb
      ensures CodeStep(old(View()), Event.RemovePipe(eid)) == Some(View())
    {
      var was := lb.Peek();
      var known := eid in pipes;
      lb.Remove(eid);
      pipes := pipes - {eid};
      CheckReadiness(was);
      if known {
        was := lb.Peek();
        if state.Sending? && state.eid == eid {
          Transmit(state.msg, state.timeout);
        }
        CheckReadiness(was);
      }
    }

    method Send(msg: Message, timeout: Timeout)
      requires !Panics(View(), Event.Send(msg, timeout))
      modifies this, lb
      ensures CodeStep(old(View()), Event.Send(msg, timeout)) == Some(View())
    {
      var was := lb.Peek();
      ctx := Submit(ctx, msg, timeout);
      Transmit(msg, timeout);
      CheckReadiness(was);
    }

    method OnSendAck(eid: EndpointId)
      modifies this
      ensures CodeStep(old(View()), SendAck(eid)) == Some(View())
    {
      var was := lb.Peek();
      if state.Sending? && state.eid == eid {
        ctx := Cancel(Answer(ctx, SendDone), state.timeout);
        state := Idle;
      }
      CheckReadiness(was);
    }

    method OnSendTimeout(timer: Timer)
      modifies this
      ensures CodeStep(old(View()), SendTimeout(timer)) == Some(View())
    {
      var was := lb.Peek();
      ctx := Answer(Fire(ctx, timer), Failed(TimedOut));
      state := Idle;
      CheckReadiness(was);
    }

    method OnSendReady(eid: EndpointId)
      requires !Panics(View(), SendReady(eid))
      modifies this, lb
      ensures CodeStep(old(View()), SendReady(eid)) == Some(View())
    {
      var was := lb.Peek();
      lb.Activate(eid);
      if state.SendOnHold? {
        Transmit(state.msg, state.timeout);
      }
      CheckReadiness(was);
    }

    method OnSendNotReady(eid: EndpointId)
      modifies this, lb
      ensures CodeStep(old(View()), SendNotReady(eid)) == Some(View())
    {
      var was := lb.Peek();
      lb.Deactivate(eid);
      CheckReadiness(was);
    }

    method Recv(timeout: Timeout)
      modifies this
      ensures CodeStep(old(View()), Event.Recv(timeout)) == Some(View())
    {
      ctx := Cancel(Answer(Call(ctx, timeout), Failed(Unsupported)), timeout);
    }
  }
}

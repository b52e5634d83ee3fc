/** The fair-queued receiver: it asks the next ready pipe for one message, or waits until there is one. */
module PullProtocol {
  import opened Core
  import opened Scheduling
  import opened SchedulingLaws
  import opened Contexts

  datatype State =
    | Idle
    | Receiving(eid: EndpointId, timeout: Timeout)
    | RecvOnHold(timeout: Timeout)

  datatype Socket = Socket(state: State, fq: Sched, pipes: set<EndpointId>, ctx: Ctx)

  datatype Event =
    | AddPipe(eid: EndpointId, priority: Priority)
    | RemovePipe(eid: EndpointId)
    | Recv(timeout: Timeout)
    | RecvAck(eid: EndpointId, msg: Message)
    | RecvTimeout(timer: Timer)
    | RecvReady(eid: EndpointId)
    | RecvNotReady(eid: EndpointId)
    | Send(msg: Message, timeout: Timeout)
    | SendTimeout(timer: Timer)

  const NEW: Socket := Socket(Idle, EMPTY, {}, START)

  /** `State::recv`: from the pipe the scheduler picks, or on hold. */
  function Request(s: Socket, timeout: Timeout): (r: Socket)
    ensures r.ctx.raised == s.ctx.raised
    ensures r.ctx.replies == s.ctx.replies
  {
    var (id, fq) := Pop(s.fq);
    if id.Some? && id.value in s.pipes then
      s.(fq := fq, ctx := RecvFrom(s.ctx, id.value), state := Receiving(id.value, timeout))
    else
      s.(fq := fq, state := RecvOnHold(timeout))
  }

  function OnPipeRemoved(s: Socket, eid: EndpointId): (r: Socket)
    ensures r.ctx.raised == s.ctx.raised
    ensures r.ctx.replies == s.ctx.replies
  {
    if s.state.Receiving? && s.state.eid == eid then Request(s, s.state.timeout) else s
  }

  function OnRecvAck(s: Socket, eid: EndpointId, msg: Message): (r: Socket)
    ensures r.ctx.raised == s.ctx.raised
  {
    if s.state.Receiving? && s.state.eid == eid then
      s.(ctx := Cancel(Answer(s.ctx, RecvDone(msg)), s.state.timeout), state := Idle)
    else s
  }

  function OnRecvReady(s: Socket, eid: EndpointId): (r: Socket)
    ensures r.ctx.raised == s.ctx.raised
    ensures r.ctx.replies == s.ctx.replies
  {
    var s1 := s.(fq := Activate(s.fq, eid));
    if s.state.RecvOnHold? then Request(s1, s.state.timeout) else s1
  }

  /** The transition of an event, which `apply` carries out. */
  function Transition(s: Socket, ev: Event): (r: Socket)
    ensures r.ctx.raised == s.ctx.raised
  {
    match ev
    case Recv(t) => Request(s.(ctx := Call(s.ctx, t)), t)
    case RecvAck(eid, msg) => OnRecvAck(s, eid, msg)
    case RecvTimeout(t) => s.(ctx := Answer(Fire(s.ctx, t), Failed(TimedOut)), state := Idle)
    case RecvReady(eid) => OnRecvReady(s, eid)
    case RecvNotReady(eid) => s.(fq := Deactivate(s.fq, eid))
    case Send(msg, t) => s.(ctx := Cancel(Answer(Submit(s.ctx, msg, t), Failed(Unsupported)), t))
    case SendTimeout(t) => s.(ctx := Fire(s.ctx, t))
    case AddPipe(_, _) => s
    case RemovePipe(_) => s
  }

  /** `apply`: a transition, and a notice if the scheduler's readiness changed. */
  function Applied(s: Socket, t: Socket): (r: Socket)
    ensures r == t.(ctx := t.ctx.(raised := r.ctx.raised))
  {
    t.(ctx := CheckRecv(t.ctx, Peek(s.fq), Peek(t.fq)))
  }

  /** The socket without the pipe, given what the scheduler becomes. */
  function Dropped(s: Socket, eid: EndpointId, fq: Sched): (r: Socket) {
    s.(fq := fq, pipes := s.pipes - {eid})
  }

  function Forget(s: Socket, eid: EndpointId): (r: Socket) {
    Dropped(s, eid, RemoveFollowing(s.fq, eid))
  }

  /** `remove_pipe` once the pipe is gone: the notice of the removal, then the nested transition. */
  function AfterDrop(s: Socket, s1: Socket, eid: EndpointId): (r: Socket) {
    var s2 := Applied(s, s1);
    if eid in s.pipes then Applied(s2, OnPipeRemoved(s2, eid)) else s2
  }

  function Removed(s: Socket, eid: EndpointId): (r: Socket) {
    AfterDrop(s, Forget(s, eid), eid)
  }

  function Step(s: Socket, ev: Event): (r: Socket) {
    if ev.AddPipe? then s.(fq := Insert(s.fq, ev.eid, ev.priority), pipes := s.pipes + {ev.eid})
    else if ev.RemovePipe? then Removed(s, ev.eid)
    else Applied(s, Transition(s, ev))
  }

  function Run(s: Socket, evs: seq<Event>): (r: Socket)
    decreases |evs|
  {
    if evs == [] then s else Run(Step(s, evs[0]), evs[1..])
  }

  /** The scheduler that a step of the code pops, if it pops one. */
  function Popped(s: Socket, ev: Event): (r: Option<Sched>) {
    match ev
    case Recv(_) => Some(s.fq)
    case RecvReady(eid) => if s.state.RecvOnHold? then Some(Activate(s.fq, eid)) else None
    case RemovePipe(eid) => if eid in s.pipes && s.state.Receiving? && s.state.eid == eid then Some(Remove(s.fq, eid)) else None
    case _ => None
  }

  /** A step pops past the end of the vector. */
  predicate Panics(s: Socket, ev: Event) {
    Popped(s, ev).Some? && !InRange(Popped(s, ev).value)
  }

  /** A step as the code takes it, with the scheduler's own removal; nothing if it panics. */
  function CodeStep(s: Socket, ev: Event): (r: Option<Socket>) {
    if Panics(s, ev) then None
    else if ev.RemovePipe? then Some(AfterDrop(s, Dropped(s, ev.eid, Remove(s.fq, ev.eid)), ev.eid))
    else Some(Step(s, ev))
  }

  function CodeRun(s: Socket, evs: seq<Event>): (r: Option<Socket>)
    decreases |evs|
  {
    if evs == [] then Some(s)
    else
      match CodeStep(s, evs[0])
      case None => None
      case Some(r) => CodeRun(r, evs[1..])
  }

  /** Calls wait for the answer to the previous one, timers fire only while live, endpoint ids are distinct. */
  predicate Enabled(s: Socket, ev: Event) {
    match ev
    case AddPipe(eid, p) => eid !in s.pipes && p <= LOWEST
    case Send(_, t) => Answered(s.ctx) && FreshTimer(s.ctx, t, SendTimer)
    case Recv(t) => Answered(s.ctx) && FreshTimer(s.ctx, t, RecvTimer)
    case SendTimeout(t) => t in s.ctx.timers && t.kind == SendTimer
    case RecvTimeout(t) => t in s.ctx.timers && t.kind == RecvTimer
    case _ => true
  }

  predicate EnabledRun(s: Socket, evs: seq<Event>)
    decreases |evs|
  {
    evs == [] || (Enabled(s, evs[0]) && EnabledRun(Step(s, evs[0]), evs[1..]))
  }

  // ---------------------------------------------------------------- readiness

  ghost predicate ToldOf(s: Socket) {
    Told(s.ctx, false, Peek(s.fq))
  }

  lemma AppliedTellsIff(s: Socket, t: Socket)
    requires t.ctx.raised == s.ctx.raised
    ensures ToldOf(Applied(s, t)) <==> ToldOf(s)
  {
    CheckRecvTellsIff(t.ctx, Peek(s.fq), Peek(t.fq), false);
  }

  lemma StepTellsIff(s: Socket, ev: Event)
    ensures ToldOf(Step(s, ev)) <==> ToldOf(s)
  {
    if ev.AddPipe? {
    } else if ev.RemovePipe? {
      var s2 := Applied(s, Forget(s, ev.eid));
      AppliedTellsIff(s, Forget(s, ev.eid));
      AppliedTellsIff(s2, OnPipeRemoved(s2, ev.eid));
    } else {
      AppliedTellsIff(s, Transition(s, ev));
    }
  }

  lemma {:induction false} RunTellsIff(s: Socket, evs: seq<Event>)
    ensures ToldOf(Run(s, evs)) <==> ToldOf(s)
    decreases |evs|
  {
    if evs != [] {
      StepTellsIff(s, evs[0]);
      RunTellsIff(Step(s, evs[0]), evs[1..]);
    }
  }

  /** After every run the last notice is the actual readiness, and notices strictly alternate. */
  lemma ReadinessIsTold(evs: seq<Event>)
    ensures ToldOf(Run(NEW, evs))
  {
    RunTellsIff(NEW, evs);
  }

  // ---------------------------------------------------------------- answers, timers and work

  /**
   One answer per call, the live timers are those held, a call waits only if no pipe is ready, and the pipe
   awaited is the one asked last and still there.
   */
  ghost predicate Inv(s: Socket) {
    && Valid(s.fq) && Ids(s.fq) == s.pipes
    && (s.state.Receiving? ==> s.state.eid in s.pipes && Latest(s.ctx.asked, s.state.eid))
    && |s.ctx.replies| + (if s.state.Idle? then 0 else 1) == s.ctx.calls
    && s.ctx.timers == (if s.state.Idle? then {} else TimerSet(s.state.timeout))
    && (!s.state.Idle? && s.state.timeout.Some? ==> s.state.timeout.value.kind == RecvTimer)
    && (s.state.RecvOnHold? ==> ActiveIds(s.fq) == {})
  }

  lemma RequestKeeps(s: Socket, timeout: Timeout)
    requires Valid(s.fq) && Ids(s.fq) == s.pipes
    ensures var r := Request(s, timeout);
            && Valid(r.fq) && Ids(r.fq) == r.pipes == s.pipes
            && (r.state.Receiving? || r.state.RecvOnHold?) && r.state.timeout == timeout
            && (r.state.RecvOnHold? ==> ActiveIds(r.fq) == {})
            && (r.state.Receiving? ==> r.state.eid in r.pipes)
            && r.ctx == if r.state.Receiving? then RecvFrom(s.ctx, r.state.eid) else s.ctx
  {
    PopKeeps(s.fq);
    var (id, fq) := Pop(s.fq);
    assert id.Some? ==> id.value in Ids(s.fq) by {
      assert ActiveIds(s.fq) <= Ids(s.fq);
    }
  }

  lemma InvFrame(s: Socket, r: Socket)
    requires Inv(s) && r == s.(ctx := s.ctx.(raised := r.ctx.raised))
    ensures Inv(r)
  {
  }

  /** The pipe in use is lost and another is found, or none. */
  lemma PipeLossKeeps(s: Socket, s1: Socket, eid: EndpointId)
    requires Inv(s) && s.state.Receiving? && s.state.eid == eid
    requires s1 == Forget(s, eid).(ctx := s.ctx.(raised := s1.ctx.raised))
    ensures Inv(OnPipeRemoved(s1, eid))
  {
    RemoveFollowingKeeps(s.fq, eid);
    RequestKeeps(s1, s.state.timeout);
  }

  lemma RemovalKeeps(s: Socket, eid: EndpointId)
    requires Inv(s)
    ensures Inv(Removed(s, eid))
  {
    var s1 := Forget(s, eid);
    RemoveFollowingKeeps(s.fq, eid);
    if s.state.Receiving? && s.state.eid == eid {
      PipeLossKeeps(s, Applied(s, s1), eid);
      InvFrame(OnPipeRemoved(Applied(s, s1), eid), Removed(s, eid));
    } else {
      InvFrame(s1, Removed(s, eid));
    }
  }

  lemma CallKeeps(s: Socket, t: Timeout)
    requires Inv(s) && Enabled(s, Recv(t))
    ensures Inv(Transition(s, Recv(t)))
  {
    RequestKeeps(s.(ctx := Call(s.ctx, t)), t);
  }

  lemma RecvReadyKeeps(s: Socket, eid: EndpointId)
    requires Inv(s)
    ensures Inv(Transition(s, RecvReady(eid)))
  {
    var s1 := s.(fq := Activate(s.fq, eid));
    ActivateKeeps(s.fq, eid);
    if s.state.RecvOnHold? {
      RequestKeeps(s1, s.state.timeout);
    }
  }

  lemma TransitionKeeps(s: Socket, ev: Event)
    requires Inv(s) && Enabled(s, ev)
    ensures Inv(Transition(s, ev))
  {
    match ev
    case Recv(t) => CallKeeps(s, t);
    case RecvReady(eid) => RecvReadyKeeps(s, eid);
    case RecvNotReady(eid) => DeactivateKeeps(s.fq, eid);
    case _ =>
  }

  lemma StepKeeps(s: Socket, ev: Event)
    requires Inv(s) && Enabled(s, ev)
    ensures Inv(Step(s, ev))
  {
    if ev.AddPipe? {
      InsertKeeps(s.fq, ev.eid, ev.priority);
    } else if ev.RemovePipe? {
      RemovalKeeps(s, ev.eid);
    } else {
      TransitionKeeps(s, ev);
      InvFrame(Transition(s, ev), Step(s, ev));
    }
  }

  lemma {:induction false} RunKeeps(s: Socket, evs: seq<Event>)
    requires Inv(s) && EnabledRun(s, evs)
    ensures Inv(Run(s, evs))
    decreases |evs|
  {
    if evs != [] {
      StepKeeps(s, evs[0]);
      RunKeeps(Step(s, evs[0]), evs[1..]);
    }
  }

  /** Every run answers each call exactly once, leaves no timer behind, and never waits while a pipe is ready. */
  lemma EveryRun(evs: seq<Event>)
    requires EnabledRun(NEW, evs)
    ensures Inv(Run(NEW, evs))
  {
    RunKeeps(NEW, evs);
  }

  /** After any run, a message is handed to the user only if it comes from the pipe that was asked last. */
  lemma OnlyTheAskedPipeDelivers(evs: seq<Event>, ev: Event, msg: Message)
    requires EnabledRun(NEW, evs) && Enabled(Run(NEW, evs), ev)
    requires var s := Run(NEW, evs);
             Step(s, ev).ctx.replies == s.ctx.replies + [RecvDone(msg)]
    ensures ev.RecvAck? && ev.msg == msg && Latest(Run(NEW, evs).ctx.asked, ev.eid)
  {
    RunKeeps(NEW, evs);
    var s := Run(NEW, evs);
    assert Step(s, ev).ctx.replies[|s.ctx.replies|] == RecvDone(msg);
  }

  // ---------------------------------------------------------------- the code's own removal

  predicate Strands(s: Socket, ev: Event) {
    ev.RemovePipe? && CursorStranded(s.fq, ev.eid)
  }

  predicate NeverStrands(s: Socket, evs: seq<Event>)
    decreases |evs|
  {
    evs == [] || (!Strands(s, evs[0]) && NeverStrands(Step(s, evs[0]), evs[1..]))
  }

  /** At every point of the run the code does what the laws are about. */
  predicate AlwaysTheCodes(s: Socket, evs: seq<Event>)
    decreases |evs|
  {
    evs == [] || (CodeStep(s, evs[0]) == Some(Step(s, evs[0])) && AlwaysTheCodes(Step(s, evs[0]), evs[1..]))
  }

  lemma NothingPanics(s: Socket, ev: Event)
    requires Valid(s.fq) && !ev.RemovePipe?
    ensures !Panics(s, ev)
  {
    if ev.RecvReady? {
      ActivateKeeps(s.fq, ev.eid);
    }
  }

  /** From a state in order the code takes the documented step exactly if no removal strands the cursor. */
  lemma CodeStepIff(s: Socket, ev: Event)
    requires Valid(s.fq)
    ensures CodeStep(s, ev) == Some(Step(s, ev)) <==> !Strands(s, ev)
  {
    if ev.RemovePipe? {
      RemoveKeepsCursorIff(s.fq, ev.eid);
    } else {
      NothingPanics(s, ev);
    }
  }

  lemma {:induction false} CodeRunIff(s: Socket, evs: seq<Event>)
    requires Inv(s) && EnabledRun(s, evs)
    ensures AlwaysTheCodes(s, evs) <==> NeverStrands(s, evs)
    ensures NeverStrands(s, evs) ==> CodeRun(s, evs) == Some(Run(s, evs))
    decreases |evs|
  {
    if evs != [] {
      CodeStepIff(s, evs[0]);
      StepKeeps(s, evs[0]);
      CodeRunIff(Step(s, evs[0]), evs[1..]);
    }
  }

  /** A run of the code is at every point what the laws are about exactly if no removal strands the cursor. */
  lemma EveryCodeRunIff(evs: seq<Event>)
    requires EnabledRun(NEW, evs)
    ensures AlwaysTheCodes(NEW, evs) <==> NeverStrands(NEW, evs)
    ensures NeverStrands(NEW, evs) ==> CodeRun(NEW, evs) == Some(Run(NEW, evs))
  {
    CodeRunIff(NEW, evs);
  }
}

/** The socket in place. */
module PullSockets {
  import opened Core
  import opened Scheduling
  import opened Priolists
  import opened Contexts
  import opened PullProtocol

  class Pull {
    var state: State
    const fq: Priolist
    var pipes: set<EndpointId>
    var ctx: Ctx

    ghost function View(): (s: Socket)
      reads this, fq
    {
      Socket(state, fq.View(), pipes, ctx)
    }

    constructor ()
      ensures fresh(fq) && View() == NEW
    {
      state, pipes, ctx := Idle, {}, START;
      fq := new Priolist();
    }

    method Request(timeout: Timeout)
      requires InRange(fq.View())
      modifies this, fq
      ensures View() == PullProtocol.Request(old(View()), timeout)
    {
      var picked := fq.Pop();
      if picked.Some? && picked.value in pipes {
        ctx := RecvFrom(ctx, picked.value);
        state := Receiving(picked.value, timeout);
      } else {
        state := RecvOnHold(timeout);
      }
    }

    /** The end of `apply`. */
    method CheckReadiness(was: bool)
      modifies this`ctx
      ensures ctx == CheckRecv(old(ctx), was, Scheduling.Peek(fq.View()))
    {
      var now := fq.Peek();
      ctx := CheckRecv(ctx, was, now);
    }

    method AddPipe(eid: EndpointId, priority: Priority)
      modifies this, fq
      ensures CodeStep(old(View()), Event.AddPipe(eid, priority)) == Some(View())
    {
      fq.Insert(eid, priority);
      pipes := pipes + {eid};
    }

    method RemovePipe(eid: EndpointId)
      requires !Panics(View(), Event.RemovePipe(eid))
      modifies this, fq
      ensures CodeStep(old(View()), Event.RemovePipe(eid)) == Some(View())
    {
      var was := fq.Peek();
      var known := eid in pipes;
      fq.Remove(eid);
      pipes := pipes - {eid};
      CheckReadiness(was);
      if known {
        was := fq.Peek();
        if state.Receiving? && state.eid == eid {
          Request(state.timeout);
        }
        CheckReadiness(was);
      }
    }

    method Recv(timeout: Timeout)
      requires !Panics(View(), Event.Recv(timeout))
      modifies this, fq
      ensures CodeStep(old(View()), Event.Recv(timeout)) == Some(View())
    {
      var was := fq.Peek();
      ctx := Call(ctx, timeout);
      Request(timeout);
      CheckReadiness(was);
    }

    method OnRecvAck(eid: EndpointId, msg: Message)
      modifies this
      ensures CodeStep(old(View()), RecvAck(eid, msg)) == Some(View())
    {
      var was := fq.Peek();
      if state.Receiving? && state.eid == eid {
        ctx := Cancel(Answer(ctx, RecvDone(msg)), state.timeout);
        state := Idle;
      }
      CheckReadiness(was);
    }

    method OnRecvTimeout(timer: Timer)
      modifies this
      ensures CodeStep(old(View()), RecvTimeout(timer)) == Some(View())
    {
      var was := fq.Peek();
      ctx := Answer(Fire(ctx, timer), Failed(TimedOut));
      state := Idle;
      CheckReadiness(was);
    }

    method OnRecvReady(eid: EndpointId)
      requires !Panics(View(), RecvReady(eid))
      modifies this, fq
      ensures CodeStep(old(View()), RecvReady(eid)) == Some(View())
    {
      var was := fq.Peek();
      fq.Activate(eid);
      if state.RecvOnHold? {
        Request(state.timeout);
      }
      CheckReadiness(was);
    }

    method OnRecvNotReady(eid: EndpointId)
      modifies this, fq
      ensures CodeStep(old(View()), RecvNotReady(eid)) == Some(View())
    {
      var was := fq.Peek();
      fq.Deactivate(eid);
      CheckReadiness(was);
    }

    method Send(msg: Message, timeout: Timeout)
      modifies this
      ensures CodeStep(old(View()), Event.Send(msg, timeout)) == Some(View())
    {
      ctx := Cancel(Answer(Submit(ctx, msg, timeout), Failed(Unsupported)), timeout);
    }
  }
}

/** The puller over what it was told: who is ready, who is asked, and what the user gets. */
module PullReports {
  import opened Core
  import opened Scheduling
  import opened SchedulingLaws
  import opened Contexts
  import opened Reports
  import opened PullProtocol

  function ReportOf(ev: Event): (r: Report) {
    match ev
    case AddPipe(eid, priority) => Joins(eid, priority)
    case RemovePipe(eid) => Leaves(eid)
    case RecvReady(eid) => Opens(eid)
    case RecvNotReady(eid) => Closes(eid)
    case _ => Nothing
  }

  function ViewNow(s: Socket, ev: Event, v: View): (r: View) {
    var c := Step(s, ev).ctx;
    ViewAfter(v, ReportOf(ev), Grown(s.ctx.asked, c.asked), c.replies != s.ctx.replies)
  }

  function Viewed(s: Socket, evs: seq<Event>, v: View): (r: View)
    decreases |evs|
  {
    if evs == [] then v else Viewed(Step(s, evs[0]), evs[1..], ViewNow(s, evs[0], v))
  }

  /** What the socket stores of it. */
  ghost function Stored(s: Socket): (r: View) {
    View(s.pipes, ActiveIds(s.fq), if s.state.Receiving? then Some(s.state.eid) else None)
  }

  /** A pipe that is ready is asked; only if none is, the call waits. */
  ghost predicate Requested(s: Socket, r: Socket) {
    && r.pipes == s.pipes && r.ctx.replies == s.ctx.replies
    && if ActiveIds(s.fq) == {} then r.state.RecvOnHold? && r.ctx.asked == s.ctx.asked && ActiveIds(r.fq) == {}
       else
         && r.state.Receiving? && r.state.eid in ActiveIds(s.fq)
         && r.ctx.asked == s.ctx.asked + [r.state.eid] && ActiveIds(r.fq) == ActiveIds(s.fq) - {r.state.eid}
  }

  lemma RequestAsks(s: Socket, timeout: Timeout)
    requires Valid(s.fq) && Ids(s.fq) == s.pipes
    ensures Requested(s, Request(s, timeout))
  {
    PopKeeps(s.fq);
    assert ActiveIds(s.fq) <= Ids(s.fq);
  }

  /** How a step changes what is stored, asked and answered. */
  ghost predicate Does(s: Socket, ev: Event, r: Socket) {
    var v, report := Stored(s), ReportOf(ev);
    var ready := ReadyAfter(v.ready, v.present, report);
    && Stored(r) == ViewAfter(v, report, Grown(s.ctx.asked, r.ctx.asked), r.ctx.replies != s.ctx.replies)
    && (if CallsNow(v, report, ev.Recv?, Answered(s.ctx)) && ready != {} then AsksOne(s.ctx, r.ctx, ready)
        else r.ctx.asked == s.ctx.asked)
    && r.ctx.replies == s.ctx.replies + Due(v.at, ev)
  }

  /** The answer that an event is due: a message from the pipe waited for, or a failure. */
  function Due(at: Option<EndpointId>, ev: Event): (r: seq<Reply>) {
    match ev
    case RecvAck(eid, msg) => if at == Some(eid) then [RecvDone(msg)] else []
    case RecvTimeout(_) => [Failed(TimedOut)]
    case Send(_, _) => [Failed(Unsupported)]
    case _ => []
  }

  lemma DoesFrame(s: Socket, ev: Event, t: Socket, r: Socket)
    requires Does(s, ev, t) && r == t.(ctx := t.ctx.(raised := r.ctx.raised))
    ensures Does(s, ev, r)
  {
  }

  /** A call that has to be served is, from what the event leaves. */
  lemma RequestedDoes(s: Socket, ev: Event, s1: Socket, r: Socket)
    requires CallsNow(Stored(s), ReportOf(ev), ev.Recv?, Answered(s.ctx)) && Due(Stored(s).at, ev) == []
    requires s1.pipes == PresentAfter(s.pipes, ReportOf(ev)) && ActiveIds(s1.fq) == ReadyAfter(ActiveIds(s.fq), s.pipes, ReportOf(ev))
    requires s1.ctx.asked == s.ctx.asked && s1.ctx.replies == s.ctx.replies && Requested(s1, r)
    requires s.state.Receiving? ==> ReportOf(ev) == Leaves(s.state.eid)
    ensures Does(s, ev, r)
  {
    if r.state.Receiving? {
      GrownBy(s.ctx.asked, [r.state.eid]);
    }
  }

  lemma RecvDoes(s: Socket, t: Timeout)
    requires Inv(s) && Enabled(s, Recv(t))
    ensures Does(s, Recv(t), Transition(s, Recv(t)))
  {
    var s1 := s.(ctx := Call(s.ctx, t));
    RequestAsks(s1, t);
    RequestedDoes(s, Recv(t), s1, Request(s1, t));
  }

  lemma RecvReadyDoes(s: Socket, eid: EndpointId)
    requires Inv(s)
    ensures Does(s, RecvReady(eid), Transition(s, RecvReady(eid)))
  {
    var s1 := s.(fq := Activate(s.fq, eid));
    ActivateKeeps(s.fq, eid);
    if s.state.RecvOnHold? {
      RequestAsks(s1, s.state.timeout);
      RequestedDoes(s, RecvReady(eid), s1, Request(s1, s.state.timeout));
    }
  }

  lemma RemovalDoes(s: Socket, eid: EndpointId)
    requires Inv(s)
    ensures Does(s, RemovePipe(eid), Removed(s, eid))
  {
    var ev, s2 := RemovePipe(eid), Applied(s, Forget(s, eid));
    RemoveFollowingKeeps(s.fq, eid);
    if s.state.Receiving? && s.state.eid == eid {
      RequestAsks(s2, s.state.timeout);
      RequestedDoes(s, ev, s2, Request(s2, s.state.timeout));
      DoesFrame(s, ev, Request(s2, s.state.timeout), Removed(s, eid));
    } else {
      DoesFrame(s, ev, Forget(s, eid), Removed(s, eid));
    }
  }

  lemma TransitionDoes(s: Socket, ev: Event)
    requires Inv(s) && Enabled(s, ev) && !ev.AddPipe? && !ev.RemovePipe?
    ensures Does(s, ev, Transition(s, ev))
  {
    if ev.Recv? {
      RecvDoes(s, ev.timeout);
    } else if ev.RecvReady? {
      RecvReadyDoes(s, ev.eid);
    } else if ev.RecvNotReady? {
      DeactivateKeeps(s.fq, ev.eid);
    }
  }

  lemma StepDoes(s: Socket, ev: Event)
    requires Inv(s) && Enabled(s, ev)
    ensures Does(s, ev, Step(s, ev))
  {
    if ev.AddPipe? {
      InsertKeeps(s.fq, ev.eid, ev.priority);
    } else if ev.RemovePipe? {
      RemovalDoes(s, ev.eid);
    } else {
      TransitionDoes(s, ev);
      DoesFrame(s, ev, Transition(s, ev), Step(s, ev));
    }
  }

  lemma {:induction false} RunIsViewed(s: Socket, evs: seq<Event>)
    requires Inv(s) && EnabledRun(s, evs)
    ensures Viewed(s, evs, Stored(s)) == Stored(Run(s, evs)) && Inv(Run(s, evs))
    decreases |evs|
  {
    if evs != [] {
      StepDoes(s, evs[0]);
      StepKeeps(s, evs[0]);
      RunIsViewed(Step(s, evs[0]), evs[1..]);
    }
  }

  lemma NothingStored()
    ensures Stored(NEW) == NOBODY && Inv(NEW)
  {
    assert ActiveIds(NEW.fq) == {};
  }

  /**
   After every run the pipes known are those that joined and have not left; those the scheduler counts as ready are those
   that reported ready, took it not back, did not leave and were not asked since; and the pipe waited for is the one
   asked last, unless the call was answered or the pipe left.
   */
  lemma ReadyIsWhatWasReported(evs: seq<Event>)
    requires EnabledRun(NEW, evs)
    ensures Viewed(NEW, evs, NOBODY) == Stored(Run(NEW, evs))
  {
    NothingStored();
    RunIsViewed(NEW, evs);
  }

  /**
   After any run, exactly one pipe is asked, and one of those that are ready, exactly if a receive starts, or a pipe reports
   ready while a receive waits for nobody, or the pipe waited for leaves, and somebody is ready; otherwise nobody is.
   */
  lemma AsksExactlyIf(evs: seq<Event>, ev: Event)
    requires EnabledRun(NEW, evs) && Enabled(Run(NEW, evs), ev)
    ensures var c, c' := Run(NEW, evs).ctx, Step(Run(NEW, evs), ev).ctx;
            var v := Viewed(NEW, evs, NOBODY);
            var ready := ReadyAfter(v.ready, v.present, ReportOf(ev));
            if CallsNow(v, ReportOf(ev), ev.Recv?, Answered(c)) && ready != {} then AsksOne(c, c', ready) else c'.asked == c.asked
  {
    NothingStored();
    RunIsViewed(NEW, evs);
    StepDoes(Run(NEW, evs), ev);
  }

  /** After any run, the user gets a message exactly if it comes from the pipe waited for, and each failure with its cause. */
  lemma AnswersExactly(evs: seq<Event>, ev: Event)
    requires EnabledRun(NEW, evs) && Enabled(Run(NEW, evs), ev)
    ensures Step(Run(NEW, evs), ev).ctx.replies == Run(NEW, evs).ctx.replies + Due(Viewed(NEW, evs, NOBODY).at, ev)
  {
    NothingStored();
    RunIsViewed(NEW, evs);
    StepDoes(Run(NEW, evs), ev);
  }

  /** After every run the last notice is that the user can receive exactly if a pipe is ready by the reports. */
  lemma ToldWhatWasReported(evs: seq<Event>)
    requires EnabledRun(NEW, evs)
    ensures Told(Run(NEW, evs).ctx, false, Viewed(NEW, evs, NOBODY).ready != {})
  {
    NothingStored();
    RunIsViewed(NEW, evs);
    ReadinessIsTold(evs);
    ActiveMeansPeek(Run(NEW, evs).fq);
  }

  // ---------------------------------------------------------------- priorities

  /** The priorities, from the events alone. */
  function Ranked(evs: seq<Event>, ranks: map<EndpointId, Priority>): (r: map<EndpointId, Priority>) {
    if evs == [] then ranks else Ranked(evs[1..], RanksAfter(ranks, ReportOf(evs[0])))
  }

  /** A step pops what the scheduler becomes by the report, or nothing, and uses exactly what it popped. */
  lemma StepPops(s: Socket, ev: Event)
    ensures var h, r := Heard(s.fq, ReportOf(ev)), Step(s, ev);
            && (r.fq == h || r.fq == Pop(h).1)
            && (r.ctx.asked != s.ctx.asked ==>
                  && Pop(h).0.Some? && |r.ctx.asked| == |s.ctx.asked| + 1
                  && r.ctx.asked[|s.ctx.asked|] == Pop(h).0.value)
  {
  }

  lemma {:induction false} RunIsRanked(s: Socket, evs: seq<Event>)
    requires Inv(s) && EnabledRun(s, evs)
    ensures RanksOf(Run(s, evs).fq) == Ranked(evs, RanksOf(s.fq))
    decreases |evs|
  {
    if evs != [] {
      StepPops(s, evs[0]);
      HeardPicksBest(s.fq, ReportOf(evs[0]));
      StepKeeps(s, evs[0]);
      RunIsRanked(Step(s, evs[0]), evs[1..]);
    }
  }

  /** After any run, who is asked has the best priority among those that are ready. */
  lemma BestIsAsked(evs: seq<Event>, ev: Event)
    requires EnabledRun(NEW, evs) && Enabled(Run(NEW, evs), ev) && Step(Run(NEW, evs), ev).ctx.asked != Run(NEW, evs).ctx.asked
    ensures var c, c' := Run(NEW, evs).ctx, Step(Run(NEW, evs), ev).ctx;
            var v := Viewed(NEW, evs, NOBODY);
            var ready := ReadyAfter(v.ready, v.present, ReportOf(ev));
            |c'.asked| == |c.asked| + 1 && c'.asked[|c.asked|] in BestOf(RanksAfter(Ranked(evs, map[]), ReportOf(ev)), ready)
  {
    NothingStored();
    assert RanksOf(EMPTY) == map[];
    RunIsViewed(NEW, evs);
    RunIsRanked(NEW, evs);
    StepPops(Run(NEW, evs), ev);
    HeardPicksBest(Run(NEW, evs).fq, ReportOf(ev));
  }
}

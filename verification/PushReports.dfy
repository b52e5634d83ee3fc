/** The pusher over what it was told: who is ready, who is given the message, and what the user is told. */
module PushReports {
  import opened Core
  import opened Scheduling
  import opened SchedulingLaws
  import opened Contexts
  import opened Reports
  import opened PushProtocol

  function ReportOf(ev: Event): (r: Report) {
    match ev
    case AddPipe(eid, priority) => Joins(eid, priority)
    case RemovePipe(eid) => Leaves(eid)
    case SendReady(eid) => Opens(eid)
    case SendNotReady(eid) => Closes(eid)
    case _ => Nothing
  }

  function ViewNow(s: Socket, ev: Event, v: View): (r: View) {
    var c := Step(s, ev).ctx;
    ViewAfter(v, ReportOf(ev), Receivers(Grown(s.ctx.sent, c.sent)), c.replies != s.ctx.replies)
  }

  function Viewed(s: Socket, evs: seq<Event>, v: View): (r: View)
    decreases |evs|
  {
    if evs == [] then v else Viewed(Step(s, evs[0]), evs[1..], ViewNow(s, evs[0], v))
  }

  /** What the socket stores of it. */
  ghost function Stored(s: Socket): (r: View) {
    View(s.pipes, ActiveIds(s.lb), if s.state.Sending? then Some(s.state.eid) else None)
  }

  /** A pipe that is ready is given the message; only if none is, it waits. */
  ghost predicate Sent(s: Socket, msg: Message, r: Socket) {
    && r.pipes == s.pipes && r.ctx.replies == s.ctx.replies && r.ctx.submitted == s.ctx.submitted
    && if ActiveIds(s.lb) == {} then r.state.SendOnHold? && r.ctx.sent == s.ctx.sent && ActiveIds(r.lb) == {}
       else
         && r.state.Sending? && r.state.eid in ActiveIds(s.lb)
         && r.ctx.sent == s.ctx.sent + [(r.state.eid, msg)] && ActiveIds(r.lb) == ActiveIds(s.lb) - {r.state.eid}
  }

  lemma TransmitSends(s: Socket, msg: Message, timeout: Timeout)
    requires Valid(s.lb) && Ids(s.lb) == s.pipes
    ensures Sent(s, msg, Transmit(s, msg, timeout))
  {
    PopKeeps(s.lb);
    assert ActiveIds(s.lb) <= Ids(s.lb);
  }

  /** The answer that an event is due: an acknowledgment from the pipe waited for, or a failure. */
  function Due(at: Option<EndpointId>, ev: Event): (r: seq<Reply>) {
    match ev
    case SendAck(eid) => if at == Some(eid) then [SendDone] else []
    case SendTimeout(_) => [Failed(TimedOut)]
    case Recv(_) => [Failed(Unsupported)]
    case _ => []
  }

  /** How a step changes what is stored, sent and answered; what is sent is the message submitted last. */
  ghost predicate Does(s: Socket, ev: Event, r: Socket) {
    var v, report := Stored(s), ReportOf(ev);
    var ready := ReadyAfter(v.ready, v.present, report);
    && Stored(r) == ViewAfter(v, report, Receivers(Grown(s.ctx.sent, r.ctx.sent)), r.ctx.replies != s.ctx.replies)
    && r.ctx.submitted == s.ctx.submitted + (if ev.Send? then [ev.msg] else [])
    && (if CallsNow(v, report, ev.Send?, Answered(s.ctx)) && ready != {}
        then r.ctx.submitted != [] && GivesOne(s.ctx, r.ctx, ready, r.ctx.submitted[|r.ctx.submitted| - 1])
        else r.ctx.sent == s.ctx.sent)
    && r.ctx.replies == s.ctx.replies + Due(v.at, ev)
  }

  lemma DoesFrame(s: Socket, ev: Event, t: Socket, r: Socket)
    requires Does(s, ev, t) && r == t.(ctx := t.ctx.(raised := r.ctx.raised))
    ensures Does(s, ev, r)
  {
  }

  /** A message that has to go out does, from what the event leaves. */
  lemma SentDoes(s: Socket, ev: Event, s1: Socket, msg: Message, r: Socket)
    requires CallsNow(Stored(s), ReportOf(ev), ev.Send?, Answered(s.ctx)) && Due(Stored(s).at, ev) == []
    requires s1.pipes == PresentAfter(s.pipes, ReportOf(ev)) && ActiveIds(s1.lb) == ReadyAfter(ActiveIds(s.lb), s.pipes, ReportOf(ev))
    requires s1.ctx.sent == s.ctx.sent && s1.ctx.replies == s.ctx.replies && Sent(s1, msg, r)
    requires s1.ctx.submitted == s.ctx.submitted + (if ev.Send? then [ev.msg] else []) && Latest(s1.ctx.submitted, msg)
    requires s.state.Sending? ==> ReportOf(ev) == Leaves(s.state.eid)
    ensures Does(s, ev, r)
  {
    if r.state.Sending? {
      GrownBy(s.ctx.sent, [(r.state.eid, msg)]);
    }
  }

  lemma SendDoes(s: Socket, msg: Message, t: Timeout)
    requires Inv(s) && Enabled(s, Send(msg, t))
    ensures Does(s, Send(msg, t), Transition(s, Send(msg, t)))
  {
    var s1 := s.(ctx := Submit(s.ctx, msg, t));
    TransmitSends(s1, msg, t);
    SentDoes(s, Send(msg, t), s1, msg, Transmit(s1, msg, t));
  }

  lemma SendReadyDoes(s: Socket, eid: EndpointId)
    requires Inv(s)
    ensures Does(s, SendReady(eid), Transition(s, SendReady(eid)))
  {
    var s1 := s.(lb := Activate(s.lb, eid));
    ActivateKeeps(s.lb, eid);
    if s.state.SendOnHold? {
      TransmitSends(s1, s.state.msg, s.state.timeout);
      SentDoes(s, SendReady(eid), s1, s.state.msg, Transmit(s1, s.state.msg, s.state.timeout));
    }
  }

  lemma RemovalDoes(s: Socket, eid: EndpointId)
    requires Inv(s)
    ensures Does(s, RemovePipe(eid), Removed(s, eid))
  {
    var ev, s2 := RemovePipe(eid), Applied(s, Forget(s, eid));
    RemoveFollowingKeeps(s.lb, eid);
    if s.state.Sending? && s.state.eid == eid {
      var r := Transmit(s2, s.state.msg, s.state.timeout);
      TransmitSends(s2, s.state.msg, s.state.timeout);
      SentDoes(s, ev, s2, s.state.msg, r);
      DoesFrame(s, ev, r, Removed(s, eid));
    } else {
      DoesFrame(s, ev, Forget(s, eid), Removed(s, eid));
    }
  }

  lemma TransitionDoes(s: Socket, ev: Event)
    requires Inv(s) && Enabled(s, ev) && !ev.AddPipe? && !ev.RemovePipe?
    ensures Does(s, ev, Transition(s, ev))
  {
    if ev.Send? {
      SendDoes(s, ev.msg, ev.timeout);
    } else if ev.SendReady? {
      SendReadyDoes(s, ev.eid);
    } else if ev.SendNotReady? {
      DeactivateKeeps(s.lb, ev.eid);
    }
  }

  lemma StepDoes(s: Socket, ev: Event)
    requires Inv(s) && Enabled(s, ev)
    ensures Does(s, ev, Step(s, ev))
  {
    if ev.AddPipe? {
      InsertKeeps(s.lb, ev.eid, ev.priority);
    } else if ev.RemovePipe? {
      RemovalDoes(s, ev.eid);
    } else {
      TransitionDoes(s, ev);
      DoesFrame(s, ev, Transition(s, ev), Step(s, ev));
    }
  }

  lemma {:induction false} RunIsViewed(s: Socket, evs: seq<Event>)
    requires Inv(s) && EnabledRun(s, evs)
    ensures Viewed(s, evs, Stored(s)) == Stored(Run(s, evs)) && Inv(Run(s, evs))
    decreases |evs|
  {
    if evs != [] {
      StepDoes(s, evs[0]);
      StepKeeps(s, evs[0]);
      RunIsViewed(Step(s, evs[0]), evs[1..]);
    }
  }

  lemma NothingStored()
    ensures Stored(NEW) == NOBODY && Inv(NEW)
  {
    assert ActiveIds(NEW.lb) == {};
  }

  /**
   After every run the pipes known are those that joined and have not left; those the scheduler counts as ready are those
   that reported ready, took it not back, did not leave and were given nothing since; and the pipe waited for is the one
   given a message last, unless the call was answered or the pipe left.
   */
  lemma ReadyIsWhatWasReported(evs: seq<Event>)
    requires EnabledRun(NEW, evs)
    ensures Viewed(NEW, evs, NOBODY) == Stored(Run(NEW, evs))
  {
    NothingStored();
    RunIsViewed(NEW, evs);
  }

  /**
   After any run, the message submitted last is given to exactly one pipe, one of those that are ready, exactly if a send
   starts, or a pipe reports ready while a send waits for nobody, or the pipe waited for leaves, and somebody is ready;
   otherwise nothing is sent.
   */
  lemma SendsExactlyIf(evs: seq<Event>, ev: Event)
    requires EnabledRun(NEW, evs) && Enabled(Run(NEW, evs), ev)
    ensures var c, c' := Run(NEW, evs).ctx, Step(Run(NEW, evs), ev).ctx;
            var v := Viewed(NEW, evs, NOBODY);
            var ready := ReadyAfter(v.ready, v.present, ReportOf(ev));
            if CallsNow(v, ReportOf(ev), ev.Send?, Answered(c)) && ready != {}
            then c'.submitted != [] && GivesOne(c, c', ready, c'.submitted[|c'.submitted| - 1])
            else c'.sent == c.sent
  {
    NothingStored();
    RunIsViewed(NEW, evs);
    StepDoes(Run(NEW, evs), ev);
  }

  /** After any run, a send is acknowledged exactly if the ack comes from the pipe waited for, and each failure has its cause. */
  lemma AnswersExactly(evs: seq<Event>, ev: Event)
    requires EnabledRun(NEW, evs) && Enabled(Run(NEW, evs), ev)
    ensures Step(Run(NEW, evs), ev).ctx.replies == Run(NEW, evs).ctx.replies + Due(Viewed(NEW, evs, NOBODY).at, ev)
  {
    NothingStored();
    RunIsViewed(NEW, evs);
    StepDoes(Run(NEW, evs), ev);
  }

  /** After every run the last notice is that the user can send exactly if a pipe is ready by the reports. */
  lemma ToldWhatWasReported(evs: seq<Event>)
    requires EnabledRun(NEW, evs)
    ensures Told(Run(NEW, evs).ctx, Viewed(NEW, evs, NOBODY).ready != {}, false)
  {
    NothingStored();
    RunIsViewed(NEW, evs);
    ReadinessIsTold(evs);
    ActiveMeansPeek(Run(NEW, evs).lb);
  }

  // ---------------------------------------------------------------- priorities

  /** The priorities, from the events alone. */
  function Ranked(evs: seq<Event>, ranks: map<EndpointId, Priority>): (r: map<EndpointId, Priority>) {
    if evs == [] then ranks else Ranked(evs[1..], RanksAfter(ranks, ReportOf(evs[0])))
  }

  /** A step pops what the scheduler becomes by the report, or nothing, and uses exactly what it popped. */
  lemma StepPops(s: Socket, ev: Event)
    ensures var h, r := Heard(s.lb, ReportOf(ev)), Step(s, ev);
            && (r.lb == h || r.lb == Pop(h).1)
            && (r.ctx.sent != s.ctx.sent ==>
                  && Pop(h).0.Some? && |r.ctx.sent| == |s.ctx.sent| + 1
                  && r.ctx.sent[|s.ctx.sent|].0 == Pop(h).0.value)
  {
  }

  lemma {:induction false} RunIsRanked(s: Socket, evs: seq<Event>)
    requires Inv(s) && EnabledRun(s, evs)
    ensures RanksOf(Run(s, evs).lb) == Ranked(evs, RanksOf(s.lb))
    decreases |evs|
  {
    if evs != [] {
      StepPops(s, evs[0]);
      HeardPicksBest(s.lb, ReportOf(evs[0]));
      StepKeeps(s, evs[0]);
      RunIsRanked(Step(s, evs[0]), evs[1..]);
    }
  }

  /** After any run, who is given a message has the best priority among those that are ready. */
  lemma BestIsUsed(evs: seq<Event>, ev: Event)
    requires EnabledRun(NEW, evs) && Enabled(Run(NEW, evs), ev) && Step(Run(NEW, evs), ev).ctx.sent != Run(NEW, evs).ctx.sent
    ensures var c, c' := Run(NEW, evs).ctx, Step(Run(NEW, evs), ev).ctx;
            var v := Viewed(NEW, evs, NOBODY);
            var ready := ReadyAfter(v.ready, v.present, ReportOf(ev));
            |c'.sent| == |c.sent| + 1 && c'.sent[|c.sent|].0 in BestOf(RanksAfter(Ranked(evs, map[]), ReportOf(ev)), ready)
  {
    NothingStored();
    assert RanksOf(EMPTY) == map[];
    RunIsViewed(NEW, evs);
    RunIsRanked(NEW, evs);
    StepPops(Run(NEW, evs), ev);
    HeardPicksBest(Run(NEW, evs).lb, ReportOf(ev));
  }
}

/** Polling: a probe waits until every side it was asked about is ready, or until its time is up. */
module Probing {
  import opened Core

  type SocketId = nat

  datatype PollReq = PollReq(sid: SocketId, recv: bool, send: bool)
  datatype PollRes = PollRes(recv: bool, send: bool)
  datatype Reply = Err | Polled(results: seq<PollRes>)
  type Vote = Option<bool>

  /** `Poll` carries the timer scheduled for it, or nothing if that failed. */
  datatype Event =
    | Poll(scheduled: Option<nat>)
    | CanRecv(sid: SocketId, ready: bool)
    | CanSend(sid: SocketId, ready: bool)
    | PollTimeout(timer: nat)

  /** `polls`, `replies`, `asked` and `timers` log what happened; `since` are the events after the last result. */
  datatype State = State(
    opts: seq<PollReq>,
    recvVotes: seq<Vote>,
    sendVotes: seq<Vote>,
    timeout: Option<nat>,
    polls: nat,
    replies: seq<Reply>,
    asked: seq<SocketId>,
    timers: set<nat>,
    since: seq<Event>)

  predicate Sized(p: State) {
    |p.recvVotes| == |p.opts| && |p.sendVotes| == |p.opts|
  }

  type Ballot = p: State | Sized(p) witness State([], [], [], None, 0, [], [], {}, [])

  /** Where the votes of a socket go: the last request for it. */
  function LastIndex(opts: seq<PollReq>, sid: SocketId): (r: Option<nat>)
    ensures r.Some? ==> r.value < |opts| && opts[r.value].sid == sid
    ensures r.Some? ==> forall i :: r.value < i < |opts| ==> opts[i].sid != sid
    ensures r.None? ==> forall i :: 0 <= i < |opts| ==> opts[i].sid != sid
  {
    if opts == [] then None
    else if opts[|opts| - 1].sid == sid then Some(|opts| - 1)
    else LastIndex(opts[..|opts| - 1], sid)
  }

  lemma LastIndexGrows(opts: seq<PollReq>, n: nat)
    requires n < |opts|
    ensures forall sid :: LastIndex(opts[..n + 1], sid) == if opts[n].sid == sid then Some(n) else LastIndex(opts[..n], sid)
  {
    var longer := opts[..n + 1];
    assert longer[..n] == opts[..n] && longer[n] == opts[n];
    forall sid
      ensures LastIndex(longer, sid) == if opts[n].sid == sid then Some(n) else LastIndex(opts[..n], sid)
    {
    }
  }

  function Sids(opts: seq<PollReq>): (r: seq<SocketId>) {
    if opts == [] then [] else Sids(opts[..|opts| - 1]) + [opts[|opts| - 1].sid]
  }

  function NoVotes(n: nat): (r: seq<Vote>)
    ensures |r| == n && forall i :: 0 <= i < n ==> r[i] == None
  {
    seq(n, _ => None)
  }

  function New(opts: seq<PollReq>): (p: Ballot) {
    State(opts, NoVotes(|opts|), NoVotes(|opts|), None, 0, [], [], {}, [])
  }

  // ---------------------------------------------------------------- operations

  predicate IsVoteOver(interest: bool, vote: Vote) {
    match (interest, vote)
    case (false, _) => true
    case (true, None) => false
    case (true, Some(x)) => x
  }

  predicate IsSideReady(interest: bool, vote: Vote) {
    match (interest, vote)
    case (false, _) => false
    case (true, None) => false
    case (true, Some(x)) => x
  }

  predicate OverAt(p: Ballot, i: nat)
    requires i < |p.opts|
  {
    IsVoteOver(p.opts[i].recv, p.recvVotes[i]) && IsVoteOver(p.opts[i].send, p.sendVotes[i])
  }

  predicate AllOver(p: Ballot) {
    forall i :: 0 <= i < |p.opts| ==> OverAt(p, i)
  }

  /** What the votes say now. */
  function Tally(p: Ballot): (r: seq<PollRes>) {
    seq(|p.opts|, i requires 0 <= i < |p.opts| =>
      PollRes(IsSideReady(p.opts[i].recv, p.recvVotes[i]), IsSideReady(p.opts[i].send, p.sendVotes[i])))
  }

  /** All that was asked for. */
  function Wanted(opts: seq<PollReq>): (r: seq<PollRes>) {
    seq(|opts|, i requires 0 <= i < |opts| => PollRes(opts[i].recv, opts[i].send))
  }

  function Succeed(p: Ballot, results: seq<PollRes>): (r: Ballot) {
    var n := |p.opts|;
    p.(recvVotes := NoVotes(n), sendVotes := NoVotes(n), timeout := None,
       timers := if p.timeout.Some? then p.timers - {p.timeout.value} else p.timers,
       replies := p.replies + [Polled(results)], since := [])
  }

  function Check(p: Ballot): (r: Ballot) {
    if p.timeout.Some? && AllOver(p) then Succeed(p, Wanted(p.opts)) else p
  }

  function Voted(opts: seq<PollReq>, votes: seq<Vote>, sid: SocketId, ready: bool): (r: seq<Vote>)
    requires |votes| == |opts|
    ensures |r| == |votes|
  {
    match LastIndex(opts, sid)
    case None => votes
    case Some(i) => votes[i := Some(ready)]
  }

  function Step(p: Ballot, ev: Event): (r: Ballot) {
    var q := p.(since := p.since + [ev]);
    match ev
    case Poll(None) => q.(polls := p.polls + 1, replies := p.replies + [Err])
    case Poll(Some(t)) =>
      Check(q.(polls := p.polls + 1, timeout := Some(t), timers := p.timers + {t}, asked := p.asked + Sids(p.opts)))
    case CanRecv(sid, ready) => Check(q.(recvVotes := Voted(p.opts, p.recvVotes, sid, ready)))
    case CanSend(sid, ready) => Check(q.(sendVotes := Voted(p.opts, p.sendVotes, sid, ready)))
    case PollTimeout(t) => Succeed(q.(timers := p.timers - {t}), Tally(p))
  }

  function Run(p: Ballot, evs: seq<Event>): (r: Ballot)
    decreases |evs|
  {
    if evs == [] then p else Run(Step(p, evs[0]), evs[1..])
  }

  /** One poll at a time, each with a new timer; timers fire only while live. */
  predicate Enabled(p: Ballot, ev: Event) {
    match ev
    case Poll(t) => p.timeout.None? && (t.Some? ==> t.value !in p.timers)
    case PollTimeout(t) => t in p.timers
    case _ => true
  }

  predicate EnabledRun(p: Ballot, evs: seq<Event>)
    decreases |evs|
  {
    evs == [] || (Enabled(p, evs[0]) && EnabledRun(Step(p, evs[0]), evs[1..]))
  }

  // ---------------------------------------------------------------- what was reported

  datatype Side = RecvSide | SendSide

  /** The last report about one side of a socket. */
  function LastReport(evs: seq<Event>, sid: SocketId, side: Side): (r: Vote) {
    if evs == [] then None
    else
      var rest := evs[..|evs| - 1];
      match evs[|evs| - 1]
      case CanRecv(id, ready) => if id == sid && side == RecvSide then Some(ready) else LastReport(rest, sid, side)
      case CanSend(id, ready) => if id == sid && side == SendSide then Some(ready) else LastReport(rest, sid, side)
      case _ => LastReport(rest, sid, side)
  }

  /** Request `i` is hidden by a later one for the same socket, which takes all its votes. */
  predicate Hidden(opts: seq<PollReq>, i: nat)
    requires i < |opts|
  {
    LastIndex(opts, opts[i].sid) != Some(i)
  }

  function Heard(opts: seq<PollReq>, evs: seq<Event>, i: nat, side: Side): (r: Vote)
    requires i < |opts|
  {
    if Hidden(opts, i) then None else LastReport(evs, opts[i].sid, side)
  }

  /** Each vote is the last report, since the last result, about the side it stands for. */
  ghost predicate VotesAreReports(p: Ballot) {
    && (forall i :: 0 <= i < |p.opts| ==> p.recvVotes[i] == Heard(p.opts, p.since, i, RecvSide))
    && (forall i :: 0 <= i < |p.opts| ==> p.sendVotes[i] == Heard(p.opts, p.since, i, SendSide))
  }

  /** One reply per poll, a timer exactly while a poll is in progress, and none in progress that could be answered. */
  ghost predicate Inv(p: Ballot) {
    && |p.replies| + (if p.timeout.Some? then 1 else 0) == p.polls
    && p.timers == (if p.timeout.Some? then {p.timeout.value} else {})
    && (p.timeout.Some? ==> !AllOver(p))
    && VotesAreReports(p)
  }

  lemma ReportCounts(evs: seq<Event>, ev: Event, sid: SocketId)
    ensures LastReport(evs + [ev], sid, RecvSide) == if ev.CanRecv? && ev.sid == sid then Some(ev.ready) else LastReport(evs, sid, RecvSide)
    ensures LastReport(evs + [ev], sid, SendSide) == if ev.CanSend? && ev.sid == sid then Some(ev.ready) else LastReport(evs, sid, SendSide)
  {
    assert (evs + [ev])[..|evs|] == evs;
  }

  /** The state just before `check` in a step that is no timeout. */
  function Recorded(p: Ballot, ev: Event): (r: Ballot) {
    var q := p.(since := p.since + [ev]);
    match ev
    case CanRecv(sid, ready) => q.(recvVotes := Voted(p.opts, p.recvVotes, sid, ready))
    case CanSend(sid, ready) => q.(sendVotes := Voted(p.opts, p.sendVotes, sid, ready))
    case _ => q
  }

  /** A report changes the vote of the last request for its socket, and no other. */
  lemma VotedAt(opts: seq<PollReq>, votes: seq<Vote>, sid: SocketId, ready: bool, i: nat)
    requires |votes| == |opts| && i < |opts|
    ensures Voted(opts, votes, sid, ready)[i] == if opts[i].sid == sid && !Hidden(opts, i) then Some(ready) else votes[i]
  {
  }

  lemma RecordedAt(p: Ballot, ev: Event, i: nat)
    requires i < |p.opts|
    requires p.recvVotes[i] == Heard(p.opts, p.since, i, RecvSide) && p.sendVotes[i] == Heard(p.opts, p.since, i, SendSide)
    ensures var q := Recorded(p, ev);
            q.recvVotes[i] == Heard(p.opts, q.since, i, RecvSide) && q.sendVotes[i] == Heard(p.opts, q.since, i, SendSide)
  {
    ReportCounts(p.since, ev, p.opts[i].sid);
    match ev
    case CanRecv(sid, ready) => VotedAt(p.opts, p.recvVotes, sid, ready, i);
    case CanSend(sid, ready) => VotedAt(p.opts, p.sendVotes, sid, ready, i);
    case _ =>
  }

  lemma RecordingKeeps(p: Ballot, ev: Event)
    requires VotesAreReports(p)
    ensures VotesAreReports(Recorded(p, ev))
  {
    var q := Recorded(p, ev);
    assert q.opts == p.opts;
    forall i | 0 <= i < |p.opts|
      ensures q.recvVotes[i] == Heard(p.opts, q.since, i, RecvSide)
      ensures q.sendVotes[i] == Heard(p.opts, q.since, i, SendSide)
    {
      RecordedAt(p, ev, i);
    }
  }

  lemma CheckKeeps(p: Ballot)
    requires |p.replies| + (if p.timeout.Some? then 1 else 0) == p.polls
    requires p.timers == if p.timeout.Some? then {p.timeout.value} else {}
    requires VotesAreReports(p)
    ensures Inv(Check(p))
  {
  }

  lemma StepKeeps(p: Ballot, ev: Event)
    requires Inv(p) && Enabled(p, ev)
    ensures Inv(Step(p, ev))
  {
    RecordingKeeps(p, ev);
    var q := Recorded(p, ev);
    match ev
    case Poll(None) => assert VotesAreReports(Step(p, ev));
    case Poll(Some(t)) =>
      CheckKeeps(q.(polls := p.polls + 1, timeout := Some(t), timers := p.timers + {t}, asked := p.asked + Sids(p.opts)));
    case CanRecv(_, _) => CheckKeeps(q);
    case CanSend(_, _) => CheckKeeps(q);
    case PollTimeout(_) =>
  }

  lemma {:induction false} RunKeeps(p: Ballot, evs: seq<Event>)
    requires Inv(p) && EnabledRun(p, evs)
    ensures Inv(Run(p, evs)) && Run(p, evs).opts == p.opts
    decreases |evs|
  {
    if evs != [] {
      StepKeeps(p, evs[0]);
      RunKeeps(Step(p, evs[0]), evs[1..]);
    }
  }

  /** In every run polls and replies balance, and a timer is live exactly while a poll is in progress. */
  lemma EveryRun(opts: seq<PollReq>, evs: seq<Event>)
    requires EnabledRun(New(opts), evs)
    ensures Inv(Run(New(opts), evs)) && Run(New(opts), evs).opts == opts
  {
    RunKeeps(New(opts), evs);
  }

  // ---------------------------------------------------------------- what is answered

  /** Every side asked for was last reported ready. */
  ghost predicate AllReported(opts: seq<PollReq>, evs: seq<Event>) {
    forall i :: 0 <= i < |opts| ==>
      && (opts[i].recv ==> LastReport(evs, opts[i].sid, RecvSide) == Some(true))
      && (opts[i].send ==> LastReport(evs, opts[i].sid, SendSide) == Some(true))
  }

  /** A request that asks for something but can hear nothing. */
  predicate Deaf(opts: seq<PollReq>) {
    exists i :: 0 <= i < |opts| && (opts[i].recv || opts[i].send) && Hidden(opts, i)
  }

  /** All votes are in exactly when every side asked for was reported ready and no request is deaf. */
  lemma AllOverIff(p: Ballot)
    requires VotesAreReports(p)
    ensures AllOver(p) <==> AllReported(p.opts, p.since) && !Deaf(p.opts)
  {
    if AllReported(p.opts, p.since) && !Deaf(p.opts) {
      forall i | 0 <= i < |p.opts|
        ensures OverAt(p, i)
      {
        assert p.recvVotes[i] == Heard(p.opts, p.since, i, RecvSide);
        assert p.sendVotes[i] == Heard(p.opts, p.since, i, SendSide);
      }
    }
    if AllOver(p) {
      forall i | 0 <= i < |p.opts|
        ensures p.opts[i].recv ==> !Hidden(p.opts, i) && LastReport(p.since, p.opts[i].sid, RecvSide) == Some(true)
        ensures p.opts[i].send ==> !Hidden(p.opts, i) && LastReport(p.since, p.opts[i].sid, SendSide) == Some(true)
      {
        assert OverAt(p, i);
      }
    }
  }

  lemma AnswerOfStepIff(p: Ballot, ev: Event)
    requires VotesAreReports(p) && !ev.PollTimeout? && (p.timeout.Some? || (ev.Poll? && ev.scheduled.Some?))
    requires ev.Poll? ==> ev.scheduled.Some?
    ensures Step(p, ev).replies == p.replies + [Polled(Wanted(p.opts))] <==> AllReported(p.opts, p.since + [ev]) && !Deaf(p.opts)
    ensures Step(p, ev).replies == p.replies || Step(p, ev).replies == p.replies + [Polled(Wanted(p.opts))]
  {
    var q := Recorded(p, ev);
    RecordingKeeps(p, ev);
    AllOverIff(q);
    if ev.Poll? {
      SameVotes(q, q.(polls := p.polls + 1, timeout := ev.scheduled, timers := p.timers + {ev.scheduled.value},
                      asked := p.asked + Sids(p.opts)));
    }
  }

  /**
   After any run with a poll in progress or starting, an event that is no timeout is answered at once exactly if then
   every side asked for was last reported ready and no request is deaf.
   */
  lemma AnsweredEarlyIff(opts: seq<PollReq>, evs: seq<Event>, ev: Event)
    requires EnabledRun(New(opts), evs) && Enabled(Run(New(opts), evs), ev) && !ev.PollTimeout?
    requires Run(New(opts), evs).timeout.Some? || (ev.Poll? && ev.scheduled.Some?)
    ensures var p := Run(New(opts), evs);
            Step(p, ev).replies == p.replies + [Polled(Wanted(opts))] <==> AllReported(opts, p.since + [ev]) && !Deaf(opts)
  {
    EveryRun(opts, evs);
    AnswerOfStepIff(Run(New(opts), evs), ev);
  }

  /** Until a timeout fires, a probe with a deaf request gives no result. */
  lemma {:induction false} DeafProbeWaits(p: Ballot, evs: seq<Event>)
    requires Deaf(p.opts) && Inv(p) && EnabledRun(p, evs) && forall i :: 0 <= i < |evs| ==> !evs[i].PollTimeout?
    requires forall i :: 0 <= i < |p.replies| ==> p.replies[i] == Err
    ensures forall i :: 0 <= i < |Run(p, evs).replies| ==> Run(p, evs).replies[i] == Err
    decreases |evs|
  {
    if evs != [] {
      StepKeeps(p, evs[0]);
      if p.timeout.Some? || (evs[0].Poll? && evs[0].scheduled.Some?) {
        AnswerOfStepIff(p, evs[0]);
      }
      DeafProbeWaits(Step(p, evs[0]), evs[1..]);
    }
  }

  /** Two requests for one socket: the earlier is deaf. */
  const TWICE: seq<PollReq> := [PollReq(1, true, false), PollReq(1, true, false)]

  lemma TwiceIsDeaf()
    ensures Deaf(TWICE)
  {
    assert TWICE[0].recv && Hidden(TWICE, 0);
  }

  lemma PollOfTwice() returns (p: Ballot)
    ensures p == Run(New(TWICE), [Poll(Some(7))]) && p.opts == TWICE && p.timeout.Some? && p.replies == []
    ensures VotesAreReports(p)
  {
    TwiceIsDeaf();
    AnswerOfStepIff(New(TWICE), Poll(Some(7)));
    p := Step(New(TWICE), Poll(Some(7)));
    EveryRun(TWICE, [Poll(Some(7))]);
  }

  /** Everything asked for is reported ready, and the poll is not answered. */
  lemma DeafPollIsNotAnswered()
    ensures var p := Run(New(TWICE), [Poll(Some(7))]);
            && p.timeout.Some? && AllReported(TWICE, p.since + [CanRecv(1, true)])
            && Step(p, CanRecv(1, true)).replies == p.replies == []
  {
    var p := PollOfTwice();
    TwiceIsDeaf();
    ReportCounts(p.since, CanRecv(1, true), 1);
    AnswerOfStepIff(p, CanRecv(1, true));
  }

  /** A poll in progress is one that some side asked for has not been reported ready to, or that has a deaf request. */
  lemma InProgressMeansUnready(opts: seq<PollReq>, evs: seq<Event>)
    requires EnabledRun(New(opts), evs) && Run(New(opts), evs).timeout.Some?
    ensures !AllReported(opts, Run(New(opts), evs).since) || Deaf(opts)
  {
    EveryRun(opts, evs);
    AllOverIff(Run(New(opts), evs));
  }

  /** `results` tell, for each request that can hear, whether each side asked for was last reported ready. */
  ghost predicate Tells(opts: seq<PollReq>, evs: seq<Event>, results: seq<PollRes>) {
    && |results| == |opts|
    && forall i :: 0 <= i < |opts| ==>
         results[i] == PollRes(opts[i].recv && Heard(opts, evs, i, RecvSide) == Some(true),
                               opts[i].send && Heard(opts, evs, i, SendSide) == Some(true))
  }

  lemma TallyTells(p: Ballot)
    requires VotesAreReports(p)
    ensures Tells(p.opts, p.since, Tally(p))
    ensures AllOver(p) ==> Tally(p) == Wanted(p.opts)
  {
    if AllOver(p) {
      forall i | 0 <= i < |p.opts|
        ensures Tally(p)[i] == Wanted(p.opts)[i]
      {
        assert OverAt(p, i);
      }
    }
  }

  /**
   After any run, a result ends the poll and its timer and tells what was reported since the previous result. One
   that is given before the timeout is given only if every side asked for was last reported ready.
   */
  lemma ResultsAreRight(opts: seq<PollReq>, evs: seq<Event>, ev: Event, results: seq<PollRes>)
    requires EnabledRun(New(opts), evs) && Enabled(Run(New(opts), evs), ev)
    requires var p := Run(New(opts), evs); Step(p, ev).replies == p.replies + [Polled(results)]
    ensures var p := Run(New(opts), evs);
            && Step(p, ev).timers == {} && Step(p, ev).timeout == None
            && Tells(opts, p.since + [ev], results)
            && (!ev.PollTimeout? ==> AllReported(opts, p.since + [ev]) && results == Wanted(opts))
  {
    EveryRun(opts, evs);
    var p := Run(New(opts), evs);
    ResultOfStep(p, ev, results);
    StepKeeps(p, ev);
  }

  lemma SameVotes(p: Ballot, q: Ballot)
    requires p.opts == q.opts && p.recvVotes == q.recvVotes && p.sendVotes == q.sendVotes
    ensures AllOver(p) <==> AllOver(q)
  {
    assert forall i :: 0 <= i < |p.opts| ==> (OverAt(p, i) <==> OverAt(q, i));
  }

  lemma ResultOfStep(p: Ballot, ev: Event, results: seq<PollRes>)
    requires Inv(p) && Enabled(p, ev) && Step(p, ev).replies == p.replies + [Polled(results)]
    ensures Step(p, ev).timeout == None
    ensures Tells(p.opts, p.since + [ev], results)
    ensures !ev.PollTimeout? ==> AllReported(p.opts, p.since + [ev]) && results == Wanted(p.opts)
  {
    assert Step(p, ev).replies[|p.replies|] == Polled(results);
    var q := Recorded(p, ev);
    RecordingKeeps(p, ev);
    TallyTells(q);
    AllOverIff(q);
    if ev.PollTimeout? {
      assert Tally(q) == Tally(p);
    } else {
      if ev.Poll? {
        SameVotes(q, q.(polls := p.polls + 1, timeout := ev.scheduled, timers := p.timers + {ev.scheduled.value},
                        asked := p.asked + Sids(p.opts)));
      }
      assert results == Wanted(p.opts) && AllOver(q);
    }
  }

  // ---------------------------------------------------------------- who is asked, and what every event is due

  lemma {:induction false} SidsInOrder(opts: seq<PollReq>)
    ensures |Sids(opts)| == |opts| && forall i :: 0 <= i < |opts| ==> Sids(opts)[i] == opts[i].sid
    decreases |opts|
  {
    if opts != [] {
      SidsInOrder(opts[..|opts| - 1]);
    }
  }

  /** A poll that was scheduled asks the socket of each request, in order; nothing else asks anybody. */
  ghost predicate AsksEach(opts: seq<PollReq>, ev: Event, before: seq<SocketId>, after: seq<SocketId>) {
    if ev.Poll? && ev.scheduled.Some? then
      && |after| == |before| + |opts| && after[..|before|] == before
      && forall i :: 0 <= i < |opts| ==> after[|before| + i] == opts[i].sid
    else after == before
  }

  lemma EveryPollAsksEach(opts: seq<PollReq>, evs: seq<Event>, ev: Event)
    requires EnabledRun(New(opts), evs)
    ensures AsksEach(opts, ev, Run(New(opts), evs).asked, Step(Run(New(opts), evs), ev).asked)
  {
    EveryRun(opts, evs);
    SidsInOrder(opts);
  }

  /** What an event is due, by what was reported since the last result. */
  ghost predicate Due(opts: seq<PollReq>, ev: Event, inProgress: bool, since: seq<Event>, replies: seq<Reply>) {
    if ev == Poll(None) then replies == [Err]
    else if ev.PollTimeout? then |replies| == 1 && replies[0].Polled? && Tells(opts, since, replies[0].results)
    else if (ev.Poll? || inProgress) && AllReported(opts, since) && !Deaf(opts) then replies == [Polled(Wanted(opts))]
    else replies == []
  }

  /**
   After any run, a poll that cannot be scheduled is refused, a timeout gives what was reported, and any other event gives a
   result exactly if a poll is in progress or starting, every side asked for was reported ready, and no request is deaf.
   */
  lemma AnswersExactly(opts: seq<PollReq>, evs: seq<Event>, ev: Event)
    requires EnabledRun(New(opts), evs) && Enabled(Run(New(opts), evs), ev)
    ensures var p := Run(New(opts), evs);
            var q := Step(p, ev);
            && p.replies <= q.replies
            && Due(opts, ev, p.timeout.Some?, p.since + [ev], q.replies[|p.replies|..])
  {
    var p := Run(New(opts), evs);
    EveryRun(opts, evs);
    if ev.PollTimeout? {
      ResultOfStep(p, ev, Tally(p));
    } else if ev != Poll(None) && (p.timeout.Some? || ev.Poll?) {
      AnswerOfStepIff(p, ev);
    }
  }
}

/** The probe in place. */
module Probes {
  import opened Core
  import opened Probing

  class Probe {
    const opts: seq<PollReq>
    const recvVotes: array<Vote>
    const sendVotes: array<Vote>
    var index: map<SocketId, nat>
    var timeout: Option<nat>
    ghost var polls: nat
    var replies: seq<Reply>
    var asked: seq<SocketId>
    var timers: set<nat>
    ghost var since: seq<Event>

    ghost predicate Indexed(n: nat)
      requires n <= |opts|
      reads this
    {
      forall sid :: match LastIndex(opts[..n], sid)
                    case None => sid !in index
                    case Some(i) => sid in index && index[sid] == i
    }

    ghost predicate Valid()
      reads this, recvVotes, sendVotes
    {
      && recvVotes != sendVotes && recvVotes.Length == |opts| && sendVotes.Length == |opts|
      && Indexed(|opts|)
    }

    ghost function View(): (p: Ballot)
      requires Valid()
      reads this, recvVotes, sendVotes
    {
      State(opts, recvVotes[..], sendVotes[..], timeout, polls, replies, asked, timers, since)
    }

    constructor (opts: seq<PollReq>)
      ensures Valid() && fresh(recvVotes) && fresh(sendVotes) && View() == New(opts)
    {
      this.opts := opts;
      recvVotes := new Vote[|opts|](_ => None);
      sendVotes := new Vote[|opts|](_ => None);
      index, timeout, polls, replies, asked, timers, since := map[], None, 0, [], [], {}, [];
      new;
      for i := 0 to |opts|
        invariant Indexed(i)
        invariant timeout == None && polls == 0 && replies == [] && asked == [] && timers == {} && since == []
        invariant recvVotes[..] == NoVotes(|opts|) && sendVotes[..] == NoVotes(|opts|)
      {
        LastIndexGrows(opts, i);
        index := index[opts[i].sid := i];
      }
      assert opts[..|opts|] == opts;
    }

    method ClearVotes()
      requires Valid()
      modifies recvVotes, sendVotes
      ensures Valid() && recvVotes[..] == NoVotes(|opts|) && sendVotes[..] == NoVotes(|opts|)
    {
      for i := 0 to |opts|
        invariant forall j :: 0 <= j < i ==> recvVotes[j] == None && sendVotes[j] == None
      {
        recvVotes[i], sendVotes[i] := None, None;
      }
    }

    /** `on_poll_succeed`. */
    method Finish(results: seq<PollRes>)
      requires Valid()
      modifies this, recvVotes, sendVotes
      ensures Valid() && View() == Succeed(old(View()), results)
    {
      if timeout.Some? {
        timers := timers - {timeout.value};
      }
      timeout := None;
      ClearVotes();
      replies := replies + [Polled(results)];
      since := [];
    }

    method CheckVotes()
      requires Valid()
      modifies this, recvVotes, sendVotes
      ensures Valid() && View() == Check(old(View()))
    {
      if timeout.None? {
        return;
      }
      for i := 0 to |opts|
        invariant View() == old(View())
        invariant forall j :: 0 <= j < i ==> OverAt(View(), j)
      {
        assert OverAt(View(), i) <==> IsVoteOver(opts[i].recv, recvVotes[i]) && IsVoteOver(opts[i].send, sendVotes[i]);
        if !IsVoteOver(opts[i].recv, recvVotes[i]) {
          return;
        }
        if !IsVoteOver(opts[i].send, sendVotes[i]) {
          return;
        }
      }
      assert AllOver(View());
      Finish(Wanted(opts));
    }

    method AskAll()
      modifies this`asked
      ensures asked == old(asked) + Sids(opts)
    {
      for i := 0 to |opts|
        invariant asked == old(asked) + Sids(opts[..i])
      {
        assert opts[..i + 1][..i] == opts[..i];
        asked := asked + [opts[i].sid];
      }
      assert opts[..|opts|] == opts;
    }

    method Poll(scheduled: Option<nat>)
      requires Valid()
      modifies this, recvVotes, sendVotes
      ensures Valid() && View() == Step(old(View()), Event.Poll(scheduled))
    {
      since := since + [Event.Poll(scheduled)];
      polls := polls + 1;
      if scheduled.None? {
        replies := replies + [Err];
        return;
      }
      timeout := scheduled;
      timers := timers + {scheduled.value};
      AskAll();
      CheckVotes();
    }

    method OnPollTimeout(timer: nat)
      requires Valid()
      modifies this, recvVotes, sendVotes
      ensures Valid() && View() == Step(old(View()), PollTimeout(timer))
    {
      ghost var before := View();
      var results := [];
      for i := 0 to |opts|
        invariant |results| == i && forall j :: 0 <= j < i ==> results[j] == Tally(before)[j]
      {
        results := results + [PollRes(IsSideReady(opts[i].recv, recvVotes[i]), IsSideReady(opts[i].send, sendVotes[i]))];
      }
      assert results == Tally(before);
      since := since + [PollTimeout(timer)];
      timers := timers - {timer};
      Finish(results);
    }

    method OnSocketCanRecv(sid: SocketId, ready: bool)
      requires Valid()
      modifies this, recvVotes, sendVotes
      ensures Valid() && View() == Step(old(View()), CanRecv(sid, ready))
    {
      assert opts[..|opts|] == opts;
      since := since + [CanRecv(sid, ready)];
      if sid in index {
        recvVotes[index[sid]] := Some(ready);
      }
      CheckVotes();
    }

    method OnSocketCanSend(sid: SocketId, ready: bool)
      requires Valid()
      modifies this, recvVotes, sendVotes
      ensures Valid() && View() == Step(old(View()), CanSend(sid, ready))
    {
      assert opts[..|opts|] == opts;
      since := since + [CanSend(sid, ready)];
      if sid in index {
        sendVotes[index[sid]] := Some(ready);
      }
      CheckVotes();
    }
  }
}

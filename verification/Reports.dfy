/**
 What can be known of the pipes from the events and the logs alone: who is there, who reported ready and was not used
 since, and who is being used. The laws of the protocols are stated over this and not over what a socket stores.
 */
module Reports {
  import opened Core
  import opened Scheduling
  import opened SchedulingLaws
  import opened Contexts

  /** What an event says of a pipe, as far as one direction goes. */
  datatype Report =
    | Joins(eid: EndpointId, priority: Priority)
    | Leaves(eid: EndpointId)
    | Opens(eid: EndpointId)
    | Closes(eid: EndpointId)
    | Nothing

  function PresentAfter(present: set<EndpointId>, report: Report): (r: set<EndpointId>) {
    match report
    case Joins(eid, _) => present + {eid}
    case Leaves(eid) => present - {eid}
    case _ => present
  }

  /** Those whose last report is that they are ready, whoever they are. */
  function OpenAfter(open: set<EndpointId>, report: Report): (r: set<EndpointId>) {
    match report
    case Opens(eid) => open + {eid}
    case Closes(eid) => open - {eid}
    case Leaves(eid) => open - {eid}
    case _ => open
  }

  /** The same, where only who is there is heard. */
  function ReadyAfter(ready: set<EndpointId>, present: set<EndpointId>, report: Report): (r: set<EndpointId>) {
    if report.Opens? && report.eid !in present then ready else OpenAfter(ready, report)
  }

  /** With what priority each is there. */
  function RanksAfter(ranks: map<EndpointId, Priority>, report: Report): (r: map<EndpointId, Priority>) {
    match report
    case Joins(eid, priority) => ranks[eid := priority]
    case Leaves(eid) => ranks - {eid}
    case _ => ranks
  }

  /** A scheduler that was told. */
  function Heard(s: Sched, report: Report): (r: Sched) {
    match report
    case Joins(eid, priority) => Insert(s, eid, priority)
    case Leaves(eid) => RemoveFollowing(s, eid)
    case Opens(eid) => Activate(s, eid)
    case Closes(eid) => Deactivate(s, eid)
    case Nothing => s
  }

  lemma HeardIsRight(s: Sched, report: Report)
    requires Valid(s) && (report.Joins? ==> report.eid !in Ids(s) && report.priority <= LOWEST)
    ensures var h := Heard(s, report);
            Valid(h) && RanksOf(h) == RanksAfter(RanksOf(s), report) && ActiveIds(h) == ReadyAfter(ActiveIds(s), Ids(s), report)
  {
    if report.Joins? {
      InsertKeeps(s, report.eid, report.priority);
      InsertRanks(s, report.eid, report.priority);
    } else if report.Leaves? {
      RemoveFollowingKeeps(s, report.eid);
      RemoveRanks(s, report.eid);
    } else if report.Opens? {
      ActivateKeeps(s, report.eid);
      OperationsKeepRanks(s, report.eid);
    } else if report.Closes? {
      DeactivateKeeps(s, report.eid);
      OperationsKeepRanks(s, report.eid);
    }
  }

  /** It knows the priorities and who is ready, and picks one of the best. */
  lemma HeardPicksBest(s: Sched, report: Report)
    requires Valid(s) && (report.Joins? ==> report.eid !in Ids(s) && report.priority <= LOWEST)
    ensures var h := Heard(s, report);
            var ready := ReadyAfter(ActiveIds(s), Ids(s), report);
            && RanksOf(h) == RanksOf(Pop(h).1) == RanksAfter(RanksOf(s), report)
            && (Pop(h).0.Some? ==> Pop(h).0.value in BestOf(RanksAfter(RanksOf(s), report), ready))
  {
    HeardIsRight(s, report);
    OperationsKeepRanks(Heard(s, report), 0);
    PopServesBest(Heard(s, report));
  }

  /** What a step added to a log. */
  function Grown<T(==)>(before: seq<T>, after: seq<T>): (r: seq<T>) {
    if before <= after then after[|before|..] else after
  }

  lemma GrownBy<T>(before: seq<T>, more: seq<T>)
    ensures Grown(before, before + more) == more
  {
  }

  /** To whom messages went. */
  function Receivers(sent: seq<(EndpointId, Message)>): (r: seq<EndpointId>)
    ensures |r| == |sent| && forall i :: 0 <= i < |r| ==> r[i] == sent[i].0
  {
    seq(|sent|, i requires 0 <= i < |sent| => sent[i].0)
  }

  lemma OneReceiver(eid: EndpointId, msg: Message)
    ensures (set e | e in Receivers([(eid, msg)])) == {eid}
  {
    assert Receivers([(eid, msg)])[0] == eid;
  }

  /** One more was asked, of those in `from`. */
  ghost predicate AsksOne(before: Ctx, after: Ctx, from: set<EndpointId>) {
    |Grown(before.asked, after.asked)| == 1 && before.asked <= after.asked && after.asked[|before.asked|] in from
  }

  /** `msg` was given to one more, of those in `to`. */
  ghost predicate GivesOne(before: Ctx, after: Ctx, to: set<EndpointId>, msg: Message) {
    && |Grown(before.sent, after.sent)| == 1 && before.sent <= after.sent
    && after.sent[|before.sent|].0 in to && after.sent[|before.sent|].1 == msg
  }

  /** One direction of a socket that has one call at a time: `at` is the pipe that the call waits for. */
  datatype View = View(present: set<EndpointId>, ready: set<EndpointId>, at: Option<EndpointId>)

  const NOBODY: View := View({}, {}, None)

  /** A pipe that is used is ready no more and waited for, until the call is answered or the pipe leaves. */
  function AtAfter(at: Option<EndpointId>, report: Report, used: seq<EndpointId>, answered: bool): (r: Option<EndpointId>) {
    if used != [] then Some(used[|used| - 1])
    else if answered || (report.Leaves? && at == Some(report.eid)) then None
    else at
  }

  function ViewAfter(v: View, report: Report, used: seq<EndpointId>, answered: bool): (r: View) {
    View(PresentAfter(v.present, report),
         ReadyAfter(v.ready, v.present, report) - (set e | e in used),
         AtAfter(v.at, report, used, answered))
  }

  /** The call that waits has to be served now: it starts, somebody opens while it waits for nobody, or who it waits for leaves. */
  predicate CallsNow(v: View, report: Report, starts: bool, answered: bool) {
    || starts
    || (report.Opens? && !answered && v.at.None?)
    || (report.Leaves? && v.at == Some(report.eid))
  }

  // ---------------------------------------------------------------- asks and messages

  /** More was asked of the pipe waited for than came from it. */
  predicate Outstanding(at: Option<EndpointId>, asked: seq<EndpointId>, came: multiset<EndpointId>) {
    at.Some? ==> came[at.value] < multiset(asked)[at.value]
  }

  /** Whoever is waited for after a step was asked in it, or waited for before and sent nothing, or nothing that counts. */
  predicate KeepsAsking(before: Option<EndpointId>, asked: seq<EndpointId>, from: Option<EndpointId>, refused: bool,
                        after: Option<EndpointId>, asked': seq<EndpointId>) {
    after.Some? ==>
      || asked' == asked + [after.value]
      || (asked' == asked && after == before && (from == after ==> refused))
  }

  /** What was refused is all that was outstanding. */
  predicate RefusesLast(at: Option<EndpointId>, asked: seq<EndpointId>, came: multiset<EndpointId>, from: Option<EndpointId>, refused: bool) {
    refused && from.Some? && at == from && came[from.value] + 1 == multiset(asked)[from.value]
  }

  function CameFrom(came: multiset<EndpointId>, from: Option<EndpointId>): (r: multiset<EndpointId>) {
    if from.Some? then came + multiset{from.value} else came
  }

  lemma OutstandingIff(before: Option<EndpointId>, asked: seq<EndpointId>, from: Option<EndpointId>, refused: bool,
                       after: Option<EndpointId>, asked': seq<EndpointId>, came: multiset<EndpointId>)
    requires KeepsAsking(before, asked, from, refused, after, asked') && Outstanding(before, asked, came)
    requires CameFrom(came, from) <= multiset(asked)
    requires refused && from.Some? && before == from ==> after == before && asked' == asked
    ensures Outstanding(after, asked', CameFrom(came, from)) <==> !RefusesLast(before, asked, came, from, refused)
  {
  }
}

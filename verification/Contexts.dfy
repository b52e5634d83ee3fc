/**
 What a protocol does to the world around it: answers to the user, messages handed to pipes, readiness
 notices raised, and timers. The log is complete, so that laws can speak about whole runs.
 */
module Contexts {
  import opened Core

  datatype Problem = TimedOut | Unsupported | Inactive | Malformed
  datatype Reply = SendDone | RecvDone(msg: Message) | Failed(problem: Problem)

  datatype TimerKind = SendTimer | RecvTimer | ResendTimer | SurveyTimer
  datatype Timer = Timer(kind: TimerKind, id: nat)
  type Timeout = Option<Timer>

  datatype Notice = CanSend(ready: bool) | CanRecv(ready: bool)

  /**
   `calls` counts the calls of the user and `submitted` are the messages of those that send;
   `timers` are those scheduled, not cancelled and not fired.
   */
  datatype Ctx = Ctx(
    calls: nat,
    submitted: seq<Message>,
    replies: seq<Reply>,
    sent: seq<(EndpointId, Message)>,
    asked: seq<EndpointId>,
    raised: seq<Notice>,
    timers: set<Timer>)

  const START: Ctx := Ctx(0, [], [], [], [], [], {})

  function TimerSet(t: Timeout): (r: set<Timer>) {
    if t.Some? then {t.value} else {}
  }

  /** A call of the user, with the timer that was scheduled for it. */
  function Call(c: Ctx, t: Timeout): (r: Ctx) {
    c.(calls := c.calls + 1, timers := c.timers + TimerSet(t))
  }

  function Submit(c: Ctx, msg: Message, t: Timeout): (r: Ctx) {
    Call(c, t).(submitted := c.submitted + [msg])
  }

  function Fire(c: Ctx, t: Timer): (r: Ctx) {
    c.(timers := c.timers - {t})
  }

  function Answer(c: Ctx, reply: Reply): (r: Ctx) {
    c.(replies := c.replies + [reply])
  }

  function Cancel(c: Ctx, t: Timeout): (r: Ctx) {
    c.(timers := c.timers - TimerSet(t))
  }

  function Schedule(c: Ctx, t: Timeout): (r: Ctx) {
    c.(timers := c.timers + TimerSet(t))
  }

  function SendTo(c: Ctx, eid: EndpointId, msg: Message): (r: Ctx) {
    c.(sent := c.sent + [(eid, msg)])
  }

  function RecvFrom(c: Ctx, eid: EndpointId): (r: Ctx) {
    c.(asked := c.asked + [eid])
  }

  /** `check_send_ready_change`. */
  function CheckSend(c: Ctx, was: bool, now: bool): (r: Ctx) {
    if was != now then c.(raised := c.raised + [CanSend(now)]) else c
  }

  /** `check_recv_ready_change`. */
  function CheckRecv(c: Ctx, was: bool, now: bool): (r: Ctx) {
    if was != now then c.(raised := c.raised + [CanRecv(now)]) else c
  }

  /** A timer that may be handed over with a call: of the right kind and not in use. */
  predicate FreshTimer(c: Ctx, t: Timeout, kind: TimerKind) {
    t.Some? ==> t.value.kind == kind && t.value !in c.timers
  }

  /** The last element of a log. */
  predicate Latest<T(==)>(log: seq<T>, x: T) {
    log != [] && log[|log| - 1] == x
  }

  predicate Answered(c: Ctx) {
    |c.replies| == c.calls
  }

  /** A timer for a call of the user, and not one of the protocol's own. */
  predicate IsCallTimer(t: Timer) {
    t.kind == SendTimer || t.kind == RecvTimer
  }

  /** The only live timer of a call is the one held. */
  ghost predicate OwnsTimers(c: Ctx, held: Timeout) {
    forall t :: IsCallTimer(t) ==> (t in c.timers <==> held == Some(t))
  }

  predicate IsKind(t: Timeout, kind: TimerKind) {
    t.Some? ==> t.value.kind == kind
  }

  // ---------------------------------------------------------------- readiness notices

  /** The last notice of each side, false if there was none. */
  function LastSend(raised: seq<Notice>): (b: bool) {
    if raised == [] then false
    else
      match raised[|raised| - 1]
      case CanSend(ready) => ready
      case CanRecv(_) => LastSend(raised[..|raised| - 1])
  }

  function LastRecv(raised: seq<Notice>): (b: bool) {
    if raised == [] then false
    else
      match raised[|raised| - 1]
      case CanRecv(ready) => ready
      case CanSend(_) => LastRecv(raised[..|raised| - 1])
  }

  /** Every notice says something new: on each side they strictly alternate, starting with true. */
  ghost predicate Alternate(raised: seq<Notice>) {
    forall i :: 0 <= i < |raised| ==>
      match raised[i]
      case CanSend(ready) => ready != LastSend(raised[..i])
      case CanRecv(ready) => ready != LastRecv(raised[..i])
  }

  /** What the notices say is how things are. */
  ghost predicate Told(c: Ctx, sendReady: bool, recvReady: bool) {
    LastSend(c.raised) == sendReady && LastRecv(c.raised) == recvReady && Alternate(c.raised)
  }

  /** One more notice: right exactly if what was told before was its opposite. */
  lemma NoticeKeeps(raised: seq<Notice>, n: Notice)
    ensures Alternate(raised + [n]) <==>
            Alternate(raised) && match n case CanSend(b) => b != LastSend(raised) case CanRecv(b) => b != LastRecv(raised)
    ensures LastSend(raised + [n]) == match n case CanSend(b) => b case CanRecv(_) => LastSend(raised)
    ensures LastRecv(raised + [n]) == match n case CanRecv(b) => b case CanSend(_) => LastRecv(raised)
  {
    var all := raised + [n];
    assert all[..|raised|] == raised;
    assert forall i :: 0 <= i < |raised| ==> all[..i] == raised[..i] && all[i] == raised[i];
    assert all[|raised|] == n;
    if Alternate(all) {
      forall i | 0 <= i < |raised|
        ensures match raised[i]
                case CanSend(ready) => ready != LastSend(raised[..i])
                case CanRecv(ready) => ready != LastRecv(raised[..i])
      {
        assert all[i] == raised[i];
      }
    }
  }

  lemma CheckSendTellsIff(c: Ctx, was: bool, now: bool, recv: bool)
    ensures Told(CheckSend(c, was, now), now, recv) <==> Told(c, was, recv)
  {
    NoticeKeeps(c.raised, CanSend(now));
  }

  lemma CheckRecvTellsIff(c: Ctx, was: bool, now: bool, send: bool)
    ensures Told(CheckRecv(c, was, now), send, now) <==> Told(c, send, was)
  {
    NoticeKeeps(c.raised, CanRecv(now));
  }

  function Checks(c: Ctx, wasSend: bool, nowSend: bool, wasRecv: bool, nowRecv: bool): (r: Ctx) {
    CheckRecv(CheckSend(c, wasSend, nowSend), wasRecv, nowRecv)
  }

  /**
   After a check the notices are right exactly if before it they said what was: once one was wrong they never
   alternate again, whatever comes.
   */
  lemma ChecksTellIff(c: Ctx, wasSend: bool, nowSend: bool, wasRecv: bool, nowRecv: bool)
    ensures Told(Checks(c, wasSend, nowSend, wasRecv, nowRecv), nowSend, nowRecv) <==> Told(c, wasSend, wasRecv)
  {
    CheckSendTellsIff(c, wasSend, nowSend, wasRecv);
    CheckRecvTellsIff(CheckSend(c, wasSend, nowSend), wasRecv, nowRecv, nowSend);
  }

  /** A side whose last notice is wrong is put right by the next change of its readiness, and by nothing else. */
  lemma ChecksAgreeIff(c: Ctx, wasSend: bool, nowSend: bool, wasRecv: bool, nowRecv: bool)
    ensures var r := Checks(c, wasSend, nowSend, wasRecv, nowRecv);
            && (LastSend(r.raised) == nowSend <==> LastSend(c.raised) == wasSend || wasSend != nowSend)
            && (LastRecv(r.raised) == nowRecv <==> LastRecv(c.raised) == wasRecv || wasRecv != nowRecv)
  {
    NoticeKeeps(c.raised, CanSend(nowSend));
    NoticeKeeps(CheckSend(c, wasSend, nowSend).raised, CanRecv(nowRecv));
  }

  lemma NestedChecksAgreeIff(c: Ctx, wasSend: bool, midSend: bool, nowSend: bool, wasRecv: bool, midRecv: bool, nowRecv: bool)
    requires wasSend == midSend || midSend == nowSend
    requires wasRecv == midRecv || midRecv == nowRecv
    ensures var r := Checks(Checks(c, midSend, nowSend, midRecv, nowRecv), wasSend, midSend, wasRecv, midRecv);
            && (LastSend(r.raised) == nowSend <==> LastSend(c.raised) == wasSend || wasSend != nowSend)
            && (LastRecv(r.raised) == nowRecv <==> LastRecv(c.raised) == wasRecv || wasRecv != nowRecv)
  {
    var inner := Checks(c, midSend, nowSend, midRecv, nowRecv);
    var send := if wasSend == midSend then nowSend else wasSend;
    var recv := if wasRecv == midRecv then nowRecv else wasRecv;
    assert inner == Checks(c, wasSend, send, wasRecv, recv);
    ChecksAgreeIff(c, wasSend, send, wasRecv, recv);
    assert Checks(inner, wasSend, midSend, wasRecv, midRecv) == Checks(inner, send, nowSend, recv, nowRecv);
    ChecksAgreeIff(inner, send, nowSend, recv, nowRecv);
  }

  /**
   `remove_pipe` of the two-way protocols: the checks of a nested transition, from `mid` to `now`, come before
   those of the removal itself, from `was` to `mid`. The notices stay right because, on each side, the two do
   not both see a change.
   */
  lemma NestedChecksTellIff(c: Ctx, wasSend: bool, midSend: bool, nowSend: bool, wasRecv: bool, midRecv: bool, nowRecv: bool)
    requires wasSend == midSend || midSend == nowSend
    requires wasRecv == midRecv || midRecv == nowRecv
    ensures var inner := Checks(c, midSend, nowSend, midRecv, nowRecv);
            Told(Checks(inner, wasSend, midSend, wasRecv, midRecv), nowSend, nowRecv) <==> Told(c, wasSend, wasRecv)
  {
    var send := if wasSend == midSend then nowSend else wasSend;
    var recv := if wasRecv == midRecv then nowRecv else wasRecv;
    ChecksTellIff(c, wasSend, send, wasRecv, recv);
    var inner := Checks(c, midSend, nowSend, midRecv, nowRecv);
    assert inner == Checks(c, wasSend, send, wasRecv, recv);
    ChecksTellIff(inner, send, nowSend, recv, nowRecv);
  }
}

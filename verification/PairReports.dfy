/** The pair over what it was told: who its peer is, what the peer is ready for, and what the user gets. */
module PairReports {
  import opened Core
  import opened Contexts
  import opened Reports
  import opened PairProtocol

  /** `at` is the peer that the call waits for, a send if `sending`. */
  datatype Known = Known(peer: Option<EndpointId>, sendReady: bool, recvReady: bool, at: Option<EndpointId>, sending: bool)

  const UNKNOWN: Known := Known(None, false, false, None, false)

  /** The first pipe is the peer until it leaves. */
  function PeerAfter(peer: Option<EndpointId>, ev: Event): (r: Option<EndpointId>) {
    match ev
    case AddPipe(eid) => if peer.None? then Some(eid) else peer
    case RemovePipe(eid) => if peer == Some(eid) then None else peer
    case _ => peer
  }

  function SendReadyAfter(k: Known, ev: Event): (r: bool) {
    match ev
    case SendReady(eid) => k.sendReady || k.peer == Some(eid)
    case SendNotReady(eid) => k.sendReady && k.peer != Some(eid)
    case RemovePipe(eid) => k.sendReady && k.peer != Some(eid)
    case _ => k.sendReady
  }

  function RecvReadyAfter(k: Known, ev: Event): (r: bool) {
    match ev
    case RecvReady(eid) => k.recvReady || k.peer == Some(eid)
    case RecvNotReady(eid) => k.recvReady && k.peer != Some(eid)
    case RemovePipe(eid) => k.recvReady && k.peer != Some(eid)
    case _ => k.recvReady
  }

  function LeavingOf(ev: Event): (r: Report) {
    if ev.RemovePipe? then Leaves(ev.eid) else Nothing
  }

  /** From the events and the growth of the logs. */
  function KnownAfter(k: Known, ev: Event, sent: seq<EndpointId>, asked: seq<EndpointId>, answered: bool): (r: Known) {
    Known(PeerAfter(k.peer, ev),
          SendReadyAfter(k, ev) && sent == [],
          RecvReadyAfter(k, ev) && asked == [],
          AtAfter(k.at, LeavingOf(ev), sent + asked, answered),
          ev.Send? || (!ev.Recv? && k.sending))
  }

  function KnownNow(s: Socket, ev: Event, k: Known): (r: Known) {
    var c := Step(s, ev).ctx;
    KnownAfter(k, ev, Receivers(Grown(s.ctx.sent, c.sent)), Grown(s.ctx.asked, c.asked), c.replies != s.ctx.replies)
  }

  function KnownOver(s: Socket, evs: seq<Event>, k: Known): (r: Known)
    decreases |evs|
  {
    if evs == [] then k else KnownOver(Step(s, evs[0]), evs[1..], KnownNow(s, evs[0], k))
  }

  /** What the socket stores is that; which call is the last matters only while it waits. */
  predicate Stores(s: Socket, k: Known) {
    && s.pipe == k.peer && s.sendReady == k.sendReady && s.recvReady == k.recvReady
    && (s.state.Sending? || s.state.SendOnHold? ==> k.sending)
    && (s.state.Receiving? || s.state.RecvOnHold? ==> !k.sending)
    && k.at == if s.state.Sending? || s.state.Receiving? then Some(s.state.eid) else None
  }

  /** A send starts or waits for nobody, and the peer is ready for it. */
  predicate Serves(c: Ctx, k: Known, ev: Event) {
    (ev.Send? || (k.sending && !Answered(c) && k.at.None?)) && SendReadyAfter(k, ev)
  }

  predicate Requests(c: Ctx, k: Known, ev: Event) {
    (ev.Recv? || (!k.sending && !Answered(c) && k.at.None?)) && RecvReadyAfter(k, ev)
  }

  function Due(k: Known, ev: Event): (r: seq<Reply>) {
    match ev
    case SendAck(eid) => if k.sending && k.at == Some(eid) then [SendDone] else []
    case RecvAck(eid, msg) => if !k.sending && k.at == Some(eid) then [RecvDone(msg)] else []
    case SendTimeout(_) => [Failed(TimedOut)]
    case RecvTimeout(_) => [Failed(TimedOut)]
    case _ => []
  }

  /** How a step changes the logs. */
  ghost predicate Does(c: Ctx, k: Known, ev: Event, c': Ctx) {
    && c'.submitted == c.submitted + (if ev.Send? then [ev.msg] else [])
    && (if Serves(c, k, ev)
        then k.peer.Some? && c'.submitted != [] && c'.sent == c.sent + [(k.peer.value, c'.submitted[|c'.submitted| - 1])]
        else c'.sent == c.sent)
    && (if Requests(c, k, ev) then k.peer.Some? && c'.asked == c.asked + [k.peer.value] else c'.asked == c.asked)
    && c'.replies == c.replies + Due(k, ev)
  }

  predicate IsOfSending(ev: Event) {
    ev.Send? || ev.SendAck? || ev.SendTimeout? || ev.SendReady? || ev.SendNotReady?
  }

  lemma SendSideDoes(s: Socket, k: Known, ev: Event)
    requires Inv(s) && Stores(s, k) && Enabled(s, ev) && IsOfSending(ev)
    ensures Does(s.ctx, k, ev, Transition(s, ev).ctx)
  {
  }

  lemma RecvSideDoes(s: Socket, k: Known, ev: Event)
    requires Inv(s) && Stores(s, k) && Enabled(s, ev) && !IsOfSending(ev)
    ensures Does(s.ctx, k, ev, Transition(s, ev).ctx)
  {
  }

  lemma SendSideIsKnown(s: Socket, k: Known, ev: Event)
    requires Inv(s) && Stores(s, k) && Enabled(s, ev) && IsOfSending(ev)
    ensures var r := Transition(s, ev);
            Stores(r, KnownAfter(k, ev, Receivers(Grown(s.ctx.sent, r.ctx.sent)), Grown(s.ctx.asked, r.ctx.asked), r.ctx.replies != s.ctx.replies))
  {
    SendSideDoes(s, k, ev);
  }

  lemma RecvSideIsKnown(s: Socket, k: Known, ev: Event)
    requires Inv(s) && Stores(s, k) && Enabled(s, ev) && !IsOfSending(ev)
    ensures var r := Transition(s, ev);
            Stores(r, KnownAfter(k, ev, Receivers(Grown(s.ctx.sent, r.ctx.sent)), Grown(s.ctx.asked, r.ctx.asked), r.ctx.replies != s.ctx.replies))
  {
    RecvSideDoes(s, k, ev);
    if k.peer.Some? {
      GrownBy(s.ctx.asked, [k.peer.value]);
    }
  }

  lemma StepDoes(s: Socket, k: Known, ev: Event)
    requires Inv(s) && Stores(s, k) && Enabled(s, ev)
    ensures Does(s.ctx, k, ev, Step(s, ev).ctx) && Stores(Step(s, ev), KnownNow(s, ev, k))
  {
    if IsOfSending(ev) {
      SendSideDoes(s, k, ev);
      SendSideIsKnown(s, k, ev);
    } else {
      RecvSideDoes(s, k, ev);
      RecvSideIsKnown(s, k, ev);
    }
  }

  lemma {:induction false} RunIsKnown(s: Socket, evs: seq<Event>, k: Known)
    requires Inv(s) && Stores(s, k) && EnabledRun(s, evs)
    ensures Stores(Run(s, evs), KnownOver(s, evs, k)) && Inv(Run(s, evs))
    decreases |evs|
  {
    if evs != [] {
      StepDoes(s, k, evs[0]);
      StepKeeps(s, evs[0]);
      RunIsKnown(Step(s, evs[0]), evs[1..], KnownNow(s, evs[0], k));
    }
  }

  /**
   After every run the peer is the first pipe that joined when there was none and has not left; it is ready for what it
   reported last and was not used for since; and a call waits for it exactly if it was used for it.
   */
  lemma ReadyIsWhatWasReported(evs: seq<Event>)
    requires EnabledRun(NEW, evs)
    ensures Stores(Run(NEW, evs), KnownOver(NEW, evs, UNKNOWN))
  {
    RunIsKnown(NEW, evs, UNKNOWN);
  }

  /**
   After any run, the peer is given the message submitted last, or asked for one, exactly if a send, or a receive, starts
   or waits and the peer is ready for it; the user gets what the peer that was used acknowledges or hands up, and each
   failure with its cause.
   */
  lemma DoesExactly(evs: seq<Event>, ev: Event)
    requires EnabledRun(NEW, evs) && Enabled(Run(NEW, evs), ev)
    ensures Does(Run(NEW, evs).ctx, KnownOver(NEW, evs, UNKNOWN), ev, Step(Run(NEW, evs), ev).ctx)
  {
    RunIsKnown(NEW, evs, UNKNOWN);
    StepDoes(Run(NEW, evs), KnownOver(NEW, evs, UNKNOWN), ev);
  }

  /** After any run, a pipe is turned away exactly if it joins while there is a peer. */
  lemma TurnsAwayExactly(evs: seq<Event>, ev: Event)
    requires EnabledRun(NEW, evs)
    ensures Step(Run(NEW, evs), ev).closed
            == Run(NEW, evs).closed + if ev.AddPipe? && KnownOver(NEW, evs, UNKNOWN).peer.Some? then [ev.eid] else []
  {
    RunIsKnown(NEW, evs, UNKNOWN);
  }

  /** After every run the last notices are what the peer is ready for by its reports. */
  lemma ToldWhatWasReported(evs: seq<Event>)
    requires EnabledRun(NEW, evs)
    ensures var k := KnownOver(NEW, evs, UNKNOWN);
            Told(Run(NEW, evs).ctx, k.sendReady, k.recvReady)
  {
    RunIsKnown(NEW, evs, UNKNOWN);
    ReadinessIsTold(evs);
  }
}

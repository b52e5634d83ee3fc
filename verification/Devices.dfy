/**
 Chains of devices made of sockets: each device takes what its replier hands over and sends it through its requester,
 and the other way round. The laws of the backtrace hold of the steps of these sockets.
 */
module Devices {
  import opened Core
  import opened Scheduling
  import opened Contexts
  import opened Receiving
  import opened Backtrace
  import opened RequestIds
  import Rep = RepProtocol
  import Req = ReqProtocol

  /** A device, with the timer of the call that sends on what it takes. */
  datatype Device = Device(rep: Rep.Socket, req: Req.Socket, timeout: Timeout)

  /** The message that a step handed to the user. */
  function Handed(before: Ctx, after: Ctx): (r: Option<Message>) {
    if |after.replies| == |before.replies| + 1 && after.replies[|before.replies|].RecvDone?
    then Some(after.replies[|before.replies|].msg) else None
  }

  /** The message that a step gave to a pipe, and which. */
  function OnWire(before: Ctx, after: Ctx): (r: Option<(EndpointId, Message)>) {
    if |after.sent| == |before.sent| + 1 then Some(after.sent[|before.sent|]) else None
  }

  /** A request that reaches endpoint `e` of a device, and what the device puts on the next wire. */
  function PassRequest(d: Device, e: EndpointId, w: Message): (r: Option<Message>) {
    match Handed(d.rep.ctx, Rep.Step(d.rep, Rep.RecvAck(e, w)).ctx)
    case None => None
    case Some(m) =>
      match OnWire(d.req.ctx, Req.Step(d.req, Req.Send(m, d.timeout)).ctx)
      case None => None
      case Some((_, out)) => Some(Joined(out))
  }

  /** A reply that reaches endpoint `e` of a device's requester, and what its replier puts on which wire. */
  function PassReply(d: Device, e: EndpointId, w: Message): (r: Option<(EndpointId, Message)>) {
    match Handed(d.req.ctx, Req.Step(d.req, Req.RecvAck(e, w)).ctx)
    case None => None
    case Some(m) =>
      match OnWire(d.rep.ctx, Rep.Step(d.rep, Rep.Send(m, d.timeout)).ctx)
      case None => None
      case Some((to, out)) => Some((to, Joined(out)))
  }

  /** The requester has a ready pipe. */
  predicate CanTransmit(s: Req.Socket) {
    Pop(s.lb).0.Some? && Pop(s.lb).0.value in s.pipes
  }

  predicate AwaitsRequest(d: Device, e: EndpointId) {
    d.rep.device && d.rep.state.Receiving? && d.rep.state.eid == e && d.req.device && CanTransmit(d.req)
  }

  predicate AwaitsReply(d: Device, e: EndpointId, to: EndpointId) {
    d.req.device && d.req.state.Receiving? && d.req.state.eid == e && d.rep.device && to in d.rep.sd && to in d.rep.pipes
  }

  // ---------------------------------------------------------------- one hop

  lemma RequestIsTaken(s: Rep.Socket, e: EndpointId, w: Message)
    requires s.device && s.state.Receiving? && s.state.eid == e
    ensures Handed(s.ctx, Rep.Step(s, Rep.RecvAck(e, w)).ctx) == RawToMsg(w, e)
  {
  }

  lemma RequestIsSent(s: Req.Socket, m: Message, timeout: Timeout)
    requires s.device && CanTransmit(s)
    ensures OnWire(s.ctx, Req.Step(s, Req.Send(m, timeout)).ctx) == Some((Pop(s.lb).0.value, m))
  {
    var s1 := s.(ctx := Submit(s.ctx, m, timeout));
    var s2 := if s.state.Active? then s1.(ctx := Cancel(s1.ctx, s.state.pending.retry)) else s1;
    assert Req.Transition(s, Req.Send(m, timeout)) == Req.Transmit(s2, m, timeout, false);
  }

  /** A device adds the endpoint to the backtrace, moves the words in front of the payload to it, and forwards the rest. */
  lemma RequestPasses(d: Device, e: EndpointId, w: Message)
    requires AwaitsRequest(d, e)
    ensures PassRequest(d, e, w) == match RawToMsg(w, e) case None => None case Some(m) => Some(Joined(m))
  {
    RequestIsTaken(d.rep, e, w);
    if RawToMsg(w, e).Some? {
      RequestIsSent(d.req, RawToMsg(w, e).value, d.timeout);
    }
  }

  lemma ReplyIsTaken(s: Req.Socket, e: EndpointId, w: Message)
    requires s.device && s.state.Receiving? && s.state.eid == e && Decode(w).Some?
    ensures Handed(s.ctx, Req.Step(s, Req.RecvAck(e, w)).ctx) == Some(Decode(w).value.0)
  {
  }

  lemma ReplyIsSent(s: Rep.Socket, m: Message, timeout: Timeout, raw: Message, to: EndpointId)
    requires s.device && MsgToRaw(m) == Some((raw, to)) && to in s.sd && to in s.pipes
    ensures OnWire(s.ctx, Rep.Step(s, Rep.Send(m, timeout)).ctx) == Some((to, raw))
  {
  }

  /** A device takes the next endpoint from the backtrace and sends the rest there. */
  lemma ReplyPasses(d: Device, e: EndpointId, w: Message, raw: Message, to: EndpointId)
    requires Decode(w).Some? && MsgToRaw(Decode(w).value.0) == Some((raw, to)) && AwaitsReply(d, e, to)
    ensures PassReply(d, e, w) == Some((to, Joined(raw)))
  {
    ReplyIsTaken(d.req, e, w);
    ReplyIsSent(d.rep, Decode(w).value.0, d.timeout, raw, to);
  }

  // ---------------------------------------------------------------- chains

  /** A request through a chain: it reaches endpoint `path[i]` of device `i`. */
  function Forward(devices: seq<Device>, path: seq<EndpointId>, wire: Message): (r: Option<Message>)
    requires |devices| == |path|
    decreases |path|
  {
    if path == [] then Some(wire)
    else
      var n := |path| - 1;
      match Forward(devices[..n], path[..n], wire)
      case None => None
      case Some(w) => PassRequest(devices[n], path[n], w)
  }

  lemma {:induction false} ForwardIsPassing(devices: seq<Device>, path: seq<EndpointId>, wire: Message)
    requires |devices| == |path| && forall i :: 0 <= i < |path| ==> AwaitsRequest(devices[i], path[i])
    ensures Forward(devices, path, wire) == PassDevices(wire, path)
    decreases |path|
  {
    if path != [] {
      var n := |path| - 1;
      ForwardIsPassing(devices[..n], path[..n], wire);
      if PassDevices(wire, path[..n]).Some? {
        RequestPasses(devices[n], path[n], PassDevices(wire, path[..n]).value);
      }
    }
  }

  /** A reply back through a chain, from the last device to the first: the endpoints it is sent to, and what comes out. */
  function Back(devices: seq<Device>, from: seq<EndpointId>, wire: Message): (r: Option<(seq<EndpointId>, Message)>)
    requires |devices| == |from|
    decreases |from|
  {
    if from == [] then Some(([], wire))
    else
      var n := |from| - 1;
      match PassReply(devices[n], from[n], wire)
      case None => None
      case Some((to, out)) =>
        match Back(devices[..n], from[..n], out)
        case None => None
        case Some((rest, last)) => Some(([to] + rest, last))
  }

  /** Every device of the chain awaits the reply on its requester and can send on to where the request came from. */
  predicate AllAwaitReply(devices: seq<Device>, from: seq<EndpointId>, path: seq<EndpointId>)
    requires |devices| == |from| == |path|
  {
    forall i :: 0 <= i < |path| ==> AwaitsReply(devices[i], from[i], path[i])
  }

  /** A wire that carries a trail: the first device takes its top and passes on the shorter trail. */
  lemma TrailPasses(d: Device, e: EndpointId, path: seq<EndpointId>, id: nat, reply: Bytes)
    requires path != [] && path[|path| - 1] < TWO32 && AwaitsReply(d, e, path[|path| - 1])
    ensures var n := |path| - 1;
            PassReply(d, e, Message([], Trail(path, id) + reply)) == Some((path[n], Message([], Trail(path[..n], id) + reply)))
  {
    var n := |path| - 1;
    var w := Message([], Trail(path, id) + reply);
    TrailUnfolds(path, id, reply);
    var m := Decode(w).value.0;
    assert m == Message([] + w.body[..4], w.body[4..]);
    assert m.header + m.body == w.body;
    TopIsTaken(m, path[n], Trail(path[..n], id) + reply);
    ReplyPasses(d, e, w, Message(m.header[4..], m.body), path[n]);
  }

  lemma BackUnfolds(devices: seq<Device>, from: seq<EndpointId>, wire: Message, to: EndpointId, out: Message)
    requires |devices| == |from| && from != [] && PassReply(devices[|from| - 1], from[|from| - 1], wire) == Some((to, out))
    ensures var n := |from| - 1;
            Back(devices, from, wire) == match Back(devices[..n], from[..n], out)
                                         case None => None
                                         case Some((rest, last)) => Some(([to] + rest, last))
  {
  }

  lemma ShorterAwaits(devices: seq<Device>, from: seq<EndpointId>, path: seq<EndpointId>, n: nat)
    requires |devices| == |from| == |path| && AllAwaitReply(devices, from, path) && n <= |path|
    ensures AllAwaitReply(devices[..n], from[..n], path[..n])
  {
  }

  lemma {:induction false} BackRetraces(devices: seq<Device>, from: seq<EndpointId>, path: seq<EndpointId>, id: nat, reply: Bytes)
    requires |devices| == |from| == |path| && AllAwaitReply(devices, from, path)
    requires forall i :: 0 <= i < |path| ==> path[i] < TWO32
    ensures Back(devices, from, Message([], Trail(path, id) + reply)) == Some((Reverse(path), Message([], BE32(id) + reply)))
    decreases |path|
  {
    if path != [] {
      var n := |path| - 1;
      TrailPasses(devices[n], from[n], path, id, reply);
      ShorterAwaits(devices, from, path, n);
      BackRetraces(devices[..n], from[..n], path[..n], id, reply);
      BackUnfolds(devices, from, Message([], Trail(path, id) + reply), path[n], Message([], Trail(path[..n], id) + reply));
    }
  }

  // ---------------------------------------------------------------- requester and replier

  /** The request of a regular requester, as it leaves on the wire. */
  lemma RequesterSends(s: Req.Socket, body: Bytes, timeout: Timeout)
    requires !s.device && CanTransmit(s)
    ensures var r := Req.Step(s, Req.Send(Message([], body), timeout));
            && OnWire(s.ctx, r.ctx).Some?
            && Joined(OnWire(s.ctx, r.ctx).value.1) == Sent(IdOf(r.seqNo), body)
  {
    var msg := Message([], body);
    var seqNo := (s.seqNo + 1) % TWO32;
    var s1 := s.(ctx := Submit(s.ctx, msg, timeout), seqNo := seqNo);
    var s2 := if s.state.Active? then s1.(ctx := Cancel(s1.ctx, s.state.pending.retry)) else s1;
    assert Req.Transition(s, Req.Send(msg, timeout)) == Req.Transmit(s2, Encode(msg, IdOf(seqNo)), timeout, false);
  }

  /** The replier hands over the payload and keeps the backtrace. */
  lemma ReplierTakes(s: Rep.Socket, e: EndpointId, w: Message)
    requires !s.device && s.state.Receiving? && s.state.eid == e
    ensures var r := Rep.Step(s, Rep.RecvAck(e, w));
            match RawToMsg(w, e)
            case None => Handed(s.ctx, r.ctx) == None
            case Some(m) =>
              && Handed(s.ctx, r.ctx) == Some(Message([], m.body))
              && r == s.(state := Rep.Active(e), backtrace := m.header, ctx := r.ctx, log := r.log)
  {
  }

  /** The replier sends the reply to the endpoint on top of the backtrace, under the rest of it. */
  lemma ReplierSends(s: Rep.Socket, e: EndpointId, trail: Bytes, reply: Bytes, timeout: Timeout)
    requires !s.device && s.state.Active? && s.backtrace == BE32(e) + trail && e < TWO32 && e in s.sd && e in s.pipes
    ensures OnWire(s.ctx, Rep.Step(s, Rep.Send(Message([], reply), timeout)).ctx) == Some((e, Message(trail, reply)))
  {
    TopIsTaken(Message(s.backtrace, reply), e, trail + reply);
    assert s.backtrace[4..] == trail;
    assert Rep.Routed(s, Message([], reply)) == Some((Message(trail, reply), e));
  }

  /** The requester hands over a reply that bears the id of its latest send. */
  lemma RequesterTakes(s: Req.Socket, e: EndpointId, id: nat, reply: Bytes)
    requires !s.device && s.state.Receiving? && s.state.eid == e && s.state.expected.Some? && id == IdOf(s.seqNo)
    ensures Handed(s.ctx, Req.Step(s, Req.RecvAck(e, Message([], BE32(id) + reply))).ctx) == Some(Message(BE32(id), reply))
  {
    RequesterDecodes(id, reply);
  }

  /** A chain of devices between a requester and a replier; `path` ends with the endpoint of the replier. */
  ghost predicate Connected(devices: seq<Device>, path: seq<EndpointId>, rep: Rep.Socket) {
    && |path| == |devices| + 1
    && (forall i :: 0 <= i < |path| ==> path[i] < TWO31)
    && (forall i :: 0 <= i < |devices| ==> AwaitsRequest(devices[i], path[i]))
    && !rep.device && rep.state.Receiving? && rep.state.eid == path[|devices|]
  }

  /** What the replier's user gets of the wire `wire`: with at most seven devices the body and the way back, else nothing. */
  ghost predicate Crosses(devices: seq<Device>, path: seq<EndpointId>, rep: Rep.Socket, wire: Message, id: nat, body: Bytes)
    requires |path| == |devices| + 1
  {
    var n := |devices|;
    match Forward(devices, path[..n], wire)
    case None => n > 7
    case Some(w) =>
      var rep' := Rep.Step(rep, Rep.RecvAck(path[n], w));
      if n <= 7 then
        && Handed(rep.ctx, rep'.ctx) == Some(Message([], body))
        && rep' == rep.(state := Rep.Active(path[n]), backtrace := Trail(path, id), ctx := rep'.ctx, log := rep'.log)
      else Handed(rep.ctx, rep'.ctx) == None
  }

  /** What arrives at the end of the chain unpacks exactly if it is short enough. */
  lemma WireArrives(path: seq<EndpointId>, id: nat, body: Bytes)
    requires path != [] && TWO31 <= id < TWO32 && forall i :: 0 <= i < |path| ==> path[i] < TWO31
    ensures var n := |path| - 1;
            match PassDevices(Sent(id, body), path[..n])
            case None => n > 7
            case Some(w) => RawToMsg(w, path[n]) == if n <= 7 then Some(Message(Trail(path, id), body)) else None
  {
    ChainDelivers(path, id, body);
  }

  lemma SentCrosses(devices: seq<Device>, path: seq<EndpointId>, rep: Rep.Socket, id: nat, body: Bytes)
    requires Connected(devices, path, rep) && TWO31 <= id < TWO32
    ensures Crosses(devices, path, rep, Sent(id, body), id, body)
  {
    var n := |devices|;
    ForwardIsPassing(devices, path[..n], Sent(id, body));
    WireArrives(path, id, body);
    var w := PassDevices(Sent(id, body), path[..n]);
    if w.Some? {
      ReplierTakes(rep, path[n], w.value);
    }
  }

  /**
   The request: over any chain of devices, what the requester's step puts on the wire is handed to the replier's user
   with its body unchanged, and the way back kept, exactly if there are at most seven devices; else nothing is.
   */
  lemma RequestCrosses(req: Req.Socket, devices: seq<Device>, path: seq<EndpointId>, rep: Rep.Socket, body: Bytes, timeout: Timeout)
    requires !req.device && CanTransmit(req) && Connected(devices, path, rep)
    ensures var req' := Req.Step(req, Req.Send(Message([], body), timeout));
            var sent := OnWire(req.ctx, req'.ctx);
            sent.Some? && Crosses(devices, path, rep, Joined(sent.value.1), IdOf(req'.seqNo), body)
  {
    RequesterSends(req, body, timeout);
    SentCrosses(devices, path, rep, IdOf(Req.Step(req, Req.Send(Message([], body), timeout)).seqNo), body);
  }

  /**
   The reply: sent by the replier's step, it visits exactly the reverse of the path and is handed to the requester's
   user with the id of the request and the body of the reply.
   */
  lemma ReplyCrosses(req: Req.Socket, e: EndpointId, devices: seq<Device>, from: seq<EndpointId>, path: seq<EndpointId>,
                     rep: Rep.Socket, reply: Bytes, timeout: Timeout)
    requires !req.device && req.state.Receiving? && req.state.eid == e && req.state.expected.Some?
    requires |path| == |devices| + 1 && |from| == |devices| && forall i :: 0 <= i < |path| ==> path[i] < TWO31
    requires AllAwaitReply(devices, from, path[..|devices|])
    requires !rep.device && rep.state.Active? && rep.backtrace == Trail(path, IdOf(req.seqNo))
    requires path[|devices|] in rep.sd && path[|devices|] in rep.pipes
    ensures var sent := OnWire(rep.ctx, Rep.Step(rep, Rep.Send(Message([], reply), timeout)).ctx);
            && sent.Some? && sent.value.0 == path[|devices|]
            && var back := Back(devices, from, Joined(sent.value.1));
               && back.Some? && [sent.value.0] + back.value.0 == Reverse(path)
               && Handed(req.ctx, Req.Step(req, Req.RecvAck(e, back.value.1)).ctx) == Some(Message(BE32(IdOf(req.seqNo)), reply))
  {
    var n, id := |devices|, IdOf(req.seqNo);
    ReplierSends(rep, path[n], Trail(path[..n], id), reply, timeout);
    BackRetraces(devices, from, path[..n], id, reply);
    RequesterTakes(req, e, id, reply);
  }
}

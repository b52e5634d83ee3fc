/**
 The request/reply backtrace: a stack of four-byte words, one per hop, whose bottom word is the request id
 and the only one with its top bit set. `Req` pushes the id, every `Rep` pushes the endpoint the request came
 from, and the reply pops them again, through any chain of devices.
 */
module Backtrace {
  import opened Core
  import opened Receiving

  /** Hops after which a request is refused. */
  const TTL: nat := 8

  // ---------------------------------------------------------------- codecs

  /** `encode` of the requester. */
  function Encode(m: Message, id: nat): (r: Message) {
    Message(m.header + BE32(id), m.body)
  }

  /** `decode` of the requester: moves one word from the body to the header. */
  function Decode(raw: Message): (r: Option<(Message, nat)>) {
    if |raw.body| < 4 then None
    else Some((Message(raw.header + raw.body[..4], raw.body[4..]), ReadBigEndian(raw.body[..4])))
  }

  /** Moves words from the body to the header up to the first with its top bit set. */
  function Unwind(header: Bytes, body: Bytes, hops: nat): (r: Option<Message>)
    decreases |body|
  {
    if hops >= TTL || |body| < 4 then None
    else if TopBit(body[..4]) then Some(Message(header + body[..4], body[4..]))
    else Unwind(header + body[..4], body[4..], hops + 1)
  }

  /** `raw_msg_to_msg` of the replier: the endpoint on top, then the backtrace from the body. */
  function RawToMsg(raw: Message, eid: EndpointId): (r: Option<Message>) {
    Unwind(raw.header + BE32(eid), raw.body, 0)
  }

  /** The loop of `raw_msg_to_msg`. */
  method RawMsgToMsg(raw: Message, eid: EndpointId) returns (r: Option<Message>)
    ensures r == RawToMsg(raw, eid)
  {
    var header, body, hops := raw.header + BE32(eid), raw.body, 0;
    while true
      invariant Unwind(header, body, hops) == RawToMsg(raw, eid)
      decreases |body|
    {
      if hops >= TTL {
        return None;
      }
      hops := hops + 1;
      if |body| < 4 {
        return None;
      }
      var tail := body[4..];
      header := header + body[..4];
      var position := |header| - 4;
      if header[position] >= 0x80 {
        return Some(Message(header, tail));
      }
      body := tail;
    }
  }

  /** `msg_to_raw_msg` of the replier, on the header that holds the backtrace: pops the endpoint to send to. */
  function MsgToRaw(m: Message): (r: Option<(Message, EndpointId)>) {
    if |m.header| < 4 then None
    else Some((Message(m.header[4..], m.body), ReadBigEndian(m.header[..4])))
  }

  // ---------------------------------------------------------------- where unwinding stops

  function Word(b: Bytes, i: nat): (w: Bytes)
    requires 4 * (i + 1) <= |b|
    ensures |w| == 4
  {
    b[4 * i..4 * i + 4]
  }

  /** Word `j` is the first with its top bit set, and it is within `hops` words. */
  predicate BottomAt(b: Bytes, hops: nat, j: nat) {
    && j < hops && 4 * (j + 1) <= |b| && TopBit(Word(b, j))
    && forall i :: 0 <= i < j ==> !TopBit(Word(b, i))
  }

  lemma ShiftedWords(b: Bytes, i: nat)
    requires 4 * (i + 2) <= |b|
    ensures Word(b[4..], i) == Word(b, i + 1)
  {
  }

  lemma BottomShifts(b: Bytes, hops: nat, j: nat)
    requires |b| >= 4 && !TopBit(Word(b, 0)) && hops > 0
    ensures BottomAt(b, hops, j + 1) <==> BottomAt(b[4..], hops - 1, j)
  {
    var tail := b[4..];
    if 4 * (j + 2) <= |b| {
      forall i | 0 <= i <= j
        ensures Word(tail, i) == Word(b, i + 1)
      {
        ShiftedWords(b, i);
      }
      assert forall i :: 1 <= i <= j ==> Word(b, i) == Word(tail, i - 1);
    }
  }

  /** Unwinding splits a message right after its bottom word, if that comes soon enough. */
  lemma {:induction false} UnwindSplitsAtBottom(header: Bytes, body: Bytes, hops: nat, j: nat)
    requires hops <= TTL && BottomAt(body, TTL - hops, j)
    ensures Unwind(header, body, hops) == Some(Message(header + body[..4 * (j + 1)], body[4 * (j + 1)..]))
    decreases |body|
  {
    assert Word(body, 0) == body[..4];
    if j > 0 {
      assert !TopBit(Word(body, 0));
      var tail := body[4..];
      BottomShifts(body, TTL - hops, j - 1);
      UnwindSplitsAtBottom(header + body[..4], tail, hops + 1, j - 1);
      assert header + body[..4] + tail[..4 * j] == header + body[..4 * (j + 1)];
      assert tail[4 * j..] == body[4 * (j + 1)..];
    }
  }

  /** Unwinding succeeds only if there is a bottom word within the hops left. */
  lemma {:induction false} UnwindNeedsBottom(header: Bytes, body: Bytes, hops: nat) returns (j: nat)
    requires hops <= TTL && Unwind(header, body, hops).Some?
    ensures BottomAt(body, TTL - hops, j)
    decreases |body|
  {
    assert Word(body, 0) == body[..4];
    j := 0;
    if !TopBit(body[..4]) {
      j := UnwindNeedsBottom(header + body[..4], body[4..], hops + 1);
      BottomShifts(body, TTL - hops, j);
      j := j + 1;
    }
  }

  /** Wherever it splits, unwinding keeps every byte in order. */
  lemma UnwindConserves(header: Bytes, body: Bytes, hops: nat)
    requires hops <= TTL && Unwind(header, body, hops).Some?
    ensures var m := Unwind(header, body, hops).value;
            m.header + m.body == header + body
  {
    var j := UnwindNeedsBottom(header, body, hops);
    UnwindSplitsAtBottom(header, body, hops, j);
    assert body[..4 * (j + 1)] + body[4 * (j + 1)..] == body;
  }

  // ---------------------------------------------------------------- chains of devices

  /** The backtrace after the endpoints of `path`, the last one on top. */
  function Trail(path: seq<EndpointId>, id: nat): (b: Bytes)
    ensures |b| == 4 * (|path| + 1)
  {
    if path == [] then BE32(id) else BE32(path[|path| - 1]) + Trail(path[..|path| - 1], id)
  }

  /**
   A request on the wire passes the devices of `path`: each receives it on an endpoint of its replier side
   and forwards what it got, untouched, through its requester side.
   */
  function PassDevices(wire: Message, path: seq<EndpointId>): (r: Option<Message>)
    decreases |path|
  {
    if path == [] then Some(wire)
    else
      match PassDevices(wire, path[..|path| - 1])
      case None => None
      case Some(w) =>
        match RawToMsg(w, path[|path| - 1])
        case None => None
        case Some(m) => Some(Joined(m))
  }

  /** What the replier at the end of `path` gets of a request: its header is the backtrace, its body is delivered. */
  function RequestArrives(path: seq<EndpointId>, id: nat, body: Bytes): (r: Option<Message>)
    requires path != []
  {
    var n := |path| - 1;
    match PassDevices(Sent(id, body), path[..n])
    case None => None
    case Some(w) => RawToMsg(w, path[n])
  }

  /** The reply on its way back over `devices` devices: the endpoints it is sent to, and what reaches the requester. */
  function ReplyTravels(m: Message, devices: nat): (r: Option<(seq<EndpointId>, Message)>)
    decreases devices
  {
    match MsgToRaw(m)
    case None => None
    case Some((raw, eid)) =>
      if devices == 0 then Some(([eid], Joined(raw)))
      else
        match Decode(Joined(raw))
        case None => None
        case Some((forwarded, _)) =>
          match ReplyTravels(forwarded, devices - 1)
          case None => None
          case Some((rest, last)) => Some(([eid] + rest, last))
  }

  function Reverse(path: seq<EndpointId>): (r: seq<EndpointId>)
    ensures |r| == |path|
  {
    if path == [] then [] else [path[|path| - 1]] + Reverse(path[..|path| - 1])
  }

  /** The word of this endpoint is not mistaken for a request id. */
  predicate Clear(e: EndpointId) {
    !TopBit(BE32(e))
  }

  lemma WordsAfterOne(w: Bytes, rest: Bytes, i: nat)
    requires |w| == 4 && 4 * (i + 1) <= |rest|
    ensures Word(w + rest, 0) == w && Word(w + rest, i + 1) == Word(rest, i)
  {
    var b := w + rest;
    assert b[4 * (i + 1)..4 * (i + 1) + 4] == rest[4 * i..4 * i + 4];
  }

  lemma TrailUnfolds(path: seq<EndpointId>, id: nat, body: Bytes)
    requires path != []
    ensures Trail(path, id) + body == BE32(path[|path| - 1]) + (Trail(path[..|path| - 1], id) + body)
  {
  }

  lemma {:induction false} TrailWords(path: seq<EndpointId>, id: nat, body: Bytes, i: nat)
    requires i <= |path|
    ensures Word(Trail(path, id) + body, i) == if i < |path| then BE32(path[|path| - 1 - i]) else BE32(id)
  {
    var b := Trail(path, id) + body;
    if path == [] {
      assert b[..4] == BE32(id);
    } else {
      var front, top := path[..|path| - 1], BE32(path[|path| - 1]);
      var rest := Trail(front, id) + body;
      TrailUnfolds(path, id, body);
      if i == 0 {
        WordsAfterOne(top, rest, 0);
      } else {
        WordsAfterOne(top, rest, i - 1);
        TrailWords(front, id, body, i - 1);
      }
    }
  }

  /** Which words of a trail have their top bit set. */
  lemma TrailTops(path: seq<EndpointId>, id: nat, body: Bytes, i: nat)
    requires i <= |path| && TopBit(BE32(id))
    ensures TopBit(Word(Trail(path, id) + body, i)) <==> i == |path| || !Clear(path[|path| - 1 - i])
  {
    TrailWords(path, id, body, i);
  }

  /** If word `i` has its top bit set exactly for the last of `n` words and those of unclear hops. */
  lemma BottomIffClear(b: Bytes, path: seq<EndpointId>)
    requires 4 * (|path| + 1) <= |b|
    requires forall i :: 0 <= i <= |path| ==> (TopBit(Word(b, i)) <==> i == |path| || !Clear(path[|path| - 1 - i]))
    ensures BottomAt(b, TTL, |path|) <==> |path| < TTL && forall i :: 0 <= i < |path| ==> Clear(path[i])
  {
    var n := |path|;
    if BottomAt(b, TTL, n) {
      forall i | 0 <= i < n
        ensures Clear(path[i])
      {
        assert !TopBit(Word(b, n - 1 - i));
      }
    }
  }

  /** The bottom of a trail is the request id exactly when every hop is clear; otherwise it is found too early. */
  lemma TrailBottom(path: seq<EndpointId>, id: nat, body: Bytes)
    requires TopBit(BE32(id))
    ensures BottomAt(Trail(path, id) + body, TTL, |path|)
            <==> |path| < TTL && forall i :: 0 <= i < |path| ==> Clear(path[i])
  {
    var b := Trail(path, id) + body;
    forall i | 0 <= i <= |path|
      ensures TopBit(Word(b, i)) <==> i == |path| || !Clear(path[|path| - 1 - i])
    {
      TrailTops(path, id, body, i);
    }
    BottomIffClear(b, path);
  }

  /** The request as it is first put on the wire. */
  function Sent(id: nat, body: Bytes): (w: Message)
    ensures w == Message([], Trail([], id) + body)
  {
    assert [] + BE32(id) == BE32(id);
    Joined(Encode(Message([], body), id))
  }

  /** One replier: it adds its word and loses nothing, wherever it splits the message. */
  lemma HopConserves(path: seq<EndpointId>, id: nat, body: Bytes)
    requires path != []
    ensures var n := |path| - 1;
            var w := Message([], Trail(path[..n], id) + body);
            RawToMsg(w, path[n]).Some? ==> Joined(RawToMsg(w, path[n]).value) == Message([], Trail(path, id) + body)
  {
    var n := |path| - 1;
    var w := Message([], Trail(path[..n], id) + body);
    var header := [] + BE32(path[n]);
    assert header == BE32(path[n]);
    if RawToMsg(w, path[n]).Some? {
      UnwindConserves(header, w.body, 0);
      assert header + (Trail(path[..n], id) + body) == header + Trail(path[..n], id) + body;
    }
  }

  /** A message `trail + body` is split between the two exactly when the trail ends in the bottom word. */
  lemma SplitIff(header: Bytes, trail: Bytes, body: Bytes, n: nat)
    requires |trail| == 4 * (n + 1)
    ensures Unwind(header, trail + body, 0) == Some(Message(header + trail, body)) <==> BottomAt(trail + body, TTL, n)
  {
    var b := trail + body;
    assert b[..4 * (n + 1)] == trail && b[4 * (n + 1)..] == body;
    if BottomAt(b, TTL, n) {
      UnwindSplitsAtBottom(header, b, 0, n);
    } else if Unwind(header, b, 0).Some? {
      var j := UnwindNeedsBottom(header, b, 0);
      UnwindSplitsAtBottom(header, b, 0, j);
    }
  }

  /** One replier: it finds the request id, and splits there, exactly when all words before it are clear and few. */
  lemma HopSplitsIff(path: seq<EndpointId>, e: EndpointId, id: nat, body: Bytes)
    requires TopBit(BE32(id))
    ensures RawToMsg(Message([], Trail(path, id) + body), e) == Some(Message(BE32(e) + Trail(path, id), body))
            <==> |path| < TTL && forall i :: 0 <= i < |path| ==> Clear(path[i])
  {
    var word, trail := BE32(e), Trail(path, id);
    assert [] + word == word;
    TrailBottom(path, id, body);
    SplitIff(word, trail, body, |path|);
  }

  /** A chain that lets a request through puts its words on it; a short and clear one lets it through. */
  lemma {:induction false} DevicesConserve(path: seq<EndpointId>, id: nat, body: Bytes)
    requires TopBit(BE32(id))
    ensures var w := PassDevices(Sent(id, body), path);
            w.Some? ==> w.value == Message([], Trail(path, id) + body)
    ensures |path| <= TTL && (forall i :: 0 <= i < |path| - 1 ==> Clear(path[i])) ==> PassDevices(Sent(id, body), path).Some?
    decreases |path|
  {
    if path != [] {
      DevicesConserve(path[..|path| - 1], id, body);
      HopConserves(path, id, body);
      HopSplitsIff(path[..|path| - 1], path[|path| - 1], id, body);
    }
  }

  /**
   The request reaches the application with its body unchanged, and the whole way back in the backtrace,
   exactly when the chain has at most seven devices and no endpoint on the way looks like a request id.
   */
  lemma RequestArrivesIff(path: seq<EndpointId>, id: nat, body: Bytes)
    requires path != [] && TopBit(BE32(id))
    ensures RequestArrives(path, id, body) == Some(Message(Trail(path, id), body))
            <==> |path| - 1 <= 7 && forall i :: 0 <= i < |path| - 1 ==> path[i] % TWO32 < TWO31
  {
    var front := path[..|path| - 1];
    ArrivesIffClear(front, path[|path| - 1], id, body);
    assert path == front + [path[|path| - 1]];
    forall i | 0 <= i < |front|
      ensures Clear(front[i]) <==> path[i] % TWO32 < TWO31
    {
      TopBitOfWord(path[i]);
    }
  }

  lemma ArrivesIffClear(front: seq<EndpointId>, e: EndpointId, id: nat, body: Bytes)
    requires TopBit(BE32(id))
    ensures RequestArrives(front + [e], id, body) == Some(Message(Trail(front + [e], id), body))
            <==> |front| <= 7 && forall i :: 0 <= i < |front| ==> Clear(front[i])
  {
    var path := front + [e];
    assert path[..|path| - 1] == front && path[|path| - 1] == e;
    DevicesConserve(front, id, body);
    HopSplitsIff(front, e, id, body);
    var passed := PassDevices(Sent(id, body), front);
    if passed.Some? {
      assert RequestArrives(path, id, body) == RawToMsg(Message([], Trail(front, id) + body), e);
    }
  }

  /** A replier takes the top word for the endpoint and sends the rest. */
  lemma TopIsTaken(m: Message, e: EndpointId, rest: Bytes)
    requires |m.header| >= 4 && m.header + m.body == BE32(e) + rest && e < TWO32
    ensures MsgToRaw(m) == Some((Message(m.header[4..], m.body), e))
    ensures Joined(Message(m.header[4..], m.body)).body == rest
  {
    var all := m.header + m.body;
    assert m.header[..4] == all[..4] == BE32(e);
    assert m.header[4..] + m.body == all[4..] == rest;
    Word32(e);
  }

  /** The reply visits exactly the reverse of the path and comes back with the request id on top of its body. */
  lemma {:induction false} ReplyRetracesPath(path: seq<EndpointId>, id: nat, reply: Bytes, m: Message)
    requires path != [] && forall i :: 0 <= i < |path| ==> path[i] < TWO32
    requires |m.header| >= 4 && m.header + m.body == Trail(path, id) + reply
    ensures ReplyTravels(m, |path| - 1) == Some((Reverse(path), Message([], BE32(id) + reply)))
    decreases |path|
  {
    var front, e := path[..|path| - 1], path[|path| - 1];
    var raw := Message(m.header[4..], m.body);
    TopIsTaken(m, e, Trail(front, id) + reply);
    if front == [] {
      assert Reverse(path) == [e];
    } else {
      var b := Joined(raw).body;
      var forwarded := Message([] + b[..4], b[4..]);
      assert forwarded.header + forwarded.body == b;
      ReplyRetracesPath(front, id, reply, forwarded);
    }
  }

  /** The requester reads back the id it sent and the reply's body. */
  lemma RequesterDecodes(id: nat, reply: Bytes)
    requires id < TWO32
    ensures Decode(Message([], BE32(id) + reply)) == Some((Message(BE32(id), reply), id))
  {
    var word := BE32(id);
    var b := word + reply;
    assert b[..4] == word && b[4..] == reply && [] + word == word;
    Word32(id);
  }

  lemma ChainDelivers(path: seq<EndpointId>, id: nat, body: Bytes)
    requires path != [] && TWO31 <= id < TWO32 && forall i :: 0 <= i < |path| ==> path[i] < TWO31
    ensures RequestArrives(path, id, body) == if |path| - 1 <= 7 then Some(Message(Trail(path, id), body)) else None
  {
    TopBitOfWord(id);
    if |path| - 1 <= 7 {
      RequestArrivesIff(path, id, body);
    } else {
      forall i | 0 <= i < |path|
        ensures Clear(path[i])
      {
        TopBitOfWord(path[i]);
      }
      ChainTooLong(path, id, body);
    }
  }

  /** Device-chain round trip: request there, reply back, for every path the protocol promises it for. */
  lemma ChainRoundTrip(path: seq<EndpointId>, id: nat, body: Bytes, reply: Bytes)
    requires path != [] && TWO31 <= id < TWO32
    requires forall i :: 0 <= i < |path| ==> path[i] < TWO31
    ensures RequestArrives(path, id, body) == if |path| - 1 <= 7 then Some(Message(Trail(path, id), body)) else None
    ensures ReplyTravels(Message(Trail(path, id), reply), |path| - 1) == Some((Reverse(path), Message([], BE32(id) + reply)))
    ensures Decode(Message([], BE32(id) + reply)) == Some((Message(BE32(id), reply), id))
  {
    ChainDelivers(path, id, body);
    ReplyRetracesPath(path, id, reply, Message(Trail(path, id), reply));
    RequesterDecodes(id, reply);
  }

  lemma ChainTooLong(path: seq<EndpointId>, id: nat, body: Bytes)
    requires |path| > TTL && TopBit(BE32(id)) && forall i :: 0 <= i < |path| ==> Clear(path[i])
    ensures RequestArrives(path, id, body).None?
  {
    var front := path[..|path| - 1];
    DevicesConserve(front, id, body);
    if RequestArrives(path, id, body).Some? {
      var b := Trail(front, id) + body;
      var j := UnwindNeedsBottom([] + BE32(path[|path| - 1]), b, 0);
      TrailWords(front, id, body, j);
      assert false;
    }
  }
}

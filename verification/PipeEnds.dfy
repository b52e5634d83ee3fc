/** What a pipe dies of: exactly of what it got to see of failures, hang-ups and headers beyond the limit. */
module PipeEnds {
  import opened Core
  import opened Streams
  import opened Sending
  import opened Receiving
  import opened Pipes
  import opened PipeLaws

  // ---------------------------------------------------------------- what was used up

  /** `after` is what is left of `before`. */
  predicate IsLeftOf<T(==)>(before: seq<T>, after: seq<T>) {
    |after| <= |before| && after == before[|before| - |after|..]
  }

  function Used<T>(before: seq<T>, after: seq<T>): (r: seq<T>)
    requires |after| <= |before|
    ensures |r| == |before| - |after|
  {
    before[..|before| - |after|]
  }

  lemma UsedChains<T>(a: seq<T>, b: seq<T>, c: seq<T>)
    requires IsLeftOf(a, b) && IsLeftOf(b, c)
    ensures IsLeftOf(a, c) && Used(a, c) == Used(a, b) + Used(b, c)
  {
  }

  /** The operating system failed in what was used of its answers. */
  predicate Failed(before: seq<Answer>, after: seq<Answer>) {
    |after| <= |before| && Fail in Used(before, after)
  }

  lemma FailedChains(a: seq<Answer>, b: seq<Answer>, c: seq<Answer>)
    requires IsLeftOf(a, b) && IsLeftOf(b, c)
    ensures IsLeftOf(a, c) && (Failed(a, c) <==> Failed(a, b) || Failed(b, c))
  {
    UsedChains(a, b, c);
  }

  lemma AnswerIsUsed(script: seq<Answer>)
    ensures var (answer, left) := NextAnswer(script);
            IsLeftOf(script, left) && (Failed(script, left) <==> answer == Fail)
  {
  }

  /** What a write used of the answers: there was a failure among them exactly if `failed`. */
  ghost predicate Gave(o: OutStream, o': OutStream, failed: bool) {
    IsLeftOf(o.script, o'.script) && (Failed(o.script, o'.script) <==> failed)
  }

  lemma WriteUses(o: OutStream, buf: Bytes)
    ensures Gave(o, Write(o, buf).1, Write(o, buf).0 == Err(Broken)) && Gave(o, o, false)
  {
    AnswerIsUsed(o.script);
  }

  lemma FlatWriteUses(o: OutStream, bufs: seq<Bytes>)
    ensures Gave(o, FlatWrite(o, bufs).1, FlatWrite(o, bufs).0.Err?)
  {
    WriteUses(o, Join(bufs));
  }

  lemma AdvanceTcpUses(s: SendStep, o: OutStream)
    requires Resumable(Tcp, s)
    ensures Gave(o, Advance(Tcp, s, o).1, Advance(Tcp, s, o).0.Err?)
  {
    match s
    case TransportHdr(m, w) => FlatWriteUses(o, FirstBufs(m, BE64(Len(m))[w..]));
    case ProtocolHdr(m, w) => FlatWriteUses(o, [m.header[w..], m.body]);
    case UsrPayload(m, w) => FlatWriteUses(o, [m.body[w..]]);
  }

  lemma AdvanceIpcUses(s: SendStep, o: OutStream)
    requires Resumable(Ipc, s)
    ensures Gave(o, Advance(Ipc, s, o).1, Advance(Ipc, s, o).0.Err?)
  {
    match s
    case TransportHdr(m, w) => WriteUses(o, TransportHeader(Ipc, m)[w..]);
    case ProtocolHdr(m, w) => WriteUses(o, m.header[w..]);
    case UsrPayload(m, w) => WriteUses(o, m.body[w..]);
  }

  /** A run of either writer fails exactly if the operating system did. */
  lemma {:induction false} ResumeUses(t: Transport, s: SendStep, o: OutStream)
    requires Resumable(t, s)
    ensures Gave(o, Resume(t, s, o).stream, Resume(t, s, o).answer.Err?)
    decreases SectionsLeft(s)
  {
    if t == Tcp {
      AdvanceTcpUses(s, o);
    } else {
      AdvanceIpcUses(s, o);
    }
    var (a, o') := Advance(t, s, o);
    if a.Ok? && !a.value.1.Terminal? && a.value.0 {
      ResumeUses(t, a.value.1, o');
      FailedChains(o.script, o'.script, Resume(t, s, o).stream.script);
    }
  }

  /** What a read used of the stream: bytes from its front and answers, in which there was a failure exactly if `failed`. */
  ghost predicate Took(i: InStream, i': InStream, failed: bool) {
    && IsLeftOf(i.bytes, i'.bytes) && IsLeftOf(i.script, i'.script)
    && (Failed(i.script, i'.script) <==> failed)
  }

  lemma TookChains(a: InStream, b: InStream, c: InStream, failed: bool)
    requires Took(a, b, false) && Took(b, c, failed)
    ensures Took(a, c, failed)
  {
    FailedChains(a.script, b.script, c.script);
    UsedChains(a.bytes, b.bytes, c.bytes);
  }

  lemma ReadUses(i: InStream, room: nat)
    ensures var (a, i') := FlatRead(i, room);
            Took(i, i', a.Err?)
  {
    AnswerIsUsed(i.script);
  }

  lemma ReadHeaderUses(t: Transport, i: InStream, buffer: Bytes, read: nat, maxSize: nat)
    requires |buffer| == HdrLen(t) && read <= |buffer|
    ensures var (a, i') := ReadHeader(t, i, buffer, read, maxSize);
            Took(i, i', a == Err(Broken))
  {
    ReadUses(i, |buffer| - read);
    var (got, i') := FlatRead(i, |buffer| - read);
    if got.Ok? {
      assert ReadHeader(t, i, buffer, read, maxSize) == (TakeHeader(t, buffer, read, maxSize, got.value), i');
    }
  }

  lemma ReadPayloadUses(i: InStream, buffer: Bytes, read: nat)
    requires read <= |buffer|
    ensures var (a, i') := ReadPayload(i, buffer, read);
            Took(i, i', a == Err(Broken))
  {
    ReadUses(i, |buffer| - read);
    var (got, i') := FlatRead(i, |buffer| - read);
    if got.Ok? {
      assert ReadPayload(i, buffer, read) == (TakePayload(buffer, read, got.value), i');
    }
  }

  lemma AdvanceReadUses(t: Transport, s: RecvStep, i: InStream)
    requires Readable(t, s)
    ensures var (a, i') := AdvanceRead(t, s, i);
            Took(i, i', a == Err(Broken))
  {
    match s
    case Header(buffer, read, maxSize) => ReadHeaderUses(t, i, buffer, read, maxSize);
    case Payload(buffer, read) => ReadPayloadUses(i, buffer, read);
  }

  /** A run of either reader fails for another reason than the size exactly if the operating system did. */
  lemma {:induction false} ResumeReadUses(t: Transport, s: RecvStep, i: InStream)
    requires Readable(t, s)
    ensures var r := ResumeRead(t, s, i);
            Took(i, r.stream, r.answer == Err(Broken))
    decreases if s.Header? then 1 else 0
  {
    AdvanceReadUses(t, s, i);
    var (a, i') := AdvanceRead(t, s, i);
    if a.Ok? && a.value.0 && !a.value.1.Complete? {
      ResumeReadUses(t, a.value.1, i');
      var r := ResumeRead(t, s, i);
      TookChains(i, i', r.stream, r.answer == Err(Broken));
    }
  }

  // ---------------------------------------------------------------- announcements

  /** The sizes announced by the headers that are whole. */
  function Announcements(t: Transport, b: Bytes): (sizes: seq<nat>)
    decreases |b|
  {
    if |b| < HdrLen(t) then []
    else
      var n := FrameSize(t, b);
      [n - HdrLen(t)] + if |b| < n then [] else Announcements(t, b[n..])
  }

  ghost predicate AllAccepted(t: Transport, maxSize: nat, b: Bytes) {
    forall i :: 0 <= i < |Announcements(t, b)| ==> Accepts(maxSize, Announcements(t, b)[i])
  }

  /** A header that is whole announces the same whatever follows it. */
  lemma SizeBefore(t: Transport, b: Bytes, n: nat)
    requires HdrLen(t) <= n <= |b|
    ensures FrameSize(t, b[..n]) == FrameSize(t, b)
    ensures var size := FrameSize(t, b);
            size <= n ==> b[..n][size..] == b[size..][..n - size]
  {
    assert b[..n][0..HdrLen(t)] == b[0..HdrLen(t)];
  }

  lemma AnnouncedFirst(t: Transport, b: Bytes)
    requires HdrLen(t) <= |b|
    ensures var size := FrameSize(t, b);
            Announcements(t, b) == [size - HdrLen(t)] + if |b| < size then [] else Announcements(t, b[size..])
  {
  }

  lemma PrefixGrows(x: nat, first: seq<nat>, all: seq<nat>)
    requires first <= all
    ensures [x] + first <= [x] + all
  {
  }

  /** The beginning of a stream announces the first of what the stream announces. */
  lemma {:induction false} AnnouncedBefore(t: Transport, b: Bytes, n: nat)
    requires n <= |b|
    ensures Announcements(t, b[..n]) <= Announcements(t, b)
    decreases |b|
  {
    if n >= HdrLen(t) {
      var size := FrameSize(t, b);
      SizeBefore(t, b, n);
      AnnouncedFirst(t, b);
      AnnouncedFirst(t, b[..n]);
      if size <= n {
        AnnouncedBefore(t, b[size..], n - size);
        PrefixGrows(size - HdrLen(t), Announcements(t, b[size..][..n - size]), Announcements(t, b[size..]));
      }
    }
  }

  lemma AcceptedBefore(t: Transport, maxSize: nat, b: Bytes, n: nat)
    requires n <= |b| && AllAccepted(t, maxSize, b)
    ensures AllAccepted(t, maxSize, b[..n])
  {
    AnnouncedBefore(t, b, n);
    var sizes, first := Announcements(t, b), Announcements(t, b[..n]);
    forall i | 0 <= i < |first|
      ensures Accepts(maxSize, first[i])
    {
      assert first[i] == sizes[i];
    }
  }

  /** The first `k` frames are within the limit. */
  ghost predicate FirstAccepted(t: Transport, maxSize: nat, frames: seq<Bytes>, k: nat) {
    k <= |frames| && forall i :: 0 <= i < k ==> HdrLen(t) <= |frames[i]| && Accepts(maxSize, |frames[i]| - HdrLen(t))
  }

  lemma FrontFrame(t: Transport, maxSize: nat, f: Bytes, rest: Bytes)
    requires IsFrame(t, f)
    ensures AllAccepted(t, maxSize, f + rest) <==> Accepts(maxSize, |f| - HdrLen(t)) && AllAccepted(t, maxSize, rest)
  {
    var b := f + rest;
    assert b[0..HdrLen(t)] == f[0..HdrLen(t)];
    assert b[|f|..] == rest;
    var all, others := Announcements(t, b), Announcements(t, rest);
    assert all == [|f| - HdrLen(t)] + others;
    if AllAccepted(t, maxSize, b) {
      assert Accepts(maxSize, all[0]);
      forall i | 0 <= i < |others|
        ensures Accepts(maxSize, others[i])
      {
        assert others[i] == all[i + 1];
      }
    }
  }

  /** Whole frames and something after them. */
  lemma {:induction false} FrontFrames(t: Transport, maxSize: nat, frames: seq<Bytes>, rest: Bytes)
    requires AreFrames(t, frames)
    ensures AllAccepted(t, maxSize, Concat(frames) + rest)
            <==> FirstAccepted(t, maxSize, frames, |frames|) && AllAccepted(t, maxSize, rest)
    decreases |frames|
  {
    if frames == [] {
      assert Concat(frames) + rest == rest;
    } else {
      FrontFrames(t, maxSize, frames[1..], rest);
      assert Concat(frames) + rest == frames[0] + (Concat(frames[1..]) + rest);
      FrontFrame(t, maxSize, frames[0], Concat(frames[1..]) + rest);
      assert forall i :: 0 <= i < |frames| - 1 ==> frames[1..][i] == frames[i + 1];
      assert forall i :: 1 <= i < |frames| ==> frames[i] == frames[1..][i - 1];
    }
  }

  /** The first `k` frames and something after them. */
  lemma FirstFrames(t: Transport, maxSize: nat, frames: seq<Bytes>, k: nat, rest: Bytes)
    requires AreFrames(t, frames) && k <= |frames|
    ensures AllAccepted(t, maxSize, Concat(frames[..k]) + rest)
            <==> FirstAccepted(t, maxSize, frames, k) && AllAccepted(t, maxSize, rest)
  {
    var first := frames[..k];
    assert forall i :: 0 <= i < k ==> first[i] == frames[i];
    FrontFrames(t, maxSize, first, rest);
  }

  lemma PartOfFrame(t: Transport, maxSize: nat, f: Bytes, n: nat)
    requires IsFrame(t, f) && n <= |f|
    ensures AllAccepted(t, maxSize, f[..n]) <==> n < HdrLen(t) || Accepts(maxSize, |f| - HdrLen(t))
  {
    var b := f[..n];
    if HdrLen(t) <= n {
      assert b[0..HdrLen(t)] == f[0..HdrLen(t)];
      assert n == |f| ==> b[n..] == [];
      assert Announcements(t, b) == [|f| - HdrLen(t)];
      assert AllAccepted(t, maxSize, b) ==> Accepts(maxSize, Announcements(t, b)[0]);
    }
  }

  // ---------------------------------------------------------------- what was read

  lemma {:induction false} ConcatSplits(frames: seq<Bytes>, k: nat)
    requires k <= |frames|
    ensures Concat(frames) == Concat(frames[..k]) + Concat(frames[k..])
    decreases k
  {
    if k == 0 {
      assert frames[0..] == frames;
    } else {
      ConcatSplits(frames[1..], k - 1);
      assert frames[..k][0] == frames[0] && frames[..k][1..] == frames[1..][..k - 1];
      assert frames[1..][k - 1..] == frames[k..];
    }
  }

  /** What was read, if what remains is known. */
  lemma ReadSoFar(b: Bytes, left: Bytes, more: Bytes, x: Bytes)
    requires IsLeftOf(b, left) && b + more == x + (left + more)
    ensures Used(b, left) == x
  {
    assert (b + more)[..|x|] == x;
  }

  lemma ReadWholeFrames(b: Bytes, left: Bytes, more: Bytes, frames: seq<Bytes>, k: nat)
    requires IsLeftOf(b, left) && b + more == Concat(frames) && k <= |frames| && left + more == Concat(frames[k..])
    ensures Used(b, left) == Concat(frames[..k])
  {
    ConcatSplits(frames, k);
    ReadSoFar(b, left, more, Concat(frames[..k]));
  }

  lemma Resplit(before: Bytes, f: Bytes, n: nat, rest: Bytes)
    requires n <= |f|
    ensures before + (f + rest) == before + f[..n] + (f[n..] + rest)
  {
    assert f == f[..n] + f[n..];
  }

  lemma ReadIntoFrame(b: Bytes, left: Bytes, more: Bytes, frames: seq<Bytes>, k: nat, n: nat)
    requires IsLeftOf(b, left) && b + more == Concat(frames) && k < |frames|
    requires Remains(left + more, frames[k], n, Concat(frames[k + 1..]))
    ensures Used(b, left) == Concat(frames[..k]) + frames[k][..n]
  {
    var f, rest := frames[k], Concat(frames[k + 1..]);
    ConcatSplits(frames, k);
    assert frames[k..][1..] == frames[k + 1..];
    assert Concat(frames[k..]) == f + rest;
    Resplit(Concat(frames[..k]), f, n, rest);
    ReadSoFar(b, left, more, Concat(frames[..k]) + f[..n]);
  }

  /** Where the reader stands decides whether all it read was within the limit. */
  lemma ReadIsAcceptedIff(t: Transport, maxSize: nat, b: Bytes, left: Bytes, more: Bytes, frames: seq<Bytes>, k: nat, n: nat)
    requires AreFrames(t, frames) && IsLeftOf(b, left) && b + more == Concat(frames) && k < |frames|
    requires Remains(left + more, frames[k], n, Concat(frames[k + 1..]))
    ensures AllAccepted(t, maxSize, Used(b, left))
            <==> FirstAccepted(t, maxSize, frames, k) && (n < HdrLen(t) || Accepts(maxSize, |frames[k]| - HdrLen(t)))
  {
    ReadIntoFrame(b, left, more, frames, k, n);
    FirstFrames(t, maxSize, frames, k, frames[k][..n]);
    PartOfFrame(t, maxSize, frames[k], n);
  }

  lemma AllReadIsAcceptedIff(t: Transport, maxSize: nat, b: Bytes, left: Bytes, more: Bytes, frames: seq<Bytes>, k: nat)
    requires AreFrames(t, frames) && IsLeftOf(b, left) && b + more == Concat(frames) && k <= |frames|
    requires left + more == Concat(frames[k..])
    ensures AllAccepted(t, maxSize, Used(b, left)) <==> FirstAccepted(t, maxSize, frames, k)
  {
    ReadWholeFrames(b, left, more, frames, k);
    FirstFrames(t, maxSize, frames, k, []);
    assert Announcements(t, []) == [];
    assert Concat(frames[..k]) + [] == Concat(frames[..k]);
  }

  // ---------------------------------------------------------------- runs

  /** What is left on the streams of `p` is left of what there was at the start. */
  ghost predicate ComesFrom(start: Pipe, p: Pipe) {
    && p.stub.transport == start.stub.transport && p.stub.maxSize == start.stub.maxSize
    && IsLeftOf(start.stub.out.script, p.stub.out.script)
    && IsLeftOf(start.stub.inp.script, p.stub.inp.script)
    && IsLeftOf(start.stub.inp.bytes, p.stub.inp.bytes)
  }

  ghost predicate Refuses(start: Pipe, p: Pipe)
    requires ComesFrom(start, p)
  {
    !AllAccepted(p.stub.transport, p.stub.maxSize, Used(start.stub.inp.bytes, p.stub.inp.bytes))
  }

  /** A write or a read has failed, or a header that was read announces more than the limit. */
  ghost predicate Harmed(start: Pipe, p: Pipe)
    requires ComesFrom(start, p)
  {
    || Failed(start.stub.out.script, p.stub.out.script)
    || Failed(start.stub.inp.script, p.stub.inp.script)
    || Refuses(start, p)
  }

  ghost predicate Unfailed(start: Pipe, p: Pipe) {
    && ComesFrom(start, p)
    && !Failed(start.stub.out.script, p.stub.out.script) && !Failed(start.stub.inp.script, p.stub.inp.script)
  }

  /** The incoming bytes, with `more` to come, are frames. */
  ghost predicate Covers(start: Pipe, frames: seq<Bytes>, more: Bytes) {
    AreFrames(start.stub.transport, frames) && start.stub.inp.bytes + more == Concat(frames)
  }

  ghost predicate DeliveredAccepted(p: Pipe, frames: seq<Bytes>) {
    FirstAccepted(p.stub.transport, p.stub.maxSize, frames, |Delivered(p.log)|)
  }

  ghost predicate Well(start: Pipe, p: Pipe, frames: seq<Bytes>, more: Bytes) {
    && Covers(start, frames, more) && Unfailed(start, p)
    && RecvInv(p, frames, more) && DeliveredAccepted(p, frames)
  }

  lemma WellIsUnharmed(start: Pipe, p: Pipe, frames: seq<Bytes>, more: Bytes)
    requires Well(start, p, frames, more)
    ensures !Harmed(start, p)
  {
    var t, max, k := p.stub.transport, p.stub.maxSize, |Delivered(p.log)|;
    var b, left := start.stub.inp.bytes, p.stub.inp.bytes;
    if p.stub.receiving.Some? && k < |frames| {
      ReadIsAcceptedIff(t, max, b, left, more, frames, k, ReadOffset(t, p.stub.receiving.value));
    } else {
      assert k == |frames| ==> frames[k..] == [];
      AllReadIsAcceptedIff(t, max, b, left, more, frames, k);
    }
  }

  /** How a part of a step can end. */
  ghost predicate Ends(start: Pipe, r: Progress, frames: seq<Bytes>, more: Bytes) {
    if r.answer.Ok? then Well(start, r.pipe, frames, more)
    else ComesFrom(start, r.pipe) && Harmed(start, r.pipe)
  }

  /** A write leaves the incoming stream and what was handed up alone. */
  lemma SendLeaves(p: Pipe, s: SendStep)
    requires Resumable(p.stub.transport, s)
    ensures var r := OnSendProgress(p, RunSend(p.stub, s));
            var run := Resume(p.stub.transport, s, p.stub.out);
            && r.pipe.stub == p.stub.(out := run.stream, sending := r.pipe.stub.sending)
            && (r.answer.Err? <==> run.answer.Err?) && Delivered(r.pipe.log) == Delivered(p.log)
  {
    LogSnoc(p.log, Raised(Sent));
  }

  lemma RunSendEnds(start: Pipe, p: Pipe, frames: seq<Bytes>, more: Bytes, s: SendStep)
    requires Well(start, p, frames, more) && Resumable(p.stub.transport, s)
    ensures Ends(start, OnSendProgress(p, RunSend(p.stub, s)), frames, more)
  {
    var run := Resume(p.stub.transport, s, p.stub.out);
    ResumeUses(p.stub.transport, s, p.stub.out);
    FailedChains(start.stub.out.script, p.stub.out.script, run.stream.script);
    RunSendFrame(p, frames, more, s);
    SendLeaves(p, s);
  }

  /** A reader stands in the frame after those handed up, all of which were within the limit. */
  ghost predicate WellReading(start: Pipe, p: Pipe, frames: seq<Bytes>, more: Bytes, s: RecvStep) {
    && Covers(start, frames, more) && Unfailed(start, p)
    && Readable(p.stub.transport, s) && p.stub.receiving.None? && Prefixed(p, frames)
    && Reading(p, frames, more, |Delivered(p.log)|, s) && DeliveredAccepted(p, frames)
  }

  lemma ReadGoesOn(start: Pipe, p: Pipe, frames: seq<Bytes>, more: Bytes, s: RecvStep)
    requires WellReading(start, p, frames, more, s)
    ensures var run := ResumeRead(p.stub.transport, s, p.stub.inp);
            Took(start.stub.inp, run.stream, run.answer == Err(Broken))
  {
    var run := ResumeRead(p.stub.transport, s, p.stub.inp);
    ResumeReadUses(p.stub.transport, s, p.stub.inp);
    TookChains(start.stub.inp, p.stub.inp, run.stream, run.answer == Err(Broken));
  }

  lemma RefusalHarms(start: Pipe, p: Pipe, frames: seq<Bytes>, more: Bytes, s: RecvStep)
    requires WellReading(start, p, frames, more, s)
    requires var a := ResumeRead(p.stub.transport, s, p.stub.inp).answer; a.Err? && a != Err(Broken)
    ensures Ends(start, OnRecvProgress(p, RunRecv(p.stub, s)), frames, more)
  {
    var t, max, k := p.stub.transport, p.stub.maxSize, |Delivered(p.log)|;
    var run := ResumeRead(t, s, p.stub.inp);
    ReadGoesOn(start, p, frames, more, s);
    if k == |frames| {
      EndOfStreamWaits(t, max, p.stub.inp);
    } else {
      RunParses(t, max, frames[k], s, Concat(frames[k + 1..]), more, p.stub.inp);
      ReadIsAcceptedIff(t, max, start.stub.inp.bytes, run.stream.bytes, more, frames, k, HdrLen(t));
    }
  }

  lemma DeliveryCounts(p: Pipe, s: RecvStep)
    requires Readable(p.stub.transport, s)
    requires var a := ResumeRead(p.stub.transport, s, p.stub.inp).answer; a.Ok? && a.value.Some?
    ensures |Delivered(OnRecvProgress(p, RunRecv(p.stub, s)).pipe.log)| == |Delivered(p.log)| + 1
  {
    LogSnoc(p.log, Raised(Received(ResumeRead(p.stub.transport, s, p.stub.inp).answer.value.value)));
  }

  lemma NextIsAccepted(start: Pipe, p: Pipe, frames: seq<Bytes>, more: Bytes, s: RecvStep)
    requires WellReading(start, p, frames, more, s)
    requires var a := ResumeRead(p.stub.transport, s, p.stub.inp).answer; a.Ok? && a.value.Some?
    ensures FirstAccepted(p.stub.transport, p.stub.maxSize, frames, |Delivered(p.log)| + 1)
  {
    var t, k := p.stub.transport, |Delivered(p.log)|;
    if k == |frames| {
      EndOfStreamWaits(t, p.stub.maxSize, p.stub.inp);
    } else {
      RunParses(t, p.stub.maxSize, frames[k], s, Concat(frames[k + 1..]), more, p.stub.inp);
    }
  }

  lemma ReadEnds(start: Pipe, p: Pipe, frames: seq<Bytes>, more: Bytes, s: RecvStep)
    requires WellReading(start, p, frames, more, s) && ResumeRead(p.stub.transport, s, p.stub.inp).answer.Ok?
    ensures Ends(start, OnRecvProgress(p, RunRecv(p.stub, s)), frames, more)
  {
    ReadGoesOn(start, p, frames, more, s);
    RunRecvKeeps(p, frames, more, s);
    if ResumeRead(p.stub.transport, s, p.stub.inp).answer.value.Some? {
      NextIsAccepted(start, p, frames, more, s);
      DeliveryCounts(p, s);
    }
  }

  lemma FailureHarms(start: Pipe, p: Pipe, frames: seq<Bytes>, more: Bytes, s: RecvStep)
    requires WellReading(start, p, frames, more, s) && ResumeRead(p.stub.transport, s, p.stub.inp).answer == Err(Broken)
    ensures Ends(start, OnRecvProgress(p, RunRecv(p.stub, s)), frames, more)
  {
    ReadGoesOn(start, p, frames, more, s);
  }

  lemma RunRecvEnds(start: Pipe, p: Pipe, frames: seq<Bytes>, more: Bytes, s: RecvStep)
    requires WellReading(start, p, frames, more, s)
    ensures Ends(start, OnRecvProgress(p, RunRecv(p.stub, s)), frames, more)
  {
    var a := ResumeRead(p.stub.transport, s, p.stub.inp).answer;
    if a.Ok? {
      ReadEnds(start, p, frames, more, s);
    } else if a == Err(Broken) {
      FailureHarms(start, p, frames, more, s);
    } else {
      RefusalHarms(start, p, frames, more, s);
    }
  }

  /** What does not touch the streams, the reader or what was handed up. */
  lemma OtherwiseWell(start: Pipe, p: Pipe, q: Pipe, frames: seq<Bytes>, more: Bytes, t: Trace)
    requires Well(start, p, frames, more)
    requires q.log == p.log || q.log == p.log + [t]
    requires t.Raised? ==> !t.event.Received?
    requires q.stub == p.stub.(sending := q.stub.sending)
    ensures Well(start, q, frames, more)
  {
    SendSideKeeps(p, q, frames, more, t);
    LogSnoc(p.log, t);
  }

  lemma ReadableEnds(start: Pipe, p: Pipe, frames: seq<Bytes>, more: Bytes, readable: bool, hup: bool)
    requires Well(start, p, frames, more)
    ensures Ends(start, ReadableChanged(p, readable, hup), frames, more)
  {
    if readable && p.stub.receiving.Some? {
      var q := p.(stub := p.stub.(receiving := None));
      assert Reading(q, frames, more, |Delivered(q.log)|, p.stub.receiving.value);
      ResumedRecv(p, hup);
      RunRecvEnds(start, q, frames, more, p.stub.receiving.value);
    } else {
      OtherwiseWell(start, p, ReadableChanged(p, readable, hup).pipe, frames, more, Raised(CanRecv(readable)));
    }
  }

  lemma WritableEnds(start: Pipe, p: Pipe, frames: seq<Bytes>, more: Bytes, writable: bool, hup: bool)
    requires Well(start, p, frames, more)
    ensures Ends(start, WritableChanged(p, writable, hup), frames, more)
  {
    if writable && p.stub.sending.Some? {
      var q := p.(stub := p.stub.(sending := None));
      OtherwiseWell(start, p, q, frames, more, RecvCall);
      ResumedSend(p, hup);
      RunSendEnds(start, q, frames, more, p.stub.sending.value);
    } else {
      OtherwiseWell(start, p, WritableChanged(p, writable, hup).pipe, frames, more, Raised(CanSend(writable)));
    }
  }

  predicate IsError(t: Trace) {
    t.Raised? && t.event.Error?
  }

  /** Alive, and no error was raised. */
  ghost predicate Silent(p: Pipe) {
    !p.dead && forall i :: 0 <= i < |p.log| ==> !IsError(p.log[i])
  }

  /** Neither side of a step raises an error: settling does. */
  lemma ReadableIsSilent(p: Pipe, readable: bool, hup: bool)
    ensures var r := ReadableChanged(p, readable, hup).pipe;
            r.dead == p.dead && (Silent(p) ==> Silent(r))
  {
  }

  lemma WritableIsSilent(p: Pipe, writable: bool, hup: bool)
    ensures var r := WritableChanged(p, writable, hup).pipe;
            r.dead == p.dead && (Silent(p) ==> Silent(r))
  {
  }

  predicate HangsUp(input: Input) {
    input.Ready? && input.hup
  }

  /** Dead exactly if harmed or hung up, and well otherwise. */
  ghost predicate EndsIf(start: Pipe, p: Pipe, frames: seq<Bytes>, more: Bytes, hup: bool) {
    && ComesFrom(start, p)
    && (p.dead <==> Harmed(start, p) || hup)
    && (!p.dead ==> Well(start, p, frames, more))
  }

  lemma SettlingEnds(start: Pipe, r: Progress, frames: seq<Bytes>, more: Bytes)
    requires Ends(start, r, frames, more) && !r.pipe.dead
    ensures EndsIf(start, Settle(r), frames, more, false)
  {
    if r.answer.Ok? {
      WellIsUnharmed(start, r.pipe, frames, more);
    }
  }

  lemma RecvEnds(start: Pipe, p: Pipe, frames: seq<Bytes>, more: Bytes)
    requires Well(start, p, frames, more) && !p.dead && p.stub.receiving.None?
    ensures EndsIf(start, Step(p, Recv), frames, more, false)
  {
    var q := p.(canRecv := false, log := p.log + [RecvCall]);
    OtherwiseWell(start, p, q, frames, more, RecvCall);
    StartsReading(q, frames, more);
    RunRecvEnds(start, q, frames, more, Start(p.stub.transport, p.stub.maxSize));
    SettlingEnds(start, OnRecvProgress(q, StartRecv(p.stub)), frames, more);
  }

  lemma SendEnds(start: Pipe, p: Pipe, frames: seq<Bytes>, more: Bytes, m: Message)
    requires Well(start, p, frames, more) && !p.dead
    ensures EndsIf(start, Step(p, Send(m)), frames, more, false)
  {
    var q := p.(canSend := false, log := p.log + [SendCall(m)]);
    OtherwiseWell(start, p, q, frames, more, SendCall(m));
    RunSendEnds(start, q, frames, more, TransportHdr(m, 0));
    SettlingEnds(start, OnSendProgress(q, StartSend(p.stub, m)), frames, more);
  }

  /** A hang-up kills what is still well. */
  lemma HangUpEnds(start: Pipe, p: Pipe, frames: seq<Bytes>, more: Bytes, hup: bool)
    requires Well(start, p, frames, more) && !p.dead
    ensures EndsIf(start, Settle(HangUpChanged(p, hup)), frames, more, hup)
  {
    WellIsUnharmed(start, p, frames, more);
  }

  lemma HarmEnds(start: Pipe, r: Progress, frames: seq<Bytes>, more: Bytes, hup: bool)
    requires Ends(start, r, frames, more) && r.answer.Err?
    ensures EndsIf(start, Settle(r), frames, more, hup)
  {
  }

  lemma ProgressEnds(start: Pipe, r1: Progress, r2: Progress, frames: seq<Bytes>, more: Bytes, hup: bool)
    requires Ends(start, r1, frames, more) && !r2.pipe.dead
    requires r1.answer.Ok? ==> Ends(start, r2, frames, more)
    ensures var r := if r1.answer.Err? then r1 else if r2.answer.Err? then r2 else HangUpChanged(r2.pipe, hup);
            EndsIf(start, Settle(r), frames, more, hup)
  {
    if r1.answer.Err? {
      HarmEnds(start, r1, frames, more, hup);
    } else if r2.answer.Err? {
      HarmEnds(start, r2, frames, more, hup);
    } else {
      HangUpEnds(start, r2.pipe, frames, more, hup);
    }
  }

  lemma ReadyEnds(start: Pipe, p: Pipe, frames: seq<Bytes>, more: Bytes, readable: bool, writable: bool, hup: bool)
    requires Well(start, p, frames, more) && !p.dead
    ensures EndsIf(start, Settle(OnReady(p, readable, writable, hup)), frames, more, hup)
  {
    var r1 := ReadableChanged(p, readable, hup);
    ReadableEnds(start, p, frames, more, readable, hup);
    var r2 := WritableChanged(r1.pipe, writable, hup);
    if r1.answer.Ok? {
      WritableEnds(start, r1.pipe, frames, more, writable, hup);
    }
    ReadableIsSilent(p, readable, hup);
    WritableIsSilent(r1.pipe, writable, hup);
    ProgressEnds(start, r1, r2, frames, more, hup);
  }

  lemma StepEnds(start: Pipe, p: Pipe, frames: seq<Bytes>, more: Bytes, input: Input, hung: bool)
    requires EndsIf(start, p, frames, more, hung) && Allowed(p, input)
    ensures EndsIf(start, Step(p, input), frames, more, hung || HangsUp(input))
  {
    if !p.dead {
      match input
      case Send(m) => SendEnds(start, p, frames, more, m);
      case Recv => RecvEnds(start, p, frames, more);
      case Ready(readable, writable, hup) => ReadyEnds(start, p, frames, more, readable, writable, hup);
    }
  }

  predicate HungUpIn(inputs: seq<Input>) {
    inputs != [] && (HangsUp(inputs[0]) || HungUpIn(inputs[1..]))
  }

  lemma {:induction false} RunEnds(start: Pipe, p: Pipe, frames: seq<Bytes>, more: Bytes, inputs: seq<Input>, hung: bool)
    requires EndsIf(start, p, frames, more, hung) && AllowedRun(p, inputs)
    ensures EndsIf(start, Run(p, inputs), frames, more, hung || HungUpIn(inputs))
    decreases |inputs|
  {
    if inputs != [] {
      StepEnds(start, p, frames, more, inputs[0], hung);
      RunEnds(start, Step(p, inputs[0]), frames, more, inputs[1..], hung || HangsUp(inputs[0]));
    }
  }

  /**
   A pipe is dead after a run exactly if it was told of a hang-up, a write or a read it made failed, or a header it
   read announces more than the limit.
   */
  lemma DiesIff(t: Transport, maxSize: nat, script: seq<Answer>, inp: InStream, inputs: seq<Input>)
    requires AllowedRun(Fresh(t, maxSize, script, inp), inputs)
    ensures var r := Run(Fresh(t, maxSize, script, inp), inputs);
            && IsLeftOf(script, r.stub.out.script) && IsLeftOf(inp.script, r.stub.inp.script) && IsLeftOf(inp.bytes, r.stub.inp.bytes)
            && (r.dead <==>
                  || HungUpIn(inputs)
                  || Fail in Used(script, r.stub.out.script)
                  || Fail in Used(inp.script, r.stub.inp.script)
                  || !AllAccepted(t, maxSize, Used(inp.bytes, r.stub.inp.bytes)))
  {
    var start := Fresh(t, maxSize, script, inp);
    var frames, more := Completes(t, inp.bytes);
    assert frames[0..] == frames;
    assert Well(start, start, frames, more);
    WellIsUnharmed(start, start, frames, more);
    RunEnds(start, start, frames, more, inputs, false);
  }

  /** So without a failure, a hang-up or an announcement beyond the limit it never dies. */
  lemma NeverDies(t: Transport, maxSize: nat, script: seq<Answer>, inp: InStream, inputs: seq<Input>)
    requires AllowedRun(Fresh(t, maxSize, script, inp), inputs)
    requires Fail !in script && Fail !in inp.script && AllAccepted(t, maxSize, inp.bytes) && !HungUpIn(inputs)
    ensures !Run(Fresh(t, maxSize, script, inp), inputs).dead
  {
    var r := Run(Fresh(t, maxSize, script, inp), inputs);
    DiesIff(t, maxSize, script, inp, inputs);
    AcceptedBefore(t, maxSize, inp.bytes, |inp.bytes| - |r.stub.inp.bytes|);
  }

  // ---------------------------------------------------------------- what is told of it

  /** An error is the last that is raised, and is raised exactly if the pipe is dead. */
  ghost predicate DeathTold(p: Pipe) {
    && (p.dead <==> p.log != [] && IsError(Last(p.log)))
    && forall i :: 0 <= i < |p.log| - 1 ==> !IsError(p.log[i])
  }

  /** An error is all that is added to what raised none. */
  lemma SettlingTells(r: Progress)
    requires Silent(r.pipe)
    ensures DeathTold(Settle(r))
  {
  }

  lemma ReadyTells(p: Pipe, readable: bool, writable: bool, hup: bool)
    requires Silent(p)
    ensures DeathTold(Settle(OnReady(p, readable, writable, hup)))
  {
    var r1 := ReadableChanged(p, readable, hup);
    ReadableIsSilent(p, readable, hup);
    WritableIsSilent(r1.pipe, writable, hup);
    SettlingTells(OnReady(p, readable, writable, hup));
  }

  lemma CallTells(p: Pipe, input: Input)
    requires Silent(p) && !input.Ready?
    ensures DeathTold(Step(p, input))
  {
    match input
    case Send(m) => SettlingTells(OnSendProgress(p.(canSend := false, log := p.log + [SendCall(m)]), StartSend(p.stub, m)));
    case Recv => SettlingTells(OnRecvProgress(p.(canRecv := false, log := p.log + [RecvCall]), StartRecv(p.stub)));
  }

  lemma StepTells(p: Pipe, input: Input)
    requires DeathTold(p)
    ensures DeathTold(Step(p, input))
  {
    if !p.dead {
      assert Silent(p);
      if input.Ready? {
        ReadyTells(p, input.readable, input.writable, input.hup);
      } else {
        CallTells(p, input);
      }
    }
  }

  lemma {:induction false} RunTells(p: Pipe, inputs: seq<Input>)
    requires DeathTold(p)
    ensures DeathTold(Run(p, inputs))
    decreases |inputs|
  {
    if inputs != [] {
      StepTells(p, inputs[0]);
      RunTells(Step(p, inputs[0]), inputs[1..]);
    }
  }

  /** After every run, whoever calls, an error was raised exactly if the pipe is dead, and nothing after it. */
  lemma DeathIsTold(t: Transport, maxSize: nat, script: seq<Answer>, inp: InStream, inputs: seq<Input>)
    ensures DeathTold(Run(Fresh(t, maxSize, script, inp), inputs))
  {
    RunTells(Fresh(t, maxSize, script, inp), inputs);
  }
}

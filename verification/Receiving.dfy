/** The incremental readers of the TCP and IPC transports, which differ only in the size of the header. */
module Receiving {
  import opened Core
  import opened Streams
  import opened Sending

  datatype RecvStep =
    | Header(buffer: Bytes, read: nat, maxSize: nat)
    | Payload(buffer: Bytes, read: nat)
    | Complete(msg: Message)

  /** A buffer after `got` was read into it at `at`. */
  function Filled(buffer: Bytes, at: nat, got: Bytes): (r: Bytes)
    requires at + |got| <= |buffer|
    ensures |r| == |buffer|
  {
    buffer[..at] + got + buffer[at + |got|..]
  }

  function Zeros(n: nat): (r: Bytes)
    ensures |r| == n
  {
    seq(n, _ => 0)
  }

  /** The size announced by a complete header; the type byte of IPC is not looked at. */
  function Announced(t: Transport, header: Bytes): (n: nat)
    requires |header| == HdrLen(t)
  {
    ReadBigEndian(header[HdrLen(t) - 8..])
  }

  type ReadResult = (Io<(bool, RecvStep)>, InStream)

  /** The size check that ends the header. */
  function Admit(size: nat, maxSize: nat): (r: Io<(bool, RecvStep)>) {
    if maxSize > 0 && size > maxSize then Err(TooLong) else Ok((true, Payload(Zeros(size), 0)))
  }

  /** What the header step makes of `got`. */
  function TakeHeader(t: Transport, buffer: Bytes, read: nat, maxSize: nat, got: Bytes): (r: Io<(bool, RecvStep)>)
    requires |buffer| == HdrLen(t) && read + |got| <= |buffer|
  {
    var buffer' := Filled(buffer, read, got);
    if read + |got| == HdrLen(t) then Admit(Announced(t, buffer'), maxSize)
    else Ok((false, Header(buffer', read + |got|, maxSize)))
  }

  function ReadHeader(t: Transport, i: InStream, buffer: Bytes, read: nat, maxSize: nat): (r: ReadResult)
    requires |buffer| == HdrLen(t) && read <= |buffer|
  {
    match FlatRead(i, |buffer| - read)
    case (Err(e), i') => (Err(e), i')
    case (Ok(got), i') => (TakeHeader(t, buffer, read, maxSize, got), i')
  }

  /** What the payload step makes of `got`. */
  function TakePayload(buffer: Bytes, read: nat, got: Bytes): (r: Io<(bool, RecvStep)>)
    requires read + |got| <= |buffer|
  {
    var buffer' := Filled(buffer, read, got);
    if read + |got| == |buffer| then Ok((true, Complete(Message([], buffer'))))
    else Ok((false, Payload(buffer', read + |got|)))
  }

  function ReadPayload(i: InStream, buffer: Bytes, read: nat): (r: ReadResult)
    requires read <= |buffer|
  {
    match FlatRead(i, |buffer| - read)
    case (Err(e), i') => (Err(e), i')
    case (Ok(got), i') => (TakePayload(buffer, read, got), i')
  }

  predicate Readable(t: Transport, s: RecvStep) {
    match s
    case Header(buffer, read, _) => |buffer| == HdrLen(t) && read < |buffer|
    case Payload(buffer, read) => read <= |buffer|
    case Complete(_) => false
  }

  function AdvanceRead(t: Transport, s: RecvStep, i: InStream): (r: ReadResult)
    requires Readable(t, s)
    ensures r.0.Ok? ==> r.0.value.1.Complete? || Readable(t, r.0.value.1)
  {
    match s
    case Header(buffer, read, maxSize) => ReadHeader(t, i, buffer, read, maxSize)
    case Payload(buffer, read) => ReadPayload(i, buffer, read)
  }

  /** The outcome of `run`: the message if complete, the step saved for the next run, and the stream. */
  datatype RecvRun = RecvRun(answer: Io<Option<Message>>, saved: Option<RecvStep>, stream: InStream)

  function ResumeRead(t: Transport, s: RecvStep, i: InStream): (r: RecvRun)
    requires Readable(t, s)
    decreases if s.Header? then 1 else 0
  {
    match AdvanceRead(t, s, i)
    case (Err(e), i') => RecvRun(Err(e), None, i')
    case (Ok((passed, next)), i') =>
      if !passed then RecvRun(Ok(None), Some(next), i')
      else if next.Complete? then RecvRun(Ok(Some(next.msg)), None, i')
      else ResumeRead(t, next, i')
  }

  /** One turn of the loop. */
  lemma ResumeReadTurns(t: Transport, s: RecvStep, i: InStream)
    requires Readable(t, s)
    ensures var (a, i') := AdvanceRead(t, s, i);
            var r := ResumeRead(t, s, i);
            match a
            case Err(e) => r == RecvRun(Err(e), None, i')
            case Ok((passed, next)) =>
              && (!passed ==> r == RecvRun(Ok(None), Some(next), i'))
              && (passed && next.Complete? ==> r == RecvRun(Ok(Some(next.msg)), None, i'))
              && (passed && !next.Complete? ==> Readable(t, next) && r == ResumeRead(t, next, i'))
  {
  }

  function Start(t: Transport, maxSize: nat): (s: RecvStep)
    ensures Readable(t, s)
  {
    Header(Zeros(HdrLen(t)), 0, maxSize)
  }

  // ---------------------------------------------------------------- reading back a frame

  /** The message handed up: the transports do not know where a protocol header ends. */
  function Joined(m: Message): (r: Message) {
    Message([], m.header + m.body)
  }

  predicate Accepts(maxSize: nat, size: nat) {
    maxSize == 0 || size <= maxSize
  }

  /** `f` is one frame: a header that announces what follows it. */
  predicate IsFrame(t: Transport, f: Bytes) {
    HdrLen(t) <= |f| && Announced(t, f[0..HdrLen(t)]) == |f| - HdrLen(t)
  }

  /** The writers' frames are frames, and carry header and body end to end. */
  lemma FrameIsFrame(t: Transport, m: Message)
    requires Len(m) < TWO64
    ensures IsFrame(t, Frame(t, m)) && Message([], Frame(t, m)[HdrLen(t)..]) == Joined(m)
  {
    var f := Frame(t, m);
    assert f[0..HdrLen(t)] == TransportHeader(t, m);
    assert f[HdrLen(t)..] == m.header + m.body;
    assert TransportHeader(t, m)[HdrLen(t) - 8..] == BE64(Len(m));
    Word64(Len(m));
  }

  /** Where a step stands in its frame. */
  function ReadOffset(t: Transport, s: RecvStep): (n: nat)
    requires !s.Complete?
  {
    if s.Header? then s.read else HdrLen(t) + s.read
  }

  /** The first `read` bytes of `buffer` are those of `f` from `base` on. */
  ghost predicate Holds(buffer: Bytes, read: nat, f: Bytes, base: nat) {
    read <= |buffer| && base + |buffer| <= |f| && buffer[..read] == f[base..base + read]
  }

  /** `b` is what is left of `f` after `n` bytes, and then `rest`. */
  ghost predicate Remains(b: Bytes, f: Bytes, n: nat, rest: Bytes) {
    n <= |f| && b == f[n..] + rest
  }

  /** Step `s` holds exactly the bytes of frame `f` up to its offset. */
  ghost predicate Parsed(t: Transport, maxSize: nat, f: Bytes, s: RecvStep) {
    && Readable(t, s) && IsFrame(t, f)
    && match s
       case Header(buffer, read, max) => max == maxSize && Holds(buffer, read, f, 0)
       case Payload(buffer, read) =>
         && Accepts(maxSize, |f| - HdrLen(t)) && |buffer| == |f| - HdrLen(t)
         && Holds(buffer, read, f, HdrLen(t))
       case Complete(_) => false
  }

  /** What a stream holds and what has not arrived yet. */
  function Coming(i: InStream, more: Bytes): (b: Bytes) {
    i.bytes + more
  }

  lemma ReadTakesFromFront(i: InStream, room: nat, more: Bytes)
    ensures var (a, i') := FlatRead(i, room);
            match a
            case Err(e) => Coming(i', more) == Coming(i, more) && e == Broken
            case Ok(got) => Coming(i, more) == got + Coming(i', more) && |got| <= room
  {
  }

  lemma TakesNext(f: Bytes, n: nat, got: Bytes, left: Bytes, rest: Bytes)
    requires n + |got| <= |f| && Remains(got + left, f, n, rest)
    ensures got == f[n..n + |got|] && Remains(left, f, n + |got|, rest)
  {
    var all := f[n..] + rest;
    assert got == all[..|got|] && left == all[|got|..];
  }

  lemma FillsNext(f: Bytes, base: nat, buffer: Bytes, read: nat, got: Bytes)
    requires Holds(buffer, read, f, base) && read + |got| <= |buffer|
    requires got == f[base + read..base + read + |got|]
    ensures Holds(Filled(buffer, read, got), read + |got|, f, base)
  {
    assert Filled(buffer, read, got)[..read + |got|] == buffer[..read] + got;
    assert f[base..base + read] + got == f[base..base + read + |got|];
  }

  /** Reading into a buffer that holds `f[base..base + read]`, from a stream that goes on with the rest of `f`. */
  lemma ReadInto(f: Bytes, base: nat, buffer: Bytes, read: nat, rest: Bytes, more: Bytes, i: InStream)
    requires Holds(buffer, read, f, base) && Remains(Coming(i, more), f, base + read, rest)
    ensures var (a, i') := FlatRead(i, |buffer| - read);
            match a
            case Err(e) => e == Broken
            case Ok(got) =>
              && read + |got| <= |buffer|
              && Holds(Filled(buffer, read, got), read + |got|, f, base)
              && Remains(Coming(i', more), f, base + read + |got|, rest)
  {
    ReadTakesFromFront(i, |buffer| - read, more);
    var (a, i') := FlatRead(i, |buffer| - read);
    if a.Ok? {
      TakesNext(f, base + read, a.value, Coming(i', more), rest);
      FillsNext(f, base, buffer, read, a.value);
    }
  }

  /** An error at frame `f`: the stream broke, or the frame is too long and its payload is still on the stream. */
  ghost predicate Refused(t: Transport, maxSize: nat, f: Bytes, rest: Bytes, more: Bytes, e: IoError, i: InStream)
    requires HdrLen(t) <= |f|
  {
    || e == Broken
    || (e == TooLong && !Accepts(maxSize, |f| - HdrLen(t)) && Remains(Coming(i, more), f, HdrLen(t), rest))
  }

  /** The next step of a read that stood at `s`: it knows exactly what left the stream. */
  ghost predicate ReadsOnTo(t: Transport, maxSize: nat, f: Bytes, s: RecvStep, rest: Bytes, more: Bytes, passed: bool, next: RecvStep, i: InStream)
    requires !s.Complete? && HdrLen(t) <= |f|
  {
    if next.Complete? then passed && s.Payload? && next.msg == Message([], f[HdrLen(t)..]) && Coming(i, more) == rest
    else
      var n' := ReadOffset(t, next);
      && Parsed(t, maxSize, f, next) && ReadOffset(t, s) <= n' <= |f|
      && Remains(Coming(i, more), f, n', rest)
      && (passed ==> s.Header? && next.Payload?)
      && (!passed ==> n' < |f|)
  }

  /** One read: exactly the bytes of this frame leave the stream, and the next step knows them. */
  ghost predicate ReadOn(t: Transport, maxSize: nat, f: Bytes, s: RecvStep, rest: Bytes, more: Bytes, r: ReadResult)
    requires !s.Complete? && HdrLen(t) <= |f|
  {
    match r.0
    case Err(e) => Refused(t, maxSize, f, rest, more, e, r.1)
    case Ok((passed, next)) => ReadsOnTo(t, maxSize, f, s, rest, more, passed, next, r.1)
  }

  lemma AdmitsFrame(t: Transport, maxSize: nat, f: Bytes, s: RecvStep, rest: Bytes, more: Bytes, i: InStream)
    requires s.Header? && Readable(t, s) && IsFrame(t, f) && Remains(Coming(i, more), f, HdrLen(t), rest)
    ensures ReadOn(t, maxSize, f, s, rest, more, (Admit(|f| - HdrLen(t), maxSize), i))
  {
    assert Zeros(|f| - HdrLen(t))[..0] == f[HdrLen(t)..HdrLen(t)];
  }

  lemma HeaderGoesOn(t: Transport, maxSize: nat, f: Bytes, s: RecvStep, rest: Bytes, more: Bytes, next: RecvStep, i: InStream)
    requires s.Header? && Parsed(t, maxSize, f, s) && next.Header? && next.maxSize == maxSize
    requires |next.buffer| == HdrLen(t) && s.read <= next.read < HdrLen(t) && Holds(next.buffer, next.read, f, 0)
    requires Remains(Coming(i, more), f, next.read, rest)
    ensures ReadsOnTo(t, maxSize, f, s, rest, more, false, next, i)
  {
  }

  lemma HeaderEnds(t: Transport, maxSize: nat, f: Bytes, s: RecvStep, rest: Bytes, more: Bytes, buffer: Bytes, i: InStream)
    requires s.Header? && Parsed(t, maxSize, f, s) && |buffer| == HdrLen(t) && Holds(buffer, HdrLen(t), f, 0)
    requires Remains(Coming(i, more), f, HdrLen(t), rest)
    ensures ReadOn(t, maxSize, f, s, rest, more, (Admit(Announced(t, buffer), maxSize), i))
  {
    assert buffer == buffer[..HdrLen(t)];
    AdmitsFrame(t, maxSize, f, s, rest, more, i);
  }

  lemma HeaderTakes(t: Transport, maxSize: nat, f: Bytes, s: RecvStep, rest: Bytes, more: Bytes, got: Bytes, i: InStream)
    requires s.Header? && Parsed(t, maxSize, f, s) && s.read + |got| <= |s.buffer|
    requires Holds(Filled(s.buffer, s.read, got), s.read + |got|, f, 0) && Remains(Coming(i, more), f, s.read + |got|, rest)
    ensures ReadOn(t, maxSize, f, s, rest, more, (TakeHeader(t, s.buffer, s.read, maxSize, got), i))
  {
    var buffer := Filled(s.buffer, s.read, got);
    if s.read + |got| == HdrLen(t) {
      HeaderEnds(t, maxSize, f, s, rest, more, buffer, i);
    } else {
      HeaderGoesOn(t, maxSize, f, s, rest, more, Header(buffer, s.read + |got|, maxSize), i);
    }
  }

  lemma HeaderOutcome(t: Transport, maxSize: nat, f: Bytes, s: RecvStep, rest: Bytes, more: Bytes, a: Io<Bytes>, i: InStream)
    requires s.Header? && Parsed(t, maxSize, f, s)
    requires match a
             case Err(e) => e == Broken
             case Ok(got) =>
               && s.read + |got| <= |s.buffer| && Holds(Filled(s.buffer, s.read, got), s.read + |got|, f, 0)
               && Remains(Coming(i, more), f, s.read + |got|, rest)
    ensures ReadOn(t, maxSize, f, s, rest, more,
                   (match a case Err(e) => Err(e) case Ok(got) => TakeHeader(t, s.buffer, s.read, s.maxSize, got), i))
  {
    if a.Ok? {
      HeaderTakes(t, maxSize, f, s, rest, more, a.value, i);
    }
  }

  lemma ReadIntoHeader(f: Bytes, buffer: Bytes, read: nat, rest: Bytes, more: Bytes, i: InStream)
    requires Holds(buffer, read, f, 0) && Remains(Coming(i, more), f, read, rest)
    ensures var (a, i') := FlatRead(i, |buffer| - read);
            match a
            case Err(e) => e == Broken
            case Ok(got) =>
              && read + |got| <= |buffer| && Holds(Filled(buffer, read, got), read + |got|, f, 0)
              && Remains(Coming(i', more), f, read + |got|, rest)
  {
    ReadInto(f, 0, buffer, read, rest, more, i);
  }

  lemma HeaderReadsOn(t: Transport, maxSize: nat, f: Bytes, s: RecvStep, rest: Bytes, more: Bytes, i: InStream)
    requires s.Header? && Parsed(t, maxSize, f, s)
    requires Remains(Coming(i, more), f, s.read, rest)
    ensures ReadOn(t, maxSize, f, s, rest, more, ReadHeader(t, i, s.buffer, s.read, s.maxSize))
  {
    ReadIntoHeader(f, s.buffer, s.read, rest, more, i);
    var (a, i') := FlatRead(i, |s.buffer| - s.read);
    HeaderOutcome(t, maxSize, f, s, rest, more, a, i');
  }

  /** A full buffer holds all that follows the header, and the frame has left the stream. */
  lemma WholePayload(f: Bytes, h: nat, buffer: Bytes, rest: Bytes, left: Bytes)
    requires h + |buffer| == |f| && Holds(buffer, |buffer|, f, h) && Remains(left, f, h + |buffer|, rest)
    ensures buffer == f[h..] && left == rest
  {
    assert buffer == buffer[..|buffer|];
    assert f[h..] == f[h..|f|];
    assert f[|f|..] == [];
  }

  lemma PayloadGoesOn(t: Transport, maxSize: nat, f: Bytes, s: RecvStep, rest: Bytes, more: Bytes, next: RecvStep, i: InStream)
    requires s.Payload? && Parsed(t, maxSize, f, s) && next.Payload?
    requires |next.buffer| == |s.buffer| && s.read <= next.read < |next.buffer|
    requires Holds(next.buffer, next.read, f, HdrLen(t))
    requires Remains(Coming(i, more), f, HdrLen(t) + next.read, rest)
    ensures ReadsOnTo(t, maxSize, f, s, rest, more, false, next, i)
  {
  }

  lemma PayloadEnds(t: Transport, maxSize: nat, f: Bytes, s: RecvStep, rest: Bytes, more: Bytes, buffer: Bytes, i: InStream)
    requires s.Payload? && Parsed(t, maxSize, f, s) && |buffer| == |s.buffer|
    requires Holds(buffer, |buffer|, f, HdrLen(t))
    requires Remains(Coming(i, more), f, HdrLen(t) + |buffer|, rest)
    ensures ReadsOnTo(t, maxSize, f, s, rest, more, true, Complete(Message([], buffer)), i)
  {
    WholePayload(f, HdrLen(t), buffer, rest, Coming(i, more));
  }

  lemma PayloadTakes(t: Transport, maxSize: nat, f: Bytes, s: RecvStep, rest: Bytes, more: Bytes, got: Bytes, i: InStream)
    requires s.Payload? && Parsed(t, maxSize, f, s) && s.read + |got| <= |s.buffer|
    requires Holds(Filled(s.buffer, s.read, got), s.read + |got|, f, HdrLen(t))
    requires Remains(Coming(i, more), f, HdrLen(t) + s.read + |got|, rest)
    ensures ReadOn(t, maxSize, f, s, rest, more, (TakePayload(s.buffer, s.read, got), i))
  {
    var buffer := Filled(s.buffer, s.read, got);
    if s.read + |got| == |s.buffer| {
      PayloadEnds(t, maxSize, f, s, rest, more, buffer, i);
    } else {
      PayloadGoesOn(t, maxSize, f, s, rest, more, Payload(buffer, s.read + |got|), i);
    }
  }

  lemma PayloadReadsOn(t: Transport, maxSize: nat, f: Bytes, s: RecvStep, rest: Bytes, more: Bytes, i: InStream)
    requires s.Payload? && Parsed(t, maxSize, f, s)
    requires Remains(Coming(i, more), f, HdrLen(t) + s.read, rest)
    ensures ReadOn(t, maxSize, f, s, rest, more, ReadPayload(i, s.buffer, s.read))
  {
    var (a, i') := FlatRead(i, |s.buffer| - s.read);
    ReadInto(f, HdrLen(t), s.buffer, s.read, rest, more, i);
    if a.Ok? {
      PayloadTakes(t, maxSize, f, s, rest, more, a.value, i');
    }
  }

  /** How a run that stood `n` bytes into frame `f` can end, on a stream that goes on with `rest`. */
  ghost predicate ReadTo(t: Transport, maxSize: nat, f: Bytes, n: nat, rest: Bytes, more: Bytes, r: RecvRun)
    requires HdrLen(t) <= |f|
  {
    match r.answer
    case Err(e) => r.saved.None? && Refused(t, maxSize, f, rest, more, e, r.stream)
    case Ok(Some(msg)) =>
      && Accepts(maxSize, |f| - HdrLen(t)) && msg == Message([], f[HdrLen(t)..])
      && r.saved.None? && Coming(r.stream, more) == rest
    case Ok(None) =>
      && r.saved.Some? && Parsed(t, maxSize, f, r.saved.value)
      && n <= ReadOffset(t, r.saved.value) < |f|
      && Remains(Coming(r.stream, more), f, ReadOffset(t, r.saved.value), rest)
  }

  /**
   One run of either reader, from any step inside a frame and for any stream, of which `more` has not arrived yet. A
   frame that is too long is refused as soon as its header is in, and then nothing is saved to resume.
   */
  lemma {:induction false} RunParses(t: Transport, maxSize: nat, f: Bytes, s: RecvStep, rest: Bytes, more: Bytes, i: InStream)
    requires Parsed(t, maxSize, f, s)
    requires Remains(Coming(i, more), f, ReadOffset(t, s), rest)
    ensures ReadTo(t, maxSize, f, ReadOffset(t, s), rest, more, ResumeRead(t, s, i))
    decreases if s.Header? then 1 else 0
  {
    if s.Header? {
      HeaderReadsOn(t, maxSize, f, s, rest, more, i);
    } else {
      PayloadReadsOn(t, maxSize, f, s, rest, more, i);
    }
    var r := AdvanceRead(t, s, i);
    if r.0.Ok? && r.0.value.0 && !r.0.value.1.Complete? {
      RunParses(t, maxSize, f, r.0.value.1, rest, more, r.1);
    }
  }
}

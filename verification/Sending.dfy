/**
 The resumable writers of the TCP and IPC transports. TCP hands the rest of the frame to one
 vectored write; IPC writes it section by section. Both share `SendOperation` and its loop.
 */
module Sending {
  import opened Core
  import opened Streams

  datatype Transport = Tcp | Ipc

  /** IPC frames start with a message-type byte. */
  function Prefix(t: Transport): (p: Bytes) {
    match t
    case Tcp => []
    case Ipc => [1]
  }

  function HdrLen(t: Transport): (n: nat)
    ensures n == |Prefix(t)| + 8
  {
    match t
    case Tcp => 8
    case Ipc => 9
  }

  function Len(m: Message): (n: nat) {
    |m.header| + |m.body|
  }

  function TransportHeader(t: Transport, m: Message): (b: Bytes)
    ensures |b| == HdrLen(t)
  {
    Prefix(t) + BE64(Len(m))
  }

  /** What one message looks like on the stream. */
  function Frame(t: Transport, m: Message): (b: Bytes)
    ensures |b| == HdrLen(t) + Len(m)
  {
    TransportHeader(t, m) + m.header + m.body
  }

  datatype SendStep =
    | TransportHdr(msg: Message, written: nat)
    | ProtocolHdr(msg: Message, written: nat)
    | UsrPayload(msg: Message, written: nat)
    | Terminal

  type AdvanceResult = (Io<(bool, SendStep)>, OutStream)

  /** The buffers of the first vectored write: empty sections are left out. */
  function FirstBufs(m: Message, rest: Bytes): (bufs: seq<Bytes>) {
    if |m.header| == 0 then (if |m.body| == 0 then [rest] else [rest, m.body])
    else if |m.body| == 0 then [rest, m.header]
    else [rest, m.header, m.body]
  }

  function TcpTransportHdr(o: OutStream, m: Message, w: nat): (r: AdvanceResult)
    requires w < 8
  {
    match FlatWrite(o, FirstBufs(m, BE64(Len(m))[w..]))
    case (Err(e), o') => (Err(e), o')
    case (Ok(n), o') =>
      var written := w + n;
      if written < 8 then (Ok((false, TransportHdr(m, written))), o')
      else if written < 8 + |m.header| then (Ok((false, ProtocolHdr(m, written - 8))), o')
      else if written < 8 + Len(m) then (Ok((false, UsrPayload(m, written - 8 - |m.header|))), o')
      else (Ok((true, Terminal)), o')
  }

  function TcpProtocolHdr(o: OutStream, m: Message, w: nat): (r: AdvanceResult)
    requires w <= |m.header|
  {
    match FlatWrite(o, [m.header[w..], m.body])
    case (Err(e), o') => (Err(e), o')
    case (Ok(n), o') =>
      var written := w + n;
      if written < |m.header| then (Ok((false, ProtocolHdr(m, written))), o')
      else if written < Len(m) then (Ok((false, UsrPayload(m, written - |m.header|))), o')
      else (Ok((true, Terminal)), o')
  }

  function TcpUsrPayload(o: OutStream, m: Message, w: nat): (r: AdvanceResult)
    requires w <= |m.body|
  {
    match FlatWrite(o, [m.body[w..]])
    case (Err(e), o') => (Err(e), o')
    case (Ok(n), o') =>
      var written := w + n;
      if written < |m.body| then (Ok((false, UsrPayload(m, written))), o')
      else (Ok((true, Terminal)), o')
  }

  /** `write_buffer` of the IPC writer: the new offset, and whether the section is complete. */
  function WriteSection(o: OutStream, buf: Bytes, w: nat): (r: (Io<(bool, nat)>, OutStream))
    requires w <= |buf|
  {
    match Write(o, buf[w..])
    case (Ok(n), o') => (Ok((w + n == |buf|, w + n)), o')
    case (Err(e), o') => if e == WouldBlock then (Ok((false, w)), o') else (Err(e), o')
  }

  function IpcTransportHdr(o: OutStream, m: Message, w: nat): (r: AdvanceResult)
    requires w <= 9
  {
    match WriteSection(o, TransportHeader(Ipc, m), w)
    case (Err(e), o') => (Err(e), o')
    case (Ok((sent, written)), o') =>
      (Ok(if sent then (true, ProtocolHdr(m, 0)) else (false, TransportHdr(m, written))), o')
  }

  function IpcProtocolHdr(o: OutStream, m: Message, w: nat): (r: AdvanceResult)
    requires w <= |m.header|
  {
    if |m.header| == 0 then (Ok((true, UsrPayload(m, 0))), o)
    else
      match WriteSection(o, m.header, w)
      case (Err(e), o') => (Err(e), o')
      case (Ok((sent, written)), o') =>
        (Ok(if sent then (true, UsrPayload(m, 0)) else (false, ProtocolHdr(m, written))), o')
  }

  function IpcUsrPayload(o: OutStream, m: Message, w: nat): (r: AdvanceResult)
    requires w <= |m.body|
  {
    if |m.body| == 0 then (Ok((true, Terminal)), o)
    else
      match WriteSection(o, m.body, w)
      case (Err(e), o') => (Err(e), o')
      case (Ok((sent, written)), o') =>
        (Ok(if sent then (true, Terminal) else (false, UsrPayload(m, written))), o')
  }

  /** The offsets that a step may carry. Only the IPC loop passes through an empty section. */
  predicate Resumable(t: Transport, s: SendStep) {
    match s
    case TransportHdr(m, w) => w < HdrLen(t)
    case ProtocolHdr(m, w) => w < |m.header| || (t == Ipc && w == |m.header| == 0)
    case UsrPayload(m, w) => w < |m.body| || (t == Ipc && w == |m.body| == 0)
    case Terminal => false
  }

  /** How much of its frame a step says has been written. */
  function Offset(t: Transport, s: SendStep): (n: nat)
    requires !s.Terminal?
  {
    match s
    case TransportHdr(m, w) => w
    case ProtocolHdr(m, w) => HdrLen(t) + w
    case UsrPayload(m, w) => HdrLen(t) + |m.header| + w
  }

  function SectionsLeft(s: SendStep): (n: nat) {
    match s
    case TransportHdr(_, _) => 3
    case ProtocolHdr(_, _) => 2
    case UsrPayload(_, _) => 1
    case Terminal => 0
  }

  function Advance(t: Transport, s: SendStep, o: OutStream): (r: AdvanceResult)
    requires Resumable(t, s)
    ensures r.0.Ok? ==>
              var (passed, next) := r.0.value;
              || next.Terminal?
              || (next.msg == s.msg && Resumable(t, next) && (passed ==> SectionsLeft(next) < SectionsLeft(s)))
  {
    match (t, s)
    case (Tcp, TransportHdr(m, w)) => TcpTransportHdr(o, m, w)
    case (Tcp, ProtocolHdr(m, w)) => TcpProtocolHdr(o, m, w)
    case (Tcp, UsrPayload(m, w)) => TcpUsrPayload(o, m, w)
    case (Ipc, TransportHdr(m, w)) => IpcTransportHdr(o, m, w)
    case (Ipc, ProtocolHdr(m, w)) => IpcProtocolHdr(o, m, w)
    case (Ipc, UsrPayload(m, w)) => IpcUsrPayload(o, m, w)
  }

  /** The outcome of `run`: the answer, the step saved for the next run, and the stream. */
  datatype SendRun = SendRun(answer: Io<bool>, saved: Option<SendStep>, stream: OutStream)

  function Resume(t: Transport, s: SendStep, o: OutStream): (r: SendRun)
    requires Resumable(t, s)
    decreases SectionsLeft(s)
  {
    match Advance(t, s, o)
    case (Err(e), o') => SendRun(Err(e), None, o')
    case (Ok((passed, next)), o') =>
      if next.Terminal? then SendRun(Ok(true), None, o')
      else if !passed then SendRun(Ok(false), Some(next), o')
      else Resume(t, next, o')
  }

  // ---------------------------------------------------------------- what a run appends

  /** How much of the frame of `m` step `s` has behind it. */
  function Reached(t: Transport, m: Message, s: SendStep): (n: nat) {
    if s.Terminal? then |Frame(t, m)| else Offset(t, s)
  }

  /** Going from `s` to `next`, the stream took exactly the bytes between the two offsets. */
  ghost predicate Appended(t: Transport, s: SendStep, o: OutStream, next: SendStep, o': OutStream)
    requires !s.Terminal?
  {
    var from, n := Offset(t, s), Reached(t, s.msg, next);
    from <= n <= |Frame(t, s.msg)| && o'.bytes == o.bytes + Frame(t, s.msg)[from..n]
  }

  lemma JoinFew(a: Bytes, b: Bytes, c: Bytes)
    ensures Join([a]) == a && Join([a, b]) == a + b && Join([a, b, c]) == a + b + c
  {
    assert Join([c]) == c;
    assert [b, c][1..] == [c] && [a, b][1..] == [b] && [a, b, c][1..] == [b, c];
    assert Join([b]) == b && Join([b, c]) == b + c;
    assert a + (b + c) == a + b + c;
  }

  lemma FrameFromHeader(t: Transport, m: Message, w: nat)
    requires w <= HdrLen(t)
    ensures Frame(t, m)[w..] == TransportHeader(t, m)[w..] + m.header + m.body
  {
  }

  lemma FrameFromProtocol(t: Transport, m: Message, w: nat)
    requires w <= |m.header|
    ensures Frame(t, m)[HdrLen(t) + w..] == m.header[w..] + m.body
  {
  }

  lemma FrameFromPayload(t: Transport, m: Message, w: nat)
    requires w <= |m.body|
    ensures Frame(t, m)[HdrLen(t) + |m.header| + w..] == m.body[w..]
  {
  }

  /** Taking `k` bytes of what starts at `from`. */
  lemma Took(f: Bytes, from: nat, section: Bytes, tail: Bytes, k: nat)
    requires from <= |f| && f[from..] == section + tail && k <= |section|
    ensures from + k <= |f| && section[..k] == f[from..from + k]
  {
    assert f[from..][..k] == f[from..from + k];
    assert (section + tail)[..k] == section[..k];
  }

  lemma FirstBufsJoin(m: Message, rest: Bytes)
    ensures Join(FirstBufs(m, rest)) == rest + m.header + m.body
  {
    JoinFew(rest, m.header, m.body);
    JoinFew(rest, m.body, []);
  }

  /** Where a TCP write that took `n` bytes leaves the step. */
  lemma TransportHdrReaches(m: Message, w: nat, o: OutStream)
    requires w < 8
    ensures var (a, o') := FlatWrite(o, FirstBufs(m, BE64(Len(m))[w..]));
            var r := TcpTransportHdr(o, m, w);
            && r.1 == o' && r.0.Ok? == a.Ok?
            && (a.Ok? && w + a.value <= 8 + Len(m) ==> Reached(Tcp, m, r.0.value.1) == w + a.value)
  {
  }

  lemma TcpTransportHdrAppends(m: Message, w: nat, o: OutStream)
    requires w < 8
    ensures var (a, o') := TcpTransportHdr(o, m, w);
            match a
            case Err(_) => o'.bytes == o.bytes
            case Ok((_, next)) => Appended(Tcp, TransportHdr(m, w), o, next, o')
  {
    var rest, f := BE64(Len(m))[w..], Frame(Tcp, m);
    var bufs := FirstBufs(m, rest);
    FirstBufsJoin(m, rest);
    FrameFromHeader(Tcp, m, w);
    TransportHdrReaches(m, w, o);
    var (a, o') := FlatWrite(o, bufs);
    if a.Ok? {
      assert f[w..] == Join(bufs) + [];
      Took(f, w, Join(bufs), [], a.value);
    }
  }

  lemma ProtocolHdrReaches(m: Message, w: nat, o: OutStream)
    requires w < |m.header|
    ensures var (a, o') := FlatWrite(o, [m.header[w..], m.body]);
            var r := TcpProtocolHdr(o, m, w);
            && r.1 == o' && r.0.Ok? == a.Ok?
            && (a.Ok? && w + a.value <= Len(m) ==> Reached(Tcp, m, r.0.value.1) == 8 + w + a.value)
  {
  }

  lemma TcpProtocolHdrAppends(m: Message, w: nat, o: OutStream)
    requires w < |m.header|
    ensures var (a, o') := TcpProtocolHdr(o, m, w);
            match a
            case Err(_) => o'.bytes == o.bytes
            case Ok((_, next)) => Appended(Tcp, ProtocolHdr(m, w), o, next, o')
  {
    var bufs, f := [m.header[w..], m.body], Frame(Tcp, m);
    FrameFromProtocol(Tcp, m, w);
    JoinFew(m.header[w..], m.body, []);
    ProtocolHdrReaches(m, w, o);
    var (a, o') := FlatWrite(o, bufs);
    if a.Ok? {
      assert f[8 + w..] == Join(bufs) + [];
      Took(f, 8 + w, Join(bufs), [], a.value);
    }
  }

  lemma TcpUsrPayloadAppends(m: Message, w: nat, o: OutStream)
    requires w < |m.body|
    ensures var (a, o') := TcpUsrPayload(o, m, w);
            match a
            case Err(_) => o'.bytes == o.bytes
            case Ok((_, next)) => Appended(Tcp, UsrPayload(m, w), o, next, o')
  {
    var bufs, f, from := [m.body[w..]], Frame(Tcp, m), 8 + |m.header| + w;
    FrameFromPayload(Tcp, m, w);
    JoinFew(m.body[w..], [], []);
    var (a, o') := FlatWrite(o, bufs);
    if a.Ok? {
      assert f[from..] == Join(bufs) + [];
      Took(f, from, Join(bufs), [], a.value);
    }
  }

  /** An IPC section write advances through its own section of the frame. */
  lemma SectionAppends(f: Bytes, from: nat, buf: Bytes, w: nat, tail: Bytes, o: OutStream)
    requires w <= |buf| && from <= |f| && f[from..] == buf[w..] + tail
    ensures var (a, o') := WriteSection(o, buf, w);
            match a
            case Err(_) => o'.bytes == o.bytes
            case Ok((sent, k)) =>
              && w <= k <= |buf| && (sent ==> k == |buf|) && (!sent && w < |buf| ==> k < |buf|)
              && from + (k - w) <= |f| && o'.bytes == o.bytes + f[from..from + (k - w)]
  {
    var (a, o') := WriteSection(o, buf, w);
    if a.Ok? {
      Took(f, from, buf[w..], tail, a.value.1 - w);
      assert buf[w..][..0] == [];
    }
  }

  lemma IpcTransportHdrAppends(m: Message, w: nat, o: OutStream)
    requires w < 9
    ensures var (a, o') := IpcTransportHdr(o, m, w);
            match a
            case Err(_) => o'.bytes == o.bytes
            case Ok((_, next)) => Appended(Ipc, TransportHdr(m, w), o, next, o')
  {
    var f := Frame(Ipc, m);
    FrameFromHeader(Ipc, m, w);
    assert f[w..] == TransportHeader(Ipc, m)[w..] + (m.header + m.body);
    SectionAppends(f, w, TransportHeader(Ipc, m), w, m.header + m.body, o);
  }

  lemma IpcProtocolHdrAppends(m: Message, w: nat, o: OutStream)
    requires w <= |m.header|
    ensures var (a, o') := IpcProtocolHdr(o, m, w);
            match a
            case Err(_) => o'.bytes == o.bytes
            case Ok((_, next)) => Appended(Ipc, ProtocolHdr(m, w), o, next, o')
  {
    var f := Frame(Ipc, m);
    FrameFromProtocol(Ipc, m, w);
    SectionAppends(f, 9 + w, m.header, w, m.body, o);
    assert f[9 + w..9 + w] == [];
  }

  lemma IpcUsrPayloadAppends(m: Message, w: nat, o: OutStream)
    requires w <= |m.body|
    ensures var (a, o') := IpcUsrPayload(o, m, w);
            match a
            case Err(_) => o'.bytes == o.bytes
            case Ok((_, next)) => Appended(Ipc, UsrPayload(m, w), o, next, o')
  {
    var f, from := Frame(Ipc, m), 9 + |m.header| + w;
    FrameFromPayload(Ipc, m, w);
    assert f[from..] == m.body[w..] + [];
    SectionAppends(f, from, m.body, w, [], o);
    assert f[from..from] == [];
  }

  lemma AdvanceAppends(t: Transport, s: SendStep, o: OutStream)
    requires Resumable(t, s)
    ensures var (a, o') := Advance(t, s, o);
            match a
            case Err(_) => o'.bytes == o.bytes
            case Ok((passed, next)) =>
              && Appended(t, s, o, next, o')
              && (!passed && !next.Terminal? ==> Offset(t, next) < |Frame(t, s.msg)|)
  {
    match (t, s)
    case (Tcp, TransportHdr(m, w)) => TcpTransportHdrAppends(m, w, o);
    case (Tcp, ProtocolHdr(m, w)) => TcpProtocolHdrAppends(m, w, o);
    case (Tcp, UsrPayload(m, w)) => TcpUsrPayloadAppends(m, w, o);
    case (Ipc, TransportHdr(m, w)) => IpcTransportHdrAppends(m, w, o);
    case (Ipc, ProtocolHdr(m, w)) => IpcProtocolHdrAppends(m, w, o);
    case (Ipc, UsrPayload(m, w)) => IpcUsrPayloadAppends(m, w, o);
  }

  /**
   The run `r`, started `from` bytes into the frame of `m`, ended `n` bytes into it: it appended what lies
   between, it answers `true` exactly when the frame is complete, and otherwise saves a step that is at `n`.
   */
  ghost predicate RanTo(t: Transport, m: Message, from: nat, o: OutStream, r: SendRun, n: nat) {
    && from <= n <= |Frame(t, m)|
    && r.stream.bytes == o.bytes + Frame(t, m)[from..n]
    && match r.answer
       case Err(_) => r.saved.None?
       case Ok(done) =>
         && (done <==> n == |Frame(t, m)|)
         && if done then r.saved.None? else SavedAt(t, m, r.saved, n)
  }

  predicate SavedAt(t: Transport, m: Message, saved: Option<SendStep>, n: nat) {
    saved.Some? && Resumable(t, saved.value) && saved.value.msg == m && Offset(t, saved.value) == n
  }

  lemma PartsJoin(before: Bytes, f: Bytes, from: nat, mid: nat, n: nat)
    requires from <= mid <= |f|
    ensures mid <= n <= |f| ==> before + f[from..mid] + f[mid..n] == before + f[from..n]
  {
    if mid <= n <= |f| {
      assert f[from..mid] + f[mid..n] == f[from..n];
    }
  }

  lemma RunsChain(t: Transport, m: Message, from: nat, o: OutStream, mid: nat, o': OutStream, r: SendRun, n: nat)
    requires from <= mid <= |Frame(t, m)| && o'.bytes == o.bytes + Frame(t, m)[from..mid]
    requires RanTo(t, m, mid, o', r, n)
    ensures RanTo(t, m, from, o, r, n)
  {
    PartsJoin(o.bytes, Frame(t, m), from, mid, n);
  }

  /** One run of either writer, from any resumable step and for any stream. */
  lemma {:induction false} RunAppends(t: Transport, s: SendStep, o: OutStream) returns (n: nat)
    requires Resumable(t, s)
    ensures RanTo(t, s.msg, Offset(t, s), o, Resume(t, s, o), n)
    decreases SectionsLeft(s)
  {
    var r := Resume(t, s, o);
    var (a, o') := Advance(t, s, o);
    var from := Offset(t, s);
    AdvanceAppends(t, s, o);
    if a.Err? {
      n := from;
      assert Frame(t, s.msg)[from..from] == [];
    } else {
      var next := a.value.1;
      n := Reached(t, s.msg, next);
      if !next.Terminal? && a.value.0 {
        var mid := n;
        n := RunAppends(t, next, o');
        RunsChain(t, s.msg, from, o, mid, o', r, n);
      }
    }
  }
}

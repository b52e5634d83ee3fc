/**
 Non-blocking byte streams. A stream carries the script of what the operating system will answer,
 one entry per call, so that a statement for every script is a statement for every chunking.
 */
module Streams {
  import opened Core

  datatype IoError = WouldBlock | Broken | TooLong | Finished | NothingPending | HungUp
  datatype Io<+T> = Ok(value: T) | Err(error: IoError)

  /** Answers to one call: up to `n` bytes move, none can move now, or the stream is broken. */
  datatype Answer = Move(n: nat) | Block | Fail

  datatype OutStream = OutStream(bytes: Bytes, script: seq<Answer>)
  datatype InStream = InStream(bytes: Bytes, script: seq<Answer>)

  function Min(a: nat, b: nat): (m: nat)
    ensures m <= a && m <= b && (m == a || m == b)
  {
    if a <= b then a else b
  }

  /** A stream with nothing left in its script would block. */
  function NextAnswer(script: seq<Answer>): (r: (Answer, seq<Answer>)) {
    if script == [] then (Block, []) else (script[0], script[1..])
  }

  /** `write`: the stream takes a prefix of the buffer. */
  function Write(o: OutStream, buf: Bytes): (r: (Io<nat>, OutStream))
    ensures match r.0
            case Ok(n) => n <= |buf| && r.1.bytes == o.bytes + buf[..n]
            case Err(_) => r.1.bytes == o.bytes
  {
    var (answer, script) := NextAnswer(o.script);
    match answer
    case Move(n) => var k := Min(n, |buf|); (Ok(k), OutStream(o.bytes + buf[..k], script))
    case Block => (Err(WouldBlock), o.(script := script))
    case Fail => (Err(Broken), o.(script := script))
  }

  /** `write_bufs`: a vectored write takes a prefix of the buffers put end to end. */
  function Join(bufs: seq<Bytes>): (r: Bytes) {
    if bufs == [] then [] else bufs[0] + Join(bufs[1..])
  }

  /** A write that would block counts as zero bytes. */
  function FlatWrite(o: OutStream, bufs: seq<Bytes>): (r: (Io<nat>, OutStream))
    ensures match r.0
            case Ok(n) => n <= |Join(bufs)| && r.1.bytes == o.bytes + Join(bufs)[..n]
            case Err(e) => r.1.bytes == o.bytes && e == Broken
  {
    match Write(o, Join(bufs))
    case (Ok(n), o') => (Ok(n), o')
    case (Err(e), o') =>
      if e == WouldBlock then
        assert Join(bufs)[..0] == [];
        (Ok(0), o')
      else (Err(e), o')
  }

  /** `read_buffer`: at most `room` bytes leave the stream; one that would block counts as zero. */
  function FlatRead(i: InStream, room: nat): (r: (Io<Bytes>, InStream))
    ensures match r.0
            case Ok(got) => |got| <= room && i.bytes == got + r.1.bytes
            case Err(e) => r.1.bytes == i.bytes && e == Broken
  {
    var (answer, script) := NextAnswer(i.script);
    match answer
    case Move(n) =>
      var k := Min(Min(n, room), |i.bytes|);
      (Ok(i.bytes[..k]), InStream(i.bytes[k..], script))
    case Block => (Ok([]), i.(script := script))
    case Fail => (Err(Broken), i.(script := script))
  }
}

/** The transport objects in place; each method is tied to the function that gives its value. */
module PipeObjects {
  import opened Core
  import opened Streams
  import opened Sending
  import opened Receiving

  class SendOperation {
    const transport: Transport
    var step: Option<SendStep>

    ghost predicate Valid()
      reads this
    {
      step.Some? ==> Resumable(transport, step.value)
    }

    constructor (transport: Transport, msg: Message)
      ensures Valid() && this.transport == transport && step == Some(TransportHdr(msg, 0))
    {
      this.transport := transport;
      step := Some(TransportHdr(msg, 0));
    }

    /** Advances until the frame is out or the stream takes no more. A finished operation cannot be run. */
    method Run(o: OutStream) returns (r: Io<bool>, o': OutStream)
      requires Valid()
      modifies this
      ensures Valid()
      ensures old(step).None? ==> SendRun(r, step, o') == SendRun(Err(Finished), None, o)
      ensures old(step).Some? ==> SendRun(r, step, o') == Resume(transport, old(step).value, o)
    {
      o' := o;
      if step.None? {
        return Err(Finished), o';
      }
      var current := step.value;
      step := None;
      while true
        invariant step.None? && Resumable(transport, current)
        invariant Resume(transport, current, o') == Resume(transport, old(step).value, o)
        decreases SectionsLeft(current)
      {
        var (advanced, stream) := Advance(transport, current, o');
        o' := stream;
        if advanced.Err? {
          return Err(advanced.error), o';
        }
        var (passed, next) := advanced.value;
        if next.Terminal? {
          return Ok(true), o';
        }
        if !passed {
          step := Some(next);
          return Ok(false), o';
        }
        current := next;
      }
    }
  }

  /** A step with its buffer, which is filled in place. */
  datatype LiveStep =
    | InHeader(buffer: array<Byte>, read: nat, maxSize: nat)
    | InPayload(buffer: array<Byte>, read: nat)
    | Done(msg: Message)

  ghost function BufferOf(s: LiveStep): (r: set<object>) {
    if s.Done? then {} else {s.buffer}
  }

  ghost function Shown(s: LiveStep): (r: RecvStep)
    reads BufferOf(s)
  {
    match s
    case InHeader(buffer, read, maxSize) => Header(buffer[..], read, maxSize)
    case InPayload(buffer, read) => Payload(buffer[..], read)
    case Done(msg) => Complete(msg)
  }

  lemma FilledFurther(buffer: Bytes, from: nat, got: Bytes, k: nat)
    requires from + |got| <= |buffer| && k < |got|
    ensures Filled(buffer, from, got[..k + 1]) == Filled(buffer, from, got[..k])[from + k := got[k]]
  {
  }

  /** Fills `buffer[from..]` as far as the stream allows. */
  method ReadBuffer(i: InStream, buffer: array<Byte>, from: nat) returns (r: Io<nat>, i': InStream)
    requires from <= buffer.Length
    modifies buffer
    ensures i' == FlatRead(i, buffer.Length - from).1
    ensures match FlatRead(i, buffer.Length - from).0
            case Err(e) => r == Err(e) && buffer[..] == old(buffer[..])
            case Ok(got) => r == Ok(|got|) && buffer[..] == Filled(old(buffer[..]), from, got)
  {
    var (answer, stream) := FlatRead(i, buffer.Length - from);
    i' := stream;
    if answer.Err? {
      return Err(answer.error), i';
    }
    var got := answer.value;
    for k := 0 to |got|
      invariant buffer[..] == Filled(old(buffer[..]), from, got[..k])
    {
      FilledFurther(old(buffer[..]), from, got, k);
      buffer[from + k] := got[k];
    }
    assert got[..|got|] == got;
    r := Ok(|got|);
  }

  /** Checks the announced size and allocates the payload. */
  method AdmitPayload(size: nat, maxSize: nat) returns (r: Io<(bool, LiveStep)>)
    ensures match Admit(size, maxSize)
            case Err(e) => r == Err(e)
            case Ok((passed, next)) => r.Ok? && r.value.0 == passed && Shown(r.value.1) == next && fresh(BufferOf(r.value.1))
  {
    if maxSize > 0 && size > maxSize {
      return Err(TooLong);
    }
    var payload := new Byte[size](_ => 0);
    assert payload[..] == Zeros(size);
    return Ok((true, InPayload(payload, 0)));
  }

  method ReadHeader(t: Transport, i: InStream, buffer: array<Byte>, read: nat, maxSize: nat)
    returns (r: Io<(bool, LiveStep)>, i': InStream)
    requires buffer.Length == HdrLen(t) && read <= buffer.Length
    modifies buffer
    ensures i' == Receiving.ReadHeader(t, i, old(buffer[..]), read, maxSize).1
    ensures match Receiving.ReadHeader(t, i, old(buffer[..]), read, maxSize).0
            case Err(e) => r == Err(e)
            case Ok((passed, next)) =>
              && r.Ok? && r.value.0 == passed && Shown(r.value.1) == next
              && (BufferOf(r.value.1) == {buffer} || fresh(BufferOf(r.value.1)))
  {
    var got;
    got, i' := ReadBuffer(i, buffer, read);
    if got.Err? {
      return Err(got.error), i';
    }
    if read + got.value != HdrLen(t) {
      return Ok((false, InHeader(buffer, read + got.value, maxSize))), i';
    }
    var size := Announced(t, buffer[..]);
    assert Receiving.ReadHeader(t, i, old(buffer[..]), read, maxSize) == (Admit(size, maxSize), i');
    r := AdmitPayload(size, maxSize);
  }

  method ReadPayload(i: InStream, buffer: array<Byte>, read: nat) returns (r: Io<(bool, LiveStep)>, i': InStream)
    requires read <= buffer.Length
    modifies buffer
    ensures i' == Receiving.ReadPayload(i, old(buffer[..]), read).1
    ensures match Receiving.ReadPayload(i, old(buffer[..]), read).0
            case Err(e) => r == Err(e)
            case Ok((passed, next)) =>
              && r.Ok? && r.value.0 == passed && Shown(r.value.1) == next
              && BufferOf(r.value.1) <= {buffer}
  {
    var got;
    got, i' := ReadBuffer(i, buffer, read);
    if got.Err? {
      return Err(got.error), i';
    }
    if read + got.value == buffer.Length {
      return Ok((true, Done(Message([], buffer[..])))), i';
    }
    return Ok((false, InPayload(buffer, read + got.value))), i';
  }

  method AdvanceLive(t: Transport, s: LiveStep, i: InStream) returns (r: Io<(bool, LiveStep)>, i': InStream)
    requires Readable(t, Shown(s))
    modifies BufferOf(s)
    ensures i' == AdvanceRead(t, old(Shown(s)), i).1
    ensures match AdvanceRead(t, old(Shown(s)), i).0
            case Err(e) => r == Err(e)
            case Ok((passed, next)) =>
              && r.Ok? && r.value.0 == passed && Shown(r.value.1) == next
              && (BufferOf(r.value.1) <= BufferOf(s) || fresh(BufferOf(r.value.1)))
  {
    match s
    case InHeader(buffer, read, maxSize) => r, i' := ReadHeader(t, i, buffer, read, maxSize);
    case InPayload(buffer, read) => r, i' := ReadPayload(i, buffer, read);
  }

  /** The loop of `resume_at`: the message, or the step to go on from. */
  method ResumeLive(t: Transport, s: LiveStep, i: InStream)
    returns (r: Io<Option<Message>>, saved: Option<LiveStep>, i': InStream)
    requires Readable(t, Shown(s))
    modifies BufferOf(s)
    ensures r == ResumeRead(t, old(Shown(s)), i).answer && i' == ResumeRead(t, old(Shown(s)), i).stream
    ensures match saved
            case None => r != Ok(None)
            case Some(next) =>
              && r == Ok(None) && ResumeRead(t, old(Shown(s)), i).saved == Some(Shown(next)) && Readable(t, Shown(next))
              && (BufferOf(next) <= BufferOf(s) || fresh(BufferOf(next)))
  {
    i' := i;
    var current := s;
    ghost var run := ResumeRead(t, Shown(current), i);
    while true
      invariant Readable(t, Shown(current)) && ResumeRead(t, Shown(current), i') == run
      invariant BufferOf(current) <= BufferOf(s) || fresh(BufferOf(current))
      decreases if current.InHeader? then 1 else 0
    {
      ResumeReadTurns(t, Shown(current), i');
      var advanced;
      advanced, i' := AdvanceLive(t, current, i');
      if advanced.Err? {
        return Err(advanced.error), None, i';
      }
      var (passed, next) := advanced.value;
      if !passed {
        return Ok(None), Some(next), i';
      }
      if next.Done? {
        return Ok(Some(next.msg)), None, i';
      }
      current := next;
    }
  }

  class RecvOperation {
    const transport: Transport
    var step: Option<LiveStep>

    ghost function Buffers(): (r: set<object>)
      reads this
    {
      if step.Some? then BufferOf(step.value) else {}
    }

    ghost predicate Valid()
      reads this, Buffers()
    {
      step.Some? ==> Readable(transport, Shown(step.value))
    }

    constructor (transport: Transport, maxSize: nat)
      ensures Valid() && fresh(Buffers()) && this.transport == transport
      ensures step.Some? && Shown(step.value) == Start(transport, maxSize)
    {
      this.transport := transport;
      var buffer := new Byte[HdrLen(transport)](_ => 0);
      step := Some(InHeader(buffer, 0, maxSize));
      new;
      assert buffer[..] == Zeros(HdrLen(transport));
    }

    /** Reads until the message is complete or the stream has no more. A finished operation cannot be run. */
    method Run(i: InStream) returns (r: Io<Option<Message>>, i': InStream)
      requires Valid()
      modifies this, Buffers()
      ensures Valid() && fresh(Buffers() - old(Buffers()))
      ensures old(step).None? ==> r == Err(Finished) && i' == i && step.None?
      ensures old(step).Some? ==>
                var run := ResumeRead(transport, old(Shown(step.value)), i);
                && r == run.answer && i' == run.stream
                && (if run.answer == Ok(None) && run.saved.Some? then step.Some? && Shown(step.value) == run.saved.value else step.None?)
    {
      if step.None? {
        return Err(Finished), i;
      }
      var current := step.value;
      step := None;
      r, step, i' := ResumeLive(transport, current, i);
    }
  }
}

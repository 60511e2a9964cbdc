/** The response body reader that observes, and may filter, what passes (internal/gateway/observe.go). */
module Observer {
  import opened Wrappers
  import opened Sequences
  import opened EventStream
  import opened Scanning

  datatype Ending = Eof | Failure

  /** The upstream body: whatever pieces it arrives in, how it ends, and whether the end comes with the last bytes. */
  class Source {
    var chunks: seq<string>
    const ending: Ending
    const together: bool

    constructor (chunks: seq<string>, ending: Ending, together: bool)
      ensures this.chunks == chunks && this.ending == ending && this.together == together
    {
      this.chunks, this.ending, this.together := chunks, ending, together;
    }

    ghost function Rest(): string
      reads this
    {
      Joined(chunks)
    }

    ghost function Size(): nat
      reads this
    {
      |chunks| + |Rest()|
    }

    /** At most `room` bytes; an error only once everything has been read, and then for ever. */
    method Read(room: nat) returns (data: string, err: Option<Ending>)
      modifies this
      ensures old(Rest()) == data + Rest() && |data| <= room
      ensures err.Some? ==> err.value == ending && Rest() == ""
      ensures err == None && room > 0 ==> Size() < old(Size())
      ensures Size() <= old(Size())
    {
      if chunks == [] {
        return "", Some(ending);
      }
      var first := chunks[0];
      if |first| <= room {
        chunks := chunks[1..];
        return first, if chunks == [] && together then Some(ending) else None;
      }
      data, err := first[..room], None;
      chunks := [first[room..]] + chunks[1..];
      assert chunks[1..] == old(chunks)[1..];
      assert first == first[..room] + first[room..];
    }
  }

  method EventPayload(block: string) returns (payload: Option<string>)
    ensures payload == Payload(block)
  {
    hide Payload, LinePayload, NewlineAt;
    var rest := block;
    while true
      invariant Payload(rest) == Payload(block)
      decreases |rest|
    {
      var k := NewlineAt(rest);
      PayloadStep(rest);
      ReturnsDoNotMatter(rest[..k]);
      var line := LinePayload(Unreturned(rest[..k]));
      if line.Some? {
        return line;
      }
      if k == |rest| {
        return None;
      }
      rest := rest[k + 1..];
    }
  }

  lemma PayloadStep(block: string)
    ensures var k := NewlineAt(block);
      Payload(block) == match LinePayload(block[..k])
                        case Some(p) => Some(p)
                        case None => if k < |block| then Payload(block[k + 1..]) else None
  {
  }

  lemma {:induction false} PayloadIsTrimmed(block: string)
    ensures Payload(block).Some? ==> Payload(block).value != "" && Trimmed(Payload(block).value) == Payload(block).value
    decreases |block|
  {
    var k := NewlineAt(block);
    if LinePayload(block[..k]).Some? {
      TrimmedTwice(block[..k][|PREFIX|..]);
    } else if k < |block| {
      PayloadIsTrimmed(block[k + 1..]);
    }
  }

  class ObservingReader {
    const src: Source
    const streaming: bool
    const drop: Option<string -> bool>

    var out: string
    var srcErr: Option<Ending>
    var pending: string
    var body: string
    var truncated: bool
    var sawEof: bool
    var overflow: bool

    // The calls made to onEvent, onBody and onDone.
    var events: seq<string>
    var bodies: seq<string>
    var completions: seq<bool>

    ghost const whole: string
    ghost var consumed: string
    ghost var delivered: string

    /** The reads of an event stream so far that brought something. */
    ghost var pieces: seq<string>

    constructor (src: Source, streaming: bool, drop: Option<string -> bool>)
      ensures Valid() && this.src == src && this.streaming == streaming && this.drop == drop
      ensures whole == src.Rest() && delivered == "" && completions == [] && srcErr == None
    {
      this.src, this.streaming, this.drop := src, streaming, drop;
      out, srcErr, pending, body, truncated, sawEof, overflow := "", None, "", "", false, false, false;
      events, bodies, completions := [], [], [];
      whole, consumed, delivered, pieces := src.Rest(), "", "", [];
    }

    ghost predicate FilterOk()
      requires drop.Some?
      reads this
    {
      && bodies == []
      && match srcErr
         case None =>
           && pending == Tail(consumed) && delivered + out == Kept(consumed, drop.value) && events == Seen(consumed)
         case Some(e) =>
           && consumed == whole && e == src.ending
           && delivered + out == Filtered(whole, drop.value) && events == FilterEvents(whole)
    }

    /** The events are those of the pieces read so far. */
    ghost predicate StreamOk()
      reads this
    {
      && bodies == [] && delivered == consumed && '\n' !in pending
      && Joined(pieces) == consumed && NonEmpty(pieces)
      && if sawEof then pending == "" && events == ReportedEvents(pieces)
         else pending == ScannedTail("", pieces) && events == ScannedEvents("", pieces)
    }

    ghost predicate BodyOk()
      reads this
    {
      && events == [] && delivered == consumed
      && overflow == truncated == (|consumed| > MAX_OBSERVED)
      && (!overflow ==> body == consumed)
      && (sawEof ==> consumed == whole)
      && (bodies != [] <==> sawEof && |whole| <= MAX_OBSERVED)
      && (forall i :: 0 <= i < |bodies| ==> bodies[i] == whole)
    }

    ghost predicate Valid()
      reads this, src
    {
      && whole == consumed + src.Rest()
      && |completions| <= 1 && (srcErr.Some? ==> drop.Some?)
      && (completions == [true] ==> src.ending == Eof && consumed == whole)
      && (sawEof ==> src.ending == Eof && consumed == whole && completions != [])
      && (if drop.Some? then FilterOk() else if streaming then StreamOk() else BodyOk())
    }

    /** The completion callback runs once. */
    method Finish(complete: bool)
      modifies this`completions
      ensures completions == if old(completions) == [] then [complete] else old(completions)
    {
      if completions == [] {
        completions := [complete];
      }
    }

    method HandleLine(line: string)
      modifies this`events
      ensures events == old(events) + Reported(LinePayload(line))
    {
      if !(PREFIX <= line) {
        return;
      }
      var payload := Trimmed(line[|PREFIX|..]);
      if payload == "" || payload == DONE {
        return;
      }
      events := events + [payload];
    }

    /** Observes every complete block and keeps the ones that are not dropped. */
    method ConsumeEvents(b: string)
      requires drop.Some?
      modifies this`pending, this`out, this`events
      ensures var s := old(pending) + b;
        pending == Tail(s) && out == old(out) + Kept(s, drop.value) && events == old(events) + Seen(s)
    {
      hide Kept, Seen, Tail, Payload, Passed, Reported, LinePayload, BreakAt;
      pending := pending + b;
      ghost var s := pending;
      while true
        invariant Tail(pending) == Tail(s)
        invariant out + Kept(pending, drop.value) == old(out) + Kept(s, drop.value)
        invariant events + Seen(pending) == old(events) + Seen(s)
        decreases |pending|
      {
        var k := BreakAt(pending);
        BlockStep(pending, drop.value);
        if k == |pending| {
          return;
        }
        var block := pending[..k + 2];
        Regroup(out, Passed(block, drop.value), Kept(pending[k + 2..], drop.value));
        Regroup(events, Reported(Payload(block)), Seen(pending[k + 2..]));
        pending := pending[k + 2..];
        Pass(block);
      }
    }

    /** Reports a block's payload, and forwards the block unless it is dropped. */
    method Pass(block: string)
      requires drop.Some?
      modifies this`out, this`events
      ensures out == old(out) + Passed(block, drop.value) && events == old(events) + Reported(Payload(block))
    {
      hide Payload, LinePayload;
      var payload := EventPayload(block);
      if payload.Some? {
        PayloadIsTrimmed(block);
        PayloadOfPayload(payload.value);
        HandleLine(PREFIX + payload.value);
        if drop.value(payload.value) {
          return;
        }
      }
      out := out + block;
    }

    /** The client is entitled to an incomplete block too. */
    method FlushRemainder()
      requires drop.Some?
      modifies this`pending, this`out, this`events
      ensures pending == ""
      ensures out == old(out) + Passed(old(pending), drop.value)
      ensures events == old(events) + Reported(Payload(old(pending)))
    {
      if pending == "" {
        return;
      }
      Pass(pending);
      pending := "";
    }

    /** Reads upstream once and filters what came. */
    method Fill()
      requires Valid() && drop.Some? && srcErr == None
      modifies this, src
      ensures Valid() && delivered == old(delivered) && completions == old(completions) && sawEof == old(sawEof)
      ensures srcErr == None ==> src.Size() < old(src.Size())
    {
      hide Kept, Seen, Tail, Passed, Payload, StreamOk, BodyOk;
      var chunk, end := src.Read(32 * 1024);
      BlocksOfConcat(consumed, chunk, drop.value);
      Regroup(delivered, out, Kept(pending + chunk, drop.value));
      Regroup(consumed, chunk, src.Rest());
      consumed := consumed + chunk;
      assert src.Rest() == "" ==> consumed == whole by {
        assert consumed + "" == consumed;
      }
      ConsumeEvents(chunk);
      assert delivered + out == Kept(consumed, drop.value);
      if end.Some? {
        srcErr := end;
        Regroup(delivered, out, Passed(pending, drop.value));
        FlushRemainder();
      }
    }

    /** Serves the caller from what survived the filter. */
    method ReadFiltered(room: nat) returns (data: string, err: Option<Ending>)
      requires Valid() && drop.Some?
      modifies this, src
      ensures Valid() && delivered == old(delivered) + data && |data| <= room
      ensures err.Some? ==> data == "" && err.value == src.ending && delivered == Filtered(whole, drop.value)
      ensures err == None && room > 0 ==> data != ""
      ensures sawEof == (old(sawEof) || err == Some(Eof)) && completions == Completed(old(completions), err)
      ensures err.Some? ==> srcErr == err
    {
      hide Kept, Seen, Tail, Filtered, FilterEvents, StreamOk, BodyOk;
      while out == ""
        invariant Valid() && delivered == old(delivered) && sawEof == old(sawEof) && completions == old(completions)
        decreases if srcErr == None then 1 + src.Size() else 0
      {
        if srcErr.Some? {
          if srcErr.value == Eof {
            sawEof := true;
            Finish(true);
          }
          assert delivered + out == delivered;
          return "", srcErr;
        }
        Fill();
      }
      data := if |out| <= room then out else out[..room];
      assert out == data + out[|data|..];
      Regroup(delivered, data, out[|data|..]);
      delivered, out := delivered + data, out[|data|..];
      err := None;
    }

    method Accumulate(b: string)
      modifies this`overflow, this`truncated, this`body
      ensures overflow == (old(overflow) || |old(body)| + |b| > MAX_OBSERVED)
      ensures truncated == (old(truncated) || (!old(overflow) && overflow))
      ensures !overflow ==> body == old(body) + b
    {
      if overflow {
        return;
      }
      if |body| + |b| > MAX_OBSERVED {
        overflow, truncated, body := true, true, "";
        return;
      }
      body := body + b;
    }

    /** Reports every complete line, after discarding an unfinished one that has grown too long. */
    method ScanEvents(b: string)
      modifies this`pending, this`events, this`truncated
      ensures var s := Resumed(old(pending), b);
        pending == LineTail(s) && events == old(events) + LineEvents(s)
      ensures truncated == (old(truncated) || |old(pending)| > MAX_OBSERVED)
    {
      hide LineEvents, LineTail, LinePayload, Reported, NewlineAt;
      if |pending| > MAX_OBSERVED {
        pending, truncated := "", true;
      }
      pending := pending + b;
      ghost var s := pending;
      while true
        invariant LineTail(pending) == LineTail(s)
        invariant events + LineEvents(pending) == old(events) + LineEvents(s)
        invariant truncated == (old(truncated) || |old(pending)| > MAX_OBSERVED)
        decreases |pending|
      {
        var k := NewlineAt(pending);
        LineStep(pending);
        if k == |pending| {
          return;
        }
        ReturnsDoNotMatter(pending[..k]);
        Regroup(events, Reported(LinePayload(pending[..k])), LineEvents(pending[k + 1..]));
        var line := Unreturned(pending[..k]);
        pending := pending[k + 1..];
        HandleLine(line);
      }
    }

    /** Delivers whatever remains once the stream ends. */
    method Flush()
      requires streaming ==> '\n' !in pending
      modifies this`pending, this`events, this`bodies
      ensures if streaming then
        pending == "" && events == old(events) + Reported(LinePayload(old(pending))) && bodies == old(bodies)
        else
          && pending == old(pending) && events == old(events)
          && bodies == old(bodies) + (if truncated then [] else [body])
    {
      hide LinePayload, Reported;
      if streaming {
        ReturnsDoNotMatter(pending);
        var line := Unreturned(pending);
        if line != "" {
          HandleLine(line);
        } else {
          NoPayload();
        }
        pending := "";
        return;
      }
      if !truncated {
        bodies := bodies + [body];
      }
    }

    /** Forwards the caller's read. */
    method Forward(room: nat) returns (data: string, err: Option<Ending>)
      requires whole == consumed + src.Rest() && delivered == consumed
      modifies src, this`consumed, this`delivered
      ensures whole == consumed + src.Rest() && delivered == consumed == old(consumed) + data && |data| <= room
      ensures data == "" ==> consumed == old(consumed)
      ensures whole == old(consumed) + data + src.Rest()
      ensures err.Some? ==> err.value == src.ending && consumed == whole
      ensures err == None && room > 0 ==> src.Size() < old(src.Size())
    {
      data, err := src.Read(room);
      Regroup(consumed, data, src.Rest());
      assert data == "" ==> consumed + data == consumed;
      consumed, delivered := consumed + data, delivered + data;
      assert consumed + "" == consumed;
    }

    /** Forwards a read of an event stream and reports its lines. */
    method ReadStream(room: nat) returns (data: string, err: Option<Ending>)
      requires Valid() && drop == None && streaming
      modifies this, src
      ensures Valid() && delivered == old(delivered) + data && |data| <= room
      ensures err.Some? ==> err.value == src.ending && delivered == whole
      ensures err == None && room > 0 ==> src.Size() < old(src.Size())
      ensures sawEof == (old(sawEof) || err == Some(Eof)) && completions == Completed(old(completions), err)
    {
      hide LineEvents, LineTail, LinePayload, Reported, Resumed, ScannedEvents, ScannedTail, Joined, FilterOk, BodyOk;
      data, err := Forward(room);
      if data != "" {
        ScanOneMore("", pieces, data);
        ScanEvents(data);
        LineTailHasNoNewline(Resumed(old(pending), data));
        pieces := pieces + [data];
      }
      if err == Some(Eof) {
        NoPayload();
        Flush();
        sawEof := true;
        Finish(true);
      }
    }

    /** Forwards a read of any other body and collects it. */
    method ReadBody(room: nat) returns (data: string, err: Option<Ending>)
      requires Valid() && drop == None && !streaming
      modifies this, src
      ensures Valid() && delivered == old(delivered) + data && |data| <= room
      ensures err.Some? ==> err.value == src.ending && delivered == whole
      ensures err == None && room > 0 ==> src.Size() < old(src.Size())
      ensures sawEof == (old(sawEof) || err == Some(Eof)) && completions == Completed(old(completions), err)
      ensures bodies == old(bodies) + (if err == Some(Eof) && |whole| <= MAX_OBSERVED then [whole] else [])
    {
      hide FilterOk, StreamOk, LinePayload, Reported;
      data, err := Forward(room);
      if data != "" {
        Accumulate(data);
      }
      assert overflow == truncated == (|consumed| > MAX_OBSERVED) && (!overflow ==> body == consumed);
      if err == Some(Eof) {
        Flush();
        sawEof := true;
        Finish(true);
      }
    }

    method Read(room: nat) returns (data: string, err: Option<Ending>)
      requires Valid()
      modifies this, src
      ensures Valid() && delivered == old(delivered) + data && |data| <= room
      ensures err.Some? ==> err.value == src.ending && delivered == Due()
      ensures err == None && room > 0 ==> (drop.Some? && data != "") || (drop == None && src.Size() < old(src.Size()))
      ensures sawEof == (old(sawEof) || err == Some(Eof)) && completions == Completed(old(completions), err)
      ensures drop == None && !streaming ==>
        bodies == old(bodies) + (if err == Some(Eof) && |whole| <= MAX_OBSERVED then [whole] else [])
      ensures drop.Some? && err.Some? ==> srcErr == err
    {
      hide Filtered, FilterOk, StreamOk, BodyOk;
      if drop.Some? {
        data, err := ReadFiltered(room);
      } else if streaming {
        data, err := ReadStream(room);
      } else {
        data, err := ReadBody(room);
      }
    }

    /** Settles the accounting: a close before the end is a client that hung up. */
    method Close()
      requires Valid()
      modifies this`completions
      ensures Valid()
      ensures completions == if old(completions) == [] then [sawEof || srcErr == Some(Eof)] else old(completions)
    {
      hide Filtered, Kept, Seen, Tail, LineEvents, LineTail, StreamEvents, FilterEvents;
      Finish(sawEof || srcErr == Some(Eof));
    }

    /** A read that reaches the end completes the response, unless it was completed before. */
    function Completed(before: seq<bool>, err: Option<Ending>): seq<bool> {
      if err == Some(Eof) && before == [] then [true] else before
    }

    /** What a client that reads to the end receives. */
    ghost function Due(): string
    {
      if drop.Some? then Filtered(whole, drop.value) else whole
    }
  }

  lemma NoPayload()
    ensures Reported(LinePayload("")) == []
  {
  }

  /** Reads to the end with buffers of any positive sizes, as the proxy copies a body, then closes. */
  method Drain(o: ObservingReader) returns (received: string)
    requires o.Valid() && o.delivered == "" && o.completions == [] && o.srcErr == None && !o.sawEof
    modifies o, o.src
    ensures o.Valid() && received == o.Due() && o.completions == [o.src.ending == Eof]
    ensures o.drop.Some? ==> o.events == FilterEvents(o.whole)
    ensures o.drop == None && o.streaming && o.src.ending == Eof && CutProof(o.whole) ==>
      o.events == StreamEvents(o.whole)
    ensures o.drop == None && o.streaming && o.src.ending == Failure && LinesCutProof(o.whole) ==>
      o.events == LineEvents(o.whole)
    ensures o.drop == None && !o.streaming ==>
      o.bodies == if o.src.ending == Eof && |o.whole| <= MAX_OBSERVED then [o.whole] else []
  {
    hide Filtered, FilterEvents, StreamEvents, LineEvents, LineTail, Kept, Seen, Tail, LinesCutProof, TailCutProof,
      ScannedEvents, ScannedTail, ReportedEvents, Joined, NonEmpty;
    received := "";
    var err: Option<Ending> := None;
    while err == None
      invariant o.Valid() && received == o.delivered
      invariant err == None ==> !o.sawEof && o.completions == []
      invariant err.Some? ==> err.value == o.src.ending && received == o.Due() && o.sawEof == (err == Some(Eof))
      invariant err.Some? ==> o.completions == if err == Some(Eof) then [true] else []
      invariant err.Some? && o.drop.Some? ==> o.srcErr == err
      invariant err.Some? && o.drop == None && !o.streaming ==>
        o.bodies == if err == Some(Eof) && |o.whole| <= MAX_OBSERVED then [o.whole] else []
      decreases err == None, if o.drop.Some? then |o.Due()| - |received| else o.src.Size()
    {
      var room: nat :| room > 0;
      var data;
      data, err := o.Read(room);
      received := received + data;
      DeliveredIsDue(o);
    }
    o.Close();
    if o.drop == None && o.streaming && LinesCutProof(o.whole) {
      CutProofReports(o.whole, o.pieces);
    }
  }

  /** No more is ever delivered than is due. */
  lemma DeliveredIsDue(o: ObservingReader)
    requires o.Valid()
    ensures |o.delivered| <= |o.Due()|
  {
    hide Kept, Seen, Tail, Passed;
    if o.drop.Some? && o.srcErr == None {
      BlocksOfConcat(o.consumed, o.src.Rest(), o.drop.value);
    }
  }
}

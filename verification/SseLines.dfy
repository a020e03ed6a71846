/**
 The buffered reader of an event stream: however the bytes are cut into chunks, it consumes the same
 lines, those obtained by cutting the whole byte string after every line feed.
 */
module SseLines {
  import opened Basics
  import opened ProviderEvents
  import opened AnthropicStream
  import opened Lines

  /** A line without its terminator: every line feed and carriage return at its end is dropped. */
  function Strip(line: seq<bv8>): seq<bv8> {
    if |line| > 0 && line[|line| - 1] in {LF, CR} then Strip(line[..|line| - 1]) else line
  }

  lemma {:induction false} StripMeaning(line: seq<bv8>)
    ensures Strip(line) <= line
    ensures forall i :: |Strip(line)| <= i < |line| ==> line[i] in {LF, CR}
    ensures Strip(line) != [] ==> Strip(line)[|Strip(line)| - 1] !in {LF, CR}
  {
    if |line| > 0 && line[|line| - 1] in {LF, CR} {
      StripMeaning(line[..|line| - 1]);
    }
  }

  // ----- the lines, consumed in order ------------------------------------------------------------

  function ConsumeLines(f: Flow, reader: Reader, lines: seq<seq<bv8>>): Flow {
    if |lines| == 0 then f
    else ConsumeLine(ConsumeLines(f, reader, lines[..|lines| - 1]), reader, Strip(lines[|lines| - 1]))
  }

  lemma {:induction false} FaultIsFinal(f: Flow, reader: Reader, lines: seq<seq<bv8>>)
    requires f.fault.Some?
    ensures ConsumeLines(f, reader, lines) == f
  {
    if |lines| > 0 {
      FaultIsFinal(f, reader, lines[..|lines| - 1]);
    }
  }

  lemma {:induction false} ConsumeConcat(f: Flow, reader: Reader, x: seq<seq<bv8>>, y: seq<seq<bv8>>)
    ensures ConsumeLines(f, reader, x + y) == ConsumeLines(ConsumeLines(f, reader, x), reader, y)
  {
    if |y| == 0 {
      assert x + y == x;
    } else {
      assert (x + y)[..|x + y| - 1] == x + y[..|y| - 1];
      ConsumeConcat(f, reader, x, y[..|y| - 1]);
    }
  }

  // ----- chunks -----------------------------------------------------------------------------------

  datatype Chunk = Bytes(bytes: seq<bv8>) | Broken

  /** The bytes that arrive before the connection breaks, if it does. */
  function Arrived(chunks: seq<Chunk>): seq<bv8> {
    if |chunks| == 0 || chunks[0].Broken? then [] else chunks[0].bytes + Arrived(chunks[1..])
  }

  lemma ArrivedStep(chunks: seq<Chunk>, k: nat)
    requires k < |chunks|
    ensures Arrived(chunks[k..]) ==
            if chunks[k].Broken? then [] else chunks[k].bytes + Arrived(chunks[k + 1..])
  {
    assert chunks[k..][1..] == chunks[k + 1..];
  }

  lemma ArrivedSoFar(chunks: seq<Chunk>, k: nat, seen: seq<bv8>)
    requires k < |chunks| && seen + Arrived(chunks[k..]) == Arrived(chunks)
    ensures chunks[k].Broken? ==> Arrived(chunks) == seen
    ensures chunks[k].Bytes? ==> (seen + chunks[k].bytes) + Arrived(chunks[k + 1..]) == Arrived(chunks)
  {
    ArrivedStep(chunks, k);
  }

  /** The specification: what reading this byte string does, with no chunks in it. */
  function ReadBytes(reader: Reader, bytes: seq<bv8>, broken: bool): Flow {
    var lines := ConsumeLines(Begin, reader, RawLines(bytes));
    if lines.fault.Some? then lines
    else if broken then lines.(fault := Some(Transport))
    else if Tail(bytes) == [] then EndOfStream(lines)
    else EndOfStream(ConsumeLine(lines, reader, Tail(bytes)))
  }

  /** Reading with a fault among the first lines is that fault. */
  lemma FaultAmongFirst(reader: Reader, bytes: seq<bv8>, broken: bool, first: seq<seq<bv8>>, f: Flow)
    requires first <= RawLines(bytes) && ConsumeLines(Begin, reader, first) == f && f.fault.Some?
    ensures ReadBytes(reader, bytes, broken) == f
  {
    var rest := RawLines(bytes)[|first|..];
    assert RawLines(bytes) == first + rest;
    ConsumeConcat(Begin, reader, first, rest);
    FaultIsFinal(f, reader, rest);
  }

  lemma Shifted<T>(before: seq<T>, x: T, after: seq<T>, whole: seq<T>)
    requires before + ([x] + after) == whole
    ensures (before + [x]) + after == whole && before + [x] <= whole
  {
    assert before + ([x] + after) == (before + [x]) + after;
  }

  lemma ConsumePush(reader: Reader, consumed: seq<seq<bv8>>, raw: seq<bv8>)
    ensures ConsumeLines(Begin, reader, consumed + [raw]) ==
            ConsumeLine(ConsumeLines(Begin, reader, consumed), reader, Strip(raw))
  {
    assert (consumed + [raw])[..|consumed + [raw]| - 1] == consumed;
  }

  method TrimTerminators(raw: seq<bv8>) returns (line: seq<bv8>)
    ensures line == Strip(raw)
  {
    line := raw;
    while |line| > 0 && line[|line| - 1] in {LF, CR}
      invariant Strip(line) == Strip(raw)
    {
      line := line[..|line| - 1];
    }
  }

  /** The loop over chunks and buffered lines. Its result depends only on the bytes, not on the chunks. */
  method ParseSse(reader: Reader, chunks: seq<Chunk>) returns (sent: seq<ProviderEvent>, fault: Option<Fault>)
    ensures var f := ReadBytes(reader, Arrived(chunks), Broken in chunks);
            sent == f.sent && fault == f.fault
  {
    var state := new StreamState();
    var pending: seq<bv8> := [];
    ghost var seen: seq<bv8> := [];
    var next := 0;
    while next < |chunks|
      invariant next <= |chunks| && forall i :: 0 <= i < next ==> chunks[i].Bytes?
      invariant seen + Arrived(chunks[next..]) == Arrived(chunks)
      invariant pending == Tail(seen)
      invariant fresh(state) && state.View(None) == ConsumeLines(Begin, reader, RawLines(seen))
    {
      ArrivedSoFar(chunks, next, seen);
      if chunks[next].Broken? {
        return state.sent, Some(Transport);
      }
      CutExtends(seen, chunks[next].bytes);
      ghost var before := RawLines(seen);
      pending := pending + chunks[next].bytes;
      seen := seen + chunks[next].bytes;
      sent, fault, pending, before := DrainLines(state, reader, pending, before, seen, chunks, next);
      if fault.Some? {
        return;
      }
      next := next + 1;
    }
    assert seen == Arrived(chunks);
    sent, fault := FinishSse(state, reader, pending, seen);
  }

  /** The inner loop: consumes the complete lines of the buffer and leaves the rest in it. */
  method DrainLines(state: StreamState, reader: Reader, buffer: seq<bv8>, ghost before: seq<seq<bv8>>,
      ghost seen: seq<bv8>, ghost chunks: seq<Chunk>, ghost next: nat)
    returns (sent: seq<ProviderEvent>, fault: Option<Fault>, pending: seq<bv8>, ghost consumed: seq<seq<bv8>>)
    requires next < |chunks| && seen + Arrived(chunks[next + 1..]) == Arrived(chunks)
    requires before + RawLines(buffer) == RawLines(seen) && Tail(buffer) == Tail(seen)
    requires state.View(None) == ConsumeLines(Begin, reader, before)
    modifies state
    ensures fault.None? ==> pending == Tail(seen) && state.View(None) == ConsumeLines(Begin, reader, RawLines(seen))
    ensures fault.Some? ==>
            && ReadBytes(reader, Arrived(chunks), Broken in chunks) == state.View(fault)
            && sent == state.sent
  {
    pending, consumed, sent, fault := buffer, before, [], None;
    while FirstNewline(pending) < |pending|
      invariant consumed + RawLines(pending) == RawLines(seen) && Tail(pending) == Tail(seen)
      invariant state.View(None) == ConsumeLines(Begin, reader, consumed)
      invariant fault.None?
      decreases |pending|
    {
      var newline := FirstNewline(pending);
      var raw := pending[..newline + 1];
      pending := pending[newline + 1..];
      var line := TrimTerminators(raw);
      fault := state.ConsumeSseLine(reader, line);
      ConsumePush(reader, consumed, raw);
      Shifted(consumed, raw, RawLines(pending), RawLines(seen));
      consumed := consumed + [raw];
      if fault.Some? {
        CutExtends(seen, Arrived(chunks[next + 1..]));
        FaultAmongFirst(reader, Arrived(chunks), Broken in chunks, consumed, state.View(fault));
        return state.sent, fault, pending, consumed;
      }
    }
    assert consumed + [] == consumed;
  }

  /** What happens after the last byte: the unterminated rest is a line of its own. */
  method FinishSse(state: StreamState, reader: Reader, pending: seq<bv8>, ghost seen: seq<bv8>)
    returns (sent: seq<ProviderEvent>, fault: Option<Fault>)
    requires pending == Tail(seen) && state.View(None) == ConsumeLines(Begin, reader, RawLines(seen))
    modifies state
    ensures var f := ReadBytes(reader, seen, false);
            sent == f.sent && fault == f.fault
  {
    if pending != [] {
      fault := state.ConsumeSseLine(reader, pending);
      if fault.Some? {
        return state.sent, fault;
      }
    }
    sent := state.sent;
    if state.tools != map[] {
      sent := sent + [ToolCallFailed(IncompleteCall)];
    }
    fault := if state.done then None else Some(NoMessageStop);
  }

  // ----- from bytes to payloads --------------------------------------------------------------------

  function Stripped(lines: seq<seq<bv8>>): seq<seq<bv8>> {
    seq(|lines|, i requires 0 <= i < |lines| => Strip(lines[i]))
  }

  /** The lines a whole byte string is read as; an unterminated rest is read as it is. */
  function LinesRead(bytes: seq<bv8>): seq<seq<bv8>> {
    Stripped(RawLines(bytes)) + if Tail(bytes) == [] then [] else [Tail(bytes)]
  }

  function Payloads(reader: Reader, lines: seq<seq<bv8>>): seq<Payload> {
    if |lines| == 0 then []
    else
      match Meaning(reader, lines[|lines| - 1])
      case Data(payload) => Payloads(reader, lines[..|lines| - 1]) + [payload]
      case _ => Payloads(reader, lines[..|lines| - 1])
  }

  lemma PayloadsPush(reader: Reader, lines: seq<seq<bv8>>, line: seq<bv8>)
    requires Meaning(reader, line) != Garbage
    ensures ConsumeAll(Begin, Payloads(reader, lines + [line])) ==
            ConsumeLine(ConsumeAll(Begin, Payloads(reader, lines)), reader, line)
  {
    assert (lines + [line])[..|lines + [line]| - 1] == lines;
    if Meaning(reader, line).Data? {
      var longer := Payloads(reader, lines) + [Meaning(reader, line).payload];
      assert longer[..|longer| - 1] == Payloads(reader, lines);
    }
  }

  lemma {:induction false} LinesArePayloads(reader: Reader, lines: seq<seq<bv8>>)
    requires forall i :: 0 <= i < |lines| ==> Meaning(reader, Strip(lines[i])) != Garbage
    ensures ConsumeLines(Begin, reader, lines) == ConsumeAll(Begin, Payloads(reader, Stripped(lines)))
  {
    if |lines| > 0 {
      var front, last := lines[..|lines| - 1], lines[|lines| - 1];
      LinesArePayloads(reader, front);
      assert Stripped(lines) == Stripped(front) + [Strip(last)];
      PayloadsPush(reader, Stripped(front), Strip(last));
    }
  }

  lemma StrippedAreRead(reader: Reader, bytes: seq<bv8>)
    requires forall i :: 0 <= i < |LinesRead(bytes)| ==> Meaning(reader, LinesRead(bytes)[i]) != Garbage
    ensures forall i :: 0 <= i < |RawLines(bytes)| ==> Meaning(reader, Strip(RawLines(bytes)[i])) != Garbage
    ensures Tail(bytes) != [] ==> Meaning(reader, Tail(bytes)) != Garbage
  {
    var raw := RawLines(bytes);
    forall i | 0 <= i < |raw| ensures Meaning(reader, Strip(raw[i])) != Garbage {
      assert LinesRead(bytes)[i] == Strip(raw[i]);
    }
    if Tail(bytes) != [] {
      assert LinesRead(bytes)[|raw|] == Tail(bytes);
    }
  }

  /** A byte string all of whose lines can be read does what its payloads do, in order. */
  lemma BytesArePayloads(reader: Reader, bytes: seq<bv8>)
    requires forall i :: 0 <= i < |LinesRead(bytes)| ==> Meaning(reader, LinesRead(bytes)[i]) != Garbage
    ensures ReadBytes(reader, bytes, false) == ReadAll(Payloads(reader, LinesRead(bytes)))
  {
    var raw, tail := RawLines(bytes), Tail(bytes);
    StrippedAreRead(reader, bytes);
    LinesArePayloads(reader, raw);
    if tail != [] {
      PayloadsPush(reader, Stripped(raw), tail);
    } else {
      assert LinesRead(bytes) == Stripped(raw);
    }
  }

  lemma {:induction false} GarbageIsAFault(reader: Reader, lines: seq<seq<bv8>>, i: nat)
    requires i < |lines| && Meaning(reader, Strip(lines[i])) == Garbage
    ensures ConsumeLines(Begin, reader, lines).fault.Some?
  {
    if i < |lines| - 1 {
      GarbageIsAFault(reader, lines[..|lines| - 1], i);
    }
  }

  /** A byte string one of whose lines cannot be read ends in a fault. */
  lemma UnreadableBytesAreAFault(reader: Reader, bytes: seq<bv8>, i: nat)
    requires i < |LinesRead(bytes)| && Meaning(reader, LinesRead(bytes)[i]) == Garbage
    ensures ReadBytes(reader, bytes, false).fault.Some?
  {
    if i < |RawLines(bytes)| {
      GarbageIsAFault(reader, RawLines(bytes), i);
    }
  }
}

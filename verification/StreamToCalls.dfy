/** The whole way from the chunks of a connection to its response: a text, a batch of calls or a refusal. */
module StreamToCalls {
  import opened Basics
  import opened ProviderEvents
  import opened ToolCalls
  import Law = ToolCallLaw
  import opened AnthropicStream
  import opened AnthropicBatch
  import opened AnthropicText
  import opened AnthropicRefusal
  import opened SseLines

  method Assemble<J>(events: seq<ProviderEvent>, parser: Parser<J>) returns (response: Response<J>)
    ensures WellFormed(Assembled(events)) && response == Finish(Assembled(events), parser)
  {
    var assembler := new ToolCallAssembler();
    for i := 0 to |events|
      invariant fresh(assembler) && assembler.View() == Assembled(events[..i])
    {
      AcceptAllPush(Empty, events[..i], events[i]);
      assert events[..i + 1] == events[..i] + [events[i]];
      var _ := assembler.AcceptEvent(events[i]);
    }
    assert events[..|events|] == events;
    Law.AlwaysWellFormed(events);
    response := assembler.FinishStream(parser);
  }

  /** Every line of the bytes is skipped or holds a payload. */
  ghost predicate Readable(reader: Reader, bytes: seq<bv8>) {
    forall i :: 0 <= i < |LinesRead(bytes)| ==> Meaning(reader, LinesRead(bytes)[i]) != Garbage
  }

  /**
   The response is a batch exactly when the payloads ask for one, and then it is the batch they ask for; it
   is a text exactly when no payload touches a tool, and then it is their text; and it is refused with an
   error exactly when the payloads give reason for that error.
   */
  ghost predicate Answers<J>(response: Response<J>, ps: seq<Payload>, parser: Parser<J>) {
    && (response.CallsResponse? <==>
          Blocks(ps) != [] && WellFormedBlocks(ps) && AllClosed(ps) && !CutShort(ps) && AllParse(ps, parser))
    && (response.CallsResponse? ==> IsBlockBatch(response.calls, ps, parser))
    && (response.TextResponse? <==> forall i :: 0 <= i < |ps| ==> !TouchesTools(ps[i]))
    && (response.TextResponse? ==> response.text == Joined(SaidText, ps))
    && (forall error :: response == FailedResponse(error) <==> Refuses(ps, parser, error))
  }

  lemma PayloadsAreAnswered<J>(ps: seq<Payload>, parser: Parser<J>)
    requires ErrorReport !in ps
    ensures WellFormed(Assembled(ReadAll(ps).sent))
    ensures Answers(Finish(Assembled(ReadAll(ps).sent), parser), ps, parser)
  {
    hide Finish;
    EndToEnd(ps, parser);
    TextResponseExactly(ps, parser);
    RefusedExactly(ps, parser);
  }

  lemma ReadsOrFaults(reader: Reader, bytes: seq<bv8>)
    ensures var ps := Payloads(reader, LinesRead(bytes));
            ReadBytes(reader, bytes, false).fault.None? <==>
            Readable(reader, bytes) && ErrorReport !in ps && MessageStop in ps
  {
    if Readable(reader, bytes) {
      BytesArePayloads(reader, bytes);
      ReadingSucceeds(Payloads(reader, LinesRead(bytes)));
    } else {
      var i :| 0 <= i < |LinesRead(bytes)| && Meaning(reader, LinesRead(bytes)[i]) == Garbage;
      UnreadableBytesAreAFault(reader, bytes, i);
    }
  }

  /**
   Reads a connection to its end and assembles the response.  There is one exactly when the connection
   did not break, every line could be read, no error was reported and message_stop arrived.  A text is the
   texts of the payloads joined; a batch holds one call for each tool block, in the order in which the
   blocks start, from exactly that block's fragments, however the bytes were chunked and the blocks
   interleaved; a refusal names the first thing that was wrong.
   */
  method CollectResponse<J>(reader: Reader, chunks: seq<Chunk>, parser: Parser<J>)
    returns (response: Option<Response<J>>)
    ensures var ps := Payloads(reader, LinesRead(Arrived(chunks)));
            && (response.Some? <==>
                  Broken !in chunks && Readable(reader, Arrived(chunks)) && ErrorReport !in ps && MessageStop in ps)
            && (response.Some? ==> Answers(response.value, ps, parser))
  {
    var sent, fault := ParseSse(reader, chunks);
    if Broken !in chunks {
      ReadsOrFaults(reader, Arrived(chunks));
    }
    if fault.Some? {
      return None;
    }
    var whole := Assemble(sent, parser);
    response := Some(whole);
    BytesArePayloads(reader, Arrived(chunks));
    PayloadsAreAnswered(Payloads(reader, LinesRead(Arrived(chunks))), parser);
  }
}

/**
 Why an Anthropic response that is neither a text nor a batch was refused: the error code, read off the
 payloads alone.
 */
module AnthropicRefusal {
  import opened Basics
  import opened ProviderEvents
  import opened ToolCalls
  import opened ToolCallLaw
  import opened AnthropicStream
  import opened AnthropicBatch

  /** What is wrong with a payload that is not legal after the ones before it. */
  ghost function Wrong(before: seq<Payload>, p: Payload): ErrorCode {
    if !StartsTool(p) then AnonymousDelta
    else if p.block.id.None? then MissingId
    else if p.block.name.None? then MissingName
    else if exists k :: OpenAt(before, k, IndexOf(p.index)) then IdentityConflict
    else if IsBlank(p.block.name.value) then MissingName
    else IdentityConflict
  }

  /**
   The response is refused for this reason: the first payload that is not legal decides; when all are, a
   block that was never stopped comes before an output that was cut, and that before pieces that do not parse.
   */
  ghost predicate Refuses<J>(ps: seq<Payload>, parser: Parser<J>, error: ErrorCode) {
    if WellFormedBlocks(ps) then
      && Blocks(ps) != []
      && (AllClosed(ps) && !CutShort(ps) ==> !AllParse(ps, parser))
      && error == if !AllClosed(ps) then IncompleteCall else if CutShort(ps) then OutputCut else InvalidJson
    else exists k :: FirstWrong(ps, k) && error == Wrong(ps[..k], ps[k])
  }

  ghost predicate FirstWrong(ps: seq<Payload>, k: int) {
    0 <= k < |ps| && WellFormedBlocks(ps[..k]) && !Legal(ps[..k], ps[k])
  }

  // ----- the first payload that is not legal ----------------------------------------------------------

  lemma {:induction false} SomeIsFirst(ps: seq<Payload>)
    requires !WellFormedBlocks(ps)
    ensures exists k :: FirstWrong(ps, k)
  {
    var front, p := ps[..|ps| - 1], ps[|ps| - 1];
    assert ps == front + [p];
    WellFormedPush(front, p);
    if WellFormedBlocks(front) {
      assert FirstWrong(ps, |front|);
    } else {
      SomeIsFirst(front);
      var k :| FirstWrong(front, k);
      assert front[..k] == ps[..k];
      assert FirstWrong(ps, k);
    }
  }

  /** The event that is to blame for a payload. */
  ghost predicate IsBlamed(sent: seq<ProviderEvent>, e: ProviderEvent, code: ErrorCode) {
    && (e.ToolCallFailed? || (AboutACall(e) && !Lawful(Own(sent + [e], e.id))))
    && Blame(if e.ToolCallFailed? then [] else Own(sent, e.id), e) == code
  }

  lemma WrongStartIsBlamed(f: Flow, ps: seq<Payload>, p: Payload)
    requires Tracks(f, ps) && WellFormedBlocks(ps) && !Legal(ps, p) && Named(p) && IndexOf(p.index) !in f.tools
    ensures IsBlamed(f.sent, ToolCallStarted(WireOf(p), p.block.name.value), Wrong(ps, p))
  {
    var e := ToolCallStarted(WireOf(p), p.block.name.value);
    assert forall k :: !OpenAt(ps, k, IndexOf(p.index));
    OwnPush(f.sent, e, e.id);
    TrackedIsLawful(f, ps);
    LawfulPush(Own(f.sent, e.id), e);
    if k :| IsStart(ps, k) && ps[k].block.id == p.block.id {
      assert Told(f, ps, k);
      StoryIsNotEmpty(ps, k);
    }
  }

  /** It sends one event, and that event is to blame. */
  lemma WrongIsBlamed(f: Flow, ps: seq<Payload>, p: Payload) returns (e: ProviderEvent)
    requires Tracks(f, ps) && WellFormedBlocks(ps) && !Legal(ps, p)
    ensures ConsumePayload(f, p).sent == f.sent + [e] && IsBlamed(f.sent, e, Wrong(ps, p))
  {
    hide StoriesTold, StartsInOrder, Reported, Cut, WellFormedBlocks, Lawful;
    var index := IndexOf(p.index);
    e := ConsumePayload(f, p).sent[|f.sent|];
    if Named(p) && index !in f.tools {
      WrongStartIsBlamed(f, ps, p);
    } else if StartsTool(p) {
      if index in f.tools {
        var k :| OpenAt(ps, k, index);
      }
    } else {
      assert index !in f.tools;
    }
  }

  lemma PayloadGrows(f: Flow, p: Payload)
    ensures f.sent <= ConsumePayload(f, p).sent
  {}

  lemma {:induction false} SentGrows(ps: seq<Payload>, k: nat)
    requires k <= |ps|
    ensures ConsumeAll(Begin, ps[..k]).sent <= ConsumeAll(Begin, ps).sent
  {
    hide ConsumePayload;
    if k == |ps| {
      assert ps[..k] == ps;
    } else {
      assert ps[..|ps| - 1][..k] == ps[..k];
      SentGrows(ps[..|ps| - 1], k);
      PayloadGrows(ConsumeAll(Begin, ps[..|ps| - 1]), ps[|ps| - 1]);
    }
  }

  lemma FirstWrongDecides<J>(ps: seq<Payload>, k: nat, parser: Parser<J>)
    requires ErrorReport !in ps && FirstWrong(ps, k)
    ensures WellFormed(Assembled(ReadAll(ps).sent))
    ensures Finish(Assembled(ReadAll(ps).sent), parser) == FailedResponse(Wrong(ps[..k], ps[k]))
  {
    hide Wrong, Finish, Legal;
    var f, events := ConsumeAll(Begin, ps[..k]), ReadAll(ps).sent;
    TracksOrDoomed(ps[..k]);
    TrackedIsLawful(f, ps[..k]);
    var e := WrongIsBlamed(f, ps[..k], ps[k]);
    SentSoFar(ps, k, e);
    FirstFailureCode(f.sent, e, events[|f.sent| + 1..], parser);
    assert f.sent + [e] + events[|f.sent| + 1..] == events;
  }

  lemma SentSoFar(ps: seq<Payload>, k: nat, e: ProviderEvent)
    requires k < |ps|
    requires ConsumePayload(ConsumeAll(Begin, ps[..k]), ps[k]).sent == ConsumeAll(Begin, ps[..k]).sent + [e]
    ensures ConsumeAll(Begin, ps[..k]).sent + [e] <= ReadAll(ps).sent
  {
    hide ConsumePayload;
    assert ps[..k + 1][..k] == ps[..k];
    SentGrows(ps, k + 1);
  }

  // ----- well-formed blocks ------------------------------------------------------------------------------

  lemma OpenBlockIsIncomplete<J>(f: Flow, ps: seq<Payload>, parser: Parser<J>)
    requires Tracks(f, ps) && WellFormedBlocks(ps)
    ensures var sent := f.sent + [ToolCallFailed(IncompleteCall)];
            WellFormed(Assembled(sent)) && Finish(Assembled(sent), parser) == FailedResponse(IncompleteCall)
  {
    var e := ToolCallFailed(IncompleteCall);
    TrackedIsLawful(f, ps);
    FirstFailureCode(f.sent, e, [], parser);
    assert f.sent + [e] + [] == f.sent + [e];
  }

  lemma {:induction false} ClosedBlocksEnded(f: Flow, ps: seq<Payload>)
    requires Tracks(f, ps) && WellFormedBlocks(ps) && AllClosed(ps)
    ensures AllEnded(f.sent)
  {
    forall n | 0 <= n < |Starts(f.sent)| ensures Ended(Own(f.sent, Starts(f.sent)[n])) {
      var k := Blocks(ps)[n];
      assert Told(f, ps, k);
      assert Legal(ps[..k], ps[k]);
      StoryMeaning(ps, k);
    }
  }

  lemma ClosedRefusal<J>(f: Flow, ps: seq<Payload>, parser: Parser<J>)
    requires Tracks(f, ps) && WellFormedBlocks(ps) && AllClosed(ps)
    ensures WellFormed(Assembled(f.sent))
    ensures forall error :: Finish(Assembled(f.sent), parser) == FailedResponse(error) <==> Refuses(ps, parser, error)
  {
    hide TableIsOpen, StoriesTold, Finish, AllEnded, Complete, IsBatch, AllLawful, WellFormedBlocks, AllClosed;
    TrackedIsLawful(f, ps);
    ClosedBlocksEnded(f, ps);
    TrackedBatch(f, ps, parser);
    RefusalOfALawfulStream(f.sent, parser);
    AllParseOfNothing(ps, parser);
  }

  lemma WellFormedRefusal<J>(ps: seq<Payload>, parser: Parser<J>)
    requires ErrorReport !in ps && WellFormedBlocks(ps)
    ensures WellFormed(Assembled(ReadAll(ps).sent))
    ensures var response := Finish(Assembled(ReadAll(ps).sent), parser);
            forall error :: response == FailedResponse(error) <==> Refuses(ps, parser, error)
  {
    hide Tracks, Finish;
    var f := ConsumeAll(Begin, ps);
    TracksOrDoomed(ps);
    OpenBlocksAreReported(f, ps);
    FaultAndDone(ps);
    if AllClosed(ps) {
      ClosedRefusal(f, ps, parser);
    } else {
      OpenBlockIsIncomplete(f, ps, parser);
      var k :| IsStart(ps, k) && !Closed(ps, k);
      EveryStartIsABlock(ps, k);
    }
  }

  lemma AllParseOfNothing<J>(ps: seq<Payload>, parser: Parser<J>)
    ensures Blocks(ps) == [] ==> AllParse(ps, parser)
  {}

  /** A response is refused with an error exactly when the payloads give this reason. */
  lemma RefusedExactly<J>(ps: seq<Payload>, parser: Parser<J>)
    requires ErrorReport !in ps
    ensures WellFormed(Assembled(ReadAll(ps).sent))
    ensures var response := Finish(Assembled(ReadAll(ps).sent), parser);
            forall error :: response == FailedResponse(error) <==> Refuses(ps, parser, error)
  {
    if WellFormedBlocks(ps) {
      WellFormedRefusal(ps, parser);
    } else {
      SomeIsFirst(ps);
      forall k | FirstWrong(ps, k)
        ensures WellFormed(Assembled(ReadAll(ps).sent))
        ensures Finish(Assembled(ReadAll(ps).sent), parser) == FailedResponse(Wrong(ps[..k], ps[k]))
      {
        FirstWrongDecides(ps, k, parser);
      }
    }
  }
}

/**
 End to end: from the payloads of an Anthropic stream to the batch of tool calls, said about the
 payloads alone. Content blocks may interleave freely.
 */
module AnthropicBatch {
  import opened Basics
  import opened ProviderEvents
  import opened ToolCalls
  import opened ToolCallLaw
  import opened AnthropicStream

  // ----- tool blocks, as they stand in the stream -----------------------------------------------

  predicate StartsTool(p: Payload) {
    p.BlockStart? && p.block.ToolUse?
  }

  predicate IsStart(ps: seq<Payload>, k: int) {
    0 <= k < |ps| && StartsTool(ps[k])
  }

  predicate Stops(p: Payload, index: nat) {
    p.BlockStop? && IndexOf(p.index) == index
  }

  /** The block that starts at k has been stopped since. */
  predicate Closed(ps: seq<Payload>, k: nat)
    requires IsStart(ps, k)
  {
    exists j :: k < j < |ps| && Stops(ps[j], IndexOf(ps[k].index))
  }

  predicate OpenAt(ps: seq<Payload>, k: int, index: nat) {
    IsStart(ps, k) && IndexOf(ps[k].index) == index && !Closed(ps, k)
  }

  predicate Named(p: Payload) {
    StartsTool(p) && p.block.id.Some? && p.block.name.Some?
  }

  /** What a payload may be after the ones before it, for the blocks to be well formed. */
  ghost predicate Legal(before: seq<Payload>, p: Payload) {
    && (StartsTool(p) ==>
          && Named(p) && !IsBlank(p.block.name.value)
          && (forall k :: !OpenAt(before, k, IndexOf(p.index)))
          && (forall k :: IsStart(before, k) ==> before[k].block.id != p.block.id))
    && (p.BlockDelta? && p.piece.JsonPiece? ==> exists k :: OpenAt(before, k, IndexOf(p.index)))
  }

  ghost predicate WellFormedBlocks(ps: seq<Payload>) {
    forall k :: 0 <= k < |ps| ==> Legal(ps[..k], ps[k])
  }

  predicate CutsOutput(p: Payload) {
    p.MessageDelta? && p.stopReason == Some("max_tokens")
  }

  ghost predicate CutShort(ps: seq<Payload>) {
    exists k :: 0 <= k < |ps| && CutsOutput(ps[k])
  }

  ghost predicate AllClosed(ps: seq<Payload>) {
    forall k :: IsStart(ps, k) ==> Closed(ps, k)
  }

  function PieceText(p: Payload, index: nat): string {
    if p.BlockDelta? && p.piece.JsonPiece? && IndexOf(p.index) == index && p.piece.partialJson.Some?
    then p.piece.partialJson.value
    else ""
  }

  /** The JSON pieces of the block that starts at k: those with its index, after its start and before its stop. */
  function Fragments(ps: seq<Payload>, k: nat): string
    requires IsStart(ps, k)
  {
    if k == |ps| - 1 then ""
    else
      var front := ps[..|ps| - 1];
      Fragments(front, k) + if Closed(front, k) then "" else PieceText(ps[|ps| - 1], IndexOf(ps[k].index))
  }

  /** The positions where tool blocks start, in order. */
  function Blocks(ps: seq<Payload>): (blocks: seq<nat>)
    ensures forall n :: 0 <= n < |blocks| ==> IsStart(ps, blocks[n])
  {
    if |ps| == 0 then []
    else Blocks(ps[..|ps| - 1]) + if StartsTool(ps[|ps| - 1]) then [|ps| - 1] else []
  }

  function WireOf(p: Payload): ExecutionIdentity
    requires Named(p)
  {
    Wire(p.block.id.value)
  }

  // ----- consequences of being well formed -------------------------------------------------------

  lemma WellFormedPush(ps: seq<Payload>, p: Payload)
    ensures WellFormedBlocks(ps + [p]) <==> WellFormedBlocks(ps) && Legal(ps, p)
  {
    var longer := ps + [p];
    assert longer[..|ps|] == ps;
    assert forall k :: 0 <= k < |ps| ==> longer[..k] == ps[..k] && longer[k] == ps[k];
    if WellFormedBlocks(longer) {
      assert Legal(longer[..|ps|], longer[|ps|]);
      forall k | 0 <= k < |ps| ensures Legal(ps[..k], ps[k]) {
        assert Legal(longer[..k], longer[k]);
      }
    }
  }

  lemma StartsAreNamed(ps: seq<Payload>, k: int)
    requires WellFormedBlocks(ps) && IsStart(ps, k)
    ensures Named(ps[k])
  {
    assert Legal(ps[..k], ps[k]);
  }

  lemma WiresAreDistinct(ps: seq<Payload>, k: int, l: int)
    requires WellFormedBlocks(ps) && IsStart(ps, k) && IsStart(ps, l) && k < l
    ensures Named(ps[k]) && Named(ps[l]) && WireOf(ps[k]) != WireOf(ps[l])
  {
    StartsAreNamed(ps, k);
    assert Legal(ps[..l], ps[l]);
    assert IsStart(ps[..l], k) && ps[..l][k] == ps[k];
  }

  lemma ClosedExtends(ps: seq<Payload>, m: nat, k: nat)
    requires m <= |ps| && IsStart(ps[..m], k) && Closed(ps[..m], k)
    ensures Closed(ps, k)
  {
    var j :| k < j < m && Stops(ps[..m][j], IndexOf(ps[k].index));
    assert Stops(ps[j], IndexOf(ps[k].index));
  }

  lemma OneOpenBlock(ps: seq<Payload>, k: int, l: int, index: nat)
    requires WellFormedBlocks(ps) && OpenAt(ps, k, index) && OpenAt(ps, l, index)
    ensures k == l
  {
    var m := Max(k, l);
    var n := Min(k, l);
    if n < m {
      assert Legal(ps[..m], ps[m]);
      assert !OpenAt(ps[..m], n, IndexOf(ps[m].index));
      ClosedExtends(ps, m, n);
    }
  }

  lemma ClosedPush(ps: seq<Payload>, p: Payload, k: nat)
    requires IsStart(ps, k)
    ensures IsStart(ps + [p], k)
    ensures Closed(ps + [p], k) <==> Closed(ps, k) || Stops(p, IndexOf(ps[k].index))
  {
    var longer := ps + [p];
    if Closed(ps, k) {
      var j :| k < j < |ps| && Stops(ps[j], IndexOf(ps[k].index));
      assert Stops(longer[j], IndexOf(ps[k].index));
    }
    if Stops(p, IndexOf(ps[k].index)) {
      assert Stops(longer[|ps|], IndexOf(ps[k].index));
    }
  }

  lemma OpenAtPush(ps: seq<Payload>, p: Payload, k: int, index: nat)
    ensures OpenAt(ps + [p], k, index) <==>
            if k == |ps| then StartsTool(p) && IndexOf(p.index) == index
            else OpenAt(ps, k, index) && !Stops(p, index)
  {
    if IsStart(ps, k) {
      ClosedPush(ps, p, k);
    }
  }

  // ----- the events of one block --------------------------------------------------------------------

  /** The events a payload adds to the block with this index while it is open. */
  function Adds(p: Payload, index: nat, id: ExecutionIdentity): seq<ProviderEvent> {
    if p.BlockDelta? && p.piece.JsonPiece? && IndexOf(p.index) == index
    then [ToolCallDelta(id, Append(PieceText(p, index)))]
    else if Stops(p, index) then [ToolCallCompleted(id)]
    else []
  }

  function Story(ps: seq<Payload>, k: nat): seq<ProviderEvent>
    requires IsStart(ps, k) && Named(ps[k])
  {
    var id := WireOf(ps[k]);
    if k == |ps| - 1 then [ToolCallStarted(id, ps[k].block.name.value)]
    else
      var front := ps[..|ps| - 1];
      Story(front, k) + if Closed(front, k) then [] else Adds(ps[|ps| - 1], IndexOf(ps[k].index), id)
  }

  lemma StoryPush(ps: seq<Payload>, p: Payload, k: nat)
    requires IsStart(ps, k) && Named(ps[k])
    ensures Story(ps + [p], k) ==
            if Closed(ps, k) then Story(ps, k) else Story(ps, k) + Adds(p, IndexOf(ps[k].index), WireOf(ps[k]))
  {
    assert (ps + [p])[..|ps + [p]| - 1] == ps;
  }

  lemma StoryStart(ps: seq<Payload>, p: Payload)
    requires Named(p)
    ensures Story(ps + [p], |ps|) == [ToolCallStarted(WireOf(p), p.block.name.value)]
  {
  }

  /** A story is lawful, ends exactly when its block is closed, and its argument text is the block's pieces. */
  lemma {:induction false} StoryMeaning(ps: seq<Payload>, k: nat)
    requires IsStart(ps, k) && Named(ps[k]) && !IsBlank(ps[k].block.name.value)
    ensures var own := Story(ps, k);
            && Lawful(own) && |own| > 0 && own[0] == ToolCallStarted(WireOf(ps[k]), ps[k].block.name.value)
            && !HasSnapshot(own)
            && (Ended(own) <==> Closed(ps, k))
            && ArgumentText(own) == Fragments(ps, k)
  {
    var id := WireOf(ps[k]);
    if k == |ps| - 1 {
      RememberedStart(ToolCallStarted(id, ps[k].block.name.value));
    } else {
      var front, p := ps[..|ps| - 1], ps[|ps| - 1];
      assert ps == front + [p];
      StoryMeaning(front, k);
      ClosedPush(front, p, k);
      StoryPush(front, p, k);
      var own := Story(front, k);
      assert Fragments(front, k) + "" == Fragments(front, k);
      assert own + [] == own;
      if !Closed(front, k) && Adds(p, IndexOf(ps[k].index), id) != [] {
        var e := Adds(p, IndexOf(ps[k].index), id)[0];
        LawfulPush(own, e);
        RememberedPush(own, e);
      }
    }
  }

  // ----- what the adapter keeps while the blocks are well formed --------------------------------------

  /** The open blocks are the adapter's table. */
  ghost predicate TableIsOpen(f: Flow, ps: seq<Payload>) {
    && (forall i :: i in f.tools ==> exists k :: OpenAt(ps, k, i))
    && (forall i, k :: OpenAt(ps, k, i) ==> Named(ps[k]) && i in f.tools && f.tools[i] == WireOf(ps[k]))
  }

  ghost predicate Told(f: Flow, ps: seq<Payload>, k: int)
    requires IsStart(ps, k)
  {
    Named(ps[k]) && Own(f.sent, WireOf(ps[k])) == Story(ps, k)
  }

  /** The events about an identity are the story of the block that carries it. */
  ghost predicate StoriesTold(f: Flow, ps: seq<Payload>) {
    && (forall k :: IsStart(ps, k) ==> Told(f, ps, k))
    && (forall id :: Own(f.sent, id) != [] ==> Carried(ps, id))
  }

  ghost predicate Carried(ps: seq<Payload>, id: ExecutionIdentity) {
    exists k :: IsStart(ps, k) && Named(ps[k]) && WireOf(ps[k]) == id
  }

  ghost predicate StartsInOrder(f: Flow, ps: seq<Payload>) {
    && |Starts(f.sent)| == |Blocks(ps)|
    && forall n :: 0 <= n < |Blocks(ps)| ==> Named(ps[Blocks(ps)[n]]) && Starts(f.sent)[n] == WireOf(ps[Blocks(ps)[n]])
  }

  ghost predicate Tracks(f: Flow, ps: seq<Payload>) {
    && f.fault.None?
    && TableIsOpen(f, ps)
    && StoriesTold(f, ps)
    && StartsInOrder(f, ps)
    && !Reported(f.sent)
    && (Cut(f.sent) <==> CutShort(ps))
  }

  lemma TracksNothing()
    ensures Tracks(Begin, [])
  {
  }

  // ----- the table ------------------------------------------------------------------------------

  lemma TableOnlyOpen(f: Flow, ps: seq<Payload>, p: Payload, i: nat)
    requires f.fault.None? && TableIsOpen(f, ps) && Legal(ps, p)
    requires i in ConsumePayload(f, p).tools
    ensures exists k :: OpenAt(ps + [p], k, i)
  {
    if StartsTool(p) && i == IndexOf(p.index) {
      OpenAtPush(ps, p, |ps|, i);
    } else {
      assert i in f.tools && !Stops(p, i);
      var k :| OpenAt(ps, k, i);
      OpenAtPush(ps, p, k, i);
    }
  }

  lemma TableHasOpen(f: Flow, ps: seq<Payload>, p: Payload, i: nat, k: int)
    requires f.fault.None? && TableIsOpen(f, ps) && Legal(ps, p)
    requires OpenAt(ps + [p], k, i)
    ensures Named((ps + [p])[k])
    ensures i in ConsumePayload(f, p).tools && ConsumePayload(f, p).tools[i] == WireOf((ps + [p])[k])
  {
    OpenAtPush(ps, p, k, i);
    if k < |ps| {
      assert OpenAt(ps, k, i);
      assert StartsTool(p) ==> IndexOf(p.index) != i;
    }
  }

  lemma TableStep(f: Flow, ps: seq<Payload>, p: Payload)
    requires f.fault.None? && TableIsOpen(f, ps) && Legal(ps, p)
    ensures TableIsOpen(ConsumePayload(f, p), ps + [p])
  {
    var f', longer := ConsumePayload(f, p), ps + [p];
    forall i | i in f'.tools ensures exists k :: OpenAt(longer, k, i) {
      TableOnlyOpen(f, ps, p, i);
    }
    forall i, k | OpenAt(longer, k, i)
      ensures Named(longer[k]) && i in f'.tools && f'.tools[i] == WireOf(longer[k])
    {
      TableHasOpen(f, ps, p, i, k);
    }
  }

  // ----- the stories ------------------------------------------------------------------------------

  /** The event about a call that a payload sends, if it sends one. */
  function AboutCalls(f: Flow, p: Payload): seq<ProviderEvent> {
    if Named(p) && IndexOf(p.index) !in f.tools then [ToolCallStarted(WireOf(p), p.block.name.value)]
    else if p.BlockDelta? && p.piece.JsonPiece? && IndexOf(p.index) in f.tools
    then Adds(p, IndexOf(p.index), f.tools[IndexOf(p.index)])
    else if p.BlockStop? && IndexOf(p.index) in f.tools then [ToolCallCompleted(f.tools[IndexOf(p.index)])]
    else []
  }

  predicate Plain(e: ProviderEvent) {
    !AboutACall(e) && !e.ToolCallFailed?
  }

  lemma CallSends(f: Flow, p: Payload)
    requires f.fault.None? && AboutCalls(f, p) != []
    ensures |AboutCalls(f, p)| == 1 && !CutsOutput(p)
    ensures ConsumePayload(f, p).sent == f.sent + AboutCalls(f, p)
  {
  }

  lemma PiecesAreOpen(f: Flow, ps: seq<Payload>, p: Payload)
    requires TableIsOpen(f, ps) && Legal(ps, p)
    ensures p.BlockDelta? && p.piece.JsonPiece? ==> IndexOf(p.index) in f.tools
  {
  }

  /** A legal payload that is not about a call sends only plain events. */
  lemma PlainSends(f: Flow, ps: seq<Payload>, p: Payload) returns (events: seq<ProviderEvent>)
    requires f.fault.None? && TableIsOpen(f, ps) && Legal(ps, p) && AboutCalls(f, p) == []
    ensures ConsumePayload(f, p).sent == f.sent + events
    ensures forall i :: 0 <= i < |events| ==> Plain(events[i])
    ensures OutputTruncated in events <==> CutsOutput(p)
  {
    assert !StartsTool(p);
    PiecesAreOpen(f, ps, p);
    if p.MessageDelta? {
      events := CountSends(f, p);
    } else {
      events := ConsumePayload(f, p).sent[|f.sent|..];
    }
  }

  lemma CountSends(f: Flow, p: Payload) returns (events: seq<ProviderEvent>)
    requires f.fault.None? && p.MessageDelta?
    ensures ConsumePayload(f, p).sent == f.sent + events
    ensures forall i :: 0 <= i < |events| ==> Plain(events[i])
    ensures OutputTruncated in events <==> CutsOutput(p)
  {
    events := (if p.usage then [Usage] else []) + (if CutsOutput(p) then [OutputTruncated] else []);
    assert f.sent + events == ConsumePayload(f, p).sent;
    assert CutsOutput(p) ==> events[|events| - 1] == OutputTruncated;
  }

  lemma {:induction false} PlainEvents(sent: seq<ProviderEvent>, events: seq<ProviderEvent>, id: ExecutionIdentity)
    requires forall i :: 0 <= i < |events| ==> Plain(events[i])
    ensures Own(sent + events, id) == Own(sent, id)
    ensures Starts(sent + events) == Starts(sent)
    ensures Reported(sent + events) <==> Reported(sent)
  {
    if |events| == 0 {
      assert sent + events == sent;
    } else {
      var front, e := events[..|events| - 1], events[|events| - 1];
      PlainEvents(sent, front, id);
      assert sent + events == (sent + front) + [e];
      assert Plain(e);
      OwnPush(sent + front, e, id);
      StreamPush(sent + front, e);
      assert Starts(sent) + [] == Starts(sent);
    }
  }

  /** An event about the block at k0 is told in the story of that block and of no other. */
  lemma TellsCall(f: Flow, ps: seq<Payload>, p: Payload, k: int, k0: int)
    requires f.fault.None? && TableIsOpen(f, ps) && WellFormedBlocks(ps) && IsStart(ps, k) && Told(f, ps, k)
    requires AboutCalls(f, p) != [] && !StartsTool(p) && OpenAt(ps, k0, IndexOf(p.index))
    ensures Told(ConsumePayload(f, p), ps + [p], k)
  {
    StoryPush(ps, p, k);
    CallSends(f, p);
    StartsAreNamed(ps, k0);
    OwnPush(f.sent, AboutCalls(f, p)[0], WireOf(ps[k]));
    if k == k0 {
      assert AboutCalls(f, p) == Adds(p, IndexOf(ps[k].index), WireOf(ps[k]));
    } else {
      WiresAreDistinct(ps, Min(k, k0), Max(k, k0));
      if OpenAt(ps, k, IndexOf(p.index)) {
        OneOpenBlock(ps, k, k0, IndexOf(p.index));
      }
      assert Closed(ps, k) || IndexOf(ps[k].index) != IndexOf(p.index);
      assert Story(ps, k) + [] == Story(ps, k);
    }
  }

  lemma TellsStart(f: Flow, ps: seq<Payload>, p: Payload, k: int)
    requires f.fault.None? && TableIsOpen(f, ps) && Legal(ps, p) && IsStart(ps, k) && Told(f, ps, k)
    requires AboutCalls(f, p) != [] && StartsTool(p)
    ensures Told(ConsumePayload(f, p), ps + [p], k)
  {
    StoryPush(ps, p, k);
    CallSends(f, p);
    OwnPush(f.sent, AboutCalls(f, p)[0], WireOf(ps[k]));
    assert Story(ps, k) + [] == Story(ps, k);
  }

  lemma TellsPlain(f: Flow, ps: seq<Payload>, p: Payload, k: int)
    requires f.fault.None? && TableIsOpen(f, ps) && Legal(ps, p) && IsStart(ps, k) && Told(f, ps, k)
    requires AboutCalls(f, p) == []
    ensures Told(ConsumePayload(f, p), ps + [p], k)
  {
    StoryPush(ps, p, k);
    var events := PlainSends(f, ps, p);
    PlainEvents(f.sent, events, WireOf(ps[k]));
    if !Closed(ps, k) {
      assert OpenAt(ps, k, IndexOf(ps[k].index));
    }
    assert Story(ps, k) + [] == Story(ps, k);
  }

  /** A legal start is told as the story of a new block, and no event about its identity came before. */
  lemma TellsNew(f: Flow, ps: seq<Payload>, p: Payload)
    requires f.fault.None? && TableIsOpen(f, ps) && StoriesTold(f, ps) && Legal(ps, p) && StartsTool(p)
    ensures AboutCalls(f, p) != [] && Told(ConsumePayload(f, p), ps + [p], |ps|)
  {
    assert IndexOf(p.index) !in f.tools;
    CallSends(f, p);
    OwnPush(f.sent, AboutCalls(f, p)[0], WireOf(p));
    assert !Carried(ps, WireOf(p));
    StoryStart(ps, p);
  }

  lemma StoriesStep(f: Flow, ps: seq<Payload>, p: Payload)
    requires f.fault.None? && TableIsOpen(f, ps) && StoriesTold(f, ps) && WellFormedBlocks(ps) && Legal(ps, p)
    ensures StoriesTold(ConsumePayload(f, p), ps + [p])
  {
    var f', longer := ConsumePayload(f, p), ps + [p];
    if StartsTool(p) {
      TellsNew(f, ps, p);
    }
    forall k | IsStart(longer, k) ensures Told(f', longer, k) {
      if k < |ps| {
        assert IsStart(ps, k) && Told(f, ps, k);
        if AboutCalls(f, p) == [] {
          TellsPlain(f, ps, p, k);
        } else if StartsTool(p) {
          TellsStart(f, ps, p, k);
        } else {
          var k0 :| OpenAt(ps, k0, IndexOf(p.index));
          TellsCall(f, ps, p, k, k0);
        }
      }
    }
    forall id | Own(f'.sent, id) != [] ensures Carried(longer, id) {
      CarriedStep(f, ps, p, id);
    }
  }

  lemma CarriedStep(f: Flow, ps: seq<Payload>, p: Payload, id: ExecutionIdentity)
    requires f.fault.None? && TableIsOpen(f, ps) && StoriesTold(f, ps) && Legal(ps, p)
    requires Own(ConsumePayload(f, p).sent, id) != []
    ensures Carried(ps + [p], id)
  {
    var longer := ps + [p];
    if AboutCalls(f, p) == [] {
      var events := PlainSends(f, ps, p);
      PlainEvents(f.sent, events, id);
    } else {
      CallSends(f, p);
      OwnPush(f.sent, AboutCalls(f, p)[0], id);
    }
    if Own(f.sent, id) != [] {
      var k :| IsStart(ps, k) && Named(ps[k]) && WireOf(ps[k]) == id;
      assert IsStart(longer, k) && WireOf(longer[k]) == id;
    } else if StartsTool(p) {
      assert IsStart(longer, |ps|) && WireOf(longer[|ps|]) == id;
    } else {
      var k :| OpenAt(ps, k, IndexOf(p.index));
      assert IsStart(longer, k) && WireOf(longer[k]) == id;
    }
  }

  lemma CutShortPush(ps: seq<Payload>, p: Payload)
    ensures CutShort(ps + [p]) <==> CutShort(ps) || CutsOutput(p)
  {
    var longer := ps + [p];
    assert CutsOutput(p) ==> CutsOutput(longer[|ps|]);
    assert forall k :: 0 <= k < |ps| ==> longer[k] == ps[k];
  }

  lemma StreamsPlain(f: Flow, ps: seq<Payload>, p: Payload)
    requires Tracks(f, ps) && Legal(ps, p) && AboutCalls(f, p) == []
    ensures StartsInOrder(ConsumePayload(f, p), ps + [p])
    ensures !Reported(ConsumePayload(f, p).sent)
    ensures Cut(ConsumePayload(f, p).sent) <==> Cut(f.sent) || CutsOutput(p)
  {
    var longer := ps + [p];
    assert longer[..|longer| - 1] == ps;
    var events := PlainSends(f, ps, p);
    PlainEvents(f.sent, events, Wire(""));
    assert !StartsTool(p);
  }

  lemma StreamsCall(f: Flow, ps: seq<Payload>, p: Payload)
    requires Tracks(f, ps) && Legal(ps, p) && AboutCalls(f, p) != []
    ensures StartsInOrder(ConsumePayload(f, p), ps + [p])
    ensures !Reported(ConsumePayload(f, p).sent)
    ensures Cut(ConsumePayload(f, p).sent) <==> Cut(f.sent) || CutsOutput(p)
  {
    var longer := ps + [p];
    assert longer[..|longer| - 1] == ps;
    CallSends(f, p);
    StreamPush(f.sent, AboutCalls(f, p)[0]);
  }

  lemma StreamsStep(f: Flow, ps: seq<Payload>, p: Payload)
    requires Tracks(f, ps) && Legal(ps, p)
    ensures StartsInOrder(ConsumePayload(f, p), ps + [p])
    ensures !Reported(ConsumePayload(f, p).sent)
    ensures Cut(ConsumePayload(f, p).sent) <==> CutShort(ps + [p])
  {
    CutShortPush(ps, p);
    if AboutCalls(f, p) == [] {
      StreamsPlain(f, ps, p);
    } else {
      StreamsCall(f, ps, p);
    }
  }

  lemma TracksStep(f: Flow, ps: seq<Payload>, p: Payload)
    requires Tracks(f, ps) && WellFormedBlocks(ps) && Legal(ps, p) && p != ErrorReport
    ensures Tracks(ConsumePayload(f, p), ps + [p])
  {
    TableStep(f, ps, p);
    StoriesStep(f, ps, p);
    StreamsStep(f, ps, p);
  }

  // ----- a stream that is not well formed ---------------------------------------------------------

  ghost predicate Doomed(f: Flow) {
    Assembled(f.sent).failure.Some?
  }

  lemma DoomedSend(f: Flow, e: ProviderEvent)
    ensures Doomed(f) ==> Doomed(Send(f, e))
    ensures e.ToolCallFailed? ==> Doomed(Send(f, e))
  {
    SendAccepts(f, e);
  }

  lemma DoomedStays(f: Flow, p: Payload)
    requires Doomed(f)
    ensures Doomed(ConsumePayload(f, p))
  {
    forall g: Flow, e | Doomed(g) ensures Doomed(Send(g, e)) {
      DoomedSend(g, e);
    }
  }

  lemma IllegalDooms(f: Flow, ps: seq<Payload>, p: Payload)
    requires Tracks(f, ps) && !Legal(ps, p)
    ensures Doomed(ConsumePayload(f, p))
  {
    var index := IndexOf(p.index);
    forall g: Flow, e: ProviderEvent | e.ToolCallFailed? ensures Doomed(Send(g, e)) {
      DoomedSend(g, e);
    }
    if Named(p) && index !in f.tools {
      assert forall k :: !OpenAt(ps, k, index);
      IllegalStartDooms(f, ps, p);
    } else if p.BlockDelta? {
      assert index !in f.tools;
    }
  }

  lemma IllegalStartDooms(f: Flow, ps: seq<Payload>, p: Payload)
    requires Tracks(f, ps) && Named(p) && IndexOf(p.index) !in f.tools
    requires IsBlank(p.block.name.value) || exists k :: IsStart(ps, k) && ps[k].block.id == p.block.id
    ensures Doomed(ConsumePayload(f, p))
  {
    var e := ToolCallStarted(WireOf(p), p.block.name.value);
    var own := Own(f.sent, e.id);
    assert ConsumePayload(f, p).sent == f.sent + [e];
    OwnPush(f.sent, e, e.id);
    AssemblerIsFaithful(f.sent);
    AssemblerIsFaithful(f.sent + [e]);
    if !Doomed(f) {
      assert Lawful(own);
      LawfulPush(own, e);
      if k :| IsStart(ps, k) && ps[k].block.id == p.block.id {
        assert Told(f, ps, k);
        StoryIsNotEmpty(ps, k);
      }
      assert !Lawful(Own(f.sent + [e], e.id));
    } else {
      SendAccepts(f, e);
    }
  }

  lemma StoryIsNotEmpty(ps: seq<Payload>, k: nat)
    requires IsStart(ps, k) && Named(ps[k])
    ensures |Story(ps, k)| > 0
  {
    if k < |ps| - 1 {
      StoryIsNotEmpty(ps[..|ps| - 1], k);
    }
  }

  ghost predicate TracksOrIsDoomed(f: Flow, ps: seq<Payload>) {
    && f.fault.None?
    && (WellFormedBlocks(ps) ==> Tracks(f, ps))
    && (!WellFormedBlocks(ps) ==> Doomed(f))
  }

  lemma TracksOrDoomedStep(f: Flow, ps: seq<Payload>, p: Payload)
    requires TracksOrIsDoomed(f, ps) && p != ErrorReport
    ensures TracksOrIsDoomed(ConsumePayload(f, p), ps + [p])
  {
    WellFormedPush(ps, p);
    if !WellFormedBlocks(ps) {
      DoomedStays(f, p);
    } else if Legal(ps, p) {
      TracksStep(f, ps, p);
    } else {
      IllegalDooms(f, ps, p);
    }
  }

  lemma {:induction false} TracksOrDoomed(ps: seq<Payload>)
    requires ErrorReport !in ps
    ensures TracksOrIsDoomed(ConsumeAll(Begin, ps), ps)
  {
    if |ps| == 0 {
      TracksNothing();
    } else {
      var front, p := ps[..|ps| - 1], ps[|ps| - 1];
      assert ps == front + [p];
      TracksOrDoomed(front);
      TracksOrDoomedStep(ConsumeAll(Begin, front), front, p);
    }
  }

  // ----- the response ----------------------------------------------------------------------------------

  /** The call a block asks for, read from the payloads. */
  function BlockCall<J>(ps: seq<Payload>, k: nat, parser: Parser<J>): Option<ToolCall<J>>
    requires IsStart(ps, k)
  {
    var arguments := ParseArguments(parser, Fragments(ps, k));
    if Named(ps[k]) && arguments.Some?
    then Some(ToolCall(WireOf(ps[k]), ps[k].block.name.value, arguments.value))
    else None
  }

  ghost predicate AllParse<J>(ps: seq<Payload>, parser: Parser<J>) {
    forall n :: 0 <= n < |Blocks(ps)| ==> BlockCall(ps, Blocks(ps)[n], parser).Some?
  }

  ghost predicate IsBlockBatch<J>(calls: seq<ToolCall<J>>, ps: seq<Payload>, parser: Parser<J>) {
    && |calls| == |Blocks(ps)|
    && forall n :: 0 <= n < |calls| ==> BlockCall(ps, Blocks(ps)[n], parser) == Some(calls[n])
  }

  lemma {:induction false} EveryStartIsABlock(ps: seq<Payload>, k: int)
    requires IsStart(ps, k)
    ensures exists n :: 0 <= n < |Blocks(ps)| && Blocks(ps)[n] == k
  {
    var front := Blocks(ps[..|ps| - 1]);
    if k == |ps| - 1 {
      assert Blocks(ps)[|front|] == k;
    } else {
      EveryStartIsABlock(ps[..|ps| - 1], k);
      var n :| 0 <= n < |front| && front[n] == k;
      assert Blocks(ps)[n] == k;
    }
  }

  /** The call the assembler makes of a block's identity is the call the block asks for, once the block is closed. */
  lemma OwnCallIsBlockCall<J>(f: Flow, ps: seq<Payload>, k: nat, parser: Parser<J>)
    requires Tracks(f, ps) && WellFormedBlocks(ps) && IsStart(ps, k)
    ensures Named(ps[k])
    ensures OwnCall(f.sent, WireOf(ps[k]), parser) == if Closed(ps, k) then BlockCall(ps, k, parser) else None
  {
    assert Told(f, ps, k);
    assert Legal(ps[..k], ps[k]);
    StoryMeaning(ps, k);
  }

  lemma TrackedIsLawful(f: Flow, ps: seq<Payload>)
    requires Tracks(f, ps) && WellFormedBlocks(ps)
    ensures AllLawful(f.sent)
  {
    forall id ensures Lawful(Own(f.sent, id)) {
      if Own(f.sent, id) != [] {
        var k :| IsStart(ps, k) && Named(ps[k]) && WireOf(ps[k]) == id;
        assert Told(f, ps, k);
        assert Legal(ps[..k], ps[k]);
        StoryMeaning(ps, k);
      }
    }
  }

  lemma TrackedBatch<J>(f: Flow, ps: seq<Payload>, parser: Parser<J>)
    requires Tracks(f, ps) && WellFormedBlocks(ps)
    ensures Complete(f.sent, parser) <==> AllClosed(ps) && AllParse(ps, parser)
    ensures Complete(f.sent, parser) ==>
              forall calls :: IsBatch(calls, f.sent, parser) ==> IsBlockBatch(calls, ps, parser)
  {
    forall n | 0 <= n < |Blocks(ps)|
      ensures var k := Blocks(ps)[n];
              OwnCall(f.sent, Starts(f.sent)[n], parser) == if Closed(ps, k) then BlockCall(ps, k, parser) else None
    {
      OwnCallIsBlockCall(f, ps, Blocks(ps)[n], parser);
    }
    if Complete(f.sent, parser) {
      forall k | IsStart(ps, k) ensures Closed(ps, k) {
        EveryStartIsABlock(ps, k);
        var n :| 0 <= n < |Blocks(ps)| && Blocks(ps)[n] == k;
        assert OwnCall(f.sent, Starts(f.sent)[n], parser).Some?;
      }
    }
  }

  lemma OpenBlocksAreReported(f: Flow, ps: seq<Payload>)
    requires Tracks(f, ps)
    ensures f.tools == map[] <==> AllClosed(ps)
  {
    if f.tools != map[] {
      var i :| i in f.tools;
      var k :| OpenAt(ps, k, i);
      assert IsStart(ps, k) && !Closed(ps, k);
    }
    if !AllClosed(ps) {
      var k :| IsStart(ps, k) && !Closed(ps, k);
      assert OpenAt(ps, k, IndexOf(ps[k].index));
    }
  }

  /**
   For every stream that reports no error: a batch of calls comes back exactly when the stream has a
   tool block, its blocks are well formed and all closed, the output was not cut short, and the
   pieces of every block parse (or are blank). The batch has one call for each block, in the order
   in which the blocks start, with the arguments parsed from that block's pieces and no others.
   */
  lemma EndToEnd<J>(ps: seq<Payload>, parser: Parser<J>)
    requires ErrorReport !in ps
    ensures WellFormed(Assembled(ReadAll(ps).sent))
    ensures var events := ReadAll(ps).sent;
            var response := Finish(Assembled(events), parser);
            && (response.CallsResponse? <==>
                  && Blocks(ps) != [] && WellFormedBlocks(ps) && AllClosed(ps) && !CutShort(ps) && AllParse(ps, parser))
            && (response.CallsResponse? ==> IsBlockBatch(response.calls, ps, parser))
  {
    var f := ConsumeAll(Begin, ps);
    TracksOrDoomed(ps);
    AllOrNothing(ReadAll(ps).sent, parser);
    if !WellFormedBlocks(ps) {
      DoomedSend(f, ToolCallFailed(IncompleteCall));
    } else {
      OpenBlocksAreReported(f, ps);
      TrackedIsLawful(f, ps);
      if AllClosed(ps) {
        TrackedBatch(f, ps, parser);
      } else {
        StreamPush(f.sent, ToolCallFailed(IncompleteCall));
      }
    }
  }

  /** Reading succeeds exactly when no error was reported and message_stop arrived. */
  lemma ReadingSucceeds(ps: seq<Payload>)
    ensures ReadAll(ps).fault.None? <==> ErrorReport !in ps && MessageStop in ps
  {
    FaultAndDone(ps);
  }

  lemma {:induction false} FaultAndDone(ps: seq<Payload>)
    ensures var f := ConsumeAll(Begin, ps);
            && (f.fault.None? <==> ErrorReport !in ps)
            && (f.fault.None? ==> (f.done <==> MessageStop in ps))
  {
    if |ps| > 0 {
      FaultAndDone(ps[..|ps| - 1]);
      assert ps == ps[..|ps| - 1] + [ps[|ps| - 1]];
    }
  }
}

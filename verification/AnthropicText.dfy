/**
 The text and the thinking of an Anthropic response, read off the payloads alone, and when a response is
 a text at all.
 */
module AnthropicText {
  import opened Basics
  import opened ProviderEvents
  import opened ToolCalls
  import opened Law = ToolCallLaw
  import A = Attempt
  import opened AnthropicStream

  /** The text a payload carries: that of a text block's start, or of a piece of text. */
  function SaidText(p: Payload): string {
    match p
    case BlockStart(_, TextBlock(Some(text))) => text
    case BlockDelta(_, TextPiece(Some(text))) => text
    case _ => ""
  }

  function SaidThinking(p: Payload): string {
    match p
    case BlockStart(_, ThinkingBlock(Some(thinking))) => thinking
    case BlockDelta(_, ThinkingPiece(Some(thinking))) => thinking
    case _ => ""
  }

  /** What the payloads say, one after the other. */
  function Joined(said: Payload -> string, ps: seq<Payload>): string {
    if |ps| == 0 then "" else Joined(said, ps[..|ps| - 1]) + said(ps[|ps| - 1])
  }

  /** The payloads before the first error report. */
  function BeforeError(ps: seq<Payload>): seq<Payload> {
    if |ps| == 0 || ps[0] == ErrorReport then [] else [ps[0]] + BeforeError(ps[1..])
  }

  lemma {:induction false} NothingAfterTheError(ps: seq<Payload>, p: Payload)
    ensures BeforeError(ps + [p]) ==
            if ErrorReport in ps || p == ErrorReport then BeforeError(ps) else BeforeError(ps) + [p]
  {
    if |ps| > 0 && ps[0] != ErrorReport {
      NothingAfterTheError(ps[1..], p);
      assert (ps + [p])[1..] == ps[1..] + [p];
      assert ps == [ps[0]] + ps[1..];
    }
  }

  lemma {:induction false} WithoutError(ps: seq<Payload>)
    requires ErrorReport !in ps
    ensures BeforeError(ps) == ps
  {
    if |ps| > 0 {
      WithoutError(ps[1..]);
    }
  }

  // ----- what is sent ---------------------------------------------------------------------------

  /** The payload concerns a tool block: it starts one, or brings a piece of arguments. */
  predicate TouchesTools(p: Payload) {
    (p.BlockStart? && p.block.ToolUse?) || (p.BlockDelta? && p.piece.JsonPiece?)
  }

  ghost predicate TouchTools(ps: seq<Payload>) {
    exists i :: 0 <= i < |ps| && TouchesTools(ps[i])
  }

  lemma TouchPush(ps: seq<Payload>, p: Payload)
    ensures TouchTools(ps + [p]) <==> TouchTools(ps) || TouchesTools(p)
  {
    var longer := ps + [p];
    assert longer[|ps|] == p;
    assert forall i :: 0 <= i < |ps| ==> longer[i] == ps[i];
  }

  lemma JoinedPush(said: Payload -> string, ps: seq<Payload>, p: Payload)
    ensures Joined(said, ps + [p]) == Joined(said, ps) + said(p)
  {
    assert (ps + [p])[..|ps + [p]| - 1] == ps;
  }

  /** What has been sent says what these payloads say, and speaks of tools exactly when they do. */
  ghost predicate Says(f: Flow, ps: seq<Payload>) {
    && ShownText(f.sent) == Joined(SaidText, ps)
    && A.ThinkingText(f.sent) == Joined(SaidThinking, ps)
    && (A.CalledTools(f.sent) <==> TouchTools(ps))
    && (f.tools != map[] ==> TouchTools(ps))
  }

  lemma SendSays(f: Flow, e: ProviderEvent)
    ensures var sent := Send(f, e).sent;
            && ShownText(sent) == ShownText(f.sent) + (if e.TextDelta? then e.text else "")
            && A.ThinkingText(sent) == A.ThinkingText(f.sent) + (if e.ThinkingDelta? then e.text else "")
            && (A.CalledTools(sent) <==> A.CalledTools(f.sent) || A.AboutTools(e))
  {
    StreamPush(f.sent, e);
    A.ThinkingPush(f.sent, e);
    A.SeenPush(f.sent, e);
  }

  lemma SaysQuiet(f: Flow, ps: seq<Payload>, p: Payload)
    requires Says(f, ps) && SaidText(p) == "" && SaidThinking(p) == "" && !TouchesTools(p)
    ensures Says(f, ps + [p])
  {
    JoinedPush(SaidText, ps, p);
    JoinedPush(SaidThinking, ps, p);
    TouchPush(ps, p);
    assert Joined(SaidText, ps) + "" == Joined(SaidText, ps);
    assert Joined(SaidThinking, ps) + "" == Joined(SaidThinking, ps);
  }

  /** A payload that sends one event says what the event says. */
  lemma SaysSent(f: Flow, f': Flow, ps: seq<Payload>, p: Payload, e: ProviderEvent)
    requires Says(f, ps) && f'.sent == f.sent + [e]
    requires SaidText(p) == if e.TextDelta? then e.text else ""
    requires SaidThinking(p) == if e.ThinkingDelta? then e.text else ""
    requires TouchesTools(p) ==> A.AboutTools(e)
    requires A.AboutTools(e) ==> TouchesTools(p) || TouchTools(ps)
    requires f'.tools != map[] ==> TouchesTools(p) || f.tools != map[]
    ensures Says(f', ps + [p])
  {
    SendSays(f, e);
    JoinedPush(SaidText, ps, p);
    JoinedPush(SaidThinking, ps, p);
    TouchPush(ps, p);
  }

  lemma SaysStart(f: Flow, ps: seq<Payload>, p: Payload)
    requires Says(f, ps) && f.fault.None? && p.BlockStart?
    ensures Says(ConsumePayload(f, p), ps + [p])
  {
    hide Says, Joined, TouchTools;
    var f' := ConsumePayload(f, p);
    if f'.sent == f.sent {
      SaysQuiet(f, ps, p);
    } else {
      SaysSent(f, f', ps, p, f'.sent[|f.sent|]);
    }
  }

  lemma SaysDelta(f: Flow, ps: seq<Payload>, p: Payload)
    requires Says(f, ps) && f.fault.None? && p.BlockDelta?
    ensures Says(ConsumePayload(f, p), ps + [p])
  {
    hide Says, Joined, TouchTools;
    var f' := ConsumePayload(f, p);
    if f'.sent == f.sent {
      SaysQuiet(f, ps, p);
    } else {
      SaysSent(f, f', ps, p, f'.sent[|f.sent|]);
    }
  }

  /** A note says nothing. */
  lemma SaysNote(f: Flow, ps: seq<Payload>, e: ProviderEvent)
    requires Says(f, ps) && (e.Usage? || e.OutputTruncated? || e.ProtocolDone?)
    ensures Says(Send(f, e), ps)
  {
    SendSays(f, e);
  }

  lemma SaysMessageDelta(f: Flow, ps: seq<Payload>, p: Payload)
    requires Says(f, ps) && f.fault.None? && p.MessageDelta?
    ensures Says(ConsumePayload(f, p), ps + [p])
  {
    hide Says, Joined;
    if p.usage {
      SaysNote(f, ps, Usage);
    }
    if p.stopReason == Some("max_tokens") {
      SaysNote(SendUsage(f, p.usage), ps, OutputTruncated);
    }
    SaysQuiet(ConsumePayload(f, p), ps, p);
  }

  lemma SaysOther(f: Flow, ps: seq<Payload>, p: Payload)
    requires Says(f, ps) && f.fault.None?
    requires p.MessageStart? || p.BlockStop? || p.MessageStop? || p.OtherPayload?
    ensures Says(ConsumePayload(f, p), ps + [p])
  {
    var f' := ConsumePayload(f, p);
    if f'.sent == f.sent {
      SaysQuiet(f, ps, p);
    } else {
      SaysSent(f, f', ps, p, f'.sent[|f.sent|]);
    }
  }

  lemma SaysPayload(f: Flow, ps: seq<Payload>, p: Payload)
    requires Says(f, ps) && f.fault.None? && p != ErrorReport
    ensures Says(ConsumePayload(f, p), ps + [p])
  {
    hide Says, ConsumePayload;
    match p
    case BlockStart(_, _) => SaysStart(f, ps, p);
    case BlockDelta(_, _) => SaysDelta(f, ps, p);
    case MessageDelta(_, _) => SaysMessageDelta(f, ps, p);
    case _ => SaysOther(f, ps, p);
  }

  lemma OnlyAReportIsAFault(f: Flow, p: Payload)
    requires f.fault.None?
    ensures ConsumePayload(f, p).fault.Some? <==> p == ErrorReport
    ensures p == ErrorReport ==> ConsumePayload(f, p) == f.(fault := Some(ServerReported))
  {}

  lemma {:induction false} SaysAlways(ps: seq<Payload>)
    ensures Says(ConsumeAll(Begin, ps), BeforeError(ps))
    ensures ConsumeAll(Begin, ps).fault.Some? <==> ErrorReport in ps
  {
    if |ps| > 0 {
      var front, p := ps[..|ps| - 1], ps[|ps| - 1];
      assert ps == front + [p];
      SaysAlways(front);
      NothingAfterTheError(front, p);
      var f := ConsumeAll(Begin, front);
      if f.fault.None? {
        OnlyAReportIsAFault(f, p);
        if p != ErrorReport {
          SaysPayload(f, BeforeError(front), p);
        }
      }
    }
  }

  // ----- the text of a response --------------------------------------------------------------------

  /**
   What a connection shows: the texts of the text blocks' starts and of the pieces of text, one after the
   other, up to an error report; the thinking likewise.  Tools are spoken of exactly when a payload starts
   a tool block or brings a piece of arguments.
   */
  lemma TextIsWhatWasSaid(ps: seq<Payload>)
    ensures ShownText(ReadAll(ps).sent) == Joined(SaidText, BeforeError(ps))
    ensures A.ThinkingText(ReadAll(ps).sent) == Joined(SaidThinking, BeforeError(ps))
    ensures A.CalledTools(ReadAll(ps).sent) <==>
            exists i :: 0 <= i < |BeforeError(ps)| && TouchesTools(BeforeError(ps)[i])
  {
    SaysAlways(ps);
    SendSays(ConsumeAll(Begin, ps), ToolCallFailed(IncompleteCall));
  }

  /**
   The response is a text exactly when no payload starts a tool block or brings a piece of arguments, and
   then it is the text of the payloads.
   */
  lemma TextResponseExactly<J>(ps: seq<Payload>, parser: Parser<J>)
    requires ErrorReport !in ps
    ensures WellFormed(Assembled(ReadAll(ps).sent))
    ensures var response := Finish(Assembled(ReadAll(ps).sent), parser);
            && (response.TextResponse? <==> forall i :: 0 <= i < |ps| ==> !TouchesTools(ps[i]))
            && (response.TextResponse? ==> response.text == Joined(SaidText, ps))
  {
    TextOnly(ReadAll(ps).sent, parser);
    A.TextualExactly(ReadAll(ps).sent);
    TextIsWhatWasSaid(ps);
    WithoutError(ps);
  }

  // ----- notes ----------------------------------------------------------------------------------------

  function Is(note: ProviderEvent): ProviderEvent -> bool {
    (e: ProviderEvent) => e == note
  }

  /** The payload asks for this note: usage figures, the end of the message, or an output that was cut. */
  predicate Asks(p: Payload, note: ProviderEvent) {
    match note
    case Usage => (p.MessageStart? || p.MessageDelta?) && p.usage
    case ProtocolDone => p == MessageStop
    case OutputTruncated => p.MessageDelta? && p.stopReason == Some("max_tokens")
    case _ => false
  }

  function AsksFor(note: ProviderEvent): Payload -> bool {
    (p: Payload) => Asks(p, note)
  }

  lemma SendNotes(f: Flow, e: ProviderEvent, note: ProviderEvent)
    ensures |Keep(Is(note), Send(f, e).sent)| == |Keep(Is(note), f.sent)| + if e == note then 1 else 0
  {
    KeepPush(Is(note), f.sent, e);
  }

  lemma DeltaNotes(f: Flow, p: Payload, note: ProviderEvent)
    requires note in {Usage, ProtocolDone, OutputTruncated} && f.fault.None? && p.MessageDelta?
    ensures |Keep(Is(note), ConsumePayload(f, p).sent)| == |Keep(Is(note), f.sent)| + if Asks(p, note) then 1 else 0
  {
    hide Keep;
    SendNotes(f, Usage, note);
    SendNotes(SendUsage(f, p.usage), OutputTruncated, note);
  }

  lemma PayloadNotes(f: Flow, p: Payload, note: ProviderEvent)
    requires note in {Usage, ProtocolDone, OutputTruncated} && f.fault.None?
    ensures |Keep(Is(note), ConsumePayload(f, p).sent)| == |Keep(Is(note), f.sent)| + if Asks(p, note) then 1 else 0
  {
    hide Keep;
    if p.MessageDelta? {
      DeltaNotes(f, p, note);
    } else {
      var f' := ConsumePayload(f, p);
      if |f'.sent| > |f.sent| {
        var e := f'.sent[|f.sent|];
        assert f'.sent == Send(f, e).sent;
        SendNotes(f, e, note);
      }
    }
  }

  lemma FaultStays(f: Flow, p: Payload)
    ensures f.fault.Some? ==> ConsumePayload(f, p) == f
    ensures !Asks(ErrorReport, Usage) && !Asks(ErrorReport, ProtocolDone) && !Asks(ErrorReport, OutputTruncated)
  {
  }

  lemma {:induction false} NotesSoFar(ps: seq<Payload>, note: ProviderEvent)
    requires note in {Usage, ProtocolDone, OutputTruncated}
    ensures |Keep(Is(note), ConsumeAll(Begin, ps).sent)| == |Keep(AsksFor(note), BeforeError(ps))|
  {
    hide Says, ConsumePayload, Asks;
    if |ps| > 0 {
      var front, p := ps[..|ps| - 1], ps[|ps| - 1];
      assert ps == front + [p];
      NotesSoFar(front, note);
      FaultStays(ConsumeAll(Begin, front), p);
      NothingAfterTheError(front, p);
      SaysAlways(front);
      KeepPush(AsksFor(note), BeforeError(front), p);
      if ErrorReport !in front {
        PayloadNotes(ConsumeAll(Begin, front), p, note);
      }
    }
  }

  /** Usage, the end of the message and a cut output are noted once for each payload that says so. */
  lemma NotesAreCounted(ps: seq<Payload>, note: ProviderEvent)
    requires note in {Usage, ProtocolDone, OutputTruncated}
    ensures |Keep(Is(note), ReadAll(ps).sent)| == |Keep(AsksFor(note), BeforeError(ps))|
  {
    NotesSoFar(ps, note);
    SendNotes(ConsumeAll(Begin, ps), ToolCallFailed(IncompleteCall), note);
  }
}

/**
 One attempt to get a response from a provider: what is observed of its events, what the user is
 shown while they arrive, and what comes out when the stream ends.
 */
module Attempt {
  import opened Basics
  import PE = ProviderEvents
  import opened ToolCalls
  import Law = ToolCallLaw

  datatype Phase = Connect | FirstEvent | StreamIdle | Overall

  datatype ErrorKind =
    | Auth | AccessDenied | RateLimit | QuotaExceeded | InvalidRequest | ContextOverflow | ContentPolicy
    | Timeout(phase: Phase) | Transport | Server | Protocol | EmptyCompletion | ReasoningOnly | Truncated | Cancelled

  /** How a provider call ends; a deadline or a cancellation can cut it short. */
  datatype Ending =
    | Finished | Failed(kind: ErrorKind) | FailedOtherwise
    | PhaseExpired | OverallExpired | CancelledMidway

  /** What a provider does in one call: events received before it ends, and events still queued then. */
  datatype Reply = Reply(before: seq<PE.ProviderEvent>, queued: seq<PE.ProviderEvent>, ending: Ending)

  /** What the user is shown. */
  datatype Shown = Thinking(text: string) | ThinkingFinished | Text(text: string)

  datatype Output<J> = Output(response: Response<J>, thinking: Option<string>)

  datatype Outcome<J> = Produced(output: Output<J>) | Refused(kind: ErrorKind)

  // ----- what an event sequence says -------------------------------------------------------------

  predicate AboutTools(e: PE.ProviderEvent) {
    e.ToolCallStarted? || e.ToolCallDelta? || e.ToolCallCompleted? || e.ToolCallFailed?
  }

  /** The event reaches the user or starts a tool call, so the attempt cannot be repeated unnoticed. */
  predicate Commits(e: PE.ProviderEvent) {
    AboutTools(e) || ((e.TextDelta? || e.ThinkingDelta?) && e.text != "")
  }

  predicate IsFirst(e: PE.ProviderEvent) {
    Commits(e) || e.OutputTruncated?
  }

  ghost predicate Committed(events: seq<PE.ProviderEvent>) {
    exists i :: 0 <= i < |events| && Commits(events[i])
  }

  ghost predicate Began(events: seq<PE.ProviderEvent>) {
    exists i :: 0 <= i < |events| && IsFirst(events[i])
  }

  ghost predicate CalledTools(events: seq<PE.ProviderEvent>) {
    exists i :: 0 <= i < |events| && AboutTools(events[i])
  }

  function ThinkingText(events: seq<PE.ProviderEvent>): string {
    if |events| == 0 then ""
    else ThinkingText(events[..|events| - 1]) +
         if events[|events| - 1].ThinkingDelta? then events[|events| - 1].text else ""
  }

  /** All the text the user was shown, and all the thinking. */
  function TextOf(shown: seq<Shown>): string {
    if |shown| == 0 then ""
    else TextOf(shown[..|shown| - 1]) + if shown[|shown| - 1].Text? then shown[|shown| - 1].text else ""
  }

  function ThinkingOf(shown: seq<Shown>): string {
    if |shown| == 0 then ""
    else ThinkingOf(shown[..|shown| - 1]) + if shown[|shown| - 1].Thinking? then shown[|shown| - 1].text else ""
  }

  /** Thinking was shown and not finished since. */
  predicate ThinkingOpen(shown: seq<Shown>) {
    |shown| > 0 && (shown[|shown| - 1].Thinking? || (shown[|shown| - 1].Text? && ThinkingOpen(shown[..|shown| - 1])))
  }

  /** Text never appears while thinking is open, and nothing is finished that was not open. */
  ghost predicate Bracketed(shown: seq<Shown>) {
    forall i :: 0 <= i < |shown| ==>
      && (shown[i].Text? ==> !ThinkingOpen(shown[..i]))
      && (shown[i].ThinkingFinished? ==> ThinkingOpen(shown[..i]))
  }

  lemma ShownPush(shown: seq<Shown>, s: Shown)
    ensures TextOf(shown + [s]) == TextOf(shown) + if s.Text? then s.text else ""
    ensures ThinkingOf(shown + [s]) == ThinkingOf(shown) + if s.Thinking? then s.text else ""
    ensures ThinkingOpen(shown + [s]) <==> s.Thinking? || (s.Text? && ThinkingOpen(shown))
    ensures Bracketed(shown) && (s.Text? ==> !ThinkingOpen(shown)) && (s.ThinkingFinished? ==> ThinkingOpen(shown)) ==>
              Bracketed(shown + [s])
  {
    var longer := shown + [s];
    assert longer[..|longer| - 1] == shown;
    assert forall i :: 0 <= i < |shown| ==> longer[..i] == shown[..i] && longer[i] == shown[i];
  }

  lemma SeenPush(events: seq<PE.ProviderEvent>, e: PE.ProviderEvent)
    ensures Committed(events + [e]) <==> Committed(events) || Commits(e)
    ensures Began(events + [e]) <==> Began(events) || IsFirst(e)
    ensures CalledTools(events + [e]) <==> CalledTools(events) || AboutTools(e)
  {
    var longer := events + [e];
    assert longer[|events|] == e;
    assert forall i :: 0 <= i < |events| ==> longer[i] == events[i];
  }

  lemma ThinkingPush(events: seq<PE.ProviderEvent>, e: PE.ProviderEvent)
    ensures ThinkingText(events + [e]) == ThinkingText(events) + if e.ThinkingDelta? then e.text else ""
  {
    assert (events + [e])[..|events + [e]| - 1] == events;
  }

  /** An attempt is uncommitted exactly when nothing of it reaches the user and it did not speak of a tool. */
  lemma {:induction false} UncommittedIsSilent(events: seq<PE.ProviderEvent>)
    ensures !Committed(events) <==>
            Law.ShownText(events) == "" && ThinkingText(events) == "" && !CalledTools(events)
  {
    if |events| > 0 {
      var front, e := events[..|events| - 1], events[|events| - 1];
      assert events == front + [e];
      SeenPush(front, e);
      ThinkingPush(front, e);
      UncommittedIsSilent(front);
    }
  }

  /** An event about tools is a start, a report or unlawful, and without one there is nothing of this kind. */
  lemma TextualExactly(events: seq<PE.ProviderEvent>)
    ensures Law.Starts(events) == [] && !Law.Reported(events) && Law.AllLawful(events) <==> !CalledTools(events)
  {
    if i :| 0 <= i < |events| && AboutTools(events[i]) {
      CallIsSeen(events, i);
    } else {
      NoCallsNoStarts(events);
      forall id ensures Law.Lawful(Law.Own(events, id)) {
        KeepNone(Law.IsAbout(id), events);
      }
    }
  }

  lemma {:induction false} NoCallsNoStarts(events: seq<PE.ProviderEvent>)
    requires forall i :: 0 <= i < |events| ==> !events[i].ToolCallStarted?
    ensures Law.Starts(events) == []
  {
    if |events| > 0 {
      NoCallsNoStarts(events[..|events| - 1]);
    }
  }

  lemma {:induction false} NoStartsNoStarted(events: seq<PE.ProviderEvent>, i: nat)
    requires Law.Starts(events) == [] && i < |events|
    ensures !events[i].ToolCallStarted?
  {
    if i < |events| - 1 {
      NoStartsNoStarted(events[..|events| - 1], i);
    }
  }

  lemma CallIsSeen(events: seq<PE.ProviderEvent>, i: nat)
    requires i < |events| && AboutTools(events[i])
    ensures Law.Starts(events) != [] || Law.Reported(events) || !Law.AllLawful(events)
  {
    if Law.Starts(events) == [] && !events[i].ToolCallFailed? {
      NoStartsNoStarted(events, i);
      var id := events[i].id;
      KeepMembers(Law.IsAbout(id), events);
      assert events[i] in events && events[i] in Law.Own(events, id);
      var own := Law.Own(events, id);
      assert own[0] in own;
      var k :| 0 <= k < |events| && events[k] == own[0];
      NoStartsNoStarted(events, k);
      assert !Law.Lawful(own);
    }
  }

  // ----- the running state of an attempt -----------------------------------------------------------

  /** What is remembered about the events of an attempt. */
  datatype Flags = Flags(responseStarted: bool, firstEvent: bool, protocolDone: bool, streamCommitted: bool,
                         toolCallSeen: bool, outputTruncated: bool)

  ghost function FlagsOf(events: seq<PE.ProviderEvent>): Flags {
    Flags(PE.ResponseStarted in events, Began(events), PE.ProtocolDone in events, Committed(events),
          CalledTools(events), PE.OutputTruncated in events)
  }

  class Observer {
    var responseStarted: bool
    var firstEvent: bool
    var protocolDone: bool
    var streamCommitted: bool
    var toolCallSeen: bool
    var outputTruncated: bool
    const assembler: ToolCallAssembler
    var thinking: string
    var thinkingActive: bool
    var shown: seq<Shown>
    ghost var seen: seq<PE.ProviderEvent>

    ghost function View(): Flags
      reads this
    {
      Flags(responseStarted, firstEvent, protocolDone, streamCommitted, toolCallSeen, outputTruncated)
    }

    /** The user has been shown exactly the text and the thinking of these events. */
    ghost predicate Faithful(events: seq<PE.ProviderEvent>)
      reads this
    {
      && thinking == ThinkingText(events)
      && TextOf(shown) == Law.ShownText(events)
      && ThinkingOf(shown) == ThinkingText(events)
      && (thinkingActive <==> ThinkingOpen(shown))
      && Bracketed(shown)
    }

    ghost predicate Valid()
      reads this, assembler
    {
      View() == FlagsOf(seen) && Faithful(seen) && assembler.View() == Assembled(seen)
    }

    constructor ()
      ensures Valid() && seen == [] && fresh(assembler)
    {
      responseStarted, firstEvent, protocolDone := false, false, false;
      streamCommitted, toolCallSeen, outputTruncated := false, false, false;
      assembler := new ToolCallAssembler();
      thinking, thinkingActive, shown, seen := "", false, [], [];
    }

    method Observe(event: PE.ProviderEvent)
      requires View() == FlagsOf(seen)
      modifies this`responseStarted, this`firstEvent, this`protocolDone, this`streamCommitted, this`toolCallSeen,
        this`outputTruncated
      ensures View() == FlagsOf(seen + [event])
    {
      match event {
        case ResponseStarted => responseStarted := true;
        case ProtocolDone => protocolDone := true;
        case Usage =>
        case TextDelta(text) =>
          if text != "" {
            streamCommitted, firstEvent := true, true;
          }
        case ThinkingDelta(text) =>
          if text != "" {
            streamCommitted, firstEvent := true, true;
          }
        case OutputTruncated => outputTruncated, firstEvent := true, true;
        case _ => toolCallSeen, streamCommitted, firstEvent := true, true, true;
      }
      FlagsPush(seen, event);
    }

    method Show(s: Shown)
      requires Bracketed(shown) && (s.Text? ==> !ThinkingOpen(shown)) && (s.ThinkingFinished? ==> ThinkingOpen(shown))
      modifies this`shown
      ensures shown == old(shown) + [s] && Bracketed(shown)
      ensures TextOf(shown) == TextOf(old(shown)) + if s.Text? then s.text else ""
      ensures ThinkingOf(shown) == ThinkingOf(old(shown)) + if s.Thinking? then s.text else ""
      ensures ThinkingOpen(shown) <==> s.Thinking? || (s.Text? && ThinkingOpen(old(shown)))
    {
      ShownPush(shown, s);
      shown := shown + [s];
    }

    method FinishThinking(ghost events: seq<PE.ProviderEvent>)
      requires Faithful(events)
      modifies this`shown, this`thinkingActive
      ensures Faithful(events) && !thinkingActive
    {
      if thinkingActive {
        Show(ThinkingFinished);
        thinkingActive := false;
      }
    }

    method ConsumeThinking(delta: string, ghost events: seq<PE.ProviderEvent>)
      requires Faithful(events)
      modifies this`shown, this`thinkingActive, this`thinking
      ensures Faithful(events + [PE.ThinkingDelta(delta)])
    {
      ThinkingPush(events, PE.ThinkingDelta(delta));
      Law.StreamPush(events, PE.ThinkingDelta(delta));
      if delta != "" {
        thinking, thinkingActive := thinking + delta, true;
        Show(Thinking(delta));
      }
    }

    method ConsumeVisible(visible: Option<string>, ghost event: PE.ProviderEvent, ghost events: seq<PE.ProviderEvent>)
      requires Faithful(events) && visible == Visible(event) && !event.ThinkingDelta?
      modifies this`shown, this`thinkingActive
      ensures Faithful(events + [event])
    {
      ThinkingPush(events, event);
      Law.StreamPush(events, event);
      if visible.Some? {
        FinishThinking(events);
        Show(Text(visible.value));
      }
    }

    /** Observes an event and passes it on to the assembler and the user. */
    method Consume(event: PE.ProviderEvent)
      requires Valid()
      modifies this, assembler
      ensures Valid() && seen == old(seen) + [event]
    {
      AcceptAllPush(Empty, seen, event);
      Observe(event);
      if event.ThinkingDelta? {
        ConsumeThinking(event.text, seen);
      } else {
        var visible := assembler.AcceptEvent(event);
        ConsumeVisible(visible, event, seen);
      }
      seen := seen + [event];
    }
  }

  lemma FlagsPush(events: seq<PE.ProviderEvent>, e: PE.ProviderEvent)
    ensures var f, f' := FlagsOf(events), FlagsOf(events + [e]);
            && (f'.responseStarted <==> f.responseStarted || e.ResponseStarted?)
            && (f'.firstEvent <==> f.firstEvent || IsFirst(e))
            && (f'.protocolDone <==> f.protocolDone || e.ProtocolDone?)
            && (f'.streamCommitted <==> f.streamCommitted || Commits(e))
            && (f'.toolCallSeen <==> f.toolCallSeen || AboutTools(e))
            && (f'.outputTruncated <==> f.outputTruncated || e.OutputTruncated?)
  {
    SeenPush(events, e);
  }

  // ----- a whole attempt ---------------------------------------------------------------------------

  function Events(reply: Reply): seq<PE.ProviderEvent> {
    reply.before + reply.queued
  }

  /** The phase whose deadline expires, judged by the events received until then. */
  ghost function ExpiredPhase(before: seq<PE.ProviderEvent>): Phase {
    if PE.ResponseStarted !in before then Connect else if !Began(before) then FirstEvent else StreamIdle
  }

  /** What the attempt amounts to, from the provider's reply alone. */
  ghost function OutcomeOf<J>(reply: Reply, parser: Parser<J>): Outcome<J> {
    var events := Events(reply);
    match reply.ending
    case Failed(kind) => Refused(kind)
    case FailedOtherwise => Refused(Protocol)
    case CancelledMidway => Refused(Cancelled)
    case PhaseExpired => Refused(Timeout(ExpiredPhase(reply.before)))
    case OverallExpired => Refused(Timeout(Overall))
    case Finished =>
      if PE.ResponseStarted in events && PE.ProtocolDone !in events then Refused(Protocol)
      else
        Law.AlwaysWellFormed(events);
        Produced(Output(Finish(Assembled(events), parser),
                        if ThinkingText(events) == "" then None else Some(ThinkingText(events))))
  }

  datatype Report<J> = Report(outcome: Outcome<J>, committed: bool, toolSeen: bool, truncated: bool, shown: seq<Shown>)

  method Feed(observer: Observer, events: seq<PE.ProviderEvent>)
    requires observer.Valid()
    modifies observer, observer.assembler
    ensures observer.Valid() && observer.seen == old(observer.seen) + events
  {
    for i := 0 to |events|
      invariant observer.Valid() && observer.seen == old(observer.seen) + events[..i]
    {
      observer.Consume(events[i]);
      assert events[..i] + [events[i]] == events[..i + 1];
      assert old(observer.seen) + events[..i] + [events[i]] == old(observer.seen) + (events[..i] + [events[i]]);
    }
    assert events[..|events|] == events;
  }

  method Settle<J>(observer: Observer, ending: Ending, phase: Phase, parser: Parser<J>, ghost reply: Reply)
    returns (outcome: Outcome<J>)
    requires observer.Valid() && observer.seen == Events(reply)
    requires ending == reply.ending && phase == ExpiredPhase(reply.before)
    ensures outcome == OutcomeOf(reply, parser)
  {
    match ending {
      case Failed(kind) => outcome := Refused(kind);
      case FailedOtherwise => outcome := Refused(Protocol);
      case CancelledMidway => outcome := Refused(Cancelled);
      case PhaseExpired => outcome := Refused(Timeout(phase));
      case OverallExpired => outcome := Refused(Timeout(Overall));
      case Finished =>
        if observer.responseStarted && !observer.protocolDone {
          return Refused(Protocol);
        }
        Law.AlwaysWellFormed(observer.seen);
        var response := observer.assembler.FinishStream(parser);
        outcome := Produced(Output(response, if observer.thinking == "" then None else Some(observer.thinking)));
    }
  }

  method RequestModelOnce<J>(reply: Reply, parser: Parser<J>) returns (report: Report<J>)
    ensures report.outcome == OutcomeOf(reply, parser)
    ensures report.committed <==> Committed(Events(reply))
    ensures report.toolSeen <==> CalledTools(Events(reply))
    ensures report.truncated <==> PE.OutputTruncated in Events(reply)
    ensures TextOf(report.shown) == Law.ShownText(Events(reply))
    ensures ThinkingOf(report.shown) == ThinkingText(Events(reply))
    ensures Bracketed(report.shown) && !ThinkingOpen(report.shown)
  {
    var observer := new Observer();
    Feed(observer, reply.before);
    assert observer.seen == reply.before;
    var phase := if !observer.responseStarted then Connect else if !observer.firstEvent then FirstEvent else StreamIdle;
    Feed(observer, reply.queued);
    observer.FinishThinking(observer.seen);
    var outcome := Settle(observer, reply.ending, phase, parser, reply);
    report := Report(outcome, observer.streamCommitted, observer.toolCallSeen, observer.outputTruncated,
      observer.shown);
  }
}

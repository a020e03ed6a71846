/**
 What the assembler accepts, said without the assembler: each identity's own events must read
 "start, fragments, completion", and the batch is accepted exactly when that holds for all of them.
 */
module ToolCallLaw {
  import opened Basics
  import opened ProviderEvents
  import opened ToolCalls

  // ----- the events of one call ---------------------------------------------------------------

  function IsAbout(id: ExecutionIdentity): ProviderEvent -> bool {
    (e: ProviderEvent) => (e.ToolCallStarted? || e.ToolCallDelta? || e.ToolCallCompleted?) && e.id == id
  }

  function Own(events: seq<ProviderEvent>, id: ExecutionIdentity): seq<ProviderEvent> {
    Keep(IsAbout(id), events)
  }

  predicate IsSnapshot(e: ProviderEvent) {
    e.ToolCallDelta? && e.fragment.AuthoritativeSnapshot?
  }

  /** So far nothing is wrong with the call: it starts with a name, and nothing follows its end or its snapshot. */
  ghost predicate Lawful(own: seq<ProviderEvent>) {
    |own| > 0 ==>
      && own[0].ToolCallStarted? && !IsBlank(own[0].name)
      && (forall i :: 1 <= i < |own| ==> own[i].ToolCallDelta? || (own[i].ToolCallCompleted? && i == |own| - 1))
      && (forall i, j :: 1 <= i < j < |own| && IsSnapshot(own[i]) ==> !own[j].ToolCallDelta?)
  }

  predicate Ended(own: seq<ProviderEvent>) {
    |own| > 0 && own[|own| - 1].ToolCallCompleted?
  }

  predicate HasSnapshot(own: seq<ProviderEvent>) {
    exists i :: 0 <= i < |own| && IsSnapshot(own[i])
  }

  /** The argument text of a call: its fragments in order, or the snapshot that replaced them. */
  function ArgumentText(own: seq<ProviderEvent>): string {
    if |own| == 0 then ""
    else
      var front := own[..|own| - 1];
      match own[|own| - 1]
      case ToolCallDelta(_, Append(text)) => ArgumentText(front) + text
      case ToolCallDelta(_, AuthoritativeSnapshot(text)) => text
      case _ => ArgumentText(front)
  }

  /** What the assembler should remember of a lawful call that has started. */
  function Remembered(own: seq<ProviderEvent>): PendingCall
    requires |own| > 0 && own[0].ToolCallStarted?
  {
    PendingCall(own[0].name, ArgumentText(own), HasSnapshot(own), Ended(own))
  }

  // ----- the whole stream -------------------------------------------------------------------------

  function Starts(events: seq<ProviderEvent>): seq<ExecutionIdentity> {
    if |events| == 0 then []
    else Starts(events[..|events| - 1]) +
         if events[|events| - 1].ToolCallStarted? then [events[|events| - 1].id] else []
  }

  function ShownText(events: seq<ProviderEvent>): string {
    if |events| == 0 then ""
    else ShownText(events[..|events| - 1]) +
         if events[|events| - 1].TextDelta? then events[|events| - 1].text else ""
  }

  ghost predicate Reported(events: seq<ProviderEvent>) {
    exists i :: 0 <= i < |events| && events[i].ToolCallFailed?
  }

  ghost predicate Cut(events: seq<ProviderEvent>) {
    OutputTruncated in events
  }

  ghost predicate AllLawful(events: seq<ProviderEvent>) {
    forall id :: Lawful(Own(events, id))
  }

  /** The assembler remembers exactly the lawful story of every identity. */
  ghost predicate Agrees(a: Assembly, events: seq<ProviderEvent>, id: ExecutionIdentity) {
    var own := Own(events, id);
    && Lawful(own)
    && (id in a.calls <==> |own| > 0)
    && (id in a.calls ==> a.calls[id] == Remembered(own))
  }

  ghost predicate Faithful(a: Assembly, events: seq<ProviderEvent>) {
    && a.text == ShownText(events)
    && a.order == Starts(events)
    && (a.truncated <==> Cut(events))
    && WellFormed(a)
    && forall id :: Agrees(a, events, id)
  }

  lemma OwnPush(events: seq<ProviderEvent>, e: ProviderEvent, id: ExecutionIdentity)
    ensures Own(events + [e], id) == if IsAbout(id)(e) then Own(events, id) + [e] else Own(events, id)
  {
    assert (events + [e])[..|events + [e]| - 1] == events;
  }

  /** Adding one event of its own to a lawful call: when it stays lawful, and what is remembered. */
  lemma LawfulPush(own: seq<ProviderEvent>, e: ProviderEvent)
    requires Lawful(own) && (e.ToolCallStarted? || e.ToolCallDelta? || e.ToolCallCompleted?)
    ensures Lawful(own + [e]) <==>
            match e
            case ToolCallStarted(_, name) => own == [] && !IsBlank(name)
            case ToolCallDelta(_, _) => own != [] && !Ended(own) && !HasSnapshot(own)
            case ToolCallCompleted(_) => own != [] && !Ended(own)
            case _ => false
  {
    var longer := own + [e];
    assert longer[|own|] == e;
    assert forall i :: 0 <= i < |own| ==> longer[i] == own[i];
    if own != [] {
      assert longer[|own| - 1] == own[|own| - 1];
    }
    if HasSnapshot(own) {
      var i :| 0 <= i < |own| && IsSnapshot(own[i]);
      assert IsSnapshot(longer[i]);
    }
  }

  lemma RememberedPush(own: seq<ProviderEvent>, e: ProviderEvent)
    requires |own| > 0 && own[0].ToolCallStarted?
    ensures var r, r' := Remembered(own), Remembered(own + [e]);
            && r'.name == r.name
            && (e.ToolCallCompleted? ==> r' == r.(completed := true))
            && (e.ToolCallDelta? && e.fragment.Append? ==>
                  r' == r.(arguments := r.arguments + e.fragment.text, completed := false))
            && (IsSnapshot(e) ==> r' == r.(arguments := e.fragment.text, snapshotSeen := true, completed := false))
  {
    var longer := own + [e];
    assert longer[..|longer| - 1] == own;
    assert HasSnapshot(longer) <==> HasSnapshot(own) || IsSnapshot(e) by {
      if i :| 0 <= i < |own| && IsSnapshot(own[i]) {
        assert IsSnapshot(longer[i]);
      }
      if IsSnapshot(e) {
        assert IsSnapshot(longer[|own|]);
      }
    }
  }

  lemma LawfulIsPrefixClosed(own: seq<ProviderEvent>, e: ProviderEvent)
    requires Lawful(own + [e])
    ensures Lawful(own)
  {
    var longer := own + [e];
    assert forall i :: 0 <= i < |own| ==> longer[i] == own[i];
  }

  lemma FaithfulEmpty()
    ensures Faithful(Empty, [])
  {
    forall id ensures Agrees(Empty, [], id) {
      assert Own([], id) == [];
    }
  }

  lemma StreamPush(events: seq<ProviderEvent>, e: ProviderEvent)
    ensures Starts(events + [e]) == Starts(events) + if e.ToolCallStarted? then [e.id] else []
    ensures ShownText(events + [e]) == ShownText(events) + if e.TextDelta? then e.text else ""
    ensures Cut(events + [e]) <==> Cut(events) || e == OutputTruncated
    ensures Reported(events + [e]) <==> Reported(events) || e.ToolCallFailed?
  {
    var longer := events + [e];
    assert longer[..|longer| - 1] == events;
    if i :| 0 <= i < |events| && events[i].ToolCallFailed? {
      assert longer[i].ToolCallFailed?;
    }
    if e.ToolCallFailed? {
      assert longer[|events|].ToolCallFailed?;
    }
  }

  /** What is remembered of a call does not depend on events that are not about it. */
  lemma AgreesUntouched(a: Assembly, a': Assembly, events: seq<ProviderEvent>, e: ProviderEvent, id: ExecutionIdentity)
    requires Agrees(a, events, id) && !IsAbout(id)(e)
    requires id in a'.calls <==> id in a.calls
    requires id in a.calls ==> a'.calls[id] == a.calls[id]
    ensures Agrees(a', events + [e], id)
  {
    OwnPush(events, e, id);
  }

  lemma FaithfulOther(a: Assembly, events: seq<ProviderEvent>, e: ProviderEvent)
    requires a.failure.None? && Faithful(a, events)
    requires !e.ToolCallStarted? && !e.ToolCallDelta? && !e.ToolCallCompleted? && !e.ToolCallFailed?
    ensures Accept(a, e).failure.None? && Faithful(Accept(a, e), events + [e])
  {
    StreamPush(events, e);
    forall id ensures Agrees(Accept(a, e), events + [e], id) {
      AgreesUntouched(a, Accept(a, e), events, e, id);
    }
  }

  predicate AboutACall(e: ProviderEvent) {
    e.ToolCallStarted? || e.ToolCallDelta? || e.ToolCallCompleted?
  }

  lemma RememberedStart(e: ProviderEvent)
    requires e.ToolCallStarted?
    ensures Remembered([e]) == PendingCall(e.name, "", false, false)
  {
    var own := [e];
    assert own[..|own| - 1] == [];
    assert ArgumentText([]) == "";
    assert !HasSnapshot(own);
  }

  lemma AgreesStart(a: Assembly, events: seq<ProviderEvent>, e: ProviderEvent)
    requires a.failure.None? && e.ToolCallStarted? && Agrees(a, events, e.id)
    ensures Accept(a, e).failure.None? <==> Lawful(Own(events + [e], e.id))
    ensures Accept(a, e).failure.None? ==> Agrees(Accept(a, e), events + [e], e.id)
  {
    hide Trim, IsBlank;
    var own := Own(events, e.id);
    OwnPush(events, e, e.id);
    LawfulPush(own, e);
    TrimBlank(e.name);
    if own == [] {
      RememberedStart(e);
    }
  }

  lemma AgreesDelta(a: Assembly, events: seq<ProviderEvent>, e: ProviderEvent)
    requires a.failure.None? && e.ToolCallDelta? && Agrees(a, events, e.id)
    ensures Accept(a, e).failure.None? <==> Lawful(Own(events + [e], e.id))
    ensures Accept(a, e).failure.None? ==> Agrees(Accept(a, e), events + [e], e.id)
  {
    var own := Own(events, e.id);
    OwnPush(events, e, e.id);
    LawfulPush(own, e);
    if own != [] {
      RememberedPush(own, e);
    }
  }

  lemma AgreesComplete(a: Assembly, events: seq<ProviderEvent>, e: ProviderEvent)
    requires a.failure.None? && e.ToolCallCompleted? && Agrees(a, events, e.id)
    ensures Accept(a, e).failure.None? <==> Lawful(Own(events + [e], e.id))
    ensures Accept(a, e).failure.None? ==> Agrees(Accept(a, e), events + [e], e.id)
  {
    var own := Own(events, e.id);
    OwnPush(events, e, e.id);
    LawfulPush(own, e);
    if own != [] {
      RememberedPush(own, e);
    }
  }

  /** An event about a call is accepted exactly when that call stays lawful. */
  lemma AgreesOwn(a: Assembly, events: seq<ProviderEvent>, e: ProviderEvent)
    requires a.failure.None? && AboutACall(e) && Agrees(a, events, e.id)
    ensures Accept(a, e).failure.None? <==> Lawful(Own(events + [e], e.id))
    ensures Accept(a, e).failure.None? ==> Agrees(Accept(a, e), events + [e], e.id)
  {
    match e
    case ToolCallStarted(_, _) => AgreesStart(a, events, e);
    case ToolCallDelta(_, _) => AgreesDelta(a, events, e);
    case ToolCallCompleted(_) => AgreesComplete(a, events, e);
  }

  lemma AcceptKeepsOrder(a: Assembly, e: ProviderEvent)
    requires a.failure.None? && AboutACall(e) && WellFormed(a) && Accept(a, e).failure.None?
    ensures WellFormed(Accept(a, e))
    ensures Accept(a, e).order == (if e.ToolCallStarted? then a.order + [e.id] else a.order)
  {
    if e.ToolCallStarted? {
      assert e.id !in a.order;
    }
  }

  lemma AcceptFrame(a: Assembly, e: ProviderEvent)
    requires a.failure.None? && AboutACall(e) && Accept(a, e).failure.None?
    ensures var a' := Accept(a, e);
            && a'.text == a.text && a'.truncated == a.truncated
            && a'.calls - {e.id} == a.calls - {e.id}
  {
  }

  lemma FaithfulOwn(a: Assembly, events: seq<ProviderEvent>, e: ProviderEvent)
    requires a.failure.None? && Faithful(a, events) && AboutACall(e)
    requires Accept(a, e).failure.None?
    ensures Faithful(Accept(a, e), events + [e])
  {
    var a' := Accept(a, e);
    StreamPush(events, e);
    AcceptKeepsOrder(a, e);
    AcceptFrame(a, e);
    forall id ensures Agrees(a', events + [e], id) {
      if id == e.id {
        AgreesOwn(a, events, e);
      } else {
        assert id in a'.calls - {e.id} <==> id in a.calls - {e.id};
        assert id in a.calls ==> (a'.calls - {e.id})[id] == (a.calls - {e.id})[id];
        AgreesUntouched(a, a', events, e, id);
      }
    }
  }

  /** A failure stays the first one, and an unlawful call stays unlawful. */
  lemma FailureStays(a: Assembly, more: seq<ProviderEvent>)
    requires a.failure.Some?
    ensures AcceptAll(a, more) == a
  {
    if |more| > 0 {
      FailureStays(a, more[..|more| - 1]);
    }
  }

  lemma LawfulShrinks(events: seq<ProviderEvent>, e: ProviderEvent)
    requires AllLawful(events + [e])
    ensures AllLawful(events)
  {
    forall id ensures Lawful(Own(events, id)) {
      OwnPush(events, e, id);
      assert Lawful(Own(events + [e], id));
      if IsAbout(id)(e) {
        LawfulIsPrefixClosed(Own(events, id), e);
      }
    }
  }

  /** The assembler has not failed exactly when no failure was reported and every call is lawful. */
  lemma {:induction false} AssemblerIsFaithful(events: seq<ProviderEvent>)
    ensures Assembled(events).failure.None? <==> !Reported(events) && AllLawful(events)
    ensures Assembled(events).failure.None? ==> Faithful(Assembled(events), events)
  {
    if |events| == 0 {
      FaithfulEmpty();
    } else {
      var front, e := events[..|events| - 1], events[|events| - 1];
      assert events == front + [e];
      AssemblerIsFaithful(front);
      AcceptAllPush(Empty, front, e);
      AssemblerStep(front, e);
    }
  }

  lemma LawfulElsewhere(a: Assembly, events: seq<ProviderEvent>, e: ProviderEvent)
    requires Faithful(a, events)
    requires AboutACall(e) ==> Lawful(Own(events + [e], e.id))
    ensures AllLawful(events + [e])
  {
    forall id ensures Lawful(Own(events + [e], id)) {
      OwnPush(events, e, id);
      assert Agrees(a, events, id);
    }
  }

  lemma AssemblerStep(front: seq<ProviderEvent>, e: ProviderEvent)
    requires Assembled(front).failure.None? <==> !Reported(front) && AllLawful(front)
    requires Assembled(front).failure.None? ==> Faithful(Assembled(front), front)
    ensures var a := Accept(Assembled(front), e);
            && (a.failure.None? <==> !Reported(front + [e]) && AllLawful(front + [e]))
            && (a.failure.None? ==> Faithful(a, front + [e]))
  {
    var a := Assembled(front);
    StreamPush(front, e);
    if AllLawful(front + [e]) {
      LawfulShrinks(front, e);
    }
    if a.failure.None? && AboutACall(e) {
      assert Agrees(a, front, e.id);
      AgreesOwn(a, front, e);
      if Accept(a, e).failure.None? {
        LawfulElsewhere(a, front, e);
        FaithfulOwn(a, front, e);
      }
    } else if a.failure.None? && !e.ToolCallFailed? {
      LawfulElsewhere(a, front, e);
      FaithfulOther(a, front, e);
    }
  }

  // ----- the batch as a whole ------------------------------------------------------------------

  /** The order and the table of calls never disagree, failed or not, so the end of the stream can be decided. */
  lemma {:induction false} AlwaysWellFormed(events: seq<ProviderEvent>)
    ensures WellFormed(Assembled(events))
  {
    if |events| > 0 {
      AlwaysWellFormed(events[..|events| - 1]);
      AcceptWellFormed(Assembled(events[..|events| - 1]), events[|events| - 1]);
    }
  }

  lemma AcceptWellFormed(a: Assembly, e: ProviderEvent)
    requires WellFormed(a)
    ensures WellFormed(Accept(a, e))
  {
    if a.failure.None? && AboutACall(e) && Accept(a, e).failure.None? {
      AcceptKeepsOrder(a, e);
    }
  }

  /** The first failure decides the response, whatever follows it. */
  lemma FirstFailureWins<J>(events: seq<ProviderEvent>, more: seq<ProviderEvent>, parser: Parser<J>)
    requires Assembled(events).failure.Some?
    ensures WellFormed(Assembled(events + more))
    ensures Finish(Assembled(events + more), parser) == FailedResponse(Assembled(events).failure.value)
  {
    AlwaysWellFormed(events + more);
    AcceptAllConcat(Empty, events, more);
    FailureStays(Assembled(events), more);
  }

  /** The call of one identity, from its own events alone. */
  function OwnCall<J>(events: seq<ProviderEvent>, id: ExecutionIdentity, parser: Parser<J>): Option<ToolCall<J>> {
    var own := Own(events, id);
    var arguments := ParseArguments(parser, ArgumentText(own));
    if Ended(own) && own[0].ToolCallStarted? && arguments.Some?
    then Some(ToolCall(id, own[0].name, arguments.value))
    else None
  }

  ghost predicate IsBatch<J>(calls: seq<ToolCall<J>>, events: seq<ProviderEvent>, parser: Parser<J>) {
    && |calls| == |Starts(events)|
    && forall i :: 0 <= i < |calls| ==> OwnCall(events, Starts(events)[i], parser) == Some(calls[i])
  }

  ghost predicate Complete<J>(events: seq<ProviderEvent>, parser: Parser<J>) {
    forall i :: 0 <= i < |Starts(events)| ==> OwnCall(events, Starts(events)[i], parser).Some?
  }

  ghost predicate BatchFrom<J>(calls: seq<ToolCall<J>>, order: seq<ExecutionIdentity>, events: seq<ProviderEvent>,
      parser: Parser<J>, k: nat) {
    && k + |calls| == |order|
    && forall i :: 0 <= i < |calls| ==> OwnCall(events, order[k + i], parser) == Some(calls[i])
  }

  lemma OwnCallOf<J>(a: Assembly, events: seq<ProviderEvent>, parser: Parser<J>, id: ExecutionIdentity)
    requires Agrees(a, events, id) && id in a.calls && a.calls[id].completed
    ensures OwnCall(events, id, parser) ==
            match ParseArguments(parser, a.calls[id].arguments)
            case Some(arguments) => Some(ToolCall(id, a.calls[id].name, arguments))
            case None => None
  {
  }

  lemma BatchFromStep<J>(call: ToolCall<J>, rest: seq<ToolCall<J>>, order: seq<ExecutionIdentity>,
      events: seq<ProviderEvent>, parser: Parser<J>, k: nat)
    requires k < |order| && OwnCall(events, order[k], parser) == Some(call)
    requires BatchFrom(rest, order, events, parser, k + 1)
    ensures BatchFrom([call] + rest, order, events, parser, k)
  {
    var calls := [call] + rest;
    forall i | 0 <= i < |calls| ensures OwnCall(events, order[k + i], parser) == Some(calls[i]) {
      if i > 0 {
        assert OwnCall(events, order[k + 1 + (i - 1)], parser) == Some(rest[i - 1]);
      }
    }
  }

  lemma {:induction false} CallsFromMeaning<J>(a: Assembly, events: seq<ProviderEvent>, parser: Parser<J>, k: nat)
    requires Faithful(a, events) && k <= |a.order|
    requires forall id :: id in a.order ==> a.calls[id].completed
    ensures match CallsFrom(a, parser, k)
            case CallsResponse(calls) => BatchFrom(calls, a.order, events, parser, k)
            case FailedResponse(_) => exists i :: k <= i < |a.order| && OwnCall(events, a.order[i], parser).None?
            case TextResponse(_) => false
    decreases |a.order| - k
  {
    if k < |a.order| {
      var id := a.order[k];
      assert Agrees(a, events, id);
      OwnCallOf(a, events, parser, id);
      CallsFromMeaning(a, events, parser, k + 1);
      var here := OwnCall(events, id, parser);
      if here.Some? && CallsFrom(a, parser, k + 1).CallsResponse? {
        BatchFromStep(here.value, CallsFrom(a, parser, k + 1).calls, a.order, events, parser, k);
      }
    }
  }

  lemma FinishOfCompleted<J>(a: Assembly, events: seq<ProviderEvent>, parser: Parser<J>)
    requires a.failure.None? && !a.truncated && Faithful(a, events)
    requires forall id :: id in a.order ==> a.calls[id].completed
    ensures Finish(a, parser).CallsResponse? <==> Starts(events) != [] && Complete(events, parser)
    ensures Finish(a, parser).CallsResponse? ==> IsBatch(Finish(a, parser).calls, events, parser)
  {
    NoCallsNoOrder(a);
    CallsFromMeaning(a, events, parser, 0);
    match CallsFrom(a, parser, 0) {
      case CallsResponse(calls) =>
        forall i | 0 <= i < |calls| ensures OwnCall(events, Starts(events)[i], parser) == Some(calls[i]) {
          assert OwnCall(events, a.order[0 + i], parser) == Some(calls[i]);
        }
        assert IsBatch(calls, events, parser);
      case FailedResponse(_) =>
        var i :| 0 <= i < |a.order| && OwnCall(events, a.order[i], parser).None?;
        assert OwnCall(events, Starts(events)[i], parser).None?;
    }
  }

  lemma FinishOfOpen<J>(a: Assembly, events: seq<ProviderEvent>, parser: Parser<J>, id: ExecutionIdentity)
    requires Faithful(a, events)
    requires id in a.order && !a.calls[id].completed
    ensures !Complete(events, parser)
  {
    CompletedMeansEnded(a, events);
    var i :| 0 <= i < |a.order| && a.order[i] == id;
    assert OwnCall(events, Starts(events)[i], parser).None?;
  }

  /**
   All or nothing: a batch of calls comes back exactly when at least one call started, nothing was
   reported or cut, and every call that started ran lawfully to its end with arguments that parse.
   The batch then has one call for each start, in the order of the starts, each read from its own events.
   */
  lemma AllOrNothing<J>(events: seq<ProviderEvent>, parser: Parser<J>)
    ensures WellFormed(Assembled(events))
    ensures var response := Finish(Assembled(events), parser);
            && (response.CallsResponse? <==>
                  Starts(events) != [] && !Reported(events) && !Cut(events) && AllLawful(events) &&
                    Complete(events, parser))
            && (response.CallsResponse? ==> IsBatch(response.calls, events, parser))
  {
    AlwaysWellFormed(events);
    AssemblerIsFaithful(events);
    var a := Assembled(events);
    if a.failure.None? {
      NoCallsNoOrder(a);
      if forall id :: id in a.order ==> a.calls[id].completed {
        if !a.truncated {
          FinishOfCompleted(a, events, parser);
        }
      } else {
        var id :| id in a.order && !a.calls[id].completed;
        FinishOfOpen(a, events, parser, id);
      }
      assert a.failure.None? <==> !Reported(events) && AllLawful(events);
    }
  }

  /** Why an event that makes a lawful stream unlawful, or reports a failure, is refused. */
  ghost function Blame(own: seq<ProviderEvent>, e: ProviderEvent): ErrorCode
    requires AboutACall(e) || e.ToolCallFailed?
  {
    match e
    case ToolCallFailed(error) => error
    case ToolCallStarted(_, name) => if IsBlank(name) then MissingName else IdentityConflict
    case ToolCallDelta(_, fragment) =>
      if own == [] then AnonymousDelta
      else if Ended(own) then DeltaAfterComplete
      else if fragment.Append? then DeltaAfterSnapshot else DuplicateSnapshot
    case ToolCallCompleted(_) => if own == [] then CompleteWithoutStart else DuplicateComplete
  }

  /** The first failure of a stream is blamed on the event that caused it, whatever comes after it. */
  lemma FirstFailureCode<J>(front: seq<ProviderEvent>, e: ProviderEvent, more: seq<ProviderEvent>, parser: Parser<J>)
    requires !Reported(front) && AllLawful(front)
    requires e.ToolCallFailed? || (AboutACall(e) && !Lawful(Own(front + [e], e.id)))
    ensures WellFormed(Assembled(front + [e] + more))
    ensures Finish(Assembled(front + [e] + more), parser) ==
            FailedResponse(Blame(if e.ToolCallFailed? then [] else Own(front, e.id), e))
  {
    AssemblerIsFaithful(front);
    AcceptAllPush(Empty, front, e);
    if AboutACall(e) {
      var a := Assembled(front);
      assert Agrees(a, front, e.id);
      AgreesOwn(a, front, e);
      if e.ToolCallStarted? {
        TrimBlank(e.name);
      }
    }
    FirstFailureWins(front + [e], more, parser);
  }

  ghost predicate AllEnded(events: seq<ProviderEvent>) {
    forall i :: 0 <= i < |Starts(events)| ==> Ended(Own(events, Starts(events)[i]))
  }

  lemma CompletedIsAllEnded(a: Assembly, events: seq<ProviderEvent>)
    requires Faithful(a, events)
    ensures AllEnded(events) <==> forall id :: id in a.order ==> a.calls[id].completed
  {
    CompletedMeansEnded(a, events);
    if id :| id in a.order && !a.calls[id].completed {
      var i :| 0 <= i < |a.order| && a.order[i] == id;
      assert !Ended(Own(events, Starts(events)[i]));
    }
    if i :| 0 <= i < |Starts(events)| && !Ended(Own(events, Starts(events)[i])) {
      assert a.order[i] in a.order;
    }
  }

  lemma RefusalOfEnded<J>(a: Assembly, events: seq<ProviderEvent>, parser: Parser<J>)
    requires a.failure.None? && !a.truncated && Faithful(a, events)
    requires forall id :: id in a.order ==> a.calls[id].completed
    ensures Finish(a, parser).FailedResponse? <==> !Complete(events, parser)
    ensures Finish(a, parser).FailedResponse? ==> Finish(a, parser).error == InvalidJson
  {
    NoCallsNoOrder(a);
    FinishOfCompleted(a, events, parser);
    CallsFromMeaning(a, events, parser, 0);
    CallsFromCode(a, parser, 0);
  }

  /**
   A stream that reports nothing and whose calls are all lawful is refused for being cut, for a call that
   never ended, or for arguments that do not parse, in this order.
   */
  lemma RefusalOfALawfulStream<J>(events: seq<ProviderEvent>, parser: Parser<J>)
    requires !Reported(events) && AllLawful(events)
    ensures WellFormed(Assembled(events))
    ensures var response := Finish(Assembled(events), parser);
            var cut := Cut(events) && Starts(events) != [];
            && (response == FailedResponse(OutputCut) <==> cut)
            && (response == FailedResponse(IncompleteCall) <==> !cut && !AllEnded(events))
            && (response == FailedResponse(InvalidJson) <==> !cut && AllEnded(events) && !Complete(events, parser))
            && (response.FailedResponse? ==> response.error in {OutputCut, IncompleteCall, InvalidJson})
  {
    hide Complete, AllLawful, AllEnded, Own, CallsFrom;
    AssemblerIsFaithful(events);
    var a := Assembled(events);
    NoCallsNoOrder(a);
    CompletedIsAllEnded(a, events);
    if !a.truncated && forall id :: id in a.order ==> a.calls[id].completed {
      RefusalOfEnded(a, events, parser);
    } else if Starts(events) == [] {
      NothingStarted(events, parser);
    }
  }

  lemma NothingStarted<J>(events: seq<ProviderEvent>, parser: Parser<J>)
    requires Starts(events) == []
    ensures AllEnded(events) && Complete(events, parser)
  {}

  lemma {:induction false} CallsFromCode<J>(a: Assembly, parser: Parser<J>, k: nat)
    requires forall id :: id in a.order ==> id in a.calls
    ensures CallsFrom(a, parser, k).FailedResponse? ==> CallsFrom(a, parser, k).error == InvalidJson
    decreases |a.order| - k
  {
    if k < |a.order| {
      CallsFromCode(a, parser, k + 1);
    }
  }

  lemma NoCallsNoOrder(a: Assembly)
    requires WellFormed(a)
    ensures a.calls == map[] <==> a.order == []
  {
    if a.order != [] {
      assert a.order[0] in a.order;
    } else {
      assert forall id :: id !in a.calls;
    }
  }

  lemma CompletedMeansEnded(a: Assembly, events: seq<ProviderEvent>)
    requires Faithful(a, events)
    ensures forall id :: id in a.order ==> (a.calls[id].completed <==> Ended(Own(events, id)))
  {
    forall id | id in a.order ensures a.calls[id].completed <==> Ended(Own(events, id)) {
      assert Agrees(a, events, id);
    }
  }

  /** Text comes back exactly when nothing was reported and no call was started; it is all the text that was shown. */
  lemma TextOnly<J>(events: seq<ProviderEvent>, parser: Parser<J>)
    ensures WellFormed(Assembled(events))
    ensures var response := Finish(Assembled(events), parser);
            && (response.TextResponse? <==> Starts(events) == [] && !Reported(events) && AllLawful(events))
            && (response.TextResponse? ==> response.text == ShownText(events))
  {
    AlwaysWellFormed(events);
    AssemblerIsFaithful(events);
    var a := Assembled(events);
    NoCallsNoOrder(a);
    if a.failure.None? && a.calls != map[] {
      if forall id :: id in a.order ==> a.calls[id].completed {
        CallsFromMeaning(a, events, parser, 0);
      }
    }
  }
}

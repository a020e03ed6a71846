/** Providers that answer with a whole response: the response as a stream of events, and back again. */
module LegacyStream {
  import opened Basics
  import opened ProviderEvents
  import opened ToolCalls
  import ToolCallLaw
  import opened Identity

  datatype LegacyCall<J> = LegacyCall(id: string, name: string, arguments: J)

  datatype LegacyResponse<J> =
    | LegacyText(text: string)
    | LegacyCalls(calls: seq<LegacyCall<J>>)
    | LegacyFailure(error: ErrorCode)

  /**
   The identity a call of this response gets: its id decoded, or its position when it has none, or its id
   as it is.
   */
  function IdentityOf(domain: ApiType, id: string, position: nat): ExecutionIdentity {
    var decoded := DecodeIdentity(id);
    if decoded.Some? then decoded.value
    else if id == "" then ExecutionIdentity(domain, Position(position))
    else ExecutionIdentity(domain, WireId(id))
  }

  function CallEvents<J>(domain: ApiType, call: LegacyCall<J>, position: nat, show: J -> string): seq<ProviderEvent> {
    var id := IdentityOf(domain, call.id, position);
    [ToolCallStarted(id, call.name), ToolCallDelta(id, AuthoritativeSnapshot(show(call.arguments))),
      ToolCallCompleted(id)]
  }

  function BatchEvents<J>(domain: ApiType, calls: seq<LegacyCall<J>>, show: J -> string): seq<ProviderEvent> {
    if |calls| == 0 then []
    else BatchEvents(domain, calls[..|calls| - 1], show) + CallEvents(domain, calls[|calls| - 1], |calls| - 1, show)
  }

  function LegacyEvents<J>(domain: ApiType, response: LegacyResponse<J>, show: J -> string): seq<ProviderEvent> {
    match response
    case LegacyText(text) => [TextDelta(text)]
    case LegacyCalls(calls) =>
      if |calls| == 0 then [ToolCallFailed(EmptyToolCalls)] else BatchEvents(domain, calls, show)
    case LegacyFailure(error) => [ToolCallFailed(error)]
  }

  method EmitLegacyResponse<J>(domain: ApiType, response: LegacyResponse<J>, show: J -> string)
    returns (sent: seq<ProviderEvent>)
    ensures sent == LegacyEvents(domain, response, show)
  {
    match response {
      case LegacyText(text) =>
        sent := [TextDelta(text)];
      case LegacyCalls(calls) =>
        if |calls| == 0 {
          return [ToolCallFailed(EmptyToolCalls)];
        }
        sent := EmitCalls(domain, calls, show);
      case LegacyFailure(error) =>
        sent := [ToolCallFailed(error)];
    }
  }

  method EmitCalls<J>(domain: ApiType, calls: seq<LegacyCall<J>>, show: J -> string) returns (sent: seq<ProviderEvent>)
    ensures sent == BatchEvents(domain, calls, show)
  {
    sent := [];
    for position := 0 to |calls|
      invariant sent == BatchEvents(domain, calls[..position], show)
    {
      var call := calls[position];
      var id := IdentityOf(domain, call.id, position);
      ghost var before, front := sent, calls[..position + 1];
      sent := sent + [ToolCallStarted(id, call.name)];
      sent := sent + [ToolCallDelta(id, AuthoritativeSnapshot(show(call.arguments)))];
      sent := sent + [ToolCallCompleted(id)];
      assert sent == before + CallEvents(domain, call, position, show);
      assert front[..|front| - 1] == calls[..position];
    }
    assert calls[..|calls|] == calls;
  }

  // ----- the batch comes back ---------------------------------------------------------------------

  function Identities<J>(domain: ApiType, calls: seq<LegacyCall<J>>): seq<ExecutionIdentity> {
    seq(|calls|, i requires 0 <= i < |calls| => IdentityOf(domain, calls[i].id, i))
  }

  ghost predicate NoRepeats(ids: seq<ExecutionIdentity>) {
    forall i, j :: 0 <= i < j < |ids| ==> ids[i] != ids[j]
  }

  ghost predicate Distinct<J>(domain: ApiType, calls: seq<LegacyCall<J>>) {
    NoRepeats(Identities(domain, calls))
  }

  ghost predicate AllNamed<J>(calls: seq<LegacyCall<J>>) {
    forall i :: 0 <= i < |calls| ==> !IsBlank(calls[i].name)
  }

  /** What the assembler holds after the events of a proper batch: each call, complete, in order. */
  ghost predicate Holds<J>(a: Assembly, domain: ApiType, calls: seq<LegacyCall<J>>, show: J -> string) {
    && a.failure.None? && !a.truncated
    && |a.order| == |calls|
    && (forall i :: 0 <= i < |calls| ==> HoldsCall(a, domain, calls, show, i))
    && (forall id :: id in a.calls ==> id in a.order)
  }

  ghost predicate HoldsCall<J>(a: Assembly, domain: ApiType, calls: seq<LegacyCall<J>>, show: J -> string, i: nat)
    requires i < |calls| && i < |a.order|
  {
    var id := IdentityOf(domain, calls[i].id, i);
    && a.order[i] == id
    && id in a.calls
    && a.calls[id] == PendingCall(calls[i].name, show(calls[i].arguments), true, true)
  }

  lemma AcceptCall<J>(a: Assembly, domain: ApiType, call: LegacyCall<J>, position: nat, show: J -> string)
    requires a.failure.None?
    ensures var id := IdentityOf(domain, call.id, position);
            var a' := AcceptAll(a, CallEvents(domain, call, position, show));
            if IsBlank(call.name) then a'.failure == Some(MissingName)
            else if id in a.calls then a'.failure == Some(IdentityConflict)
            else a' == a.(order := a.order + [id],
                          calls := a.calls[id := PendingCall(call.name, show(call.arguments), true, true)])
  {
    var id := IdentityOf(domain, call.id, position);
    var events := CallEvents(domain, call, position, show);
    TrimBlank(call.name);
    assert events[..2][..1] == [events[0]] && [events[0]][..0] == [];
    assert AcceptAll(a, []) == a;
    assert AcceptAll(a, [events[0]]) == Accept(a, events[0]);
    assert AcceptAll(a, events[..2]) == Accept(Accept(a, events[0]), events[1]);
    if !IsBlank(call.name) && id !in a.calls {
      var whole := PendingCall(call.name, show(call.arguments), true, true);
      assert Accept(Accept(Accept(a, events[0]), events[1]), events[2]).calls == a.calls[id := whole];
    }
  }

  lemma FailureRemains(a: Assembly, events: seq<ProviderEvent>)
    requires a.failure.Some?
    ensures AcceptAll(a, events) == a
  {
    if |events| > 0 {
      FailureRemains(a, events[..|events| - 1]);
    }
  }

  lemma HoldsStep<J>(a: Assembly, domain: ApiType, calls: seq<LegacyCall<J>>, call: LegacyCall<J>, show: J -> string)
    requires Holds(a, domain, calls, show)
    requires !IsBlank(call.name) && IdentityOf(domain, call.id, |calls|) !in a.calls
    ensures Holds(AcceptAll(a, CallEvents(domain, call, |calls|, show)), domain, calls + [call], show)
  {
    AcceptCall(a, domain, call, |calls|, show);
    var a', longer := AcceptAll(a, CallEvents(domain, call, |calls|, show)), calls + [call];
    forall i | 0 <= i < |longer| ensures HoldsCall(a', domain, longer, show, i) {
      if i < |calls| {
        assert HoldsCall(a, domain, calls, show, i);
      }
    }
  }

  lemma SeenBefore<J>(a: Assembly, domain: ApiType, calls: seq<LegacyCall<J>>, show: J -> string, id: ExecutionIdentity)
    requires Holds(a, domain, calls, show)
    ensures id in a.calls <==> id in Identities(domain, calls)
  {
    if id in a.calls {
      var i :| 0 <= i < |a.order| && a.order[i] == id;
      assert HoldsCall(a, domain, calls, show, i);
      assert Identities(domain, calls)[i] == id;
    }
    if id in Identities(domain, calls) {
      var i :| 0 <= i < |calls| && Identities(domain, calls)[i] == id;
      assert HoldsCall(a, domain, calls, show, i);
    }
  }

  lemma NoRepeatsPush(ids: seq<ExecutionIdentity>, id: ExecutionIdentity)
    ensures NoRepeats(ids + [id]) <==> NoRepeats(ids) && id !in ids
  {
    var longer := ids + [id];
    assert longer[|ids|] == id;
    assert forall i :: 0 <= i < |ids| ==> longer[i] == ids[i];
  }

  lemma ProperPush<J>(domain: ApiType, calls: seq<LegacyCall<J>>, call: LegacyCall<J>)
    ensures AllNamed(calls + [call]) <==> AllNamed(calls) && !IsBlank(call.name)
    ensures Distinct(domain, calls + [call]) <==>
            Distinct(domain, calls) && IdentityOf(domain, call.id, |calls|) !in Identities(domain, calls)
  {
    var longer := calls + [call];
    assert longer[|calls|] == call;
    assert forall i :: 0 <= i < |calls| ==> longer[i] == calls[i];
    assert Identities(domain, longer) == Identities(domain, calls) + [IdentityOf(domain, call.id, |calls|)];
    NoRepeatsPush(Identities(domain, calls), IdentityOf(domain, call.id, |calls|));
  }

  lemma {:induction false} BatchIsHeld<J>(domain: ApiType, calls: seq<LegacyCall<J>>, show: J -> string)
    ensures var a := Assembled(BatchEvents(domain, calls, show));
            if AllNamed(calls) && Distinct(domain, calls) then Holds(a, domain, calls, show) else a.failure.Some?
  {
    if |calls| > 0 {
      var front, call := calls[..|calls| - 1], calls[|calls| - 1];
      assert calls == front + [call];
      BatchIsHeld(domain, front, show);
      var a, events := Assembled(BatchEvents(domain, front, show)), CallEvents(domain, call, |front|, show);
      AcceptAllConcat(Empty, BatchEvents(domain, front, show), events);
      ProperPush(domain, front, call);
      if a.failure.Some? {
        FailureRemains(a, events);
      } else {
        SeenBefore(a, domain, front, show, IdentityOf(domain, call.id, |front|));
        AcceptCall(a, domain, call, |front|, show);
        if AllNamed(calls) && Distinct(domain, calls) {
          HoldsStep(a, domain, front, call, show);
        }
      }
    }
  }

  /** Printing and parsing of arguments agree, and no printed value is blank. */
  ghost predicate Codec<J(!new)>(show: J -> string, parser: Parser<J>) {
    forall j :: parser.parse(show(j)) == Some(j) && !IsBlank(show(j))
  }

  function Returned<J>(domain: ApiType, calls: seq<LegacyCall<J>>): seq<ToolCall<J>> {
    seq(|calls|, i requires 0 <= i < |calls| =>
      ToolCall(IdentityOf(domain, calls[i].id, i), calls[i].name, calls[i].arguments))
  }

  lemma {:induction false} HeldCallsComeBack<J(!new)>(a: Assembly, domain: ApiType, calls: seq<LegacyCall<J>>,
      show: J -> string, parser: Parser<J>, k: nat)
    requires Holds(a, domain, calls, show) && Codec(show, parser) && k <= |calls|
    requires forall id :: id in a.order ==> id in a.calls
    ensures CallsFrom(a, parser, k) == CallsResponse(Returned(domain, calls)[k..])
    decreases |calls| - k
  {
    if k < |calls| {
      HeldCallsComeBack(a, domain, calls, show, parser, k + 1);
      assert HoldsCall(a, domain, calls, show, k);
      TrimBlank(show(calls[k].arguments));
    }
  }

  /**
   A non-empty batch comes back from its own events, with the same names and arguments in the same
   order, exactly when every name is non-blank and no two calls get the same identity.
   */
  lemma LegacyRoundTrip<J(!new)>(domain: ApiType, calls: seq<LegacyCall<J>>, show: J -> string, parser: Parser<J>)
    requires Codec(show, parser) && |calls| > 0
    ensures var a := Assembled(LegacyEvents(domain, LegacyCalls(calls), show));
            && WellFormed(a)
            && (AllNamed(calls) && Distinct(domain, calls) ==>
                 Finish(a, parser) == CallsResponse(Returned(domain, calls)))
            && (Finish(a, parser).CallsResponse? ==> AllNamed(calls) && Distinct(domain, calls))
  {
    BatchIsHeld(domain, calls, show);
    var events := BatchEvents(domain, calls, show);
    var a := Assembled(events);
    ToolCallLaw.AlwaysWellFormed(events);
    if AllNamed(calls) && Distinct(domain, calls) {
      HeldCallsComeBack(a, domain, calls, show, parser, 0);
      assert HoldsCall(a, domain, calls, show, 0);
      forall id | id in a.order ensures a.calls[id].completed {
        var i :| 0 <= i < |a.order| && a.order[i] == id;
        assert HoldsCall(a, domain, calls, show, i);
      }
    }
  }

  /** Otherwise the first call with a blank name or an identity that came before decides the refusal. */
  lemma ImproperBatchIsRefused<J>(domain: ApiType, calls: seq<LegacyCall<J>>, show: J -> string, parser: Parser<J>,
      k: nat)
    requires k < |calls| && AllNamed(calls[..k]) && Distinct(domain, calls[..k])
    requires IsBlank(calls[k].name) || IdentityOf(domain, calls[k].id, k) in Identities(domain, calls[..k])
    ensures var a := Assembled(LegacyEvents(domain, LegacyCalls(calls), show));
            && WellFormed(a)
            && Finish(a, parser) ==
               FailedResponse(if IsBlank(calls[k].name) then MissingName else IdentityConflict)
  {
    var front, events := calls[..k], CallEvents(domain, calls[k], k, show);
    var a := Assembled(BatchEvents(domain, front, show));
    BatchIsHeld(domain, front, show);
    SeenBefore(a, domain, front, show, IdentityOf(domain, calls[k].id, k));
    AcceptCall(a, domain, calls[k], k, show);
    AcceptAllConcat(Empty, BatchEvents(domain, front, show), events);
    assert calls[..k + 1][..k] == front;
    var more := BatchContinues(domain, calls, k + 1, show);
    ToolCallLaw.FirstFailureWins(BatchEvents(domain, calls[..k + 1], show), more, parser);
  }

  lemma {:induction false} BatchContinues<J>(domain: ApiType, calls: seq<LegacyCall<J>>, k: nat, show: J -> string)
    returns (more: seq<ProviderEvent>)
    requires k <= |calls|
    ensures BatchEvents(domain, calls, show) == BatchEvents(domain, calls[..k], show) + more
  {
    if k == |calls| {
      more := [];
      assert calls[..k] == calls;
    } else {
      var n := |calls| - 1;
      more := BatchContinues(domain, calls[..n], k, show);
      assert calls[..n][..k] == calls[..k];
      assert BatchEvents(domain, calls[..k], show) + more + CallEvents(domain, calls[n], n, show) ==
             BatchEvents(domain, calls[..k], show) + (more + CallEvents(domain, calls[n], n, show));
      more := more + CallEvents(domain, calls[n], n, show);
    }
  }

  /** A text comes back as it was, a failure as that failure, and an empty batch is neither a batch nor a text. */
  lemma OthersComeBack<J>(domain: ApiType, text: string, error: ErrorCode, show: J -> string, parser: Parser<J>)
    ensures var a := Assembled(LegacyEvents(domain, LegacyText(text), show));
            WellFormed(a) && Finish(a, parser) == TextResponse(text)
    ensures var a := Assembled(LegacyEvents(domain, LegacyFailure(error), show));
            WellFormed(a) && Finish(a, parser) == FailedResponse(error)
    ensures var a := Assembled(LegacyEvents(domain, LegacyCalls([]), show));
            WellFormed(a) && Finish(a, parser) == FailedResponse(EmptyToolCalls)
  {
    OneEvent(TextDelta(text));
    OneEvent(ToolCallFailed(error));
    OneEvent(ToolCallFailed(EmptyToolCalls));
    assert "" + text == text;
  }

  lemma OneEvent(e: ProviderEvent)
    ensures Assembled([e]) == Accept(Empty, e)
  {
    assert [e] == [] + [e];
    AcceptAllPush(Empty, [], e);
    assert Assembled([]) == Empty;
  }

  /** An id that prints the identity the other call gets from its plain id, or from having none. */
  predicate Prints(x: string, domain: ApiType, y: string, position: nat) {
    && DecodeIdentity(y).None?
    && DecodeIdentity(x) == Some(ExecutionIdentity(domain, if y == "" then Position(position) else WireId(y)))
  }

  /**
   Two calls of a response get the same identity exactly when they have the same id, and one at all; or two
   ids that print the same identity; or one id that prints what the other call is given.
   */
  lemma SameIdentityExactly(domain: ApiType, x: string, i: nat, y: string, j: nat)
    requires i != j
    ensures IdentityOf(domain, x, i) == IdentityOf(domain, y, j) <==>
            || (x == y && x != "")
            || (DecodeIdentity(x).Some? && DecodeIdentity(x) == DecodeIdentity(y))
            || Prints(x, domain, y, j) || Prints(y, domain, x, i)
  {
    NoColonNoIdentity("");
  }

  /**
   Where no id looks like a printed identity, a batch is distinct exactly when no two calls share an id,
   no id aside.
   */
  lemma PlainIdsAreDistinct<J>(domain: ApiType, calls: seq<LegacyCall<J>>)
    requires forall i :: 0 <= i < |calls| ==> DecodeIdentity(calls[i].id).None?
    ensures Distinct(domain, calls) <==>
            forall i, j :: 0 <= i < j < |calls| && calls[i].id == calls[j].id ==> calls[i].id == ""
  {
    var ids := Identities(domain, calls);
    forall i, j | 0 <= i < j < |calls|
      ensures ids[i] == ids[j] <==> calls[i].id == calls[j].id != ""
    {
      SameIdentityExactly(domain, calls[i].id, i, calls[j].id, j);
    }
  }

  /** Different id strings are not enough: a printed position collides with the position of a call without id. */
  lemma DistinctIdsCanCollide<J>(arguments: J)
    ensures var x := LegacyCall(EncodeIdentity(ExecutionIdentity(Ollama, Position(1))), "first", arguments);
            var y := LegacyCall("", "second", arguments);
            x.id != y.id && !Distinct(Ollama, [x, y])
  {
    var position := ExecutionIdentity(Ollama, Position(1));
    IdentityRoundTrip(position);
    assert DecodeIdentity("").None?;
    var x := LegacyCall(EncodeIdentity(position), "first", arguments);
    var y := LegacyCall("", "second", arguments);
    var ids := Identities(Ollama, [x, y]);
    assert ids[0] == IdentityOf(Ollama, x.id, 0) && ids[1] == IdentityOf(Ollama, y.id, 1);
    assert ids[0] == ids[1];
    assert EncodeIdentity(position)[0] == 't';
  }
}

/**
 The assembler that turns a stream of provider events into one response: text, or a batch of tool
 calls that is accepted as a whole or refused as a whole.
 */
module ToolCalls {
  import opened Basics
  import opened ProviderEvents

  datatype PendingCall = PendingCall(name: string, arguments: string, snapshotSeen: bool, completed: bool)

  datatype Assembly = Assembly(
    text: string, calls: map<ExecutionIdentity, PendingCall>, order: seq<ExecutionIdentity>,
    failure: Option<ErrorCode>, truncated: bool)

  const Empty := Assembly("", map[], [], None, false)

  /** Parsed arguments are kept abstract: J is the type of JSON values. */
  datatype ToolCall<J> = ToolCall(id: ExecutionIdentity, name: string, arguments: J)

  datatype Response<J> =
    | TextResponse(text: string)
    | CallsResponse(calls: seq<ToolCall<J>>)
    | FailedResponse(error: ErrorCode)

  /** How argument texts are parsed; a blank text stands for the empty object. */
  datatype Parser<!J> = Parser(parse: string -> Option<J>, emptyObject: J)

  function ParseArguments<J>(parser: Parser<J>, text: string): Option<J> {
    if Trim(text) == "" then Some(parser.emptyObject) else parser.parse(text)
  }

  // ----- the transition of one event ------------------------------------------------------

  function Fail(a: Assembly, code: ErrorCode): Assembly {
    if a.failure.None? then a.(failure := Some(code)) else a
  }

  function AcceptStart(a: Assembly, id: ExecutionIdentity, name: string): Assembly {
    if Trim(name) == "" then Fail(a, MissingName)
    else if id in a.calls then Fail(a, IdentityConflict)
    else a.(order := a.order + [id], calls := a.calls[id := PendingCall(name, "", false, false)])
  }

  function AcceptDelta(a: Assembly, id: ExecutionIdentity, fragment: Fragment): Assembly {
    if id !in a.calls then Fail(a, AnonymousDelta)
    else
      var call := a.calls[id];
      if call.completed then Fail(a, DeltaAfterComplete)
      else
        match fragment
        case Append(text) =>
          if call.snapshotSeen then Fail(a, DeltaAfterSnapshot)
          else a.(calls := a.calls[id := call.(arguments := call.arguments + text)])
        case AuthoritativeSnapshot(text) =>
          if call.snapshotSeen then Fail(a, DuplicateSnapshot)
          else a.(calls := a.calls[id := call.(arguments := text, snapshotSeen := true)])
  }

  function AcceptComplete(a: Assembly, id: ExecutionIdentity): Assembly {
    if id !in a.calls then Fail(a, CompleteWithoutStart)
    else if a.calls[id].completed then Fail(a, DuplicateComplete)
    else a.(calls := a.calls[id := a.calls[id].(completed := true)])
  }

  function Accept(a: Assembly, e: ProviderEvent): Assembly {
    if a.failure.Some? then a
    else
      match e
      case TextDelta(text) => a.(text := a.text + text)
      case OutputTruncated => a.(truncated := true)
      case ToolCallStarted(id, name) => AcceptStart(a, id, name)
      case ToolCallDelta(id, fragment) => AcceptDelta(a, id, fragment)
      case ToolCallCompleted(id) => AcceptComplete(a, id)
      case ToolCallFailed(error) => a.(failure := Some(error))
      case _ => a
  }

  /** The text an event lets through to the user. */
  function Visible(e: ProviderEvent): Option<string> {
    if e.TextDelta? then Some(e.text) else None
  }

  function AcceptAll(a: Assembly, events: seq<ProviderEvent>): Assembly {
    if |events| == 0 then a else Accept(AcceptAll(a, events[..|events| - 1]), events[|events| - 1])
  }

  function Assembled(events: seq<ProviderEvent>): Assembly {
    AcceptAll(Empty, events)
  }

  lemma AcceptAllPush(a: Assembly, events: seq<ProviderEvent>, e: ProviderEvent)
    ensures AcceptAll(a, events + [e]) == Accept(AcceptAll(a, events), e)
  {
    assert (events + [e])[..|events + [e]| - 1] == events;
  }

  lemma {:induction false} AcceptAllConcat(a: Assembly, x: seq<ProviderEvent>, y: seq<ProviderEvent>)
    ensures AcceptAll(a, x + y) == AcceptAll(AcceptAll(a, x), y)
  {
    if |y| == 0 {
      assert x + y == x;
    } else {
      assert (x + y)[..|x + y| - 1] == x + y[..|y| - 1];
      AcceptAllConcat(a, x, y[..|y| - 1]);
    }
  }

  // ----- the end of the stream --------------------------------------------------------------

  ghost predicate WellFormed(a: Assembly) {
    && (forall id :: id in a.calls <==> id in a.order)
    && (forall i, j :: 0 <= i < j < |a.order| ==> a.order[i] != a.order[j])
  }

  /** The calls from position k of the order on, or the first reason to refuse them. */
  function CallsFrom<J>(a: Assembly, parser: Parser<J>, k: nat): Response<J>
    requires forall id :: id in a.order ==> id in a.calls
    decreases |a.order| - k
  {
    if k >= |a.order| then CallsResponse([])
    else
      var id := a.order[k];
      var arguments := ParseArguments(parser, a.calls[id].arguments);
      if arguments.None? then FailedResponse(InvalidJson)
      else
        match CallsFrom(a, parser, k + 1)
        case CallsResponse(rest) => CallsResponse([ToolCall(id, a.calls[id].name, arguments.value)] + rest)
        case other => other
  }

  function Finish<J>(a: Assembly, parser: Parser<J>): Response<J>
    requires forall id :: id in a.order ==> id in a.calls
  {
    if a.failure.Some? then FailedResponse(a.failure.value)
    else if a.truncated && a.calls != map[] then FailedResponse(OutputCut)
    else if exists id :: id in a.order && !a.calls[id].completed then FailedResponse(IncompleteCall)
    else if a.calls == map[] then TextResponse(a.text)
    else CallsFrom(a, parser, 0)
  }

  class ToolCallAssembler {
    var text: string
    var calls: map<ExecutionIdentity, PendingCall>
    var order: seq<ExecutionIdentity>
    var failure: Option<ErrorCode>
    var truncated: bool

    ghost function View(): Assembly
      reads this
    {
      Assembly(text, calls, order, failure, truncated)
    }

    constructor ()
      ensures View() == Empty
    {
      text, calls, order, failure, truncated := "", map[], [], None, false;
    }

    method AcceptEvent(event: ProviderEvent) returns (visible: Option<string>)
      modifies this
      ensures View() == Accept(old(View()), event)
      ensures visible == Visible(event)
    {
      visible := None;
      if failure.Some? {
        return Visible(event);
      }
      match event {
        case TextDelta(delta) =>
          text := text + delta;
          visible := Some(delta);
        case OutputTruncated =>
          truncated := true;
        case ToolCallStarted(id, name) =>
          if Trim(name) == "" {
            failure := Some(MissingName);
          } else if id in calls {
            failure := Some(IdentityConflict);
          } else {
            order := order + [id];
            calls := calls[id := PendingCall(name, "", false, false)];
          }
        case ToolCallDelta(id, fragment) =>
          AcceptFragment(id, fragment);
        case ToolCallCompleted(id) =>
          if id !in calls {
            failure := Some(CompleteWithoutStart);
          } else if calls[id].completed {
            failure := Some(DuplicateComplete);
          } else {
            calls := calls[id := calls[id].(completed := true)];
          }
        case ToolCallFailed(error) =>
          failure := Some(error);
        case _ =>
      }
    }

    method AcceptFragment(id: ExecutionIdentity, fragment: Fragment)
      requires failure.None?
      modifies this
      ensures View() == AcceptDelta(old(View()), id, fragment)
    {
      if id !in calls {
        failure := Some(AnonymousDelta);
      } else {
        var call := calls[id];
        if call.completed {
          failure := Some(DeltaAfterComplete);
        } else {
          match fragment {
            case Append(more) =>
              if call.snapshotSeen {
                failure := Some(DeltaAfterSnapshot);
              } else {
                calls := calls[id := call.(arguments := call.arguments + more)];
              }
            case AuthoritativeSnapshot(whole) =>
              if call.snapshotSeen {
                failure := Some(DuplicateSnapshot);
              } else {
                calls := calls[id := call.(arguments := whole, snapshotSeen := true)];
              }
          }
        }
      }
    }

    method FinishStream<J>(parser: Parser<J>) returns (response: Response<J>)
      requires WellFormed(View())
      ensures response == Finish(View(), parser)
    {
      if failure.Some? {
        return FailedResponse(failure.value);
      }
      if truncated && calls != map[] {
        return FailedResponse(OutputCut);
      }
      for i := 0 to |order|
        invariant forall k :: 0 <= k < i ==> calls[order[k]].completed
      {
        if !calls[order[i]].completed {
          return FailedResponse(IncompleteCall);
        }
      }
      if calls == map[] {
        return TextResponse(text);
      }
      var output: seq<ToolCall<J>> := [];
      for i := 0 to |order|
        invariant match CallsFrom(View(), parser, i) {
                    case CallsResponse(rest) => CallsFrom(View(), parser, 0) == CallsResponse(output + rest)
                    case failed => CallsFrom(View(), parser, 0) == failed
                  }
      {
        var arguments := ParseArguments(parser, calls[order[i]].arguments);
        if arguments.None? {
          return FailedResponse(InvalidJson);
        }
        ghost var was := output;
        output := output + [ToolCall(order[i], calls[order[i]].name, arguments.value)];
        assert forall rest: seq<ToolCall<J>> ::
            was + ([ToolCall(order[i], calls[order[i]].name, arguments.value)] + rest) == output + rest;
      }
      assert output + [] == output;
      response := CallsResponse(output);
    }
  }
}

/**
 The adapter that turns the lines of an Anthropic event stream into provider events, and the coupling
 of its table of open content blocks with the assembler that reads those events.
 */
module AnthropicStream {
  import opened Basics
  import opened ProviderEvents
  import opened ToolCalls

  // ----- what a line can say ------------------------------------------------------------------

  datatype Block =
    | TextBlock(text: Option<string>)
    | ThinkingBlock(thinking: Option<string>)
    | ToolUse(id: Option<string>, name: Option<string>)
    | OtherBlock

  datatype Piece =
    | TextPiece(text: Option<string>)
    | ThinkingPiece(thinking: Option<string>)
    | JsonPiece(partialJson: Option<string>)
    | OtherPiece

  /** The parts of a JSON payload that the adapter looks at. An index that is not a u64 counts as missing. */
  datatype Payload =
    | MessageStart(usage: bool)
    | BlockStart(index: Option<nat>, block: Block)
    | BlockDelta(index: Option<nat>, piece: Piece)
    | BlockStop(index: Option<nat>)
    | MessageDelta(usage: bool, stopReason: Option<string>)
    | ErrorReport
    | MessageStop
    | OtherPayload

  datatype Fault = Transport | NotJson | ServerReported | NoMessageStop

  /**
   The state of one response: open blocks, whether message_stop was seen, the events sent, and why
   reading stopped.
   */
  datatype Flow = Flow(tools: map<nat, ExecutionIdentity>, done: bool, sent: seq<ProviderEvent>, fault: Option<Fault>)

  const Begin := Flow(map[], false, [], None)

  function IndexOf(index: Option<nat>): nat {
    if index.Some? then index.value else 0
  }

  function Wire(id: string): ExecutionIdentity {
    ExecutionIdentity(AnthropicMessages, WireId(id))
  }

  function Send(f: Flow, e: ProviderEvent): Flow {
    f.(sent := f.sent + [e])
  }

  function SendText(f: Flow, text: Option<string>): Flow {
    if text.Some? then Send(f, TextDelta(text.value)) else f
  }

  function SendThinking(f: Flow, thinking: Option<string>): Flow {
    if thinking.Some? && thinking.value != "" then Send(f, ThinkingDelta(thinking.value)) else f
  }

  function SendUsage(f: Flow, usage: bool): Flow {
    if usage then Send(f, Usage) else f
  }

  // ----- one payload ----------------------------------------------------------------------------

  function StartTool(f: Flow, index: nat, id: Option<string>, name: Option<string>): Flow {
    if id.None? then Send(f, ToolCallFailed(MissingId))
    else if name.None? then Send(f, ToolCallFailed(MissingName))
    else
      var inserted := f.(tools := f.tools[index := Wire(id.value)]);
      if index in f.tools then Send(inserted, ToolCallFailed(IdentityConflict))
      else Send(inserted, ToolCallStarted(Wire(id.value), name.value))
  }

  function StartBlock(f: Flow, index: nat, block: Block): Flow {
    match block
    case TextBlock(text) => if text == Some("") then f else SendText(f, text)
    case ThinkingBlock(thinking) => SendThinking(f, thinking)
    case ToolUse(id, name) => StartTool(f, index, id, name)
    case OtherBlock => f
  }

  function ContinueTool(f: Flow, index: nat, partialJson: Option<string>): Flow {
    if index !in f.tools then Send(f, ToolCallFailed(AnonymousDelta))
    else Send(f, ToolCallDelta(f.tools[index], Append(if partialJson.Some? then partialJson.value else "")))
  }

  function ContinueBlock(f: Flow, index: nat, piece: Piece): Flow {
    match piece
    case TextPiece(text) => SendText(f, text)
    case ThinkingPiece(thinking) => SendThinking(f, thinking)
    case JsonPiece(partialJson) => ContinueTool(f, index, partialJson)
    case OtherPiece => f
  }

  function StopBlock(f: Flow, index: nat): Flow {
    if index in f.tools then Send(f.(tools := f.tools - {index}), ToolCallCompleted(f.tools[index])) else f
  }

  function ConsumePayload(f: Flow, p: Payload): Flow {
    if f.fault.Some? then f
    else
      match p
      case MessageStart(usage) => SendUsage(f, usage)
      case BlockStart(index, block) => StartBlock(f, IndexOf(index), block)
      case BlockDelta(index, piece) => ContinueBlock(f, IndexOf(index), piece)
      case BlockStop(index) => StopBlock(f, IndexOf(index))
      case MessageDelta(usage, stopReason) =>
        var counted := SendUsage(f, usage);
        if stopReason == Some("max_tokens") then Send(counted, OutputTruncated) else counted
      case ErrorReport => f.(fault := Some(ServerReported))
      case MessageStop => Send(f.(done := true), ProtocolDone)
      case OtherPayload => f
  }

  function ConsumeAll(f: Flow, payloads: seq<Payload>): Flow {
    if |payloads| == 0 then f
    else ConsumePayload(ConsumeAll(f, payloads[..|payloads| - 1]), payloads[|payloads| - 1])
  }

  /** The end of the bytes: blocks still open are reported, and a missing message_stop is a fault. */
  function EndOfStream(f: Flow): Flow {
    if f.fault.Some? then f
    else
      var reported := if f.tools == map[] then f else Send(f, ToolCallFailed(IncompleteCall));
      if f.done then reported else reported.(fault := Some(NoMessageStop))
  }

  function ReadAll(payloads: seq<Payload>): Flow {
    EndOfStream(ConsumeAll(Begin, payloads))
  }

  // ----- one line -----------------------------------------------------------------------------

  /** How bytes become text and text becomes a payload; neither conversion is part of this model. */
  datatype Reader = Reader(text: seq<bv8> -> string, payload: string -> Option<Payload>)

  datatype LineMeaning = Skipped | Data(payload: Payload) | Garbage

  function Meaning(reader: Reader, line: seq<bv8>): LineMeaning {
    var text := reader.text(line);
    if !("data:" <= text) then Skipped
    else
      var data := TrimStart(text[5..]);
      if data == "" || data == "[DONE]" then Skipped
      else
        var payload := reader.payload(data);
        if payload.Some? then Data(payload.value) else Garbage
  }

  /**
   A line is data when it starts with "data:"; whitespace before the data is dropped, an empty rest and the
   closing "[DONE]" are skipped, and anything else must be a payload.
   */
  lemma MeaningOfALine(reader: Reader, line: seq<bv8>, blanks: string, data: string)
    requires IsBlank(blanks) && (data != "" ==> !IsWhitespace(data[0]))
    ensures !("data:" <= reader.text(line)) ==> Meaning(reader, line) == Skipped
    ensures reader.text(line) == "data:" + blanks + data ==>
              Meaning(reader, line) ==
              if data == "" || data == "[DONE]" then Skipped
              else if reader.payload(data).Some? then Data(reader.payload(data).value) else Garbage
  {
    TrimBlanks(blanks, data);
    assert ("data:" + blanks + data)[5..] == blanks + data;
  }

  lemma {:induction false} TrimBlanks(blanks: string, data: string)
    requires IsBlank(blanks) && (data != "" ==> !IsWhitespace(data[0]))
    ensures TrimStart(blanks + data) == data
  {
    if blanks == "" {
      assert blanks + data == data;
    } else {
      assert (blanks + data)[1..] == blanks[1..] + data;
      TrimBlanks(blanks[1..], data);
    }
  }

  function ConsumeLine(f: Flow, reader: Reader, line: seq<bv8>): Flow {
    if f.fault.Some? then f
    else
      match Meaning(reader, line)
      case Skipped => f
      case Garbage => f.(fault := Some(NotJson))
      case Data(payload) => ConsumePayload(f, payload)
  }

  class StreamState {
    var tools: map<nat, ExecutionIdentity>
    var done: bool
    var sent: seq<ProviderEvent>

    ghost function View(fault: Option<Fault>): Flow
      reads this
    {
      Flow(tools, done, sent, fault)
    }

    constructor ()
      ensures View(None) == Begin
    {
      tools, done, sent := map[], false, [];
    }

    method ConsumeSseLine(reader: Reader, line: seq<bv8>) returns (fault: Option<Fault>)
      modifies this
      ensures View(fault) == ConsumeLine(old(View(None)), reader, line)
    {
      fault := None;
      match Meaning(reader, line) {
        case Skipped =>
        case Garbage =>
          fault := Some(NotJson);
        case Data(MessageStart(usage)) =>
          EmitUsage(usage);
        case Data(BlockStart(index, block)) =>
          StartContentBlock(IndexOf(index), block);
        case Data(BlockDelta(index, piece)) =>
          ConsumeContentDelta(IndexOf(index), piece);
        case Data(BlockStop(index)) =>
          StopContentBlock(IndexOf(index));
        case Data(MessageDelta(usage, stopReason)) =>
          EmitUsage(usage);
          if stopReason == Some("max_tokens") {
            sent := sent + [OutputTruncated];
          }
        case Data(ErrorReport) =>
          fault := Some(ServerReported);
        case Data(MessageStop) =>
          done := true;
          sent := sent + [ProtocolDone];
        case Data(OtherPayload) =>
      }
    }

    method EmitUsage(usage: bool)
      modifies this
      ensures View(None) == SendUsage(old(View(None)), usage)
    {
      if usage {
        sent := sent + [Usage];
      }
    }

    method StartContentBlock(index: nat, block: Block)
      modifies this
      ensures View(None) == StartBlock(old(View(None)), index, block)
    {
      match block {
        case TextBlock(text) =>
          if text.Some? && text.value != "" {
            sent := sent + [TextDelta(text.value)];
          }
        case ThinkingBlock(thinking) =>
          if thinking.Some? && thinking.value != "" {
            sent := sent + [ThinkingDelta(thinking.value)];
          }
        case ToolUse(id, name) =>
          if id.None? {
            sent := sent + [ToolCallFailed(MissingId)];
          } else if name.None? {
            sent := sent + [ToolCallFailed(MissingName)];
          } else {
            var alreadyOpen := index in tools;
            tools := tools[index := Wire(id.value)];
            if alreadyOpen {
              sent := sent + [ToolCallFailed(IdentityConflict)];
            } else {
              sent := sent + [ToolCallStarted(Wire(id.value), name.value)];
            }
          }
        case OtherBlock =>
      }
    }

    method ConsumeContentDelta(index: nat, piece: Piece)
      modifies this
      ensures View(None) == ContinueBlock(old(View(None)), index, piece)
    {
      match piece {
        case TextPiece(text) =>
          if text.Some? {
            sent := sent + [TextDelta(text.value)];
          }
        case ThinkingPiece(thinking) =>
          if thinking.Some? && thinking.value != "" {
            sent := sent + [ThinkingDelta(thinking.value)];
          }
        case JsonPiece(partialJson) =>
          if index !in tools {
            sent := sent + [ToolCallFailed(AnonymousDelta)];
          } else {
            var fragment := if partialJson.Some? then partialJson.value else "";
            sent := sent + [ToolCallDelta(tools[index], Append(fragment))];
          }
        case OtherPiece =>
      }
    }

    method StopContentBlock(index: nat)
      modifies this
      ensures View(None) == StopBlock(old(View(None)), index)
    {
      if index in tools {
        var id := tools[index];
        tools := tools - {index};
        sent := sent + [ToolCallCompleted(id)];
      }
    }
  }

  // ----- the coupling of the two state machines ----------------------------------------------------

  ghost predicate OpenExactly(tools: map<nat, ExecutionIdentity>, a: Assembly) {
    && (forall i, j :: i in tools && j in tools && i != j ==> tools[i] != tools[j])
    && (forall i :: i in tools ==> tools[i] in a.calls && !a.calls[tools[i]].completed)
    && (forall id :: id in a.calls && !a.calls[id].completed ==> exists i :: i in tools && tools[i] == id)
    && (forall id :: id in a.calls ==> !a.calls[id].snapshotSeen)
  }

  /** A failure of the assembler is one the adapter reported, a blank name, or a wire id used twice. */
  ghost predicate Blameless(events: seq<ProviderEvent>, a: Assembly) {
    a.failure.Some? ==> ToolCallFailed(a.failure.value) in events || a.failure.value in {MissingName, IdentityConflict}
  }

  ghost predicate Coupled(f: Flow) {
    var a := Assembled(f.sent);
    && Blameless(f.sent, a)
    && (a.failure.None? ==> OpenExactly(f.tools, a))
  }

  lemma SendAccepts(f: Flow, e: ProviderEvent)
    ensures Assembled(Send(f, e).sent) == Accept(Assembled(f.sent), e)
  {
    AcceptAllPush(Empty, f.sent, e);
  }

  /** Events that are not about calls keep the coupling. */
  lemma CoupledSend(f: Flow, e: ProviderEvent)
    requires Coupled(f)
    requires e.ResponseStarted? || e.ProtocolDone? || e.Usage? || e.TextDelta? || e.ThinkingDelta? || e.OutputTruncated?
    ensures Coupled(Send(f, e))
  {
    SendAccepts(f, e);
  }

  /** A reported failure is the assembler's first failure, or comes after one. */
  lemma CoupledFail(f: Flow, tools: map<nat, ExecutionIdentity>, code: ErrorCode)
    requires Coupled(f)
    ensures Coupled(Send(f.(tools := tools), ToolCallFailed(code)))
  {
    SendAccepts(f, ToolCallFailed(code));
  }

  lemma CoupledStart(f: Flow, index: nat, id: Option<string>, name: Option<string>)
    requires Coupled(f)
    ensures Coupled(StartTool(f, index, id, name))
  {
    if id.None? {
      CoupledFail(f, f.tools, MissingId);
    } else if name.None? {
      CoupledFail(f, f.tools, MissingName);
    } else if index in f.tools {
      CoupledFail(f, f.tools[index := Wire(id.value)], IdentityConflict);
    } else {
      CoupledFresh(f, index, Wire(id.value), name.value);
    }
  }

  /** A new open call under a new index keeps table and assembler the same. */
  lemma OpenOneMore(tools: map<nat, ExecutionIdentity>, a: Assembly, a': Assembly, index: nat, id: ExecutionIdentity)
    requires OpenExactly(tools, a) && index !in tools && id !in a.calls
    requires a'.calls.Keys == a.calls.Keys + {id} && !a'.calls[id].completed && !a'.calls[id].snapshotSeen
    requires forall x :: x in a.calls ==> a'.calls[x] == a.calls[x]
    ensures OpenExactly(tools[index := id], a')
  {
    var tools' := tools[index := id];
    forall x | x in a'.calls && !a'.calls[x].completed ensures exists i :: i in tools' && tools'[i] == x {
      if x == id {
        assert index in tools' && tools'[index] == x;
      } else {
        var i :| i in tools && tools[i] == x;
        assert i in tools' && tools'[i] == x;
      }
    }
  }

  lemma AcceptedStart(a: Assembly, id: ExecutionIdentity, name: string)
    requires a.failure.None? && Accept(a, ToolCallStarted(id, name)).failure.None?
    ensures var a' := Accept(a, ToolCallStarted(id, name));
            && id !in a.calls
            && a'.calls.Keys == a.calls.Keys + {id} && !a'.calls[id].completed && !a'.calls[id].snapshotSeen
            && forall x :: x in a.calls ==> a'.calls[x] == a.calls[x]
  {
  }

  lemma CoupledFresh(f: Flow, index: nat, id: ExecutionIdentity, name: string)
    requires Coupled(f) && index !in f.tools
    ensures Coupled(Send(f.(tools := f.tools[index := id]), ToolCallStarted(id, name)))
  {
    var a, a' := Assembled(f.sent), Accept(Assembled(f.sent), ToolCallStarted(id, name));
    SendAccepts(f, ToolCallStarted(id, name));
    if a'.failure.None? {
      AcceptedStart(a, id, name);
      OpenOneMore(f.tools, a, a', index, id);
    }
  }

  lemma CoupledContinue(f: Flow, index: nat, partialJson: Option<string>)
    requires Coupled(f)
    ensures Coupled(ContinueTool(f, index, partialJson))
  {
    if index !in f.tools {
      CoupledFail(f, f.tools, AnonymousDelta);
    } else {
      SendAccepts(f, ToolCallDelta(f.tools[index], Append(if partialJson.Some? then partialJson.value else "")));
    }
  }

  lemma CoupledStop(f: Flow, index: nat)
    requires Coupled(f)
    ensures Coupled(StopBlock(f, index))
  {
    if index in f.tools {
      var e := ToolCallCompleted(f.tools[index]);
      SendAccepts(f, e);
      var a, a' := Assembled(f.sent), Accept(Assembled(f.sent), e);
      var tools' := f.tools - {index};
      if a'.failure.None? {
        forall x | x in a'.calls && !a'.calls[x].completed ensures exists i :: i in tools' && tools'[i] == x {
          var i :| i in f.tools && f.tools[i] == x;
          assert i in tools' && tools'[i] == x;
        }
      }
    }
  }

  lemma CoupledPayload(f: Flow, p: Payload)
    requires Coupled(f)
    ensures Coupled(ConsumePayload(f, p))
  {
    match p
    case MessageStart(_) => CoupledSend(f, Usage);
    case BlockStart(index, ToolUse(id, name)) => CoupledStart(f, IndexOf(index), id, name);
    case BlockStart(_, TextBlock(text)) => if text.Some? { CoupledSend(f, TextDelta(text.value)); }
    case BlockStart(_, ThinkingBlock(text)) => if text.Some? { CoupledSend(f, ThinkingDelta(text.value)); }
    case BlockDelta(index, JsonPiece(json)) => CoupledContinue(f, IndexOf(index), json);
    case BlockDelta(_, TextPiece(text)) => if text.Some? { CoupledSend(f, TextDelta(text.value)); }
    case BlockDelta(_, ThinkingPiece(text)) => if text.Some? { CoupledSend(f, ThinkingDelta(text.value)); }
    case BlockStop(index) => CoupledStop(f, IndexOf(index));
    case MessageDelta(usage, _) =>
      CoupledSend(f, Usage);
      CoupledSend(SendUsage(f, usage), OutputTruncated);
    case MessageStop => CoupledSend(f.(done := true), ProtocolDone);
    case _ =>
  }

  /**
   After every payload of every stream, the open blocks of the adapter are exactly the calls the
   assembler has started and not completed, unless the assembler has failed, and then only for a
   failure the adapter reported, a blank name or a repeated wire id.
   */
  lemma {:induction false} CouplingAlways(payloads: seq<Payload>)
    ensures Coupled(ConsumeAll(Begin, payloads))
  {
    if |payloads| == 0 {
      assert Assembled([]) == Empty;
    } else {
      CouplingAlways(payloads[..|payloads| - 1]);
      CoupledPayload(ConsumeAll(Begin, payloads[..|payloads| - 1]), payloads[|payloads| - 1]);
    }
  }

  /** So the adapter never makes the assembler itself report an event out of order. */
  lemma NeverOutOfOrder(payloads: seq<Payload>)
    ensures var a := Assembled(ReadAll(payloads).sent);
            && (a.failure.Some? ==>
                  a.failure.value in {MissingId, MissingName, IdentityConflict, AnonymousDelta, IncompleteCall})
            && (a.failure == Some(AnonymousDelta) ==> ToolCallFailed(AnonymousDelta) in ReadAll(payloads).sent)
  {
    CouplingAlways(payloads);
    var f := ConsumeAll(Begin, payloads);
    CodesSent(payloads);
    SendAccepts(f, ToolCallFailed(IncompleteCall));
  }

  ghost predicate KnownCodes(sent: seq<ProviderEvent>) {
    forall code :: ToolCallFailed(code) in sent ==> code in {MissingId, MissingName, IdentityConflict, AnonymousDelta}
  }

  lemma CodesStep(f: Flow, p: Payload)
    requires KnownCodes(f.sent)
    ensures KnownCodes(ConsumePayload(f, p).sent)
  {
  }

  lemma {:induction false} CodesSent(payloads: seq<Payload>)
    ensures KnownCodes(ConsumeAll(Begin, payloads).sent)
  {
    if |payloads| > 0 {
      CodesSent(payloads[..|payloads| - 1]);
      CodesStep(ConsumeAll(Begin, payloads[..|payloads| - 1]), payloads[|payloads| - 1]);
    }
  }
}

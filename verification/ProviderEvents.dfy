/** The events a model provider streams, and the identities of the tool calls in them. */
module ProviderEvents {

  datatype ApiType = OpenaiChat | AnthropicMessages | Ollama

  datatype IdentitySource = WireId(id: string) | Position(position: nat)

  datatype ExecutionIdentity = ExecutionIdentity(domain: ApiType, source: IdentitySource)

  datatype Fragment = Append(text: string) | AuthoritativeSnapshot(text: string)

  datatype ErrorCode =
    | MissingId | MissingName | EmptyToolCalls | IdentityConflict
    | AnonymousDelta | DeltaAfterComplete | DeltaAfterSnapshot | DuplicateSnapshot
    | CompleteWithoutStart | DuplicateComplete
    | IncompleteCall | OutputCut | InvalidJson

  datatype ProviderEvent =
    | ResponseStarted
    | ProtocolDone
    | Usage
    | TextDelta(text: string)
    | ThinkingDelta(text: string)
    | OutputTruncated
    | ToolCallStarted(id: ExecutionIdentity, name: string)
    | ToolCallDelta(id: ExecutionIdentity, fragment: Fragment)
    | ToolCallCompleted(id: ExecutionIdentity)
    | ToolCallFailed(error: ErrorCode)

  /** The characters trimmed from the ends of a name or of an argument text. */
  predicate IsWhitespace(c: char) {
    var u := c as int;
    0x09 <= u <= 0x0D || u in {0x20, 0x85, 0xA0, 0x1680, 0x2028, 0x2029, 0x202F, 0x205F, 0x3000} ||
      0x2000 <= u <= 0x200A
  }

  predicate IsBlank(s: string) {
    forall i :: 0 <= i < |s| ==> IsWhitespace(s[i])
  }

  function TrimStart(s: string): string {
    if |s| > 0 && IsWhitespace(s[0]) then TrimStart(s[1..]) else s
  }

  function TrimEnd(s: string): string {
    if |s| > 0 && IsWhitespace(s[|s| - 1]) then TrimEnd(s[..|s| - 1]) else s
  }

  function Trim(s: string): string {
    TrimEnd(TrimStart(s))
  }

  /** A trimmed text is empty exactly when the text is blank. */
  lemma {:induction false} TrimBlank(s: string)
    ensures Trim(s) == "" <==> IsBlank(s)
  {
    if |s| > 0 && IsWhitespace(s[0]) {
      TrimBlank(s[1..]);
      assert s == [s[0]] + s[1..];
    } else if |s| > 0 {
      TrimEndKeepsFirst(s);
    }
  }

  lemma {:induction false} TrimEndKeepsFirst(s: string)
    requires |s| > 0 && !IsWhitespace(s[0])
    ensures |TrimEnd(s)| > 0
  {
    if |s| > 1 && IsWhitespace(s[|s| - 1]) {
      TrimEndKeepsFirst(s[..|s| - 1]);
    }
  }
}

/** The printed form of an execution identity, and the parser that reads it back. */
module Identity {
  import opened Basics
  import opened ProviderEvents
  import opened Decimal
  import Utf8
  import opened Base64Url

  function DomainName(domain: ApiType): string {
    match domain
    case OpenaiChat => "openai-chat"
    case AnthropicMessages => "anthropic-messages"
    case Ollama => "ollama"
  }

  function Lower(s: string): string {
    seq(|s|, i requires 0 <= i < |s| => if 'A' <= s[i] <= 'Z' then (s[i] as int + 32) as char else s[i])
  }

  function ParseDomain(s: string): Option<ApiType> {
    var name := Lower(Trim(s));
    if name == "openai-chat" then Some(OpenaiChat)
    else if name == "anthropic-messages" then Some(AnthropicMessages)
    else if name == "ollama" then Some(Ollama)
    else None
  }

  function Format(domain: ApiType, kind: string, source: string): string {
    "tc1" + (":" + (DomainName(domain) + (":" + (kind + (":" + source)))))
  }

  function EncodeIdentity(x: ExecutionIdentity): string {
    match x.source
    case WireId(id) => Format(x.domain, "id", EncodeBase64(Utf8.Encode(id)))
    case Position(position) => Format(x.domain, "pos", Print(position))
  }

  /** The position of the first colon, or the length when there is none. */
  function FirstColon(s: string): (n: nat)
    ensures n <= |s| && (n < |s| ==> s[n] == ':') && forall i :: 0 <= i < n ==> s[i] != ':'
  {
    if |s| == 0 || s[0] == ':' then 0
    else
      var n := FirstColon(s[1..]);
      assert forall i :: 1 <= i < n + 1 ==> s[i] == s[1..][i - 1];
      n + 1
  }

  function DecodeSource(kind: string, source: string): Option<IdentitySource> {
    if kind == "id" then
      var bytes := DecodeBase64(source);
      if bytes.None? then None
      else
        var id := Utf8.Decode(bytes.value);
        if id.None? then None else Some(WireId(id.value))
    else if kind == "pos" then
      var position := ParseU64(source);
      if position.None? then None else Some(Position(position.value))
    else None
  }

  datatype Parts = Parts(before: string, after: string)

  function CutAtFirstColon(s: string): Option<Parts> {
    var n := FirstColon(s);
    if n == |s| then None else Some(Parts(s[..n], s[n + 1..]))
  }

  function DecodeAfterDomain(domain: ApiType, s: string): Option<ExecutionIdentity> {
    var parts := CutAtFirstColon(s);
    if parts.None? then None
    else
      var source := DecodeSource(parts.value.before, parts.value.after);
      if source.None? then None else Some(ExecutionIdentity(domain, source.value))
  }

  function DecodeAfterTag(s: string): Option<ExecutionIdentity> {
    var parts := CutAtFirstColon(s);
    if parts.None? || ParseDomain(parts.value.before).None? then None
    else DecodeAfterDomain(ParseDomain(parts.value.before).value, parts.value.after)
  }

  /** Four parts separated by the first three colons. */
  function DecodeIdentity(value: string): Option<ExecutionIdentity> {
    var parts := CutAtFirstColon(value);
    if parts.None? || parts.value.before != "tc1" then None
    else DecodeAfterTag(parts.value.after)
  }

  /** The identities a u64 position can express. */
  predicate Expressible(x: ExecutionIdentity) {
    x.source.Position? ==> x.source.position < U64_LIMIT
  }

  lemma {:induction false} ColonAt(s: string, n: nat)
    requires n < |s| && s[n] == ':' && forall i :: 0 <= i < n ==> s[i] != ':'
    ensures FirstColon(s) == n
  {
    if n > 0 {
      ColonAt(s[1..], n - 1);
    }
  }

  lemma CutAtColon(before: string, after: string)
    requires forall i :: 0 <= i < |before| ==> before[i] != ':'
    ensures CutAtFirstColon(before + (":" + after)) == Some(Parts(before, after))
  {
    var s := before + (":" + after);
    ColonAt(s, |before|);
    assert s[..|before|] == before && s[|before| + 1..] == after;
  }

  lemma TrimmedAlready(name: string)
    requires |name| > 0 && !IsWhitespace(name[0]) && !IsWhitespace(name[|name| - 1])
    ensures Trim(name) == name
  {
  }

  lemma LowerAlready(name: string)
    requires forall i :: 0 <= i < |name| ==> !('A' <= name[i] <= 'Z')
    ensures Lower(name) == name
  {
  }

  lemma DomainRoundTrip(domain: ApiType)
    ensures ParseDomain(DomainName(domain)) == Some(domain)
    ensures forall i :: 0 <= i < |DomainName(domain)| ==> DomainName(domain)[i] != ':'
  {
    var name := DomainName(domain);
    TrimmedAlready(name);
    LowerAlready(name);
  }

  lemma SourceRoundTrip(x: ExecutionIdentity)
    requires Expressible(x)
    ensures match x.source
            case WireId(id) => DecodeSource("id", EncodeBase64(Utf8.Encode(id))) == Some(x.source)
            case Position(position) => DecodeSource("pos", Print(position)) == Some(x.source)
  {
    match x.source
    case WireId(id) =>
      Base64RoundTrip(Utf8.Encode(id));
      Utf8.RoundTrip(id);
    case Position(position) =>
      ParsePrint(position);
  }

  lemma DecodeParts(domain: ApiType, kind: string, source: string)
    requires forall i :: 0 <= i < |kind| ==> kind[i] != ':'
    ensures DecodeIdentity(Format(domain, kind, source)) ==
            match DecodeSource(kind, source)
            case Some(s) => Some(ExecutionIdentity(domain, s))
            case None => None
  {
    CutAtColon("tc1", DomainName(domain) + (":" + (kind + (":" + source))));
    DomainRoundTrip(domain);
    CutAtColon(DomainName(domain), kind + (":" + source));
    CutAtColon(kind, source);
  }

  /** Every identity is read back from its printed form. */
  lemma IdentityRoundTrip(x: ExecutionIdentity)
    requires Expressible(x)
    ensures DecodeIdentity(EncodeIdentity(x)) == Some(x)
  {
    SourceRoundTrip(x);
    match x.source
    case WireId(id) =>
      DecodeParts(x.domain, "id", EncodeBase64(Utf8.Encode(id)));
    case Position(position) =>
      DecodeParts(x.domain, "pos", Print(position));
  }

  /** So different identities print differently. */
  lemma EncodingIsInjective(x: ExecutionIdentity, y: ExecutionIdentity)
    requires Expressible(x) && Expressible(y)
    ensures EncodeIdentity(x) == EncodeIdentity(y) <==> x == y
  {
    IdentityRoundTrip(x);
    IdentityRoundTrip(y);
  }

  // ----- the id sent back to the provider -----------------------------------------------------------

  function OutboundWireId(internalId: string): Option<string> {
    var x := DecodeIdentity(internalId);
    if x.Some? && x.value.source.WireId? then Some(x.value.source.id)
    else if internalId != "" then Some(internalId)
    else None
  }

  function PositionWireId(value: string): string {
    match DecodeIdentity(value)
    case Some(ExecutionIdentity(_, Position(position))) => "toolu_pos_" + Print(position)
    case Some(ExecutionIdentity(_, WireId(id))) => id
    case None => value
  }

  /** The id an Anthropic request carries for a call. */
  function RequestId(internalId: string): string {
    var wire := OutboundWireId(internalId);
    if wire.Some? then wire.value else PositionWireId(internalId)
  }

  /** The id it carries for a tool result, which may come without one. */
  function ResultId(callId: Option<string>): string {
    var wire := if callId.Some? then OutboundWireId(callId.value) else None;
    if wire.Some? then wire.value else PositionWireId(if callId.Some? then callId.value else "tool")
  }

  /**
   A wire id goes back to the provider as it came. A position does not become "toolu_pos_n": the
   printed identity itself is sent, because the fallback is only reached without an id or for an empty one.
   */
  lemma RequestIdOf(x: ExecutionIdentity)
    requires Expressible(x)
    ensures RequestId(EncodeIdentity(x)) == if x.source.WireId? then x.source.id else EncodeIdentity(x)
  {
    IdentityRoundTrip(x);
    assert EncodeIdentity(x)[0] == 't';
  }

  lemma NoColonNoIdentity(value: string)
    requires ':' !in value
    ensures DecodeIdentity(value).None?
  {}

  /**
   The position fallback never decides a request id: it is reached exactly for a call with the empty id and
   for a result with the empty id or none, and then it gives its argument back.
   */
  lemma FallbackKnowsNoPosition(callId: Option<string>)
    ensures callId.Some? ==> (OutboundWireId(callId.value).None? <==> callId.value == "")
    ensures callId.Some? ==> ResultId(callId) == RequestId(callId.value)
    ensures ResultId(callId) ==
            match callId
            case None => "tool"
            case Some(id) => if id == "" then "" else OutboundWireId(id).value
  {
    NoColonNoIdentity("");
    NoColonNoIdentity("tool");
  }

  /** How identities are printed. */
  lemma PrintedForms()
    ensures EncodeIdentity(ExecutionIdentity(AnthropicMessages, WireId("fo"))) ==
            "tc1:" + "anthropic-messages" + ":" + "id" + ":" + "Zm8"
    ensures EncodeIdentity(ExecutionIdentity(OpenaiChat, Position(907))) ==
            "tc1:" + "openai-chat" + ":" + "pos" + ":" + "907"
    ensures EncodeIdentity(ExecutionIdentity(Ollama, WireId(""))) == "tc1:" + "ollama" + ":" + "id" + ":" + ""
  {
    hide EncodeBase64, Print, Format;
    TestVectors();
    PrintedDigits();
    assert Utf8.Encode("fo"[1..]) == [0x6F];
    assert Utf8.Encode("fo") == [0x66, 0x6F];
    assert Utf8.Encode("") == [];
    FormatLaw(AnthropicMessages, "id", "Zm8");
    FormatLaw(OpenaiChat, "pos", "907");
    FormatLaw(Ollama, "id", "");
  }

  lemma FormatLaw(domain: ApiType, kind: string, source: string)
    ensures Format(domain, kind, source) == "tc1:" + DomainName(domain) + ":" + kind + ":" + source
  {
  }
}

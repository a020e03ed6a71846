/** UTF-8 as RFC 3629 defines it: text to bytes, and bytes back to text when they are valid. */
module Utf8 {
  import opened Basics

  type Byte = b: nat | b < 256

  predicate IsScalar(u: int) {
    0 <= u < 0xD800 || 0xE000 <= u < 0x110000
  }

  function EncodeChar(c: char): (bytes: seq<Byte>)
    ensures 1 <= |bytes| <= 4
  {
    var u := c as int;
    if u < 0x80 then [u]
    else if u < 0x800 then [0xC0 + u / 0x40, 0x80 + u % 0x40]
    else if u < 0x10000 then [0xE0 + u / 0x40 / 0x40, 0x80 + u / 0x40 % 0x40, 0x80 + u % 0x40]
    else [0xF0 + u / 0x40 / 0x40 / 0x40, 0x80 + u / 0x40 / 0x40 % 0x40, 0x80 + u / 0x40 % 0x40, 0x80 + u % 0x40]
  }

  function Encode(s: string): seq<Byte> {
    if |s| == 0 then [] else EncodeChar(s[0]) + Encode(s[1..])
  }

  predicate IsContinuation(b: Byte) {
    0x80 <= b < 0xC0
  }

  /** How many bytes the first character takes; 0 when its first byte starts no character. */
  function Width(first: Byte): nat {
    if first < 0x80 then 1
    else if 0xC2 <= first < 0xE0 then 2
    else if 0xE0 <= first < 0xF0 then 3
    else if 0xF0 <= first < 0xF5 then 4
    else 0
  }

  /** Six more bits, from a continuation byte. */
  function Join(high: int, b: Byte): int {
    high * 0x40 + (b as int - 0x80)
  }

  lemma JoinSplit(high: int, b: Byte)
    requires IsContinuation(b)
    ensures Join(high, b) / 0x40 == high && 0x80 + Join(high, b) % 0x40 == b
  {
  }

  lemma SplitJoin(u: nat)
    ensures IsContinuation(0x80 + u % 0x40) && Join(u / 0x40, 0x80 + u % 0x40) == u
  {
  }

  /** The number spelled by the bytes of one character, before it is checked. */
  function Spelled(bytes: seq<Byte>): int
    requires 1 <= |bytes| <= 4
  {
    var first := bytes[0] as int;
    match |bytes|
    case 1 => first
    case 2 => Join(first - 0xC0, bytes[1])
    case 3 => Join(Join(first - 0xE0, bytes[1]), bytes[2])
    case _ => Join(Join(Join(first - 0xF0, bytes[1]), bytes[2]), bytes[3])
  }

  /** The smallest number that needs this many bytes: shorter numbers must not be spelled longer. */
  function Smallest(width: nat): nat {
    if width <= 1 then 0 else if width == 2 then 0x80 else if width == 3 then 0x800 else 0x10000
  }

  function DecodeChar(bytes: seq<Byte>): Option<char> {
    if |bytes| == 0 || Width(bytes[0]) != |bytes| then None
    else if exists i :: 1 <= i < |bytes| && !IsContinuation(bytes[i]) then None
    else
      var u := Spelled(bytes);
      if Smallest(|bytes|) <= u && IsScalar(u) then Some(u as char) else None
  }

  function Decode(bytes: seq<Byte>): Option<string> {
    if |bytes| == 0 then Some("")
    else
      var width := Width(bytes[0]);
      if width == 0 || |bytes| < width then None
      else
        var first := DecodeChar(bytes[..width]);
        var rest := Decode(bytes[width..]);
        if first.Some? && rest.Some? then Some([first.value] + rest.value) else None
  }

  lemma EncodedShape(c: char)
    ensures var bytes := EncodeChar(c);
            && Width(bytes[0]) == |bytes|
            && forall i :: 1 <= i < |bytes| ==> IsContinuation(bytes[i])
  {
    var u := c as int;
    SplitJoin(u);
    SplitJoin(u / 0x40);
    SplitJoin(u / 0x40 / 0x40);
  }

  lemma EncodedSpells(c: char)
    ensures Spelled(EncodeChar(c)) == c as int && Smallest(|EncodeChar(c)|) <= c as int
  {
    var u := c as int;
    SplitJoin(u);
    SplitJoin(u / 0x40);
    SplitJoin(u / 0x40 / 0x40);
  }

  lemma EncodedChar(c: char)
    ensures var bytes := EncodeChar(c);
            && Width(bytes[0]) == |bytes|
            && DecodeChar(bytes) == Some(c)
  {
    EncodedShape(c);
    EncodedSpells(c);
  }

  lemma {:induction false} RoundTrip(s: string)
    ensures Decode(Encode(s)) == Some(s)
  {
    if |s| > 0 {
      var first, bytes := EncodeChar(s[0]), Encode(s);
      EncodedChar(s[0]);
      RoundTrip(s[1..]);
      assert bytes[..|first|] == first && bytes[|first|..] == Encode(s[1..]);
      assert [s[0]] + s[1..] == s;
    }
  }

  /** Only the encoding of a text decodes to it: no overlong or otherwise different spelling is accepted. */
  lemma {:induction false} OnlyEncodingsDecode(bytes: seq<Byte>)
    requires Decode(bytes).Some?
    ensures Encode(Decode(bytes).value) == bytes
  {
    if |bytes| > 0 {
      var width := Width(bytes[0]);
      OnlyEncodingDecodesChar(bytes[..width]);
      OnlyEncodingsDecode(bytes[width..]);
      var s := Decode(bytes).value;
      assert s[1..] == Decode(bytes[width..]).value;
      assert bytes == bytes[..width] + bytes[width..];
    }
  }

  lemma OnlyEncodingDecodesChar(bytes: seq<Byte>)
    requires DecodeChar(bytes).Some?
    ensures EncodeChar(DecodeChar(bytes).value) == bytes
  {
    var first := bytes[0] as int;
    assert forall i :: 1 <= i < |bytes| ==> IsContinuation(bytes[i]);
    if |bytes| == 2 {
      JoinSplit(first - 0xC0, bytes[1]);
    } else if |bytes| == 3 {
      JoinSplit(first - 0xE0, bytes[1]);
      JoinSplit(Join(first - 0xE0, bytes[1]), bytes[2]);
    } else if |bytes| == 4 {
      JoinSplit(first - 0xF0, bytes[1]);
      JoinSplit(Join(first - 0xF0, bytes[1]), bytes[2]);
      JoinSplit(Join(Join(first - 0xF0, bytes[1]), bytes[2]), bytes[3]);
    }
  }
}

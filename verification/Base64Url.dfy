/** Base 64 with the URL-safe alphabet and no padding (sections 3.2 and 5 of RFC 4648). */
module Base64Url {
  import opened Basics
  import opened Utf8

  type Sextet = v: nat | v < 64

  function Letter(v: Sextet): char {
    if v < 26 then ('A' as int + v) as char
    else if v < 52 then ('a' as int + (v - 26)) as char
    else if v < 62 then ('0' as int + (v - 52)) as char
    else if v == 62 then '-'
    else '_'
  }

  function LetterValue(c: char): Option<Sextet> {
    if 'A' <= c <= 'Z' then Some(c as int - 'A' as int)
    else if 'a' <= c <= 'z' then Some(c as int - 'a' as int + 26)
    else if '0' <= c <= '9' then Some(c as int - '0' as int + 52)
    else if c == '-' then Some(62)
    else if c == '_' then Some(63)
    else None
  }

  lemma LetterRoundTrip(v: Sextet, c: char)
    ensures LetterValue(Letter(v)) == Some(v)
    ensures LetterValue(c).Some? ==> Letter(LetterValue(c).value) == c
  {
  }

  function SingleLetters(x: Byte): string {
    [Letter(x / 4), Letter(x % 4 * 16)]
  }

  function PairLetters(x: Byte, y: Byte): string {
    [Letter(x / 4), Letter(x % 4 * 16 + y / 16), Letter(y % 16 * 4)]
  }

  function GroupLetters(x: Byte, y: Byte, z: Byte): string {
    [Letter(x / 4), Letter(x % 4 * 16 + y / 16), Letter(y % 16 * 4 + z / 64), Letter(z % 64)]
  }

  function EncodeBase64(bytes: seq<Byte>): string {
    if |bytes| == 0 then ""
    else if |bytes| == 1 then SingleLetters(bytes[0])
    else if |bytes| == 2 then PairLetters(bytes[0], bytes[1])
    else GroupLetters(bytes[0], bytes[1], bytes[2]) + EncodeBase64(bytes[3..])
  }

  /** The bytes of a last group of two or three letters; the bits left over must be zero. */
  function DecodeLast(s: string): Option<seq<Byte>>
    requires |s| == 2 || |s| == 3
  {
    var a, b := LetterValue(s[0]), LetterValue(s[1]);
    if a.None? || b.None? then None
    else if |s| == 2 then
      if b.value % 16 == 0 then Some([a.value * 4 + b.value / 16]) else None
    else
      var c := LetterValue(s[2]);
      if c.None? || c.value % 4 != 0 then None
      else Some([a.value * 4 + b.value / 16, b.value % 16 * 16 + c.value / 4])
  }

  function DecodeGroup(s: string): Option<seq<Byte>>
    requires |s| == 4
  {
    var a, b, c, d := LetterValue(s[0]), LetterValue(s[1]), LetterValue(s[2]), LetterValue(s[3]);
    if a.None? || b.None? || c.None? || d.None? then None
    else Some([a.value * 4 + b.value / 16, b.value % 16 * 16 + c.value / 4, c.value % 4 * 64 + d.value])
  }

  function DecodeBase64(s: string): Option<seq<Byte>> {
    if |s| == 0 then Some([])
    else if |s| == 1 then None
    else if |s| <= 3 then DecodeLast(s)
    else
      var group := DecodeGroup(s[..4]);
      var rest := DecodeBase64(s[4..]);
      if group.Some? && rest.Some? then Some(group.value + rest.value) else None
  }

  lemma {:induction false} Base64RoundTrip(bytes: seq<Byte>)
    ensures DecodeBase64(EncodeBase64(bytes)) == Some(bytes)
  {
    hide Letter, LetterValue, DecodeGroup, DecodeLast;
    if |bytes| >= 3 {
      var s := EncodeBase64(bytes);
      Base64RoundTrip(bytes[3..]);
      assert s[..4] == GroupLetters(bytes[0], bytes[1], bytes[2]) && s[4..] == EncodeBase64(bytes[3..]);
      GroupRoundTrip(bytes[0], bytes[1], bytes[2]);
      assert bytes == [bytes[0], bytes[1], bytes[2]] + bytes[3..];
    } else if |bytes| == 2 {
      PairRoundTrip(bytes[0], bytes[1]);
      assert bytes == [bytes[0], bytes[1]];
    } else if |bytes| == 1 {
      SingleRoundTrip(bytes[0]);
      assert bytes == [bytes[0]];
    }
  }

  /** The bits of three bytes, regrouped into four sextets and back. */
  lemma RegroupedBytes(x: Byte, y: Byte, z: Byte)
    ensures var b, c := x % 4 * 16 + y / 16, y % 16 * 4 + z / 64;
            && b < 64 && b / 16 == x % 4 && b % 16 == y / 16 && c < 64 && c / 4 == y % 16 && c % 4 == z / 64
            && x / 4 * 4 + x % 4 == x && y / 16 * 16 + y % 16 == y && z / 64 * 64 + z % 64 == z
  {
  }

  lemma GroupRoundTrip(x: Byte, y: Byte, z: Byte)
    ensures DecodeGroup(GroupLetters(x, y, z)) == Some([x, y, z])
  {
    RegroupedBytes(x, y, z);
    LetterRoundTrip(x / 4, 'A');
    LetterRoundTrip(x % 4 * 16 + y / 16, 'A');
    LetterRoundTrip(y % 16 * 4 + z / 64, 'A');
    LetterRoundTrip(z % 64, 'A');
  }

  lemma PairRoundTrip(x: Byte, y: Byte)
    ensures DecodeLast(PairLetters(x, y)) == Some([x, y])
  {
    RegroupedBytes(x, y, 0);
    LetterRoundTrip(x / 4, 'A');
    LetterRoundTrip(x % 4 * 16 + y / 16, 'A');
    LetterRoundTrip(y % 16 * 4, 'A');
  }

  lemma SingleRoundTrip(x: Byte)
    ensures DecodeLast(SingleLetters(x)) == Some([x])
  {
    LetterRoundTrip(x / 4, 'A');
    LetterRoundTrip(x % 4 * 16, 'A');
  }

  /** Only the encoding of some bytes decodes to them: left-over bits and lone letters are refused. */
  lemma {:induction false} OnlyEncodingsDecode64(s: string)
    requires DecodeBase64(s).Some?
    ensures EncodeBase64(DecodeBase64(s).value) == s
  {
    hide Letter, LetterValue, GroupLetters;
    if |s| >= 4 {
      OnlyEncodingsDecode64(s[4..]);
      OnlyGroupDecodes(s[..4]);
      var bytes := DecodeBase64(s).value;
      assert bytes[3..] == DecodeBase64(s[4..]).value;
      assert s == s[..4] + s[4..];
    } else if |s| == 3 {
      OnlyThreeDecode(s);
    } else if |s| == 2 {
      OnlyTwoDecode(s);
    }
  }

  /** The bits of four sextets, regrouped into three bytes and back. */
  lemma Regrouped(a: Sextet, b: Sextet, c: Sextet, d: Sextet)
    ensures var x, y, z := a * 4 + b / 16, b % 16 * 16 + c / 4, c % 4 * 64 + d;
            x / 4 == a && x % 4 == b / 16 && y / 16 == b % 16 && y % 16 == c / 4 && z / 64 == c % 4 && z % 64 == d
  {
  }

  lemma GroupOf(a: Sextet, b: Sextet, c: Sextet, d: Sextet)
    ensures GroupLetters(a * 4 + b / 16, b % 16 * 16 + c / 4, c % 4 * 64 + d) ==
            [Letter(a), Letter(b), Letter(c), Letter(d)]
  {
    Regrouped(a, b, c, d);
  }

  lemma PairOf(a: Sextet, b: Sextet, c: Sextet)
    requires c % 4 == 0
    ensures PairLetters(a * 4 + b / 16, b % 16 * 16 + c / 4) == [Letter(a), Letter(b), Letter(c)]
  {
    Regrouped(a, b, c, 0);
  }

  lemma SingleOf(a: Sextet, b: Sextet)
    requires b % 16 == 0
    ensures SingleLetters(a * 4 + b / 16) == [Letter(a), Letter(b)]
  {
    Regrouped(a, b, 0, 0);
  }

  /** Letters that have a value are the letters of their values. */
  lemma LettersOfValues(s: string)
    requires forall i :: 0 <= i < |s| ==> LetterValue(s[i]).Some?
    ensures forall i :: 0 <= i < |s| ==> Letter(LetterValue(s[i]).value) == s[i]
  {
    forall i | 0 <= i < |s| ensures Letter(LetterValue(s[i]).value) == s[i] {
      LetterRoundTrip(0, s[i]);
    }
  }

  lemma OnlyGroupDecodes(s: string)
    requires |s| == 4 && DecodeGroup(s).Some?
    ensures var g := DecodeGroup(s).value; |g| == 3 && GroupLetters(g[0], g[1], g[2]) == s
  {
    hide Letter, LetterValue, GroupLetters;
    LettersOfValues(s);
    GroupOf(LetterValue(s[0]).value, LetterValue(s[1]).value, LetterValue(s[2]).value, LetterValue(s[3]).value);
    assert s == [s[0], s[1], s[2], s[3]];
  }

  lemma OnlyThreeDecode(s: string)
    requires |s| == 3 && DecodeLast(s).Some?
    ensures EncodeBase64(DecodeLast(s).value) == s
  {
    hide Letter, LetterValue, PairLetters;
    LettersOfValues(s);
    PairOf(LetterValue(s[0]).value, LetterValue(s[1]).value, LetterValue(s[2]).value);
    assert s == [s[0], s[1], s[2]];
  }

  lemma OnlyTwoDecode(s: string)
    requires |s| == 2 && DecodeLast(s).Some?
    ensures EncodeBase64(DecodeLast(s).value) == s
  {
    LettersOfValues(s);
    SingleOf(LetterValue(s[0]).value, LetterValue(s[1]).value);
    assert s == [s[0], s[1]];
  }

  /** The test vectors of section 10 of RFC 4648, without padding, and the two letters of the URL-safe alphabet. */
  lemma TestVectors()
    ensures EncodeBase64([]) == "" && EncodeBase64([0x66]) == "Zg" && EncodeBase64([0x66, 0x6F]) == "Zm8"
    ensures EncodeBase64([0x66, 0x6F, 0x6F]) == "Zm9v"
    ensures EncodeBase64([0x66, 0x6F, 0x6F, 0x62, 0x61, 0x72]) == "Zm9vYmFy"
    ensures EncodeBase64([0xFB, 0xFF]) == "-_8"
  {
    assert [0x66, 0x6F, 0x6F][3..] == [];
    assert [0x66, 0x6F, 0x6F, 0x62, 0x61, 0x72][3..] == [0x62, 0x61, 0x72];
    assert [0x62, 0x61, 0x72][3..] == [];
    assert EncodeBase64([0x62, 0x61, 0x72]) == "YmFy";
  }
}

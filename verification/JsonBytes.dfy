/** The bytes of an encoded record, and that their number is what the pages count. */
module JsonBytes {
  import opened Basics
  import opened Decimal
  import opened Utf8
  import opened WebPaging

  /** The letter of a short escape, section 7 of RFC 8259; 0 when the character has none. */
  function ShortEscape(u: int): Byte {
    if u == 0x22 then 0x22
    else if u == 0x5C then 0x5C
    else if u == 0x08 then 0x62
    else if u == 0x09 then 0x74
    else if u == 0x0A then 0x6E
    else if u == 0x0C then 0x66
    else if u == 0x0D then 0x72
    else 0
  }

  function HexDigit(n: nat): Byte
    requires n < 16
  {
    if n < 10 then 0x30 + n else 0x57 + n
  }

  function EscapedChar(c: char): seq<Byte> {
    var u := c as int;
    if ShortEscape(u) != 0 then [0x5C, ShortEscape(u)]
    else if u < 0x20 then [0x5C, 0x75, 0x30, 0x30, HexDigit(u / 16), HexDigit(u % 16)]
    else EncodeChar(c)
  }

  function EscapedText(s: string): seq<Byte> {
    if |s| == 0 then [] else EscapedText(s[..|s| - 1]) + EscapedChar(s[|s| - 1])
  }

  function Quoted(s: string): seq<Byte> {
    [0x22] + EscapedText(s) + [0x22]
  }

  /** Numbers are written in ASCII. */
  function NumberBytes(digits: string): seq<Byte> {
    seq(|digits|, i requires 0 <= i < |digits| => digits[i] as int % 0x80)
  }

  function Encoded(value: Json): seq<Byte> {
    match value
    case Null => [0x6E, 0x75, 0x6C, 0x6C]
    case Bool(b) => if b then [0x74, 0x72, 0x75, 0x65] else [0x66, 0x61, 0x6C, 0x73, 0x65]
    case Number(digits) => NumberBytes(digits)
    case Text(text) => Quoted(text)
    case Array(items) => [0x5B] + EncodedItems(items) + [0x5D]
    case Object(fields) => [0x7B] + EncodedFields(fields) + [0x7D]
  }

  function EncodedItems(items: seq<Json>): seq<Byte> {
    if |items| == 0 then []
    else Encoded(items[0]) + (if |items| > 1 then [0x2C] else []) + EncodedItems(items[1..])
  }

  function EncodedFields(fields: seq<Field>): seq<Byte> {
    if |fields| == 0 then []
    else Quoted(fields[0].key) + [0x3A] + Encoded(fields[0].value) + (if |fields| > 1 then [0x2C] else []) +
         EncodedFields(fields[1..])
  }

  lemma {:induction false} TextLength(s: string)
    ensures |EscapedText(s)| == CharsBytes(s)
  {
    if |s| > 0 {
      TextLength(s[..|s| - 1]);
    }
  }

  /** What is counted for a value is the number of bytes of its encoding. */
  lemma {:induction false} LengthIsExact(value: Json)
    ensures |Encoded(value)| == EncodedBytes(value)
  {
    match value
    case Text(text) => TextLength(text);
    case Array(items) => ItemsLength(items);
    case Object(fields) => FieldsLength(fields);
    case _ =>
  }

  lemma {:induction false} ItemsLength(items: seq<Json>)
    ensures |EncodedItems(items)| == ItemsBytes(items) + Max(|items| - 1, 0)
  {
    if |items| > 0 {
      LengthIsExact(items[0]);
      ItemsLength(items[1..]);
    }
  }

  lemma {:induction false} FieldsLength(fields: seq<Field>)
    ensures |EncodedFields(fields)| == FieldsBytes(fields) + Max(|fields| - 1, 0)
  {
    if |fields| > 0 {
      TextLength(fields[0].key);
      LengthIsExact(fields[0].value);
      FieldsLength(fields[1..]);
    }
  }

  /**
   Whatever the records, the bytes of the page's list fit into the frame of 4 MiB less the 256 KiB kept for the
   envelope, and those of every item into 256 KiB.
   */
  lemma PageBytesFitTheFrame(items: seq<Option<Json>>, message: string, values: seq<Json>)
    requires forall i :: 0 <= i < |items| ==> items[i].Some? ==> |Encoded(items[i].value)| < 0x1_0000_0000_0000_0000
    requires |message| <= 1000
    requires |values| <= |items| && values == ShownAll(items[..|values|], message)
    requires |values| > 1 ==> UsedBytes(values) <= WEB_PAGE_MAX_BYTES
    ensures |Encoded(Array(values))| <= 4 * 1024 * 1024 - 256 * 1024
    ensures forall i :: 0 <= i < |values| ==> |Encoded(values[i])| <= 256 * 1024
  {
    forall i | 0 <= i < |items| ensures Representable(items[i]) {
      if items[i].Some? {
        LengthIsExact(items[i].value);
      }
    }
    PageFitsTheFrame(items, message, values);
    LengthIsExact(Array(values));
    forall i | 0 <= i < |values| ensures |Encoded(values[i])| <= 256 * 1024 {
      LengthIsExact(values[i]);
    }
  }
}

/**
 Pages of session records for the web console: oversized records are compacted by truncating
 their strings, and a page stops before its encoding would exceed the frame budget.
 */
module WebPaging {
  import opened Basics
  import opened Decimal

  const WEB_PAGE_MAX_BYTES: nat := 4 * 1024 * 1024 - 256 * 1024
  const WEB_PAGE_MAX_ITEM_BYTES: nat := 256 * 1024
  const WEB_PAGE_MAX_LIMIT: nat := 200
  const PAGE_RESERVE: nat := 1024
  const TRUNCATION_LIMITS: seq<nat> := [65_536, 16_384, 4_096, 1_024, 256]
  const MARKER := "… [已截断]"

  datatype Json =
    | Null
    | Bool(value: bool)
    | Number(digits: string)
    | Text(text: string)
    | Array(items: seq<Json>)
    | Object(fields: seq<Field>)

  datatype Field = Field(key: string, value: Json)

  // ----- compact encoding, by length ------------------------------------------------------

  function CharBytes(c: char): (n: nat)
    ensures 1 <= n <= 6
  {
    if c == '\"' || c == '\\' then 2
    else if (c as int) < 0x20 then
      if c as int in {0x08, 0x09, 0x0A, 0x0C, 0x0D} then 2 else 6
    else if (c as int) < 0x80 then 1
    else if (c as int) < 0x800 then 2
    else if (c as int) < 0x1_0000 then 3
    else 4
  }

  function CharsBytes(s: string): nat {
    if |s| == 0 then 0 else CharsBytes(s[..|s| - 1]) + CharBytes(s[|s| - 1])
  }

  function TextBytes(s: string): nat {
    2 + CharsBytes(s)
  }

  function EncodedBytes(value: Json): nat {
    match value
    case Null => 4
    case Bool(b) => if b then 4 else 5
    case Number(digits) => |digits|
    case Text(text) => TextBytes(text)
    case Array(items) => 2 + ItemsBytes(items) + Max(|items| - 1, 0)
    case Object(fields) => 2 + FieldsBytes(fields) + Max(|fields| - 1, 0)
  }

  function ItemsBytes(items: seq<Json>): nat {
    if |items| == 0 then 0 else EncodedBytes(items[0]) + ItemsBytes(items[1..])
  }

  function FieldsBytes(fields: seq<Field>): nat {
    if |fields| == 0 then 0
    else TextBytes(fields[0].key) + 1 + EncodedBytes(fields[0].value) + FieldsBytes(fields[1..])
  }

  lemma {:induction false} CharsBytesBound(s: string)
    ensures CharsBytes(s) <= 6 * |s|
  {
    if |s| > 0 {
      CharsBytesBound(s[..|s| - 1]);
    }
  }

  // ----- truncation ------------------------------------------------------------------------

  function TruncatedText(text: string, maxChars: nat): string {
    if |text| > maxChars then text[..Max(maxChars - |MARKER|, 0)] + MARKER else text
  }

  function Truncated(value: Json, maxChars: nat): Json {
    match value
    case Text(text) => Text(TruncatedText(text, maxChars))
    case Array(items) => Array(TruncatedItems(items, maxChars))
    case Object(fields) => Object(TruncatedFields(fields, maxChars))
    case _ => value
  }

  function TruncatedItems(items: seq<Json>, maxChars: nat): seq<Json> {
    if |items| == 0 then [] else [Truncated(items[0], maxChars)] + TruncatedItems(items[1..], maxChars)
  }

  function TruncatedFields(fields: seq<Field>, maxChars: nat): seq<Field> {
    if |fields| == 0 then []
    else [Field(fields[0].key, Truncated(fields[0].value, maxChars))] + TruncatedFields(fields[1..], maxChars)
  }

  /** Long texts keep all the characters that leave room for a marker of seven characters; short ones stay. */
  ghost predicate CutTo(text: string, cut: string, maxChars: nat) {
    && (|text| <= maxChars ==> cut == text)
    && (7 <= maxChars < |text| ==> |cut| == maxChars && cut == text[..maxChars - 7] + "… [已截断]")
    && (maxChars < 7 && maxChars < |text| ==> cut == "… [已截断]")
  }

  /** Same tree, same keys, same leaves, except that each text is cut to the length. */
  ghost predicate Shortened(a: Json, b: Json, maxChars: nat) {
    match (a, b)
    case (Text(text), Text(cut)) => CutTo(text, cut, maxChars)
    case (Array(xs), Array(ys)) => ShortenedItems(xs, ys, maxChars)
    case (Object(fs), Object(gs)) => ShortenedFields(fs, gs, maxChars)
    case _ => a == b
  }

  ghost predicate ShortenedItems(xs: seq<Json>, ys: seq<Json>, maxChars: nat) {
    |xs| == |ys| &&
    (|xs| > 0 ==> Shortened(xs[0], ys[0], maxChars) && ShortenedItems(xs[1..], ys[1..], maxChars))
  }

  ghost predicate ShortenedFields(fs: seq<Field>, gs: seq<Field>, maxChars: nat) {
    |fs| == |gs| &&
    (|fs| > 0 ==>
       && fs[0].key == gs[0].key && Shortened(fs[0].value, gs[0].value, maxChars)
       && ShortenedFields(fs[1..], gs[1..], maxChars))
  }

  ghost predicate TextsWithin(value: Json, maxChars: nat) {
    match value
    case Text(text) => |text| <= maxChars
    case Array(items) => ItemsWithin(items, maxChars)
    case Object(fields) => FieldsWithin(fields, maxChars)
    case _ => true
  }

  ghost predicate ItemsWithin(items: seq<Json>, maxChars: nat) {
    |items| > 0 ==> TextsWithin(items[0], maxChars) && ItemsWithin(items[1..], maxChars)
  }

  ghost predicate FieldsWithin(fields: seq<Field>, maxChars: nat) {
    |fields| > 0 ==> TextsWithin(fields[0].value, maxChars) && FieldsWithin(fields[1..], maxChars)
  }

  /**
   Truncation keeps the shape and every key, cuts every text to the length and keeps its beginning, leaves
   alone a value whose texts already fit, and so changes nothing the second time.
   */
  lemma {:induction false} TruncationLaws(value: Json, maxChars: nat)
    ensures Shortened(value, Truncated(value, maxChars), maxChars)
    ensures maxChars >= |MARKER| ==> TextsWithin(Truncated(value, maxChars), maxChars)
    ensures TextsWithin(value, maxChars) ==> Truncated(value, maxChars) == value
    ensures Truncated(Truncated(value, maxChars), maxChars) == Truncated(value, maxChars)
  {
    match value
    case Text(text) =>
      if maxChars < |MARKER| && |text| > maxChars {
        assert text[..0] + MARKER == MARKER;
      }
    case Array(items) => ItemsTruncationLaws(items, maxChars);
    case Object(fields) => FieldsTruncationLaws(fields, maxChars);
    case _ =>
  }

  lemma {:induction false} ItemsTruncationLaws(items: seq<Json>, maxChars: nat)
    ensures var t := TruncatedItems(items, maxChars);
            && ShortenedItems(items, t, maxChars)
            && (maxChars >= |MARKER| ==> ItemsWithin(t, maxChars))
            && (ItemsWithin(items, maxChars) ==> t == items)
            && TruncatedItems(t, maxChars) == t
  {
    if |items| > 0 {
      var t := TruncatedItems(items, maxChars);
      TruncationLaws(items[0], maxChars);
      ItemsTruncationLaws(items[1..], maxChars);
      assert t[0] == Truncated(items[0], maxChars) && t[1..] == TruncatedItems(items[1..], maxChars);
      assert items == [items[0]] + items[1..];
    }
  }

  lemma {:induction false} FieldsTruncationLaws(fields: seq<Field>, maxChars: nat)
    ensures var t := TruncatedFields(fields, maxChars);
            && ShortenedFields(fields, t, maxChars)
            && (maxChars >= |MARKER| ==> FieldsWithin(t, maxChars))
            && (FieldsWithin(fields, maxChars) ==> t == fields)
            && TruncatedFields(t, maxChars) == t
  {
    if |fields| > 0 {
      var t := TruncatedFields(fields, maxChars);
      TruncationLaws(fields[0].value, maxChars);
      FieldsTruncationLaws(fields[1..], maxChars);
      assert t[0] == Field(fields[0].key, Truncated(fields[0].value, maxChars)) &&
             t[1..] == TruncatedFields(fields[1..], maxChars);
      assert fields == [fields[0]] + fields[1..];
    }
  }

  // ----- compaction --------------------------------------------------------------------------

  function Placeholder(message: string, originalBytes: nat): Json {
    Object([Field("content", Text(message + "（原始大小约 " + Print(originalBytes) + " 字节）")),
      Field("truncated", Bool(true))])
  }

  const Unserializable := Object([Field("content", Text("该记录无法序列化，已隐藏")), Field("truncated", Bool(true))])

  /** The first attempt that fits: the value itself, then ever shorter texts, then the placeholder. */
  function CompactFrom(value: Json, maxBytes: nat, message: string, k: nat): Json
    decreases |TRUNCATION_LIMITS| - k
  {
    if k >= |TRUNCATION_LIMITS| then Placeholder(message, EncodedBytes(value))
    else if EncodedBytes(Truncated(value, TRUNCATION_LIMITS[k])) <= maxBytes
    then Truncated(value, TRUNCATION_LIMITS[k])
    else CompactFrom(value, maxBytes, message, k + 1)
  }

  function Compacted(value: Json, maxBytes: nat, message: string): Json {
    if EncodedBytes(value) <= maxBytes then value else CompactFrom(value, maxBytes, message, 0)
  }

  /**
   A value that fits is kept as it is; otherwise its texts are cut to the first of these lengths with which it
   fits, and it is replaced when it fits with none of them.
   */
  lemma CompactedLaw(value: Json, maxBytes: nat, message: string)
    ensures var compact := Compacted(value, maxBytes, message);
            compact ==
            if EncodedBytes(value) <= maxBytes then value
            else if EncodedBytes(Truncated(value, 65536)) <= maxBytes then Truncated(value, 65536)
            else if EncodedBytes(Truncated(value, 16384)) <= maxBytes then Truncated(value, 16384)
            else if EncodedBytes(Truncated(value, 4096)) <= maxBytes then Truncated(value, 4096)
            else if EncodedBytes(Truncated(value, 1024)) <= maxBytes then Truncated(value, 1024)
            else if EncodedBytes(Truncated(value, 256)) <= maxBytes then Truncated(value, 256)
            else Placeholder(message, EncodedBytes(value))
  {
    assert |TRUNCATION_LIMITS| == 5;
    assert CompactFrom(value, maxBytes, message, 5) == Placeholder(message, EncodedBytes(value));
    assert CompactFrom(value, maxBytes, message, 3) ==
           if EncodedBytes(Truncated(value, 1024)) <= maxBytes then Truncated(value, 1024)
           else CompactFrom(value, maxBytes, message, 4);
    assert CompactFrom(value, maxBytes, message, 1) ==
           if EncodedBytes(Truncated(value, 16384)) <= maxBytes then Truncated(value, 16384)
           else CompactFrom(value, maxBytes, message, 2);
  }

  method CompactJson(value: Json, maxBytes: nat, message: string) returns (compact: Json)
    ensures compact == Compacted(value, maxBytes, message)
    ensures EncodedBytes(compact) <= maxBytes || compact == Placeholder(message, EncodedBytes(value))
  {
    var originalBytes := EncodedBytes(value);
    if originalBytes <= maxBytes { return value; }
    var k := 0;
    while k < |TRUNCATION_LIMITS|
      invariant k <= |TRUNCATION_LIMITS|
      invariant Compacted(value, maxBytes, message) == CompactFrom(value, maxBytes, message, k)
    {
      var candidate := Truncated(value, TRUNCATION_LIMITS[k]);
      if EncodedBytes(candidate) <= maxBytes { return candidate; }
      k := k + 1;
    }
    compact := Placeholder(message, originalBytes);
  }

  /** A value whose size is a machine word, and a message of at most a thousand characters. */
  lemma PlaceholderIsSmall(message: string, originalBytes: nat)
    requires |message| <= 1000 && originalBytes < U64_LIMIT
    ensures EncodedBytes(Placeholder(message, originalBytes)) <= WEB_PAGE_MAX_ITEM_BYTES
  {
    U64HasTwentyDigits(originalBytes);
    var content := message + "（原始大小约 " + Print(originalBytes) + " 字节）";
    CharsBytesBound(content);
    assert |content| <= 1100;
    PlaceholderBytes(content);
  }

  lemma PlaceholderBytes(content: string)
    ensures EncodedBytes(Object([Field("content", Text(content)), Field("truncated", Bool(true))])) <=
            CharsBytes(content) + 200
  {
    CharsBytesBound("content");
    CharsBytesBound("truncated");
    var fields := [Field("content", Text(content)), Field("truncated", Bool(true))];
    assert fields[1..] == [Field("truncated", Bool(true))];
    assert FieldsBytes(fields[1..]) == TextBytes("truncated") + 1 + EncodedBytes(Bool(true));
    assert FieldsBytes(fields) == TextBytes("content") + 1 + EncodedBytes(Text(content)) + FieldsBytes(fields[1..]);
    assert EncodedBytes(Object(fields)) == 2 + FieldsBytes(fields) + 1;
  }

  // ----- one page -------------------------------------------------------------------------------

  /** A record as the page shows it; a record that cannot be serialised shows a fixed notice. */
  function Shown(item: Option<Json>, message: string): Json {
    Compacted(if item.Some? then item.value else Unserializable, WEB_PAGE_MAX_ITEM_BYTES, message)
  }

  function ShownAll(items: seq<Option<Json>>, message: string): seq<Json> {
    seq(|items|, i requires 0 <= i < |items| => Shown(items[i], message))
  }

  /** The page budget: a fixed reserve and each item with its separator. */
  function UsedBytes(values: seq<Json>): nat {
    if |values| == 0 then PAGE_RESERVE
    else UsedBytes(values[..|values| - 1]) + EncodedBytes(values[|values| - 1]) + 1
  }

  lemma UsedBytesPush(values: seq<Json>, value: Json)
    ensures UsedBytes(values + [value]) == UsedBytes(values) + EncodedBytes(value) + 1
  {
    assert (values + [value])[..|values + [value]| - 1] == values;
  }

  lemma ShownAllPush(items: seq<Option<Json>>, k: nat, message: string)
    requires k < |items|
    ensures ShownAll(items[..k + 1], message) == ShownAll(items[..k], message) + [Shown(items[k], message)]
  {
    assert items[..k + 1] == items[..k] + [items[k]];
  }

  lemma ShownAllConcat(a: seq<Option<Json>>, b: seq<Option<Json>>, message: string)
    ensures ShownAll(a + b, message) == ShownAll(a, message) + ShownAll(b, message)
  {}

  method ShowItem(item: Option<Json>, message: string) returns (value: Json)
    ensures value == Shown(item, message)
  {
    value := CompactJson(if item.Some? then item.value else Unserializable, WEB_PAGE_MAX_ITEM_BYTES, message);
  }

  /**
   A page of n records: as many as fit into the budget, but one record always and never more than the limit.
   */
  ghost predicate IsPageSize(items: seq<Option<Json>>, limit: nat, message: string, n: nat) {
    && n <= |items| && n <= limit
    && (n > 1 ==> UsedBytes(ShownAll(items[..n], message)) <= 4 * 1024 * 1024 - 256 * 1024)
    && (n < Min(limit, |items|) ==>
          && n > 0
          && UsedBytes(ShownAll(items[..n], message)) + EncodedBytes(Shown(items[n], message)) + 1 >
             4 * 1024 * 1024 - 256 * 1024)
  }

  lemma {:induction false} UsedBytesGrow(items: seq<Option<Json>>, message: string, a: nat, b: nat)
    requires a <= b <= |items|
    ensures UsedBytes(ShownAll(items[..a], message)) <= UsedBytes(ShownAll(items[..b], message))
    decreases b
  {
    if a < b {
      UsedBytesGrow(items, message, a, b - 1);
      ShownAllPush(items, b - 1, message);
      UsedBytesPush(ShownAll(items[..b - 1], message), Shown(items[b - 1], message));
    }
  }

  /** The records, the limit and the message leave no choice. */
  lemma PageSizeIsUnique(items: seq<Option<Json>>, limit: nat, message: string, a: nat, b: nat)
    requires IsPageSize(items, limit, message, a) && IsPageSize(items, limit, message, b)
    ensures a == b
  {
    var low, high := Min(a, b), Max(a, b);
    if low < high {
      ShownAllPush(items, low, message);
      UsedBytesPush(ShownAll(items[..low], message), Shown(items[low], message));
      UsedBytesGrow(items, message, low + 1, high);
    }
  }

  method BoundedPage(items: seq<Option<Json>>, limit: nat, message: string) returns (values: seq<Json>, hasMore: bool)
    ensures IsPageSize(items, limit, message, |values|) && values == ShownAll(items[..|values|], message)
    ensures hasMore <==> |values| < |items|
  {
    values := [];
    var usedBytes := PAGE_RESERVE;
    var taken := 0;
    hasMore := false;
    while taken < limit
      invariant taken <= limit && taken == |values| <= |items| && !hasMore
      invariant values == ShownAll(items[..taken], message)
      invariant usedBytes == UsedBytes(values)
      invariant |values| > 1 ==> usedBytes <= WEB_PAGE_MAX_BYTES
    {
      if taken == |items| {
        return values, false;
      }
      var value := ShowItem(items[taken], message);
      var itemBytes := EncodedBytes(value);
      if values != [] && usedBytes + itemBytes + 1 > WEB_PAGE_MAX_BYTES {
        hasMore := true;
        break;
      }
      UsedBytesPush(values, value);
      ShownAllPush(items, taken, message);
      values := values + [value];
      usedBytes := usedBytes + itemBytes + 1;
      taken := taken + 1;
    }
    if !hasMore && taken < |items| {
      hasMore := true;
    }
  }

  lemma {:induction false} ItemsBytesPush(items: seq<Json>, last: Json)
    ensures ItemsBytes(items + [last]) == ItemsBytes(items) + EncodedBytes(last)
  {
    if |items| > 0 {
      assert (items + [last])[1..] == items[1..] + [last];
      ItemsBytesPush(items[1..], last);
    } else {
      assert [] + [last] == [last] && [last][1..] == [];
    }
  }

  lemma {:induction false} PageBytes(values: seq<Json>)
    ensures EncodedBytes(Array(values)) + PAGE_RESERVE <= UsedBytes(values) + 2
  {
    if |values| > 0 {
      var front, last := values[..|values| - 1], values[|values| - 1];
      assert values == front + [last];
      PageBytes(front);
      ItemsBytesPush(front, last);
    }
  }

  /** A record whose encoded length is a machine word. */
  predicate Representable(item: Option<Json>) {
    item.Some? ==> EncodedBytes(item.value) < U64_LIMIT
  }

  lemma UnserializableIsSmall()
    ensures EncodedBytes(Unserializable) <= WEB_PAGE_MAX_ITEM_BYTES
  {
    CharsBytesBound("该记录无法序列化，已隐藏");
    PlaceholderBytes("该记录无法序列化，已隐藏");
  }

  lemma ShownIsSmall(item: Option<Json>, message: string)
    requires Representable(item) && |message| <= 1000
    ensures EncodedBytes(Shown(item, message)) <= WEB_PAGE_MAX_ITEM_BYTES
  {
    UnserializableIsSmall();
    if item.Some? {
      CompactFits(item.value, message, 0);
    }
  }

  lemma {:induction false} CompactFits(value: Json, message: string, k: nat)
    requires |message| <= 1000 && EncodedBytes(value) < U64_LIMIT
    ensures EncodedBytes(CompactFrom(value, WEB_PAGE_MAX_ITEM_BYTES, message, k)) <= WEB_PAGE_MAX_ITEM_BYTES
    decreases |TRUNCATION_LIMITS| - k
  {
    if k < |TRUNCATION_LIMITS| {
      CompactFits(value, message, k + 1);
    } else {
      PlaceholderIsSmall(message, EncodedBytes(value));
    }
  }

  /** Whatever the records, every item is within its limit and the encoded page within the frame budget. */
  lemma PageFitsTheFrame(items: seq<Option<Json>>, message: string, values: seq<Json>)
    requires forall i :: 0 <= i < |items| ==> Representable(items[i])
    requires |message| <= 1000
    requires |values| <= |items| && values == ShownAll(items[..|values|], message)
    requires |values| > 1 ==> UsedBytes(values) <= WEB_PAGE_MAX_BYTES
    ensures forall i :: 0 <= i < |values| ==> EncodedBytes(values[i]) <= WEB_PAGE_MAX_ITEM_BYTES
    ensures EncodedBytes(Array(values)) <= WEB_PAGE_MAX_BYTES
  {
    hide EncodedBytes, Shown, UsedBytes;
    EveryItemIsSmall(items[..|values|], message);
    SmallPage(values);
  }

  lemma EveryItemIsSmall(items: seq<Option<Json>>, message: string)
    requires forall i :: 0 <= i < |items| ==> Representable(items[i])
    requires |message| <= 1000
    ensures var values := ShownAll(items, message);
            forall i :: 0 <= i < |values| ==> EncodedBytes(values[i]) <= WEB_PAGE_MAX_ITEM_BYTES
  {
    forall i | 0 <= i < |items| ensures EncodedBytes(Shown(items[i], message)) <= WEB_PAGE_MAX_ITEM_BYTES {
      ShownIsSmall(items[i], message);
    }
  }

  lemma SmallPage(values: seq<Json>)
    requires |values| > 1 ==> UsedBytes(values) <= WEB_PAGE_MAX_BYTES
    requires |values| == 1 ==> EncodedBytes(values[0]) <= WEB_PAGE_MAX_ITEM_BYTES
    ensures EncodedBytes(Array(values)) <= WEB_PAGE_MAX_BYTES
  {
    PageBytes(values);
    if |values| == 1 {
      UsedBytesPush([], values[0]);
      assert [] + [values[0]] == values;
    }
  }

  // ----- all pages --------------------------------------------------------------------------------

  /** The records of a page follow those of the pages before it. */
  lemma PageContinues(items: seq<Option<Json>>, offset: nat, n: nat, message: string)
    requires offset + n <= |items|
    ensures ShownAll(items[..offset + n], message) ==
            ShownAll(items[..offset], message) + ShownAll(items[offset..][..n], message)
  {
    assert items[..offset + n] == items[..offset] + items[offset..][..n];
    ShownAllConcat(items[..offset], items[offset..][..n], message);
  }

  /** Where page k starts. */
  function OffsetOf(sizes: seq<nat>, k: nat): nat
    requires k <= |sizes|
  {
    if k == 0 then 0 else OffsetOf(sizes, k - 1) + sizes[k - 1]
  }

  ghost predicate IsPageAt(items: seq<Option<Json>>, limit: nat, message: string, sizes: seq<nat>, k: nat) {
    && k < |sizes| && OffsetOf(sizes, k) <= |items|
    && IsPageSize(items[OffsetOf(sizes, k)..], limit, message, sizes[k])
  }

  /** Every page is as long as it may be. */
  ghost predicate ArePages(items: seq<Option<Json>>, limit: nat, message: string, sizes: seq<nat>) {
    forall k :: 0 <= k < |sizes| ==> IsPageAt(items, limit, message, sizes, k)
  }

  lemma {:induction false} OffsetOfPrefix(sizes: seq<nat>, more: seq<nat>, k: nat)
    requires k <= |sizes|
    ensures OffsetOf(sizes + more, k) == OffsetOf(sizes, k)
  {
    if k > 0 {
      OffsetOfPrefix(sizes, more, k - 1);
    }
  }

  lemma PageStays(items: seq<Option<Json>>, limit: nat, message: string, sizes: seq<nat>, more: seq<nat>, k: nat)
    requires IsPageAt(items, limit, message, sizes, k)
    ensures IsPageAt(items, limit, message, sizes + more, k)
  {
    hide IsPageSize;
    OffsetOfPrefix(sizes, more, k);
  }

  lemma PagesPush(items: seq<Option<Json>>, limit: nat, message: string, sizes: seq<nat>, n: nat)
    requires ArePages(items, limit, message, sizes) && OffsetOf(sizes, |sizes|) <= |items|
    requires IsPageSize(items[OffsetOf(sizes, |sizes|)..], limit, message, n)
    ensures ArePages(items, limit, message, sizes + [n])
    ensures OffsetOf(sizes + [n], |sizes| + 1) == OffsetOf(sizes, |sizes|) + n
  {
    hide IsPageSize;
    OffsetOfPrefix(sizes, [n], |sizes|);
    assert IsPageAt(items, limit, message, sizes + [n], |sizes|);
    forall k | 0 <= k < |sizes| ensures IsPageAt(items, limit, message, sizes + [n], k) {
      PageStays(items, limit, message, sizes, [n], k);
    }
  }

  lemma PageAdvances(items: seq<Option<Json>>, limit: nat, message: string, n: nat)
    requires IsPageSize(items, limit, message, n) && limit > 0
    ensures n <= |items| && (|items| > 0 ==> n > 0)
  {
  }

  lemma NoPagesYet(items: seq<Option<Json>>, limit: nat, message: string)
    ensures ArePages(items, limit, message, []) && OffsetOf([], 0) == 0
  {
  }

  /** A client that asks for page after page until it is told there are no more; the limit is kept within 1 and 200. */
  method LoadAllPages(items: seq<Option<Json>>, requested: nat, message: string)
    returns (all: seq<Json>, sizes: seq<nat>)
    ensures all == ShownAll(items, message)
    ensures ArePages(items, if requested < 1 then 1 else if requested > 200 then 200 else requested, message, sizes)
    ensures OffsetOf(sizes, |sizes|) == |items| && |sizes| <= Max(|items|, 1)
  {
    hide IsPageSize, ArePages, OffsetOf;
    var limit := Min(Max(requested, 1), WEB_PAGE_MAX_LIMIT);
    NoPagesYet(items, limit, message);
    var offset, hasMore := 0, true;
    all, sizes := [], [];
    while hasMore
      invariant offset <= |items| && all == ShownAll(items[..offset], message)
      invariant offset == OffsetOf(sizes, |sizes|) && ArePages(items, limit, message, sizes)
      invariant hasMore ==> offset < |items| || |sizes| == 0
      invariant !hasMore ==> offset == |items|
      invariant |sizes| <= Max(offset, if hasMore then 0 else 1)
      decreases |items| - offset, hasMore
    {
      var values;
      values, hasMore := BoundedPage(items[offset..], limit, message);
      PageAdvances(items[offset..], limit, message, |values|);
      PageContinues(items, offset, |values|, message);
      PagesPush(items, limit, message, sizes, |values|);
      all := all + values;
      offset := offset + |values|;
      sizes := sizes + [|values|];
    }
    assert items[..offset] == items;
  }
}

/**
 The session log: one message per line, appended; and what loading makes of a log that a crash has
 cut anywhere.
 */
module SessionLog {
  import opened Basics
  import opened Lines

  /** How a message becomes a line and back; blank is the test for lines to skip. */
  datatype Codec<!M> = Codec(encode: M -> seq<bv8>, decode: seq<bv8> -> Option<M>, blank: seq<bv8> -> bool)

  ghost predicate Plain(line: seq<bv8>) {
    LF !in line && CR !in line
  }

  /** The printed form is one line, it is read back, and no part of it is mistaken for a message or for nothing. */
  ghost predicate SoundFor<M(!new)>(codec: Codec<M>, m: M) {
    var line := codec.encode(m);
    && |line| > 0 && Plain(line) && codec.decode(line) == Some(m) && !codec.blank(line)
    && forall n :: 0 < n < |line| ==> codec.decode(line[..n]).None? && !codec.blank(line[..n])
  }

  ghost predicate Sound<M(!new)>(codec: Codec<M>) {
    forall m :: SoundFor(codec, m)
  }

  datatype LoadResult<M> = Loaded(messages: seq<M>) | CorruptLine(line: nat)

  /** A terminated line without its end: the line feed, and one carriage return before it. */
  function DropEnd(raw: seq<bv8>): seq<bv8> {
    var line := if |raw| > 0 && raw[|raw| - 1] == LF then raw[..|raw| - 1] else raw;
    if |line| > 0 && line[|line| - 1] == CR then line[..|line| - 1] else line
  }

  /** A line may end with a line feed or with a carriage return and a line feed, and is the same line. */
  lemma DropEndLaw(line: seq<bv8>)
    requires Plain(line)
    ensures DropEnd(line + [LF]) == line && DropEnd(line + [CR, LF]) == line
  {
    assert (line + [LF])[..|line|] == line;
    assert (line + [CR, LF])[..|line| + 1] == line + [CR];
    assert (line + [CR])[..|line|] == line;
    assert line != [] ==> line[|line| - 1] in line;
  }

  // ----- what loading means ---------------------------------------------------------------------------

  /** One more terminated line. */
  function ReadLine<M>(codec: Codec<M>, sofar: LoadResult<M>, raw: seq<bv8>, number: nat): LoadResult<M> {
    if sofar.CorruptLine? || codec.blank(DropEnd(raw)) then sofar
    else
      var m := codec.decode(DropEnd(raw));
      if m.Some? then Loaded(sofar.messages + [m.value]) else CorruptLine(number)
  }

  function ReadLines<M>(codec: Codec<M>, raw: seq<seq<bv8>>): LoadResult<M> {
    if |raw| == 0 then Loaded([])
    else ReadLine(codec, ReadLines(codec, raw[..|raw| - 1]), raw[|raw| - 1], |raw|)
  }

  /** An unterminated last line counts when it is a message, and is ignored when it is not. */
  function ReadTail<M>(codec: Codec<M>, sofar: LoadResult<M>, tail: seq<bv8>): LoadResult<M> {
    if sofar.CorruptLine? || tail == [] || codec.blank(tail) || codec.decode(tail).None? then sofar
    else Loaded(sofar.messages + [codec.decode(tail).value])
  }

  function LoadBytes<M>(codec: Codec<M>, bytes: seq<bv8>): LoadResult<M> {
    ReadTail(codec, ReadLines(codec, RawLines(bytes)), Tail(bytes))
  }

  class SessionStore<M> {
    const codec: Codec<M>
    var bytes: seq<bv8>

    constructor (codec: Codec<M>, bytes: seq<bv8>)
      ensures this.codec == codec && this.bytes == bytes
    {
      this.codec, this.bytes := codec, bytes;
    }

    method Append(m: M)
      modifies this
      ensures bytes == old(bytes) + codec.encode(m) + [LF]
    {
      var line := codec.encode(m) + [LF];
      bytes := bytes + line;
    }

    method LoadPath() returns (result: LoadResult<M>)
      ensures result == LoadBytes(codec, bytes)
    {
      var raw, tail := RawLines(bytes), Tail(bytes);
      var complete := tail == [];
      var count := |raw| + if complete then 0 else 1;
      var messages: seq<M> := [];
      for index := 0 to |raw|
        invariant ReadLines(codec, raw[..index]) == Loaded(messages)
      {
        assert raw[..index + 1][..index] == raw[..index];
        var line := DropEnd(raw[index]);
        if codec.blank(line) {
          continue;
        }
        var m := codec.decode(line);
        if m.None? {
          CorruptionStays(codec, raw, index + 1);
          return CorruptLine(index + 1);
        }
        messages := messages + [m.value];
      }
      assert raw[..|raw|] == raw;
      if !complete && !codec.blank(tail) {
        var m := codec.decode(tail);
        if m.Some? {
          messages := messages + [m.value];
        }
      }
      result := Loaded(messages);
    }
  }

  lemma {:induction false} CorruptionStays<M>(codec: Codec<M>, raw: seq<seq<bv8>>, n: nat)
    requires n <= |raw| && ReadLines(codec, raw[..n]).CorruptLine?
    ensures ReadLines(codec, raw) == ReadLines(codec, raw[..n])
    decreases |raw|
  {
    if n < |raw| {
      assert raw[..|raw| - 1][..n] == raw[..n];
      CorruptionStays(codec, raw[..|raw| - 1], n);
    } else {
      assert raw[..n] == raw;
    }
  }

  // ----- when loading fails ------------------------------------------------------------------------------

  predicate IsGarbage<M>(codec: Codec<M>, raw: seq<bv8>) {
    !codec.blank(DropEnd(raw)) && codec.decode(DropEnd(raw)).None?
  }

  /** Loading fails exactly at the first terminated line that is neither blank nor a message. */
  lemma {:induction false} FailsAtFirstGarbage<M>(codec: Codec<M>, raw: seq<seq<bv8>>)
    ensures match ReadLines(codec, raw)
            case Loaded(_) => forall i :: 0 <= i < |raw| ==> !IsGarbage(codec, raw[i])
            case CorruptLine(n) =>
              0 < n <= |raw| && IsGarbage(codec, raw[n - 1]) && forall i :: 0 <= i < n - 1 ==> !IsGarbage(codec, raw[i])
  {
    if |raw| > 0 {
      FailsAtFirstGarbage(codec, raw[..|raw| - 1]);
    }
  }

  lemma LoadFailsAtFirstGarbage<M>(codec: Codec<M>, bytes: seq<bv8>)
    ensures var raw := RawLines(bytes);
            match LoadBytes(codec, bytes)
            case Loaded(_) => forall i :: 0 <= i < |raw| ==> !IsGarbage(codec, raw[i])
            case CorruptLine(n) =>
              0 < n <= |raw| && IsGarbage(codec, raw[n - 1]) && forall i :: 0 <= i < n - 1 ==> !IsGarbage(codec, raw[i])
  {
    FailsAtFirstGarbage(codec, RawLines(bytes));
  }

  function IsFilled<M>(codec: Codec<M>): seq<bv8> -> bool {
    (raw: seq<bv8>) => !codec.blank(DropEnd(raw))
  }

  /** What is loaded is what the lines that are not blank say, one message for each, in order. */
  lemma {:induction false} LinesAreDecoded<M>(codec: Codec<M>, raw: seq<seq<bv8>>)
    requires ReadLines(codec, raw).Loaded?
    ensures var (filled, messages) := (Keep(IsFilled(codec), raw), ReadLines(codec, raw).messages);
            |messages| == |filled| &&
            forall i :: 0 <= i < |filled| ==> codec.decode(DropEnd(filled[i])) == Some(messages[i])
  {
    if |raw| > 0 {
      LinesAreDecoded(codec, raw[..|raw| - 1]);
    }
  }

  /** The unterminated rest adds one message more exactly when it is one. */
  lemma LoadedIsDecoded<M>(codec: Codec<M>, bytes: seq<bv8>)
    requires LoadBytes(codec, bytes).Loaded?
    ensures var (filled, messages, tail) := (Keep(IsFilled(codec), RawLines(bytes)), LoadBytes(codec, bytes).messages,
                                             Tail(bytes));
            var last := tail != [] && !codec.blank(tail) && codec.decode(tail).Some?;
            && |messages| == |filled| + (if last then 1 else 0)
            && (forall i :: 0 <= i < |filled| ==> codec.decode(DropEnd(filled[i])) == Some(messages[i]))
            && (last ==> Some(messages[|filled|]) == codec.decode(tail))
  {
    LinesAreDecoded(codec, RawLines(bytes));
  }

  // ----- appended messages, and a crash ---------------------------------------------------------------------

  function LineOf<M>(codec: Codec<M>, m: M): seq<bv8> {
    codec.encode(m) + [LF]
  }

  /** The bytes after appending these messages to an empty log. */
  function Written<M>(codec: Codec<M>, ms: seq<M>): seq<bv8> {
    if |ms| == 0 then [] else Written(codec, ms[..|ms| - 1]) + LineOf(codec, ms[|ms| - 1])
  }

  function LinesOf<M>(codec: Codec<M>, ms: seq<M>): seq<seq<bv8>> {
    if |ms| == 0 then [] else LinesOf(codec, ms[..|ms| - 1]) + [LineOf(codec, ms[|ms| - 1])]
  }

  lemma LineIsRaw<M(!new)>(codec: Codec<M>, m: M)
    requires SoundFor(codec, m)
    ensures IsRawLine(LineOf(codec, m)) && DropEnd(LineOf(codec, m)) == codec.encode(m)
  {
    var line := codec.encode(m);
    assert LineOf(codec, m)[..|line|] == line;
    assert line[|line| - 1] in line;
  }

  lemma JoinedPush(lines: seq<seq<bv8>>, line: seq<bv8>)
    ensures Joined(lines + [line]) == Joined(lines) + line
  {
    JoinedConcat(lines, [line]);
    assert Joined([line]) == line + Joined([line][1..]);
  }

  lemma {:induction false} WrittenIsLines<M(!new)>(codec: Codec<M>, ms: seq<M>)
    requires Sound(codec)
    ensures Joined(LinesOf(codec, ms)) == Written(codec, ms)
    ensures AreRawLines(LinesOf(codec, ms))
    ensures ReadLines(codec, LinesOf(codec, ms)) == Loaded(ms)
  {
    if |ms| > 0 {
      var front, m := ms[..|ms| - 1], ms[|ms| - 1];
      WrittenIsLines(codec, front);
      assert SoundFor(codec, m);
      LineIsRaw(codec, m);
      JoinedPush(LinesOf(codec, front), LineOf(codec, m));
      var lines := LinesOf(codec, ms);
      assert lines[..|lines| - 1] == LinesOf(codec, front);
      assert ms == front + [m];
    }
  }

  /**
   A log cut inside the line of message m, after t of its bytes: everything before m is loaded, and m
   too when only its line feed is missing.
   */
  lemma CutInsideALine<M(!new)>(codec: Codec<M>, ms: seq<M>, m: M, t: nat)
    requires Sound(codec) && t <= |codec.encode(m)|
    ensures LoadBytes(codec, Written(codec, ms) + codec.encode(m)[..t]) ==
            Loaded(if t == |codec.encode(m)| then ms + [m] else ms)
  {
    var line := codec.encode(m);
    assert SoundFor(codec, m);
    WrittenIsLines(codec, ms);
    assert LF !in line[..t];
    CutIsUnique(LinesOf(codec, ms), line[..t]);
    if t == |line| {
      assert line[..t] == line;
    }
  }

  /** How many messages are wholly within the first n bytes, their last line feed aside. */
  ghost predicate WhollyWithin<M>(codec: Codec<M>, ms: seq<M>, k: nat, n: nat)
    requires k <= |ms|
  {
    && (k > 0 ==> |Written(codec, ms[..k])| - 1 <= n)
    && (k < |ms| ==> n < |Written(codec, ms[..k + 1])| - 1)
  }

  /** Wherever a crash cuts the log, exactly the messages that were wholly written are loaded. */
  lemma {:induction false} AnyCutLoads<M(!new)>(codec: Codec<M>, ms: seq<M>, n: nat) returns (k: nat)
    requires Sound(codec) && n <= |Written(codec, ms)|
    ensures k <= |ms| && WhollyWithin(codec, ms, k, n)
    ensures LoadBytes(codec, Written(codec, ms)[..n]) == Loaded(ms[..k])
  {
    var bytes := Written(codec, ms);
    if n == |bytes| {
      k := |ms|;
      assert bytes[..n] == bytes && ms[..k] == ms;
      WrittenIsLines(codec, ms);
      CutIsUnique(LinesOf(codec, ms), []);
      assert bytes + [] == bytes;
    } else {
      var front, m := ms[..|ms| - 1], ms[|ms| - 1];
      var before, line := Written(codec, front), codec.encode(m);
      assert ms == front + [m];
      assert bytes == before + (line + [LF]);
      if n < |before| {
        assert bytes[..n] == before[..n];
        k := AnyCutLoads(codec, front, n);
        assert ms[..k] == front[..k];
        assert k < |front| ==> ms[..k + 1] == front[..k + 1];
        assert k == |front| ==> ms[..k + 1] == ms && front[..k] == front;
      } else {
        assert bytes[..n] == before + line[..n - |before|];
        CutInsideALine(codec, front, m, n - |before|);
        k := if n == |bytes| - 1 then |ms| else |front|;
        assert ms[..|ms|] == ms;
      }
    }
  }

  /** Appending to a log that ends with a line feed adds the message. */
  lemma AppendAfterACleanEnd<M(!new)>(codec: Codec<M>, bytes: seq<bv8>, m: M)
    requires SoundFor(codec, m) && Tail(bytes) == []
    requires LoadBytes(codec, bytes).Loaded?
    ensures LoadBytes(codec, bytes + LineOf(codec, m)) == Loaded(LoadBytes(codec, bytes).messages + [m])
  {
    LineIsRaw(codec, m);
    AppendLine(codec, bytes, LineOf(codec, m));
    assert [] + LineOf(codec, m) == LineOf(codec, m);
  }

  /** The new line continues the tail, if there is one. */
  lemma AppendLine<M>(codec: Codec<M>, bytes: seq<bv8>, line: seq<bv8>)
    requires IsRawLine(line)
    ensures LoadBytes(codec, bytes + line) ==
            ReadLine(codec, ReadLines(codec, RawLines(bytes)), Tail(bytes) + line, |RawLines(bytes)| + 1)
  {
    CutExtends(bytes, line);
    TailIsOpen(bytes);
    var whole := Tail(bytes) + line;
    assert IsRawLine(whole) by {
      assert whole[..|whole| - 1] == Tail(bytes) + line[..|line| - 1];
    }
    assert AreRawLines([whole]);
    assert Joined([whole]) + [] == whole by { JoinedPush([], whole); }
    CutIsUnique([whole], []);
    var raw := RawLines(bytes);
    assert (raw + [whole])[..|raw + [whole]| - 1] == raw;
  }

  /**
   Appending after a torn tail: the torn bytes and the new message become one line.  The log stays
   readable exactly when that line happens to be a message or blank; otherwise it is corrupt for good.
   */
  lemma AppendAfterATornTail<M(!new)>(codec: Codec<M>, bytes: seq<bv8>, m: M)
    requires SoundFor(codec, m) && LoadBytes(codec, bytes).Loaded?
    ensures LoadBytes(codec, bytes + LineOf(codec, m)).Loaded? <==>
            var line := Tail(bytes) + codec.encode(m);
            codec.blank(line) || codec.decode(line).Some?
  {
    LineIsRaw(codec, m);
    AppendLine(codec, bytes, LineOf(codec, m));
    var line := Tail(bytes) + codec.encode(m);
    assert Tail(bytes) + LineOf(codec, m) == line + [LF];
    assert (line + [LF])[..|line|] == line;
    assert line[|line| - 1] == codec.encode(m)[|codec.encode(m)| - 1];
    assert DropEnd(line + [LF]) == line;
  }

  /** A log that cannot be loaded stays so: whatever is appended later, loading fails at the same line. */
  lemma CorruptForGood<M>(codec: Codec<M>, bytes: seq<bv8>, more: seq<bv8>)
    requires LoadBytes(codec, bytes).CorruptLine?
    ensures LoadBytes(codec, bytes + more) == LoadBytes(codec, bytes)
  {
    CutExtends(bytes, more);
    var raw, longer := RawLines(bytes), RawLines(bytes + more);
    assert longer[..|raw|] == raw;
    CorruptionStays(codec, longer, |raw|);
  }

  // ----- a log that becomes unreadable --------------------------------------------------------------------

  /** A message of three bytes: a brace, a digit and a brace. */
  function Braces(): Codec<bool> {
    Codec((m: bool) => BracedDigit(m),
          (line: seq<bv8>) => if line == BracedDigit(true) then Some(true)
                              else if line == BracedDigit(false) then Some(false) else None,
          (line: seq<bv8>) => line == [])
  }

  function BracedDigit(m: bool): seq<bv8> {
    [0x7B, if m then 0x31 else 0x30, 0x7D]
  }

  lemma BracesAreSound()
    ensures Sound(Braces())
  {
    forall m: bool ensures SoundFor(Braces(), m) {
      assert BracedDigit(true)[1] != BracedDigit(false)[1];
    }
  }

  /**
   One message and the first byte of a second one: the log loads, and with a third message appended it
   never loads again, whatever follows.
   */
  lemma TornLogBecomesUnreadable(more: seq<bv8>)
    ensures var torn := Written(Braces(), [true]) + [0x7B];
            && LoadBytes(Braces(), torn) == Loaded([true])
            && LoadBytes(Braces(), torn + LineOf(Braces(), true) + more).CorruptLine?
  {
    var torn := Written(Braces(), [true]) + [0x7B];
    BracesAreSound();
    assert SoundFor(Braces(), true);
    CutInsideALine(Braces(), [true], true, 1);
    assert BracedDigit(true)[..1] == [0x7B];
    WrittenIsLines(Braces(), [true]);
    CutIsUnique(LinesOf(Braces(), [true]), [0x7B]);
    AppendAfterATornTail(Braces(), torn, true);
    assert |[0x7B] + BracedDigit(true)| == 4;
    CorruptForGood(Braces(), torn + LineOf(Braces(), true), more);
  }
}

/** Byte strings cut after every line feed: the terminated lines, and what is left at the end. */
module Lines {
  const LF: bv8 := 0x0A
  const CR: bv8 := 0x0D

  function NewlineFrom(bytes: seq<bv8>, i: nat): (n: nat)
    requires i <= |bytes|
    ensures i <= n <= |bytes| && (n < |bytes| ==> bytes[n] == LF)
    ensures forall k :: i <= k < n ==> bytes[k] != LF
    decreases |bytes| - i
  {
    if i == |bytes| || bytes[i] == LF then i else NewlineFrom(bytes, i + 1)
  }

  /** The position of the first line feed, or the length when there is none. */
  function FirstNewline(bytes: seq<bv8>): (n: nat)
    ensures n <= |bytes| && (n < |bytes| ==> bytes[n] == LF)
    ensures forall k :: 0 <= k < n ==> bytes[k] != LF
  {
    NewlineFrom(bytes, 0)
  }

  /** The terminated lines, each with its line feed. */
  function RawLines(bytes: seq<bv8>): seq<seq<bv8>> {
    var n := FirstNewline(bytes);
    if n == |bytes| then [] else [bytes[..n + 1]] + RawLines(bytes[n + 1..])
  }

  /** What follows the last line feed. */
  function Tail(bytes: seq<bv8>): seq<bv8> {
    var n := FirstNewline(bytes);
    if n == |bytes| then bytes else Tail(bytes[n + 1..])
  }

  function Joined(lines: seq<seq<bv8>>): seq<bv8> {
    if |lines| == 0 then [] else lines[0] + Joined(lines[1..])
  }

  predicate IsRawLine(line: seq<bv8>) {
    |line| > 0 && line[|line| - 1] == LF && LF !in line[..|line| - 1]
  }

  lemma JoinedCut(bytes: seq<bv8>, n: nat, lines: seq<seq<bv8>>, tail: seq<bv8>)
    requires n <= |bytes| && Joined(lines) + tail == bytes[n..]
    ensures Joined([bytes[..n]] + lines) + tail == bytes
  {
    var all := [bytes[..n]] + lines;
    assert all[0] == bytes[..n] && all[1..] == lines;
    assert bytes[..n] + (Joined(lines) + tail) == bytes;
  }

  ghost predicate AreRawLines(lines: seq<seq<bv8>>) {
    forall i :: 0 <= i < |lines| ==> IsRawLine(lines[i])
  }

  lemma RawLinesCons(line: seq<bv8>, lines: seq<seq<bv8>>)
    requires IsRawLine(line) && AreRawLines(lines)
    ensures AreRawLines([line] + lines)
  {
  }

  lemma FirstIsRaw(bytes: seq<bv8>)
    requires FirstNewline(bytes) < |bytes|
    ensures IsRawLine(bytes[..FirstNewline(bytes) + 1])
  {
    var n := FirstNewline(bytes);
    assert bytes[..n + 1][..n] == bytes[..n];
  }

  /** Cutting loses nothing. */
  lemma {:induction false} CutIsExact(bytes: seq<bv8>)
    ensures Joined(RawLines(bytes)) + Tail(bytes) == bytes
  {
    var n := FirstNewline(bytes);
    if n < |bytes| {
      CutIsExact(bytes[n + 1..]);
      JoinedCut(bytes, n + 1, RawLines(bytes[n + 1..]), Tail(bytes[n + 1..]));
    }
  }

  /** Every piece is a line with its line feed at its end only. */
  lemma {:induction false} CutsAreLines(bytes: seq<bv8>)
    ensures AreRawLines(RawLines(bytes))
  {
    var n := FirstNewline(bytes);
    if n < |bytes| {
      CutsAreLines(bytes[n + 1..]);
      FirstIsRaw(bytes);
      RawLinesCons(bytes[..n + 1], RawLines(bytes[n + 1..]));
    }
  }

  lemma {:induction false} TailIsOpen(bytes: seq<bv8>)
    ensures LF !in Tail(bytes)
  {
    var n := FirstNewline(bytes);
    if n < |bytes| {
      TailIsOpen(bytes[n + 1..]);
    } else {
      assert bytes[..n] == bytes;
    }
  }

  lemma NewlineIs(bytes: seq<bv8>, m: nat)
    requires m < |bytes| && bytes[m] == LF && LF !in bytes[..m]
    ensures FirstNewline(bytes) == m
  {
    assert forall k :: 0 <= k < m ==> bytes[..m][k] == bytes[k];
  }

  /** And there is no other way to cut. */
  lemma {:induction false} CutIsUnique(lines: seq<seq<bv8>>, rest: seq<bv8>)
    requires AreRawLines(lines) && LF !in rest
    ensures RawLines(Joined(lines) + rest) == lines && Tail(Joined(lines) + rest) == rest
  {
    var bytes := Joined(lines) + rest;
    if |lines| == 0 {
      assert bytes == rest;
    } else {
      var first, more := lines[0], Joined(lines[1..]) + rest;
      assert IsRawLine(first);
      assert bytes == first + more;
      assert bytes[..|first| - 1] == first[..|first| - 1];
      NewlineIs(bytes, |first| - 1);
      assert bytes[..|first|] == first && bytes[|first|..] == more;
      CutIsUnique(lines[1..], rest);
    }
  }

  lemma Regroup(a: seq<bv8>, b: seq<bv8>, whole: seq<bv8>, tail: seq<bv8>, more: seq<bv8>, rest: seq<bv8>)
    requires whole + tail == a && more + rest == tail + b
    ensures a + b == (whole + more) + rest
  {
    assert (whole + tail) + b == whole + (tail + b);
    assert whole + (more + rest) == (whole + more) + rest;
  }

  /** Cutting a longer byte string continues from the tail of the shorter one. */
  lemma CutExtends(a: seq<bv8>, b: seq<bv8>)
    ensures RawLines(a + b) == RawLines(a) + RawLines(Tail(a) + b)
    ensures Tail(a + b) == Tail(Tail(a) + b)
  {
    var tail := Tail(a);
    CutIsExact(a);
    CutsAreLines(a);
    CutIsExact(tail + b);
    CutsAreLines(tail + b);
    TailIsOpen(tail + b);
    CutContinues(a, b, tail, RawLines(a), RawLines(tail + b), Tail(tail + b));
  }

  lemma CutContinues(a: seq<bv8>, b: seq<bv8>, tail: seq<bv8>, x: seq<seq<bv8>>, y: seq<seq<bv8>>, rest: seq<bv8>)
    requires Joined(x) + tail == a && Joined(y) + rest == tail + b
    requires AreRawLines(x) && AreRawLines(y) && LF !in rest
    ensures RawLines(a + b) == x + y && Tail(a + b) == rest
  {
    JoinedConcat(x, y);
    Regroup(a, b, Joined(x), tail, Joined(y), rest);
    CutIsUnique(x + y, rest);
  }

  lemma {:induction false} JoinedConcat(x: seq<seq<bv8>>, y: seq<seq<bv8>>)
    ensures Joined(x + y) == Joined(x) + Joined(y)
  {
    if |x| == 0 {
      assert x + y == y;
    } else {
      assert (x + y)[1..] == x[1..] + y;
      JoinedConcat(x[1..], y);
    }
  }
}

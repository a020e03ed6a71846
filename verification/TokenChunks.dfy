/** Token estimates, and the cutting of a text into chunks that fit a token budget. */
module TokenChunks {
  import opened Basics

  predicate IsCjk(c: char) {
    var u := c as int;
    0x3400 <= u <= 0x4DBF || 0x4E00 <= u <= 0x9FFF || 0xF900 <= u <= 0xFAFF
  }

  /** The first and the last character of each block, and their neighbours. */
  lemma CjkBlocks()
    ensures IsCjk(0x3400 as char) && IsCjk(0x4DBF as char) && !IsCjk(0x33FF as char) && !IsCjk(0x4DC0 as char)
    ensures IsCjk(0x4E00 as char) && IsCjk(0x9FFF as char) && !IsCjk(0x4DFF as char) && !IsCjk(0xA000 as char)
    ensures IsCjk(0xF900 as char) && IsCjk(0xFAFF as char) && !IsCjk(0xF8FF as char) && !IsCjk(0xFB00 as char)
  {
  }

  function CjkCount(s: string): (n: nat)
    ensures n <= |s|
  {
    if |s| == 0 then 0 else CjkCount(s[..|s| - 1]) + if IsCjk(s[|s| - 1]) then 1 else 0
  }

  function CeilDiv(n: nat, d: nat): nat
    requires d > 0
  {
    (n + d - 1) / d
  }

  /** Two tokens for three CJK characters and one for four others, each rounded up. */
  function Estimate(cjk: nat, other: nat): nat {
    CeilDiv(2 * cjk, 3) + CeilDiv(other, 4)
  }

  function Tokens(s: string): nat {
    Estimate(CjkCount(s), |s| - CjkCount(s))
  }

  method EstimateTextTokens(text: string) returns (tokens: nat)
    ensures tokens == Tokens(text)
  {
    var cjk, other := 0, 0;
    for i := 0 to |text|
      invariant cjk == CjkCount(text[..i]) && cjk + other == i
    {
      assert text[..i + 1][..i] == text[..i];
      if IsCjk(text[i]) {
        cjk := cjk + 1;
      } else {
        other := other + 1;
      }
    }
    assert text[..|text|] == text;
    tokens := CeilDiv(2 * cjk, 3) + CeilDiv(other, 4);
  }

  /** Two thirds of the CJK characters and a quarter of the others, each rounded up. */
  lemma EstimateLaw(cjk: nat, other: nat)
    ensures exists a, b ::
              Estimate(cjk, other) == a + b && 3 * (a - 1) < 2 * cjk <= 3 * a && 4 * (b - 1) < other <= 4 * b
  {
    var a, b := CeilDiv(2 * cjk, 3), CeilDiv(other, 4);
    assert Estimate(cjk, other) == a + b && 3 * (a - 1) < 2 * cjk <= 3 * a && 4 * (b - 1) < other <= 4 * b;
  }

  lemma CeilDivStep(n: nat, d: nat, step: nat)
    requires step <= d && (d == 3 || d == 4)
    ensures CeilDiv(n, d) <= CeilDiv(n + step, d) <= CeilDiv(n, d) + 1
  {
  }

  /** One more character costs at most one more token, though both parts are rounded up. */
  lemma OneMoreCharacter(s: string, c: char)
    ensures Tokens(s) <= Tokens(s + [c]) <= Tokens(s) + 1
  {
    assert (s + [c])[..|s + [c]| - 1] == s;
    CeilDivStep(2 * CjkCount(s), 3, 2);
    CeilDivStep(|s| - CjkCount(s), 4, 1);
  }

  /** So a text has at most as many tokens as characters. */
  lemma {:induction false} TokensAtMostLength(s: string)
    ensures Tokens(s) <= |s|
  {
    if |s| > 0 {
      TokensAtMostLength(s[..|s| - 1]);
      OneMoreCharacter(s[..|s| - 1], s[|s| - 1]);
      assert s == s[..|s| - 1] + [s[|s| - 1]];
    }
  }

  // ----- chunks --------------------------------------------------------------------------------------

  function CharLimit(budget: nat): nat {
    Max(3 * budget, 1)
  }

  /** A chunk is closed as soon as it is full. */
  predicate Full(chunk: string, budget: nat) {
    |chunk| >= CharLimit(budget) || Tokens(chunk) >= budget
  }

  /** Nothing shorter than the chunk was already full. */
  ghost predicate JustReached(chunk: string, budget: nat) {
    forall n :: 0 < n < |chunk| ==> !Full(chunk[..n], budget)
  }

  function Joined(chunks: seq<string>): string {
    if |chunks| == 0 then "" else Joined(chunks[..|chunks| - 1]) + chunks[|chunks| - 1]
  }

  ghost predicate Closed(chunks: seq<string>, budget: nat) {
    forall i :: 0 <= i < |chunks| ==> |chunks[i]| > 0 && Full(chunks[i], budget) && JustReached(chunks[i], budget)
  }

  /** A closed chunk within a positive budget: it fits, and it is worth at least the budget in characters. */
  lemma ClosedChunkFits(chunk: string, budget: nat)
    requires |chunk| > 0 && JustReached(chunk, budget) && budget > 0
    ensures Tokens(chunk) <= budget && |chunk| <= 3 * budget
    ensures Full(chunk, budget) ==> |chunk| >= budget
  {
    var front := chunk[..|chunk| - 1];
    assert chunk == front + [chunk[|chunk| - 1]];
    OneMoreCharacter(front, chunk[|chunk| - 1]);
    TokensAtMostLength(chunk);
    if |front| > 0 {
      assert !Full(chunk[..|chunk| - 1], budget);
    } else {
      assert front == "";
    }
  }

  /** The chunks closed so far and the open one, after the characters read so far. */
  ghost predicate Splitting(chunks: seq<string>, current: string, read: string, budget: nat) {
    && Joined(chunks) + current == read
    && Closed(chunks, budget)
    && (current != "" ==> !Full(current, budget))
    && JustReached(current, budget)
  }

  lemma CloseChunk(chunks: seq<string>, current: string, budget: nat)
    requires |current| > 0 && Closed(chunks, budget) && Full(current, budget) && JustReached(current, budget)
    ensures Splitting(chunks + [current], "", Joined(chunks) + current, budget)
  {
    assert (chunks + [current])[..|chunks + [current]| - 1] == chunks;
  }

  lemma ReadOne(chunks: seq<string>, current: string, text: string, i: nat, budget: nat)
    requires i < |text| && Splitting(chunks, current, text[..i], budget)
    ensures Joined(chunks) + (current + [text[i]]) == text[..i + 1]
    ensures JustReached(current + [text[i]], budget)
  {
    assert text[..i + 1] == text[..i] + [text[i]];
    assert Joined(chunks) + (current + [text[i]]) == (Joined(chunks) + current) + [text[i]];
    ReachedPush(current, text[i], budget);
  }

  method SplitForTokenBudget(text: string, budget: nat) returns (chunks: seq<string>)
    ensures IsSplit(chunks, text, budget)
  {
    chunks := [];
    var current: string := "";
    for i := 0 to |text|
      invariant Splitting(chunks, current, text[..i], budget)
    {
      ReadOne(chunks, current, text, i, budget);
      current := current + [text[i]];
      var tokens := EstimateTextTokens(current);
      if |current| >= CharLimit(budget) || tokens >= budget {
        CloseChunk(chunks, current, budget);
        chunks := chunks + [current];
        current := "";
      }
    }
    assert text[..|text|] == text;
    AllRead(chunks, current, text, budget);
    if current != "" {
      chunks := chunks + [current];
    }
  }

  /** Every chunk was closed as soon as it was full, and only the last may not be full. */
  ghost predicate IsSplit(chunks: seq<string>, text: string, budget: nat) {
    && Joined(chunks) == text
    && (forall i :: 0 <= i < |chunks| ==> |chunks[i]| > 0 && JustReached(chunks[i], budget))
    && (forall i :: 0 <= i < |chunks| - 1 ==> Full(chunks[i], budget))
  }

  lemma AllRead(chunks: seq<string>, current: string, text: string, budget: nat)
    requires Splitting(chunks, current, text, budget)
    ensures IsSplit(if current == "" then chunks else chunks + [current], text, budget)
  {
    if current != "" {
      assert (chunks + [current])[..|chunks + [current]| - 1] == chunks;
    } else {
      assert Joined(chunks) + "" == Joined(chunks);
    }
  }

  lemma ReachedPush(chunk: string, c: char, budget: nat)
    requires JustReached(chunk, budget) && (chunk != "" ==> !Full(chunk, budget))
    ensures JustReached(chunk + [c], budget)
  {
    var longer := chunk + [c];
    forall n | 0 < n < |longer| ensures !Full(longer[..n], budget) {
      assert longer[..n] == chunk[..n];
      assert n == |chunk| ==> chunk[..n] == chunk;
    }
  }

  // ----- what the chunks are worth ------------------------------------------------------------------

  lemma {:induction false} JoinedLength(chunks: seq<string>, budget: nat)
    requires forall i :: 0 <= i < |chunks| ==> |chunks[i]| >= budget
    ensures |Joined(chunks)| >= budget * |chunks|
  {
    if |chunks| > 0 {
      JoinedLength(chunks[..|chunks| - 1], budget);
      assert budget * |chunks| == budget * (|chunks| - 1) + budget;
    }
  }

  lemma Monotone(k: nat, a: nat, b: nat)
    requires a <= b
    ensures k * a <= k * b
  {
    assert k * b == k * a + k * (b - a);
  }

  lemma CountBound(n: nat, budget: nat, count: nat)
    requires budget > 0 && budget * count < n + budget
    ensures count <= CeilDiv(n, budget)
  {
    var q := CeilDiv(n, budget);
    assert budget * (q + 1) == budget * q + budget;
    assert n + budget - 1 < budget * q + budget;
    if count > q {
      Monotone(budget, q + 1, count);
    }
  }

  lemma FullChunksCount(front: seq<string>, last: string, text: string, budget: nat)
    requires budget > 0 && |last| > 0 && text == Joined(front) + last
    requires forall i :: 0 <= i < |front| ==> |front[i]| >= budget
    ensures |front| + 1 <= CeilDiv(|text|, budget)
  {
    JoinedLength(front, budget);
    assert budget * (|front| + 1) == budget * |front| + budget;
    CountBound(|text|, budget, |front| + 1);
  }

  /**
   With a budget of at least one token every chunk fits the budget and has at most three characters for each of
   its tokens; every chunk but the last has reached one of the two; and n characters make at most
   ceil(n / budget) chunks.
   */
  lemma ChunksFitTheBudget(text: string, budget: nat, chunks: seq<string>)
    requires budget > 0 && IsSplit(chunks, text, budget)
    ensures forall i :: 0 <= i < |chunks| ==> Tokens(chunks[i]) <= budget && |chunks[i]| <= 3 * budget
    ensures forall i :: 0 <= i < |chunks| - 1 ==> Tokens(chunks[i]) == budget || |chunks[i]| == 3 * budget
    ensures |chunks| <= CeilDiv(|text|, budget)
  {
    forall i | 0 <= i < |chunks| ensures Tokens(chunks[i]) <= budget && |chunks[i]| <= 3 * budget {
      ClosedChunkFits(chunks[i], budget);
    }
    if |chunks| > 0 {
      var front := chunks[..|chunks| - 1];
      forall i | 0 <= i < |front| ensures |front[i]| >= budget {
        ClosedChunkFits(chunks[i], budget);
      }
      FullChunksCount(front, chunks[|chunks| - 1], text, budget);
    }
  }
}

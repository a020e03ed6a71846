/**
 The history of a conversation: what compression does to it, and why a tool result never loses the
 call it answers.
 */
module History {
  import opened Basics

  datatype Message =
    | SystemNote(text: string)
    | UserInput(text: string)
    | AssistantText(text: string)
    | AssistantCalls(ids: seq<string>)
    | ToolResult(id: string)

  datatype Mode = Mild | Strong

  function Summary(text: string): Message {
    SystemNote("此前对话摘要：\n" + text)
  }

  // ----- compression -----------------------------------------------------------------------------

  /** How many of the oldest messages a compression would like to replace. */
  function Target(length: nat, recent: nat, mode: Mode): nat
    requires recent < length
  {
    var compressible := length - recent;
    match mode
    case Mild => Max((compressible + 2) / 3, 1)
    case Strong => compressible
  }

  /** A strong compression wants all but the recent messages, a mild one a third of them, rounded up. */
  lemma TargetLaw(length: nat, recent: nat)
    requires recent < length
    ensures Target(length, recent, Strong) + recent == length
    ensures var third := Target(length, recent, Mild);
            0 < third && length <= 3 * third + recent && 3 * (third - 1) + recent < length
  {
  }

  predicate StartsWithResult(messages: seq<Message>) {
    |messages| > 0 && messages[0].ToolResult?
  }

  /**
   The largest split up to the target that does not cut a block of tool results off its call; 0 when
   there is none.
   */
  ghost predicate IsSplit(history: seq<Message>, target: nat, split: nat) {
    && split <= target <= |history|
    && (split > 0 ==> !StartsWithResult(history[split..]))
    && forall i :: split < i <= target ==> StartsWithResult(history[i..])
  }

  method FindSplit(history: seq<Message>, target: nat) returns (split: nat)
    requires target <= |history|
    ensures IsSplit(history, target, split)
  {
    split := target;
    while split > 0 && split < |history| && history[split].ToolResult?
      invariant split <= target
      invariant forall i :: split < i <= target ==> StartsWithResult(history[i..])
    {
      split := split - 1;
    }
  }

  /** The model's summary of a list of messages, if the request for it succeeds. */
  type Summarizer = seq<Message> -> Option<string>

  /** What a compression leaves: nothing changes, or the messages before the split become their summary. */
  ghost predicate CompressedAt(before: seq<Message>, after: seq<Message>, split: nat, summarize: Summarizer)
    requires split <= |before|
  {
    after ==
    if split == 0 || summarize(before[..split]).None? then before
    else [Summary(summarize(before[..split]).value)] + before[split..]
  }

  ghost predicate Compressed(before: seq<Message>, after: seq<Message>, recent: nat, mode: Mode,
      summarize: Summarizer) {
    if |before| <= recent then after == before
    else
      exists split :: IsSplit(before, Target(|before|, recent, mode), split) &&
        CompressedAt(before, after, split, summarize)
  }

  /** There is something to compress, and its summary fails. */
  ghost predicate SummaryFails(history: seq<Message>, recent: nat, mode: Mode, summarize: Summarizer) {
    && recent < |history|
    && exists split :: 0 < split && IsSplit(history, Target(|history|, recent, mode), split) &&
         summarize(history[..split]).None?
  }

  lemma SplitIsUnique(history: seq<Message>, target: nat, s1: nat, s2: nat)
    requires IsSplit(history, target, s1) && IsSplit(history, target, s2)
    ensures s1 == s2
  {
  }

  /**
   Compresses the history; exactly when the summary fails the error is passed on, and then the history stays
   as it was.
   */
  method CompressHistory(history: seq<Message>, recent: nat, mode: Mode, summarize: Summarizer)
    returns (result: seq<Message>, ok: bool)
    ensures Compressed(history, result, recent, mode, summarize)
    ensures !ok ==> result == history
    ensures ok <==> !SummaryFails(history, recent, mode, summarize)
  {
    if |history| <= recent {
      return history, true;
    }
    var split := FindSplit(history, Target(|history|, recent, mode));
    forall other | IsSplit(history, Target(|history|, recent, mode), other) ensures other == split {
      SplitIsUnique(history, Target(|history|, recent, mode), other, split);
    }
    if split == 0 {
      assert CompressedAt(history, history, 0, summarize);
      return history, true;
    }
    var summary := summarize(history[..split]);
    result := if summary.None? then history else [Summary(summary.value)] + history[split..];
    ok := summary.Some?;
    assert CompressedAt(history, result, split, summarize);
  }

  // ----- what every history keeps ------------------------------------------------------------------

  /** The result at i answers, in order, a call of the assistant message at k, with only results in between. */
  ghost predicate Answers(messages: seq<Message>, k: int, i: int) {
    && 0 <= k < i < |messages| && messages[k].AssistantCalls?
    && i - k - 1 < |messages[k].ids|
    && (forall j :: k < j <= i ==> messages[j].ToolResult? && messages[j].id == messages[k].ids[j - k - 1])
  }

  /** Every tool result follows its assistant message, after the results of that message's earlier calls. */
  ghost predicate Paired(messages: seq<Message>) {
    forall i :: 0 <= i < |messages| && messages[i].ToolResult? ==> exists k :: Answers(messages, k, i)
  }

  /** The history is the log, or one summary followed by a suffix of the log. */
  ghost predicate Tied(history: seq<Message>, log: seq<Message>) {
    history == log ||
    exists c, summary :: 0 <= c <= |log| && history == [Summary(summary)] + log[c..]
  }

  lemma PairedPrefix(messages: seq<Message>, n: nat)
    requires Paired(messages) && n <= |messages|
    ensures Paired(messages[..n])
  {
    forall i | 0 <= i < n && messages[i].ToolResult? ensures exists k :: Answers(messages[..n], k, i) {
      var k :| Answers(messages, k, i);
      assert Answers(messages[..n], k, i);
    }
  }

  lemma PairedPush(messages: seq<Message>, m: Message)
    requires Paired(messages)
    requires m.ToolResult? ==> exists k :: Answers(messages + [m], k, |messages|)
    ensures Paired(messages + [m])
  {
    var longer := messages + [m];
    forall i | 0 <= i < |messages| && messages[i].ToolResult? ensures exists k :: Answers(longer, k, i) {
      var k :| Answers(messages, k, i);
      assert Answers(longer, k, i);
    }
  }

  /** A suffix that does not start inside a block of results keeps every result with its call. */
  lemma PairedSuffix(messages: seq<Message>, c: nat, note: Message)
    requires Paired(messages) && c <= |messages| && !StartsWithResult(messages[c..]) && !note.ToolResult?
    ensures Paired([note] + messages[c..])
  {
    var shorter := [note] + messages[c..];
    if c < |messages| {
      assert messages[c..][0] == messages[c];
    }
    forall i | 0 <= i < |shorter| && shorter[i].ToolResult? ensures exists k :: Answers(shorter, k, i) {
      assert shorter[i] == messages[c + i - 1];
      var k :| Answers(messages, k, c + i - 1);
      assert k >= c;
      assert Answers(shorter, k - c + 1, i);
    }
  }

  /** The split a compression used, when it changed anything. */
  lemma SplitOf(before: seq<Message>, after: seq<Message>, recent: nat, mode: Mode, summarize: Summarizer)
    returns (split: nat, summary: string)
    requires Compressed(before, after, recent, mode, summarize) && after != before
    ensures 0 < split && split + recent <= |before| && !StartsWithResult(before[split..])
    ensures after == [Summary(summary)] + before[split..]
  {
    split :| IsSplit(before, Target(|before|, recent, mode), split) && CompressedAt(before, after, split, summarize);
    summary := summarize(before[..split]).value;
  }

  /** When the summary succeeds it stands in place of the messages before the split, and nothing else changes. */
  lemma WhatCompressionLeaves(before: seq<Message>, after: seq<Message>, recent: nat, mode: Mode,
      summarize: Summarizer, split: nat, text: string)
    requires Compressed(before, after, recent, mode, summarize) && recent < |before|
    requires 0 < split <= Target(|before|, recent, mode) && (split < |before| ==> !before[split].ToolResult?)
    requires forall i :: split < i <= Target(|before|, recent, mode) ==> StartsWithResult(before[i..])
    requires summarize(before[..split]) == Some(text)
    ensures after == [SystemNote("此前对话摘要：\n" + text)] + before[split..]
  {
    var used :| IsSplit(before, Target(|before|, recent, mode), used) &&
                CompressedAt(before, after, used, summarize);
    assert IsSplit(before, Target(|before|, recent, mode), split);
    SplitIsUnique(before, Target(|before|, recent, mode), used, split);
  }

  /** The last `recent` messages, or all of them when there are fewer, are still the last. */
  ghost predicate RecentKept(before: seq<Message>, after: seq<Message>, recent: nat) {
    var kept := Min(recent, |before|);
    kept <= |after| && after[|after| - kept..] == before[|before| - kept..]
  }

  /** Compression never parts a tool result from its call. */
  lemma CompressionKeepsPairs(before: seq<Message>, after: seq<Message>, recent: nat, mode: Mode, summarize: Summarizer)
    requires Compressed(before, after, recent, mode, summarize) && Paired(before)
    ensures Paired(after)
  {
    if after != before {
      var split, summary := SplitOf(before, after, recent, mode, summarize);
      PairedSuffix(before, split, Summary(summary));
    }
  }

  /** A compressed history is still the log, or one summary and a suffix of it. */
  lemma CompressionKeepsTie(before: seq<Message>, after: seq<Message>, recent: nat, mode: Mode, summarize: Summarizer,
      log: seq<Message>)
    requires Compressed(before, after, recent, mode, summarize) && Tied(before, log)
    ensures Tied(after, log)
  {
    if after != before {
      var split, summary := SplitOf(before, after, recent, mode, summarize);
      TiedSuffix(before, log, split, summary);
    }
  }

  /** Recent messages survive every compression. */
  lemma CompressionKeepsRecent(before: seq<Message>, after: seq<Message>, recent: nat, mode: Mode,
      summarize: Summarizer)
    requires Compressed(before, after, recent, mode, summarize)
    ensures RecentKept(before, after, recent)
  {
    if after != before {
      var split, summary := SplitOf(before, after, recent, mode, summarize);
      LastSurvive(before, split, recent, Summary(summary));
    }
  }

  lemma LastSurvive(before: seq<Message>, split: nat, recent: nat, note: Message)
    requires split + recent <= |before|
    ensures ([note] + before[split..])[1 + |before| - split - recent..] == before[|before| - recent..]
  {
  }

  lemma TiedSuffix(history: seq<Message>, log: seq<Message>, split: nat, summary: string)
    requires Tied(history, log) && 0 < split <= |history|
    ensures Tied([Summary(summary)] + history[split..], log)
  {
    if history == log {
      assert [Summary(summary)] + history[split..] == [Summary(summary)] + log[split..];
    } else {
      var c, earlier :| 0 <= c <= |log| && history == [Summary(earlier)] + log[c..];
      assert history[split..] == log[c + split - 1..];
    }
  }

  lemma TiedPush(history: seq<Message>, log: seq<Message>, m: Message)
    requires Tied(history, log)
    ensures Tied(history + [m], log + [m])
  {
    if history != log {
      var c, summary :| 0 <= c <= |log| && history == [Summary(summary)] + log[c..];
      assert (log + [m])[c..] == log[c..] + [m];
      assert history + [m] == [Summary(summary)] + (log + [m])[c..];
    }
  }

  // ----- compaction after an overflow ---------------------------------------------------------------

  /** A strong compression of the request that is estimated smaller. */
  ghost predicate IsCompaction(messages: seq<Message>, compacted: seq<Message>, recent: nat, summarize: Summarizer,
                               estimate: seq<Message> -> nat) {
    estimate(compacted) < estimate(messages) && Compressed(messages, compacted, recent, Strong, summarize)
  }

  /**
   A request copy is compacted once, strongly; the compaction only counts when it is estimated smaller.  There
   is none exactly when the request has at most two messages or no strong compression of it is smaller.
   */
  method CompactForOverflow(messages: seq<Message>, recent: nat, summarize: Summarizer, estimate: seq<Message> -> nat)
    returns (compacted: Option<seq<Message>>)
    ensures compacted.Some? ==> IsCompaction(messages, compacted.value, recent, summarize, estimate)
    ensures compacted.None? <==>
            |messages| <= 2 || forall other :: !IsCompaction(messages, other, recent, summarize, estimate)
  {
    if |messages| <= 2 {
      return None;
    }
    var result, ok := CompressHistory(messages, recent, Strong, summarize);
    forall other | Compressed(messages, other, recent, Strong, summarize) ensures other == result {
      CompressedIsUnique(messages, other, result, recent, Strong, summarize);
    }
    if ok && estimate(result) < estimate(messages) {
      assert IsCompaction(messages, result, recent, summarize, estimate);
      return Some(result);
    }
    return None;
  }

  lemma CompressedIsUnique(before: seq<Message>, a: seq<Message>, b: seq<Message>, recent: nat, mode: Mode,
      summarize: Summarizer)
    requires Compressed(before, a, recent, mode, summarize) && Compressed(before, b, recent, mode, summarize)
    ensures a == b
  {
    if recent < |before| {
      var target := Target(|before|, recent, mode);
      var s1 :| IsSplit(before, target, s1) && CompressedAt(before, a, s1, summarize);
      var s2 :| IsSplit(before, target, s2) && CompressedAt(before, b, s2, summarize);
      SplitIsUnique(before, target, s1, s2);
    }
  }

  /**
   A compacted request starts with the summary of the messages before the split, and the messages from the
   split on follow.  So the first message, the system prompt, is still there exactly when it reads like
   that summary or stands a second time at or after the split.
   */
  lemma CompactionReplacesTheFirst(messages: seq<Message>, compacted: seq<Message>, recent: nat, summarize: Summarizer,
      estimate: seq<Message> -> nat, split: nat)
    requires IsCompaction(messages, compacted, recent, summarize, estimate)
    requires recent < |messages| ==> IsSplit(messages, |messages| - recent, split)
    ensures recent < |messages| && 0 < split <= |messages| - recent && summarize(messages[..split]).Some?
    ensures compacted == [Summary(summarize(messages[..split]).value)] + messages[split..]
    ensures messages[0] in compacted <==>
            messages[0] == Summary(summarize(messages[..split]).value) || messages[0] in messages[split..]
  {
    var used :| IsSplit(messages, |messages| - recent, used) && CompressedAt(messages, compacted, used, summarize);
    SplitIsUnique(messages, |messages| - recent, used, split);
  }

  /** It still has every tool result with its call, and the last messages unchanged. */
  lemma CompactionKeepsTheRest(messages: seq<Message>, compacted: seq<Message>, recent: nat, summarize: Summarizer,
      estimate: seq<Message> -> nat)
    requires IsCompaction(messages, compacted, recent, summarize, estimate)
    ensures RecentKept(messages, compacted, recent)
    ensures Paired(messages) ==> Paired(compacted)
  {
    CompressionKeepsRecent(messages, compacted, recent, Strong, summarize);
    if Paired(messages) {
      CompressionKeepsPairs(messages, compacted, recent, Strong, summarize);
    }
  }

  /** A request of three messages whose compaction has lost the system prompt. */
  lemma CompactionCanLoseThePrompt()
    ensures exists messages, compacted, summarize, estimate ::
              && IsCompaction(messages, compacted, 1, summarize, estimate)
              && |messages| == 3 && messages[0] == SystemNote("rules") && messages[0] !in compacted
  {
    var messages := [SystemNote("rules"), UserInput("a"), UserInput("b")];
    var summarize: Summarizer := (first: seq<Message>) => Some("a");
    var estimate := (request: seq<Message>) => |request|;
    var compacted := [Summary("a"), UserInput("b")];
    assert messages[2..] == [UserInput("b")];
    assert IsSplit(messages, Target(3, 1, Strong), 2) && CompressedAt(messages, compacted, 2, summarize);
    assert Summary("a").text[0] != "rules"[0];
    assert IsCompaction(messages, compacted, 1, summarize, estimate);
  }
}

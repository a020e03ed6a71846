/**
 One turn of the conversation: user input, then rounds of model replies and tool executions.  What
 the model, the tools and the session store do in each round is arbitrary.
 */
module Turn {
  import opened Basics
  import opened History

  const MAX_CONSECUTIVE_FAILURES: nat := 3
  const REPETITION_ABORT: nat := 10
  const USIZE_MAX: nat := 0xFFFF_FFFF_FFFF_FFFF
  const U64_MAX: nat := 0xFFFF_FFFF_FFFF_FFFF

  datatype Fingerprint = Fingerprint(tool: string, arguments: nat, result: nat)

  datatype Execution = Execution(fingerprint: Fingerprint, failed: bool)

  /** What a round's model request leads to; executions are None when they are cancelled or break. */
  datatype Reply =
    | RequestFailed
    | TextReply(text: string)
    | CallsReply(ids: seq<string>, admitted: bool, executions: Option<seq<Execution>>)
    | AssemblyFailed

  /**
   A round: the compression its context asks for, the reply, the tokens that its request and reply are
   estimated at, and what the provider has measured for the whole run so far.
   */
  datatype Round = Round(compress: Option<Mode>, summarize: Summarizer, reply: Reply, tokens: nat, measured: nat)

  datatype Stop =
    | Cancelled | RequestError | StoreError | SummaryError
    | ToolsBroke | TooManyFailures | NoProgress | RoundLimit | BudgetSpent

  datatype Ending = Answered(text: string) | Stopped(why: Stop) | OutOfRounds

  // ----- repeated rounds --------------------------------------------------------------------------

  /** How many of the last elements are equal. */
  function ConstantSuffix<T(==)>(s: seq<T>): nat {
    if |s| == 0 then 0
    else if |s| == 1 || s[|s| - 2] != s[|s| - 1] then 1
    else ConstantSuffix(s[..|s| - 1]) + 1
  }

  /** It is the longest suffix of equal elements. */
  lemma {:induction false} ConstantSuffixIsLongest<T>(s: seq<T>)
    ensures var k := ConstantSuffix(s);
            && k <= |s| && (|s| > 0 ==> k > 0)
            && (forall i :: |s| - k <= i < |s| ==> s[i] == s[|s| - 1])
            && (0 < k < |s| ==> s[|s| - k - 1] != s[|s| - 1])
  {
    if |s| > 1 && s[|s| - 2] == s[|s| - 1] {
      ConstantSuffixIsLongest(s[..|s| - 1]);
    }
  }

  class RepeatDetector {
    var last: Option<seq<Fingerprint>>
    var count: nat
    ghost var observed: seq<seq<Fingerprint>>

    ghost predicate Valid()
      reads this
    {
      && (last.None? <==> observed == [])
      && (observed != [] ==> last == Some(observed[|observed| - 1]))
      && count == Min(ConstantSuffix(observed), USIZE_MAX)
    }

    constructor ()
      ensures Valid() && observed == []
    {
      last, count, observed := None, 0, [];
    }

    method Observe(fingerprints: seq<Fingerprint>) returns (repeats: nat)
      requires Valid()
      modifies this
      ensures Valid() && observed == old(observed) + [fingerprints]
      ensures repeats == Min(ConstantSuffix(observed), USIZE_MAX)
    {
      ghost var longer := observed + [fingerprints];
      assert longer[..|longer| - 1] == observed;
      if last == Some(fingerprints) {
        count := Min(count + 1, USIZE_MAX);
      } else {
        last, count := Some(fingerprints), 1;
      }
      observed := longer;
      repeats := count;
    }
  }

  // ----- what the rounds of a turn say --------------------------------------------------------------

  function Replies(rounds: seq<Round>): seq<Reply> {
    seq(|rounds|, i requires 0 <= i < |rounds| => rounds[i].reply)
  }

  predicate IsExecuted(reply: Reply) {
    reply.CallsReply? && reply.ids != [] && reply.admitted && reply.executions.Some?
  }

  function FailedCalls(executions: seq<Execution>): nat {
    if |executions| == 0 then 0
    else FailedCalls(executions[..|executions| - 1]) + if executions[|executions| - 1].failed then 1 else 0
  }

  function Fingerprints(executions: seq<Execution>): seq<Fingerprint> {
    seq(|executions|, i requires 0 <= i < |executions| => executions[i].fingerprint)
  }

  /** A reply without any usable call, or one whose execution has failing calls. */
  predicate RoundFails(reply: Reply) {
    reply.AssemblyFailed? || (reply.CallsReply? && (reply.ids == [] || !reply.admitted)) ||
    (IsExecuted(reply) && FailedCalls(reply.executions.value) > 0)
  }

  /** The failures counted since the last clean execution. */
  function Failures(replies: seq<Reply>): nat {
    if |replies| == 0 then 0
    else
      var before, reply := Failures(replies[..|replies| - 1]), replies[|replies| - 1];
      if IsExecuted(reply) then
        var failed := FailedCalls(reply.executions.value);
        if failed == 0 then 0 else before + failed
      else if RoundFails(reply) then before + 1
      else before
  }

  /** The fingerprints of the executed rounds, in order. */
  function Executed(replies: seq<Reply>): seq<seq<Fingerprint>> {
    if |replies| == 0 then []
    else
      Executed(replies[..|replies| - 1]) +
      if IsExecuted(replies[|replies| - 1]) then [Fingerprints(replies[|replies| - 1].executions.value)] else []
  }

  /** The failing rounds at the end. */
  function FailingSuffix(replies: seq<Reply>): nat {
    if |replies| == 0 || !RoundFails(replies[|replies| - 1]) then 0 else FailingSuffix(replies[..|replies| - 1]) + 1
  }

  /** Failing rounds at the end are all counted. */
  lemma {:induction false} FailingRoundsAreCounted(replies: seq<Reply>)
    ensures FailingSuffix(replies) <= Failures(replies)
  {
    if |replies| > 0 && RoundFails(replies[|replies| - 1]) {
      FailingRoundsAreCounted(replies[..|replies| - 1]);
    }
  }

  /** Every call of the round came back without a failure. */
  predicate IsClean(reply: Reply) {
    IsExecuted(reply) && forall i :: 0 <= i < |reply.executions.value| ==> !reply.executions.value[i].failed
  }

  function HasFailed(): Execution -> bool {
    (e: Execution) => e.failed
  }

  /** What a round counts for: each of its failing calls, or one for a reply without any usable call. */
  function Weight(reply: Reply): nat {
    match reply
    case CallsReply(ids, admitted, executions) =>
      if ids == [] || !admitted then 1
      else if executions.Some? then |Keep(HasFailed(), executions.value)| else 0
    case AssemblyFailed => 1
    case _ => 0
  }

  function TotalWeight(replies: seq<Reply>): nat {
    if |replies| == 0 then 0 else TotalWeight(replies[..|replies| - 1]) + Weight(replies[|replies| - 1])
  }

  lemma {:induction false} FailedCallsAreKept(executions: seq<Execution>)
    ensures FailedCalls(executions) == |Keep(HasFailed(), executions)|
    ensures FailedCalls(executions) == 0 <==> forall i :: 0 <= i < |executions| ==> !executions[i].failed
  {
    if |executions| > 0 {
      FailedCallsAreKept(executions[..|executions| - 1]);
      assert executions == executions[..|executions| - 1] + [executions[|executions| - 1]];
    }
  }

  /** The rounds from c on are those since the last clean one. */
  predicate SinceClean(replies: seq<Reply>, c: nat) {
    && c <= |replies| && (c > 0 ==> IsClean(replies[c - 1]))
    && forall i :: c <= i < |replies| ==> !IsClean(replies[i])
  }

  /** The last clean round starts the count again; what follows it counts in full. */
  lemma {:induction false} FailuresSinceTheLastCleanRound(replies: seq<Reply>, c: nat)
    requires SinceClean(replies, c)
    ensures Failures(replies) == TotalWeight(replies[c..])
  {
    if |replies| > 0 {
      var front, reply := replies[..|replies| - 1], replies[|replies| - 1];
      if IsExecuted(reply) {
        FailedCallsAreKept(reply.executions.value);
      }
      if c < |replies| {
        FailuresSinceTheLastCleanRound(front, c);
        assert replies[c..][..|replies[c..]| - 1] == front[c..];
      }
    }
  }

  // ----- how a reply can end the turn ---------------------------------------------------------------

  /** What the last of these replies makes of the turn, when everything it says was stored. */
  ghost function Verdict(replies: seq<Reply>): Option<Ending>
    requires |replies| > 0
  {
    var last := replies[|replies| - 1];
    match last
    case RequestFailed => Some(Stopped(RequestError))
    case TextReply(text) => Some(Answered(text))
    case _ =>
      if last.CallsReply? && last.ids != [] && last.admitted && last.executions.None? then Some(Stopped(ToolsBroke))
      else if IsExecuted(last) && ConstantSuffix(Executed(replies)) >= REPETITION_ABORT then Some(Stopped(NoProgress))
      else if RoundFails(last) && Failures(replies) >= MAX_CONSECUTIVE_FAILURES then Some(Stopped(TooManyFailures))
      else None
  }

  lemma TenEqual<T>(s: seq<T>)
    ensures ConstantSuffix(s) >= 10 <==> |s| >= 10 && forall i :: |s| - 10 <= i < |s| ==> s[i] == s[|s| - 1]
  {
    ConstantSuffixIsLongest(s);
    var k := ConstantSuffix(s);
    if |s| >= 10 && k < 10 {
      assert s[|s| - k - 1] != s[|s| - 1];
    }
  }

  /**
   When a reply ends the turn.  A text is the answer; a failed request and broken tools end it; ten executed
   rounds in a row with the same calls and results do, and otherwise a failing round with which three failures
   have been counted.
   */
  lemma VerdictLaw(replies: seq<Reply>)
    requires |replies| > 0
    ensures var (last, verdict, executed) := (replies[|replies| - 1], Verdict(replies), Executed(replies));
            var ran := last.CallsReply? && last.ids != [] && last.admitted;
            var stuck := ran && last.executions.Some? && |executed| >= 10 &&
                         forall i :: |executed| - 10 <= i < |executed| ==> executed[i] == executed[|executed| - 1];
            var fails := last.AssemblyFailed? || (last.CallsReply? && (last.ids == [] || !last.admitted)) ||
                         (ran && last.executions.Some? &&
                          exists i :: 0 <= i < |last.executions.value| && last.executions.value[i].failed);
            && (forall text :: verdict == Some(Answered(text)) <==> last == TextReply(text))
            && (verdict == Some(Stopped(RequestError)) <==> last == RequestFailed)
            && (verdict == Some(Stopped(ToolsBroke)) <==> ran && last.executions.None?)
            && (verdict == Some(Stopped(NoProgress)) <==> stuck)
            && (verdict == Some(Stopped(TooManyFailures)) <==> !stuck && fails && Failures(replies) >= 3)
            && (verdict.None? ==> last.CallsReply? || last.AssemblyFailed?)
            && (verdict.Some? && verdict.value.Stopped? ==>
                  verdict.value.why in {RequestError, ToolsBroke, NoProgress, TooManyFailures})
  {
    TenEqual(Executed(replies));
    var last := replies[|replies| - 1];
    if IsExecuted(last) {
      FailedCallsAreKept(last.executions.value);
    }
  }

  // ----- the conversation ------------------------------------------------------------------------------

  class Conversation {
    var history: seq<Message>
    var log: seq<Message>
    const recent: nat

    /** In memory and on disk every tool result is with its call, and memory is a compressed view of disk. */
    ghost predicate Valid()
      reads this
    {
      Paired(history) && Paired(log) && Tied(history, log)
    }

    /** A conversation starts from what its session log holds. */
    constructor (stored: seq<Message>, recent: nat)
      requires Paired(stored)
      ensures Valid() && history == stored == log && this.recent == recent
    {
      history, log, this.recent := stored, stored, recent;
    }

    /** Appends to the session log first; when that fails nothing changes. */
    method Record(m: Message, stored: bool)
      requires Valid()
      requires m.ToolResult? ==>
                 (exists k :: Answers(history + [m], k, |history|)) && exists k :: Answers(log + [m], k, |log|)
      modifies this
      ensures Valid()
      ensures history == (if stored then old(history) + [m] else old(history))
      ensures log == (if stored then old(log) + [m] else old(log))
    {
      if stored {
        PairedPush(log, m);
        PairedPush(history, m);
        TiedPush(history, log, m);
        log := log + [m];
        history := history + [m];
      }
    }

    /** The calls of a reply, and then their results one by one, as far as the store takes them. */
    method RecordExecution(ids: seq<string>, executed: bool, stores: nat -> bool, number: nat)
      returns (refused: bool, next: nat)
      requires Valid() && ids != []
      modifies this
      ensures Valid()
      ensures Written(old(log), log, [AssistantCalls(ids)] + Results(ids, if executed then |ids| else 0),
                      stores, number, next, refused)
      ensures GrewAlike(old(log), log, old(history), history)
    {
      next, refused := number, !stores(number);
      Record(AssistantCalls(ids), stores(number));
      if refused {
        return;
      }
      next := number + 1;
      if executed {
        refused, next := RecordResults(ids, stores, next, old(log), old(history));
        WrittenOn(old(log), old(log) + [AssistantCalls(ids)], log, [AssistantCalls(ids)], Results(ids, |ids|), stores,
                  number, next, refused);
      }
    }

    method RecordResults(ids: seq<string>, stores: nat -> bool, number: nat, ghost log0: seq<Message>,
        ghost history0: seq<Message>)
      returns (refused: bool, next: nat)
      requires Valid() && log == log0 + [AssistantCalls(ids)] && history == history0 + [AssistantCalls(ids)]
      modifies this
      ensures Valid() && Written(old(log), log, Results(ids, |ids|), stores, number, next, refused)
      ensures GrewAlike(log0, log, history0, history)
    {
      hide GrewAlike, Paired, Tied, Answers;
      var n := 0;
      next := number;
      while n < |ids|
        invariant n <= |ids| && next == number + n && Valid()
        invariant log == log0 + [AssistantCalls(ids)] + Results(ids, n)
        invariant history == history0 + [AssistantCalls(ids)] + Results(ids, n)
        invariant forall k :: number <= k < next ==> stores(k)
      {
        NextResultAnswers(history0, ids, n);
        NextResultAnswers(log0, ids, n);
        assert Results(ids, |ids|)[..n] == Results(ids, n);
        Record(ToolResult(ids[n]), stores(next));
        if !stores(next) {
          BothGrew(log0, history0, [AssistantCalls(ids)], Results(ids, n));
          return true, next;
        }
        n, next := n + 1, next + 1;
      }
      BothGrew(log0, history0, [AssistantCalls(ids)], Results(ids, n));
      refused := false;
    }

    /** Compressing fails exactly when a summary was needed and failed, and then nothing changes. */
    method Compress(mode: Option<Mode>, summarize: Summarizer) returns (ok: bool)
      requires Valid()
      modifies this
      ensures Valid() && log == old(log) && RecentKept(old(history), history, recent)
      ensures mode.None? || !ok ==> history == old(history)
      ensures mode.Some? ==> Compressed(old(history), history, recent, mode.value, summarize)
      ensures ok <==> mode.None? || !SummaryFails(old(history), recent, mode.value, summarize)
    {
      ok := true;
      if mode.Some? {
        var before := history;
        history, ok := CompressHistory(before, recent, mode.value, summarize);
        CompressionKeepsPairs(before, history, recent, mode.value, summarize);
        CompressionKeepsTie(before, history, recent, mode.value, summarize, log);
        CompressionKeepsRecent(before, history, recent, mode.value, summarize);
      }
    }
  }

  /**
   These messages were appended in order, from append number `number` on, up to the first that was refused;
   `next` is the number of the append that comes next, or was refused.
   */
  ghost predicate Written(before: seq<Message>, after: seq<Message>, messages: seq<Message>, stores: nat -> bool,
      number: nat, next: nat, refused: bool) {
    && number <= next <= number + |messages|
    && after == before + messages[..next - number]
    && (forall k :: number <= k < next ==> stores(k))
    && (refused <==> next < number + |messages|)
    && (refused ==> !stores(next))
  }

  /** The history gained what the log gained. */
  ghost predicate GrewAlike(log0: seq<Message>, log: seq<Message>, history0: seq<Message>, history: seq<Message>) {
    log0 <= log && history == history0 + log[|log0|..]
  }

  lemma BothGrew(log0: seq<Message>, history0: seq<Message>, a: seq<Message>, b: seq<Message>)
    ensures GrewAlike(log0, log0 + a + b, history0, history0 + a + b)
  {
    assert (log0 + a + b)[|log0|..] == a + b;
    assert history0 + a + b == history0 + (a + b);
  }

  lemma WrittenOn(before: seq<Message>, middle: seq<Message>, after: seq<Message>, first: seq<Message>,
      second: seq<Message>, stores: nat -> bool, number: nat, next: nat, refused: bool)
    requires Written(before, middle, first, stores, number, number + |first|, false)
    requires Written(middle, after, second, stores, number + |first|, next, refused)
    ensures Written(before, after, first + second, stores, number, next, refused)
  {
    assert before + first + second[..next - number - |first|] == before + (first + second)[..next - number];
  }

  /** The results of the first n calls. */
  function Results(ids: seq<string>, n: nat): seq<Message>
    requires n <= |ids|
  {
    seq(n, i requires 0 <= i < n => ToolResult(ids[i]))
  }

  lemma NextResultAnswers(before: seq<Message>, ids: seq<string>, n: nat)
    requires n < |ids|
    ensures var messages := before + [AssistantCalls(ids)] + Results(ids, n);
            && messages + [ToolResult(ids[n])] == before + [AssistantCalls(ids)] + Results(ids, n + 1)
            && Answers(messages + [ToolResult(ids[n])], |before|, |messages|)
  {
  }

  // ----- the token budget ---------------------------------------------------------------------------------

  /** The estimate for these rounds together, in a counter that saturates. */
  function Spent(rounds: seq<Round>): nat {
    if |rounds| == 0 then 0 else Min(Spent(rounds[..|rounds| - 1]) + rounds[|rounds| - 1].tokens, U64_MAX)
  }

  /** The last of these rounds has more spent than the budget allows, and is not an answer. */
  predicate OverBudget(rounds: seq<Round>, budget: Option<nat>) {
    && |rounds| > 0 && budget.Some?
    && !rounds[|rounds| - 1].reply.TextReply? && !rounds[|rounds| - 1].reply.RequestFailed?
    && Max(rounds[|rounds| - 1].measured, Spent(rounds)) > budget.value
  }

  /** All tokens of these rounds. */
  function Total(rounds: seq<Round>): nat {
    if |rounds| == 0 then 0 else Total(rounds[..|rounds| - 1]) + rounds[|rounds| - 1].tokens
  }

  lemma {:induction false} SpentIsTotal(rounds: seq<Round>)
    ensures Spent(rounds) == if Total(rounds) < 0xFFFF_FFFF_FFFF_FFFF then Total(rounds) else 0xFFFF_FFFF_FFFF_FFFF
  {
    if |rounds| > 0 {
      SpentIsTotal(rounds[..|rounds| - 1]);
    }
  }

  /** The budget ends the turn when the last round used no text and the measured or the summed tokens exceed it. */
  lemma BudgetLaw(rounds: seq<Round>, budget: nat)
    requires |rounds| > 0
    ensures var last := rounds[|rounds| - 1];
            OverBudget(rounds, Some(budget)) <==>
              && (last.reply.CallsReply? || last.reply.AssemblyFailed?)
              && (last.measured > budget || (Total(rounds) > budget && budget < 0xFFFF_FFFF_FFFF_FFFF))
    ensures !OverBudget(rounds, None)
  {
    SpentIsTotal(rounds);
  }

  // ----- the turn ----------------------------------------------------------------------------------------

  /** An execution gives one result for each call. */
  predicate Proper(reply: Reply) {
    reply.CallsReply? && reply.executions.Some? ==> |reply.executions.value| == |reply.ids|
  }

  const FailureNote := SystemNote("[tool_call_error]")

  /** The messages a reply adds to the conversation. */
  function Transcript(reply: Reply): seq<Message> {
    match reply
    case RequestFailed => []
    case TextReply(text) => [AssistantText(text)]
    case CallsReply(ids, admitted, executions) =>
      if ids == [] || !admitted then [FailureNote]
      else [AssistantCalls(ids)] + Results(ids, if executions.Some? then |ids| else 0)
    case AssemblyFailed => [FailureNote]
  }

  /** The messages of a turn so far. */
  function Script(input: string, replies: seq<Reply>): (script: seq<Message>)
    ensures script != [] && script[0] == UserInput(input)
  {
    if |replies| == 0 then [UserInput(input)]
    else Script(input, replies[..|replies| - 1]) + Transcript(replies[|replies| - 1])
  }

  /** Executed calls are followed by their results, in order; any other round leaves one message at most. */
  lemma TranscriptLaw(reply: Reply)
    ensures var written := Transcript(reply);
            && (reply.RequestFailed? ==> written == [])
            && (reply.TextReply? ==> written == [AssistantText(reply.text)])
            && (reply.AssemblyFailed? || (reply.CallsReply? && (reply.ids == [] || !reply.admitted)) ==>
                  |written| == 1 && written[0].SystemNote?)
            && (reply.CallsReply? && reply.ids != [] && reply.admitted ==>
                  && |written| == (if reply.executions.Some? then 1 + |reply.ids| else 1)
                  && written[0] == AssistantCalls(reply.ids)
                  && forall i :: 0 < i < |written| ==> written[i] == ToolResult(reply.ids[i - 1]))
  {
  }

  lemma RepliesPush(replies: seq<Reply>, reply: Reply)
    ensures Failures(replies + [reply]) ==
            if IsExecuted(reply) then
              if FailedCalls(reply.executions.value) == 0 then 0
              else Failures(replies) + FailedCalls(reply.executions.value)
            else if RoundFails(reply) then Failures(replies) + 1
            else Failures(replies)
    ensures Executed(replies + [reply]) ==
            if IsExecuted(reply) then Executed(replies) + [Fingerprints(reply.executions.value)] else Executed(replies)
  {
    assert (replies + [reply])[..|replies + [reply]| - 1] == replies;
    assert Executed(replies) + [] == Executed(replies);
  }

  method CountFailed(executions: seq<Execution>) returns (failed: nat)
    ensures failed == FailedCalls(executions)
  {
    failed := 0;
    for i := 0 to |executions|
      invariant failed == FailedCalls(executions[..i])
    {
      assert executions[..i + 1][..i] == executions[..i];
      failed := failed + if executions[i].failed then 1 else 0;
    }
    assert executions[..|executions|] == executions;
  }

  /** The counters of a turn agree with the replies it has seen. */
  ghost predicate Counts(failures: nat, observed: seq<seq<Fingerprint>>, replies: seq<Reply>) {
    failures == Failures(replies) && observed == Executed(replies)
  }

  /** A round without a usable call: a note for the model, and one more failure. */
  method NoteFailure(conversation: Conversation, failures: nat, stores: nat -> bool, number: nat)
    returns (failures': nat, next: nat, end: Option<Ending>)
    requires conversation.Valid()
    modifies conversation
    ensures conversation.Valid() && failures' == failures + 1
    ensures Written(old(conversation.log), conversation.log, [FailureNote], stores, number, next,
                    end == Some(Stopped(StoreError)))
    ensures GrewAlike(old(conversation.log), conversation.log, old(conversation.history), conversation.history)
    ensures end != Some(Stopped(StoreError)) ==>
              end == if failures' >= MAX_CONSECUTIVE_FAILURES then Some(Stopped(TooManyFailures)) else None
  {
    failures', next := failures + 1, number;
    conversation.Record(FailureNote, stores(number));
    if !stores(number) {
      end := Some(Stopped(StoreError));
      return;
    }
    next := number + 1;
    end := if failures' >= MAX_CONSECUTIVE_FAILURES then Some(Stopped(TooManyFailures)) else None;
  }

  method HandleExecution(conversation: Conversation, detector: RepeatDetector, failures: nat, reply: Reply,
      stores: nat -> bool, number: nat, ghost before: seq<Reply>)
    returns (failures': nat, next: nat, end: Option<Ending>)
    requires conversation.Valid() && detector.Valid() && Proper(reply)
    requires reply.CallsReply? && reply.ids != [] && reply.admitted
    requires Counts(failures, detector.observed, before)
    modifies conversation, detector
    ensures conversation.Valid() && detector.Valid()
    ensures Written(old(conversation.log), conversation.log, Transcript(reply), stores, number, next,
                    end == Some(Stopped(StoreError)))
    ensures GrewAlike(old(conversation.log), conversation.log, old(conversation.history), conversation.history)
    ensures end != Some(Stopped(StoreError)) ==> end == Verdict(before + [reply])
    ensures end.None? ==> Counts(failures', detector.observed, before + [reply])
  {
    failures', end := failures, None;
    var refused: bool;
    refused, next := conversation.RecordExecution(reply.ids, reply.executions.Some?, stores, number);
    if refused {
      end := Some(Stopped(StoreError));
      return;
    }
    if reply.executions.None? {
      end := Some(Stopped(ToolsBroke));
      return;
    }
    RepliesPush(before, reply);
    var roundFailures := CountFailed(reply.executions.value);
    var repeats := detector.Observe(Fingerprints(reply.executions.value));
    failures' := if roundFailures == 0 then 0 else failures + roundFailures;
    if repeats >= REPETITION_ABORT {
      end := Some(Stopped(NoProgress));
    } else if roundFailures > 0 && failures' >= MAX_CONSECUTIVE_FAILURES {
      end := Some(Stopped(TooManyFailures));
    }
  }

  method RecordAnswer(conversation: Conversation, text: string, stores: nat -> bool, number: nat)
    returns (next: nat, end: Option<Ending>)
    requires conversation.Valid()
    modifies conversation
    ensures conversation.Valid()
    ensures Written(old(conversation.log), conversation.log, [AssistantText(text)], stores, number, next,
                    end == Some(Stopped(StoreError)))
    ensures GrewAlike(old(conversation.log), conversation.log, old(conversation.history), conversation.history)
    ensures end in {Some(Stopped(StoreError)), Some(Answered(text))}
    ensures end == Some(Answered(text)) ==> AssistantText(text) in conversation.history
  {
    conversation.Record(AssistantText(text), stores(number));
    if stores(number) {
      next, end := number + 1, Some(Answered(text));
    } else {
      next, end := number, Some(Stopped(StoreError));
    }
  }

  lemma NothingWritten(log: seq<Message>, stores: nat -> bool, number: nat)
    ensures Written(log, log, [], stores, number, number, false)
  {
  }

  lemma VerdictOnLast(before: seq<Reply>, reply: Reply)
    ensures reply.RequestFailed? ==> Verdict(before + [reply]) == Some(Stopped(RequestError))
    ensures reply.TextReply? ==> Verdict(before + [reply]) == Some(Answered(reply.text))
    ensures !reply.TextReply? ==> Verdict(before + [reply]).None? || Verdict(before + [reply]).value.Stopped?
    ensures reply.AssemblyFailed? || (reply.CallsReply? && (reply.ids == [] || !reply.admitted)) ==>
              Verdict(before + [reply]) ==
              if Failures(before) + 1 >= MAX_CONSECUTIVE_FAILURES then Some(Stopped(TooManyFailures)) else None
  {
    RepliesPush(before, reply);
  }

  /** What a turn does with one reply. */
  method HandleReply(conversation: Conversation, detector: RepeatDetector, failures: nat, reply: Reply,
      stores: nat -> bool, number: nat, ghost before: seq<Reply>)
    returns (failures': nat, next: nat, end: Option<Ending>)
    requires conversation.Valid() && detector.Valid() && Proper(reply)
    requires Counts(failures, detector.observed, before)
    modifies conversation, detector
    ensures conversation.Valid() && detector.Valid()
    ensures Written(old(conversation.log), conversation.log, Transcript(reply), stores, number, next,
                    end == Some(Stopped(StoreError)))
    ensures GrewAlike(old(conversation.log), conversation.log, old(conversation.history), conversation.history)
    ensures end != Some(Stopped(StoreError)) ==> end == Verdict(before + [reply])
    ensures end.None? ==> Counts(failures', detector.observed, before + [reply])
    ensures end.Some? && end.value.Answered? ==> AssistantText(end.value.text) in conversation.history
  {
    hide Written, Verdict, Failures, Executed, ConstantSuffix, Paired, Tied;
    failures', next, end := failures, number, None;
    RepliesPush(before, reply);
    VerdictOnLast(before, reply);
    match reply {
      case RequestFailed =>
        NothingWritten(conversation.log, stores, number);
        end := Some(Stopped(RequestError));
      case TextReply(text) =>
        next, end := RecordAnswer(conversation, text, stores, number);
      case CallsReply(ids, admitted, _) =>
        if ids == [] || !admitted {
          failures', next, end := NoteFailure(conversation, failures, stores, number);
        } else {
          failures', next, end := HandleExecution(conversation, detector, failures, reply, stores, number, before);
        }
      case AssemblyFailed =>
        failures', next, end := NoteFailure(conversation, failures, stores, number);
    }
  }

  /** What the last of these rounds makes of the turn, when everything it says was stored. */
  ghost function RoundVerdict(rounds: seq<Round>, budget: Option<nat>): Option<Ending>
    requires |rounds| > 0
  {
    if OverBudget(rounds, budget) then Some(Stopped(BudgetSpent)) else Verdict(Replies(rounds))
  }

  /** The turn went on after each of the first n rounds. */
  ghost predicate WentOn(rounds: seq<Round>, budget: Option<nat>, n: int)
    requires n <= |rounds|
  {
    forall k :: 0 < k <= n ==> RoundVerdict(rounds[..k], budget).None?
  }

  /** The messages of the rounds played; a last round that breaks the budget is not written down. */
  ghost function PlayedScript(input: string, rounds: seq<Round>, budget: Option<nat>): seq<Message> {
    Script(input, Replies(if OverBudget(rounds, budget) then rounds[..|rounds| - 1] else rounds))
  }

  lemma RepliesStep(rounds: seq<Round>, consumed: nat)
    requires consumed < |rounds|
    ensures Replies(rounds[..consumed + 1]) == Replies(rounds[..consumed]) + [rounds[consumed].reply]
    ensures Spent(rounds[..consumed + 1]) == Min(Spent(rounds[..consumed]) + rounds[consumed].tokens, U64_MAX)
    ensures forall input :: Script(input, Replies(rounds[..consumed + 1])) ==
                            Script(input, Replies(rounds[..consumed])) + Transcript(rounds[consumed].reply)
  {
    assert rounds[..consumed + 1][..consumed] == rounds[..consumed];
    assert Replies(rounds[..consumed + 1])[..consumed] == Replies(rounds[..consumed]);
  }

  method PlayRound(conversation: Conversation, detector: RepeatDetector, failures: nat, rounds: seq<Round>,
      consumed: nat, stores: nat -> bool, number: nat, spent: nat, budget: Option<nat>)
    returns (failures': nat, next: nat, end: Option<Ending>, compressed: bool, spent': nat)
    requires conversation.Valid() && detector.Valid() && consumed < |rounds| && Proper(rounds[consumed].reply)
    requires Counts(failures, detector.observed, Replies(rounds[..consumed])) && spent == Spent(rounds[..consumed])
    modifies conversation, detector
    ensures conversation.Valid() && detector.Valid()
    ensures compressed <==> !CompressionFails(rounds[consumed], old(conversation.history), conversation.recent)
    ensures !compressed ==> conversation.log == old(conversation.log) && next == number
    ensures !compressed ==> conversation.history == old(conversation.history)
    ensures compressed ==> spent' == Spent(rounds[..consumed + 1]) && old(conversation.log) <= conversation.log
    ensures compressed ==>
              RoundLeaves(old(conversation.history), rounds[consumed], conversation.recent,
                          conversation.log[|old(conversation.log)|..], conversation.history)
    ensures compressed && OverBudget(rounds[..consumed + 1], budget) ==>
              end == Some(Stopped(BudgetSpent)) && conversation.log == old(conversation.log) && next == number
    ensures compressed && !OverBudget(rounds[..consumed + 1], budget) ==>
              && Written(old(conversation.log), conversation.log, Transcript(rounds[consumed].reply), stores, number,
                         next, end == Some(Stopped(StoreError)))
              && (end != Some(Stopped(StoreError)) ==> end == Verdict(Replies(rounds[..consumed + 1])))
    ensures compressed && end.None? ==> Counts(failures', detector.observed, Replies(rounds[..consumed + 1]))
    ensures compressed && end.Some? && end.value.Answered? ==> AssistantText(end.value.text) in conversation.history
  {
    failures', next, end, spent' := failures, number, None, spent;
    compressed := conversation.Compress(rounds[consumed].compress, rounds[consumed].summarize);
    if compressed {
      RepliesStep(rounds, consumed);
      var reply := rounds[consumed].reply;
      spent' := Min(spent + rounds[consumed].tokens, U64_MAX);
      if !reply.RequestFailed? && budget.Some? && Max(rounds[consumed].measured, spent') > budget.value
         && !reply.TextReply? {
        end := Some(Stopped(BudgetSpent));
        return;
      }
      failures', next, end :=
        HandleReply(conversation, detector, failures, reply, stores, number, Replies(rounds[..consumed]));
    }
  }

  /** What a round leaves of the history: compressed, if the round asks for it, and continued by what was written. */
  ghost predicate RoundLeaves(before: seq<Message>, round: Round, recent: nat, written: seq<Message>,
      after: seq<Message>) {
    if round.compress.None? then after == before + written
    else
      exists small :: Compressed(before, small, recent, round.compress.value, round.summarize) &&
                      after == small + written
  }

  /** The history after these rounds, all of whose messages were stored. */
  ghost predicate HistoryAfter(before: seq<Message>, rounds: seq<Round>, recent: nat, budget: Option<nat>,
      after: seq<Message>) {
    if |rounds| == 0 then after == before
    else
      exists mid :: HistoryAfter(before, rounds[..|rounds| - 1], recent, budget, mid) &&
                    LastLeaves(mid, rounds, recent, budget, after)
  }

  /** What the last of the rounds leaves; when it breaks the budget it is not written down. */
  ghost predicate LastLeaves(mid: seq<Message>, rounds: seq<Round>, recent: nat, budget: Option<nat>,
      after: seq<Message>)
    requires |rounds| > 0
  {
    var last := rounds[|rounds| - 1];
    RoundLeaves(mid, last, recent, if OverBudget(rounds, budget) then [] else Transcript(last.reply), after)
  }

  lemma HistoryGrows(before: seq<Message>, rounds: seq<Round>, consumed: nat, recent: nat, budget: Option<nat>,
      mid: seq<Message>, written: seq<Message>, after: seq<Message>)
    requires consumed < |rounds| && HistoryAfter(before, rounds[..consumed], recent, budget, mid)
    requires RoundLeaves(mid, rounds[consumed], recent, written, after)
    requires written == if OverBudget(rounds[..consumed + 1], budget) then [] else Transcript(rounds[consumed].reply)
    ensures HistoryAfter(before, rounds[..consumed + 1], recent, budget, after)
  {
    assert rounds[..consumed + 1][..consumed] == rounds[..consumed];
    assert LastLeaves(mid, rounds[..consumed + 1], recent, budget, after);
  }

  lemma NoRoundNoChange(before: seq<Message>, rounds: seq<Round>, recent: nat, budget: Option<nat>)
    ensures HistoryAfter(before, rounds[..0], recent, budget, before)
  {
  }

  /** The round asks for a compression of this history, and its summary fails. */
  ghost predicate CompressionFails(round: Round, history: seq<Message>, recent: nat) {
    round.compress.Some? && SummaryFails(history, recent, round.compress.value, round.summarize)
  }

  /**
   Why a turn of which everything was stored ended after these rounds, with this history: the last round ended
   it, or there were no more, or the limit was reached, or the next compression failed.
   */
  ghost predicate EndsRightly(rounds: seq<Round>, limit: Option<nat>, budget: Option<nat>, consumed: nat,
      ending: Ending, history: seq<Message>, recent: nat)
    requires consumed <= |rounds|
  {
    if consumed > 0 && RoundVerdict(rounds[..consumed], budget).Some? then
      ending == RoundVerdict(rounds[..consumed], budget).value
    else if consumed == |rounds| then ending == OutOfRounds
    else if limit == Some(consumed) then ending == Stopped(RoundLimit)
    else ending == Stopped(SummaryError) && CompressionFails(rounds[consumed], history, recent)
  }

  lemma StartsWritten(log: seq<Message>, input: string, stores: nat -> bool)
    requires stores(0)
    ensures Written(log, log + [UserInput(input)], [UserInput(input)], stores, 0, 1, false)
    ensures Script(input, []) == [UserInput(input)]
  {
  }

  lemma RoundIsWritten(before: seq<Message>, after: seq<Message>, reply: Reply, stores: nat -> bool, number: nat,
      next: nat)
    requires Written(before, after, Transcript(reply), stores, number, next, false)
    ensures before <= after && after[|before|..] == Transcript(reply)
  {
    assert Transcript(reply)[..next - number] == Transcript(reply);
  }

  lemma NothingPlayedYet(rounds: seq<Round>, budget: Option<nat>)
    ensures !OverBudget(rounds[..0], budget) && Spent(rounds[..0]) == 0
    ensures Replies(rounds[..0]) == [] && Failures([]) == 0 && Executed([]) == []
  {
  }

  lemma AllWritten(before: seq<Message>, after: seq<Message>, messages: seq<Message>, stores: nat -> bool,
      number: nat, next: nat)
    requires Written(before, after, messages, stores, number, next, false)
    ensures next == number + |messages|
  {
  }

  /** The rounds of a turn, until one of them ends it. */
  method PlayRounds(conversation: Conversation, ghost input: string, rounds: seq<Round>, limit: Option<nat>,
      budget: Option<nat>, stores: nat -> bool, ghost log0: seq<Message>)
    returns (ending: Ending, consumed: nat, appended: nat)
    requires conversation.Valid() && forall i :: 0 <= i < |rounds| ==> Proper(rounds[i].reply)
    requires conversation.log == log0 + [UserInput(input)] && stores(0)
    modifies conversation
    ensures conversation.Valid()
    ensures consumed <= |rounds| && WentOn(rounds, budget, consumed - 1)
    ensures limit.Some? ==> consumed <= limit.value
    ensures Written(log0, conversation.log, PlayedScript(input, rounds[..consumed], budget), stores, 0, appended,
                    ending == Stopped(StoreError))
    ensures ending == Stopped(StoreError) ||
            EndsRightly(rounds, limit, budget, consumed, ending, conversation.history, conversation.recent)
    ensures ending == Stopped(StoreError) ||
            HistoryAfter(old(conversation.history), rounds[..consumed], conversation.recent, budget,
                         conversation.history)
    ensures ending.Answered? ==> AssistantText(ending.text) in conversation.history
  {
    hide Written, Verdict, CompressionFails, Script, Transcript, OverBudget, Spent, Replies, Failures, Executed,
      Paired, Tied, Proper, ConstantSuffix, RoundLeaves, HistoryAfter, LastLeaves;
    NoRoundNoChange(conversation.history, rounds, conversation.recent, budget);
    StartsWritten(log0, input, stores);
    NothingPlayedYet(rounds, budget);
    consumed, appended := 0, 1;
    var detector := new RepeatDetector();
    var failures, spent := 0, 0;
    ghost var script := [UserInput(input)];
    while consumed < |rounds|
      invariant consumed <= |rounds| && conversation.Valid() && detector.Valid()
      invariant limit.Some? ==> consumed <= limit.value
      invariant Counts(failures, detector.observed, Replies(rounds[..consumed]))
      invariant WentOn(rounds, budget, consumed) && !OverBudget(rounds[..consumed], budget)
      invariant spent == Spent(rounds[..consumed])
      invariant script == Script(input, Replies(rounds[..consumed])) && appended == |script|
      invariant Written(log0, conversation.log, script, stores, 0, appended, false)
      invariant HistoryAfter(old(conversation.history), rounds[..consumed], conversation.recent, budget,
                             conversation.history)
    {
      if limit.Some? && consumed + 1 > limit.value {
        return Stopped(RoundLimit), consumed, appended;
      }
      var end: Option<Ending>, compressed: bool;
      ghost var middle, history, number := conversation.log, conversation.history, appended;
      failures, appended, end, compressed, spent :=
        PlayRound(conversation, detector, failures, rounds, consumed, stores, appended, spent, budget);
      if !compressed {
        return Stopped(SummaryError), consumed, appended;
      }
      RepliesStep(rounds, consumed);
      assert rounds[..consumed + 1][..consumed] == rounds[..consumed];
      consumed := consumed + 1;
      if OverBudget(rounds[..consumed], budget) {
        assert conversation.log[|middle|..] == [];
        HistoryGrows(old(conversation.history), rounds, consumed - 1, conversation.recent, budget, history, [],
                     conversation.history);
        return Stopped(BudgetSpent), consumed, appended;
      }
      WrittenOn(log0, middle, conversation.log, script, Transcript(rounds[consumed - 1].reply), stores, 0, appended,
                end == Some(Stopped(StoreError)));
      script := script + Transcript(rounds[consumed - 1].reply);
      if end == Some(Stopped(StoreError)) {
        return Stopped(StoreError), consumed, appended;
      }
      RoundIsWritten(middle, conversation.log, rounds[consumed - 1].reply, stores, number, appended);
      HistoryGrows(old(conversation.history), rounds, consumed - 1, conversation.recent, budget, history,
                   conversation.log[|middle|..], conversation.history);
      if end.Some? {
        return end.value, consumed, appended;
      }
      AllWritten(log0, conversation.log, script, stores, 0, appended);
    }
    return OutOfRounds, consumed, appended;
  }

  lemma WrittenMeans(before: seq<Message>, after: seq<Message>, messages: seq<Message>, stores: nat -> bool,
      next: nat, refused: bool)
    requires Written(before, after, messages, stores, 0, next, refused)
    ensures before <= after && |after| == |before| + next
    ensures (forall k :: 0 <= k < next ==> stores(k)) && (refused ==> !stores(next))
  {
  }

  lemma NothingPlayed(input: string, rounds: seq<Round>, budget: Option<nat>, log: seq<Message>, stores: nat -> bool)
    requires !stores(0)
    ensures Written(log, log, PlayedScript(input, rounds[..0], budget), stores, 0, 0, true)
  {
  }

  /** An answer is the text of the last round, and a last round with a text is answered. */
  lemma TextIsTheAnswer(rounds: seq<Round>, limit: Option<nat>, budget: Option<nat>, consumed: nat, ending: Ending,
      history: seq<Message>, recent: nat)
    requires consumed <= |rounds| && EndsRightly(rounds, limit, budget, consumed, ending, history, recent)
    ensures ending.Answered? <==> consumed > 0 && rounds[consumed - 1].reply.TextReply?
    ensures ending.Answered? ==> ending.text == rounds[consumed - 1].reply.text
    ensures ending != Stopped(Cancelled) && ending != Stopped(StoreError)
  {
  }

  /**
   A whole turn.  At every moment the history stays paired and tied to the log.  What is appended to the log is
   the script of the rounds that were played, up to the first append that the store refused; the turn ends with
   a store error exactly when there was one, and otherwise it ended in the very round that ended it, and the
   history is what the compressions and the messages of the rounds make of it.
   */
  method RunTurn(conversation: Conversation, input: string, cancelled: bool, rounds: seq<Round>, limit: Option<nat>,
      budget: Option<nat>, stores: nat -> bool)
    returns (ending: Ending, consumed: nat, appended: nat)
    requires conversation.Valid() && forall i :: 0 <= i < |rounds| ==> Proper(rounds[i].reply)
    modifies conversation
    ensures conversation.Valid() && old(conversation.log) <= conversation.log
    ensures consumed <= |rounds| && WentOn(rounds, budget, consumed - 1)
    ensures limit.Some? ==> consumed <= limit.value
    ensures cancelled <==> ending == Stopped(Cancelled)
    ensures cancelled ==> consumed == 0 && appended == 0 && conversation.log == old(conversation.log)
    ensures !cancelled ==>
              Written(old(conversation.log), conversation.log, PlayedScript(input, rounds[..consumed], budget),
                      stores, 0, appended, ending == Stopped(StoreError))
    ensures !cancelled && ending != Stopped(StoreError) ==>
              && EndsRightly(rounds, limit, budget, consumed, ending, conversation.history, conversation.recent)
              && HistoryAfter(old(conversation.history) + [UserInput(input)], rounds[..consumed], conversation.recent,
                              budget, conversation.history)
    ensures ending.Answered? ==> AssistantText(ending.text) in conversation.history
    ensures |conversation.log| == |old(conversation.log)| + appended && forall k :: 0 <= k < appended ==> stores(k)
    ensures ending == Stopped(StoreError) ==> !stores(appended)
    ensures ending.Answered? ==> consumed > 0 && rounds[consumed - 1].reply == TextReply(ending.text)
    ensures consumed > 0 && rounds[consumed - 1].reply.TextReply? && ending != Stopped(StoreError) ==>
              ending == Answered(rounds[consumed - 1].reply.text)
  {
    hide Written, EndsRightly, PlayedScript, RoundVerdict, HistoryAfter;
    if cancelled {
      return Stopped(Cancelled), 0, 0;
    }
    conversation.Record(UserInput(input), stores(0));
    if !stores(0) {
      NothingPlayed(input, rounds, budget, conversation.log, stores);
      return Stopped(StoreError), 0, 0;
    }
    ending, consumed, appended := PlayRounds(conversation, input, rounds, limit, budget, stores, old(conversation.log));
    WrittenMeans(old(conversation.log), conversation.log, PlayedScript(input, rounds[..consumed], budget), stores,
                 appended, ending == Stopped(StoreError));
    if ending != Stopped(StoreError) {
      TextIsTheAnswer(rounds, limit, budget, consumed, ending, conversation.history, conversation.recent);
    }
  }
}

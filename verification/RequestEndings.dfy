/**
 What the ways in which a provider's reply can end make of a routed request: which error an attempt has,
 what its circuit is told, whether anything follows it, and that a request's attempts and answer are
 determined by what the outside does.
 */
module RequestEndings {
  import opened Basics
  import PE = ProviderEvents
  import opened ToolCalls
  import Law = ToolCallLaw
  import Circuit
  import opened Attempt
  import opened Retry
  import opened RequestModel

  // ----- the error of an attempt --------------------------------------------------------------------

  /**
   The error of an attempt whose reply did not finish, whatever was streamed before.  An expired phase is
   Connect until the response has started, FirstEvent until something of it has arrived, StreamIdle after.
   */
  lemma ErrorOfABrokenReply<J>(reply: Reply, parser: Parser<J>)
    ensures reply.ending == CancelledMidway ==> ErrorOf(reply, parser) == Some(Cancelled)
    ensures reply.ending == OverallExpired ==> ErrorOf(reply, parser) == Some(Timeout(Overall))
    ensures reply.ending == FailedOtherwise ==> ErrorOf(reply, parser) == Some(Protocol)
    ensures forall kind :: reply.ending == Failed(kind) ==> ErrorOf(reply, parser) == Some(kind)
    ensures reply.ending == PhaseExpired ==>
              var started := exists i :: 0 <= i < |reply.before| && reply.before[i].ResponseStarted?;
              var arrived := exists i :: 0 <= i < |reply.before| && Arrives(reply.before[i]);
              && (ErrorOf(reply, parser) == Some(Timeout(Connect)) <==> !started)
              && (ErrorOf(reply, parser) == Some(Timeout(FirstEvent)) <==> started && !arrived)
              && (ErrorOf(reply, parser) == Some(Timeout(StreamIdle)) <==> started && arrived)
  {
    var before := reply.before;
    assert PE.ResponseStarted in before <==> exists i :: 0 <= i < |before| && before[i].ResponseStarted?;
    forall e ensures IsFirst(e) <==> Arrives(e) {
    }
  }

  /** Something of the response: text, thinking, anything about a tool, or the news that it was cut. */
  predicate Arrives(e: PE.ProviderEvent) {
    match e
    case TextDelta(text) => text != ""
    case ThinkingDelta(text) => text != ""
    case ToolCallStarted(_, _) => true
    case ToolCallDelta(_, _) => true
    case ToolCallCompleted(_) => true
    case ToolCallFailed(_) => true
    case OutputTruncated => true
    case ResponseStarted => false
    case ProtocolDone => false
    case Usage => false
  }

  /**
   The error of an attempt whose reply finished: a stream that started and did not end properly, an output
   that was cut, or one in which no tool was spoken of and no text was shown.
   */
  lemma ErrorOfAFinishedReply<J>(reply: Reply, parser: Parser<J>)
    requires reply.ending == Finished
    ensures var (events, error) := (reply.before + reply.queued, ErrorOf(reply, parser));
            var broken := PE.ResponseStarted in events && PE.ProtocolDone !in events;
            var cut := PE.OutputTruncated in events;
            var empty := !CalledTools(events) && Law.ShownText(events) == "";
            && (error == Some(Protocol) <==> broken)
            && (error == Some(Truncated) <==> !broken && cut)
            && (error == Some(ReasoningOnly) <==> !broken && !cut && empty && ThinkingText(events) != "")
            && (error == Some(EmptyCompletion) <==> !broken && !cut && empty && ThinkingText(events) == "")
            && (error == None <==> !broken && !cut && !empty)
  {
    Law.TextOnly(Events(reply), parser);
    TextualExactly(Events(reply));
  }

  // ----- what the circuit is told ---------------------------------------------------------------------

  /**
   An attempt counts against its circuit exactly when it ran into a deadline or the provider named a rate
   limit, its transport, its server or a deadline of its own; and it clears the circuit exactly when it has
   no error and its tool calls could be assembled.
   */
  lemma WhatTheCircuitIsTold<M, J>(o: Outside<M>, policy: RetryPolicy, n: nat, parser: Parser<J>, messages: M,
      tries: seq<Try<M>>, i: nat)
    requires IsRun(o, policy, n, parser, messages, tries) && i < |tries|
    ensures var ending := tries[i].reply.ending;
            tries[i].transient <==>
            || ending in {PhaseExpired, OverallExpired}
            || (ending.Failed? && (ending.kind in {RateLimit, Transport, Server} || ending.kind.Timeout?))
    ensures var outcome := OutcomeOf(tries[i].reply, parser);
            tries[i].success <==>
            tries[i].error.None? && outcome.Produced? && !outcome.output.response.FailedResponse?
  {
    var t := tries[i];
    assert Happened(o, n, parser, i, t);
    ErrorOfABrokenReply(t.reply, parser);
    if t.reply.ending == Finished {
      ErrorOfAFinishedReply(t.reply, parser);
    }
  }

  /** A failure that is not for the moment ends the run of failures of its circuit, and leaves it closed. */
  lemma PermanentFailureClears<M, J>(o: Outside<M>, policy: RetryPolicy, n: nat, parser: Parser<J>, messages: M,
      tries: seq<Try<M>>, i: nat, log: seq<Circuit.Op>, key: string)
    requires IsRun(o, policy, n, parser, messages, tries) && i < |tries| && !tries[i].transient
    ensures tries[i].circuit.Closed?
    ensures Circuit.TrailingFailures(log + [Circuit.Recorded(key, o.now(i), tries[i].success, tries[i].transient)], key)
            == 0
  {
    assert Happened(o, n, parser, i, tries[i]);
  }

  // ----- endings that are final -------------------------------------------------------------------------

  /** Kinds that are neither retried nor handed on. */
  predicate IsFinal(kind: ErrorKind) {
    kind in {Auth, AccessDenied, QuotaExceeded, InvalidRequest, ContentPolicy, EmptyCompletion, ReasoningOnly,
             Truncated, Cancelled, Timeout(Overall)}
  }

  /** An attempt with a final error is the last, whatever the policy is, and the request is refused with that error. */
  lemma FinalErrorsEnd<M, J>(o: Outside<M>, policy: RetryPolicy, n: nat, parser: Parser<J>, messages: M,
      tries: seq<Try<M>>, answer: Answer<J>, i: nat, kind: ErrorKind)
    requires IsRun(o, policy, n, parser, messages, tries) && Concludes(o, policy, n, parser, tries, answer)
    requires i < |tries| && tries[i].error == Some(kind) && IsFinal(kind)
    ensures i == |tries| - 1 && answer == Refusal(kind)
  {
    var t := tries[i];
    if i < |tries| - 1 {
      FollowedIsNotFinal(o, policy, n, i, t, tries[i + 1].start);
    }
    DecideLaw(policy, kind, t.start.priorRetries, o.retryAfter(i), Silent(t), t.start.candidate + 1 < n);
  }

  lemma FollowedIsNotFinal<M>(o: Outside<M>, policy: RetryPolicy, n: nat, i: nat, t: Try<M>, next: Start<M>)
    requires Follows(o, policy, n, i, t, next)
    ensures !IsFinal(t.error.value)
  {
    DecideLaw(policy, t.error.value, t.start.priorRetries, o.retryAfter(i), Silent(t), t.start.candidate + 1 < n);
  }

  /**
   A request that is cancelled while a provider answers is over: the attempt is the last one, the request
   is refused as cancelled, and its circuit does not count it.
   */
  lemma CancellationEndsTheRequest<M, J>(o: Outside<M>, policy: RetryPolicy, n: nat, parser: Parser<J>, messages: M,
      tries: seq<Try<M>>, answer: Answer<J>, i: nat)
    requires IsRun(o, policy, n, parser, messages, tries) && Concludes(o, policy, n, parser, tries, answer)
    requires i < |tries| && tries[i].reply.ending == CancelledMidway
    ensures i == |tries| - 1 && answer == Refusal(Cancelled)
    ensures !tries[i].success && !tries[i].transient && tries[i].circuit.Closed?
  {
    assert Happened(o, n, parser, i, tries[i]);
    ErrorOfABrokenReply(tries[i].reply, parser);
    FinalErrorsEnd(o, policy, n, parser, messages, tries, answer, i, Cancelled);
    WhatTheCircuitIsTold(o, policy, n, parser, messages, tries, i);
    PermanentFailureClears(o, policy, n, parser, messages, tries, i, [], "");
  }

  /** The deadline of the whole request ends it, but counts against its circuit. */
  lemma OverallDeadlineEndsTheRequest<M, J>(o: Outside<M>, policy: RetryPolicy, n: nat, parser: Parser<J>, messages: M,
      tries: seq<Try<M>>, answer: Answer<J>, i: nat)
    requires IsRun(o, policy, n, parser, messages, tries) && Concludes(o, policy, n, parser, tries, answer)
    requires i < |tries| && tries[i].reply.ending == OverallExpired
    ensures i == |tries| - 1 && answer == Refusal(Timeout(Overall))
    ensures !tries[i].success && tries[i].transient
  {
    assert Happened(o, n, parser, i, tries[i]);
    ErrorOfABrokenReply(tries[i].reply, parser);
    FinalErrorsEnd(o, policy, n, parser, messages, tries, answer, i, Timeout(Overall));
    WhatTheCircuitIsTold(o, policy, n, parser, messages, tries, i);
  }

  /** What the provider itself calls its failure is what the request is refused with, when this attempt is the last. */
  lemma OwnKindIsKept<M, J>(o: Outside<M>, policy: RetryPolicy, n: nat, parser: Parser<J>, messages: M,
      tries: seq<Try<M>>, answer: Answer<J>, i: nat, kind: ErrorKind)
    requires IsRun(o, policy, n, parser, messages, tries) && Concludes(o, policy, n, parser, tries, answer)
    requires i < |tries| && tries[i].reply.ending == Failed(kind)
    ensures tries[i].error == Some(kind)
    ensures i == |tries| - 1 ==> answer in {Refusal(kind), Stopped}
    ensures IsFinal(kind) ==> i == |tries| - 1 && answer == Refusal(kind)
  {
    assert Happened(o, n, parser, i, tries[i]);
    ErrorOfABrokenReply(tries[i].reply, parser);
    if IsFinal(kind) {
      FinalErrorsEnd(o, policy, n, parser, messages, tries, answer, i, kind);
    }
  }

  // ----- where an attempt starts from ------------------------------------------------------------------

  /**
   Candidates are taken in order, and only skipped ones are passed over.  The first attempt on a candidate
   has no retries behind it; a later one has one more than the attempt before it, unless that one was only
   followed by a compaction of the request.
   */
  lemma CandidatesInOrder<M, J>(o: Outside<M>, policy: RetryPolicy, n: nat, parser: Parser<J>, messages: M,
      tries: seq<Try<M>>, i: nat)
    requires IsRun(o, policy, n, parser, messages, tries) && i < |tries|
    ensures !o.skipped(tries[i].start.candidate) && tries[i].start.candidate < n
    ensures i == 0 ==>
              && tries[0].start.priorRetries == 0 && !tries[0].start.compacted
              && forall c :: 0 <= c < tries[0].start.candidate ==> o.skipped(c)
    ensures i > 0 ==>
              var before, now := tries[i - 1].start, tries[i].start;
              && before.candidate <= now.candidate
              && (forall c :: before.candidate < c < now.candidate ==> o.skipped(c))
              && (before.candidate < now.candidate ==> now.priorRetries == 0)
              && (before.candidate == now.candidate ==>
                    now.priorRetries == before.priorRetries + if now.compacted == before.compacted then 1 else 0)
              && (now.compacted == before.compacted || tries[i - 1].error == Some(ContextOverflow))
  {
    assert Happened(o, n, parser, i, tries[i]);
    if i > 0 {
      assert Follows(o, policy, n, i - 1, tries[i - 1], tries[i - 1 + 1].start);
      if Compacts(o, i - 1, tries[i - 1]) {
        assert !tries[i - 1].start.compacted;
      }
    }
  }

  /**
   How long the request sleeps before it retries, by what the provider asked for with the attempt that failed;
   it does not sleep after an attempt that is followed by a fallback, a compaction or nothing.
   */
  lemma WaitsAsTold<M, J>(o: Outside<M>, policy: RetryPolicy, n: nat, parser: Parser<J>, messages: M,
      tries: seq<Try<M>>, i: nat)
    requires IsRun(o, policy, n, parser, messages, tries) && i < |tries|
    ensures |WaitAfter(o, policy, n, i, tries[i])| <= 1
    ensures i < |tries| - 1 ==>
              (|WaitAfter(o, policy, n, i, tries[i])| == 1 <==>
               tries[i].start.candidate == tries[i + 1].start.candidate &&
               tries[i].start.compacted == tries[i + 1].start.compacted)
    ensures |WaitAfter(o, policy, n, i, tries[i])| == 1 ==>
              var (wait, asked) := (WaitAfter(o, policy, n, i, tries[i])[0], o.retryAfter(i));
              && wait <= policy.maxBackoff
              && (asked.Some? ==> wait == if asked.value < policy.maxBackoff then asked.value else policy.maxBackoff)
              && (asked.None? ==> wait == policy.maxBackoff || wait >= 100)
  {
    var t := tries[i];
    if i < |tries| - 1 {
      assert Follows(o, policy, n, i, t, tries[i + 1].start);
    }
    if WaitAfter(o, policy, n, i, t) != [] {
      StepLaw(o, policy, n, i, t);
      DelayLaw(policy, t.error.value, t.start.priorRetries, o.retryAfter(i), Silent(t), t.start.candidate + 1 < n);
    }
  }

  /** A request without any attempt was cancelled, or found every circuit open and blames the server. */
  lemma NothingTried<M, J>(o: Outside<M>, policy: RetryPolicy, n: nat, parser: Parser<J>, answer: Answer<J>)
    requires Concludes(o, policy, n, parser, [], answer)
    ensures answer == Refusal(Server) <==> !o.cancelledAtStart && forall c :: 0 <= c < n ==> o.skipped(c)
    ensures answer != Refusal(Server) ==> answer == Stopped && (o.cancelledAtStart || o.cancelledBefore(0))
  {
    assert AllSkipped(o, 0, n) <==> forall c :: 0 <= c < n ==> o.skipped(c);
  }

  // ----- the outside determines the request ---------------------------------------------------------------

  lemma SameNext<M>(o: Outside<M>, policy: RetryPolicy, n: nat, i: nat, t: Try<M>, a: Start<M>, b: Start<M>)
    requires Follows(o, policy, n, i, t, a) && Follows(o, policy, n, i, t, b)
    requires !o.skipped(a.candidate) && !o.skipped(b.candidate)
    ensures a == b
  {
  }

  lemma {:induction false} SameAttempts<M, J>(o: Outside<M>, policy: RetryPolicy, n: nat, parser: Parser<J>,
      messages: M, a: seq<Try<M>>, b: seq<Try<M>>, i: nat)
    requires IsRun(o, policy, n, parser, messages, a) && IsRun(o, policy, n, parser, messages, b)
    requires i < |a| && i < |b|
    ensures a[i] == b[i]
  {
    assert Happened(o, n, parser, i, a[i]) && Happened(o, n, parser, i, b[i]);
    if i == 0 {
      var c, d := a[0].start.candidate, b[0].start.candidate;
      assert c < d ==> o.skipped(c);
      assert d < c ==> o.skipped(d);
    } else {
      SameAttempts(o, policy, n, parser, messages, a, b, i - 1);
      assert Follows(o, policy, n, i - 1, a[i - 1], a[i - 1 + 1].start);
      assert Follows(o, policy, n, i - 1, b[i - 1], b[i - 1 + 1].start);
      SameNext(o, policy, n, i - 1, a[i - 1], a[i].start, b[i].start);
    }
  }

  /** A run that goes on has not concluded. */
  lemma NoAttemptAfterTheEnd<M, J>(o: Outside<M>, policy: RetryPolicy, n: nat, parser: Parser<J>, messages: M,
      tries: seq<Try<M>>, k: nat, answer: Answer<J>)
    requires IsRun(o, policy, n, parser, messages, tries) && k < |tries|
    ensures !Concludes(o, policy, n, parser, tries[..k], answer)
  {
    assert Happened(o, n, parser, k, tries[k]);
    if k > 0 {
      assert Follows(o, policy, n, k - 1, tries[k - 1], tries[k - 1 + 1].start);
    }
  }

  lemma SameAnswer<M, J>(o: Outside<M>, policy: RetryPolicy, n: nat, parser: Parser<J>, tries: seq<Try<M>>,
      a: Answer<J>, b: Answer<J>)
    requires Concludes(o, policy, n, parser, tries, a) && Concludes(o, policy, n, parser, tries, b)
    ensures a == b
  {
  }

  /** The attempts of a request and its answer are determined by the policy and by what the outside does. */
  lemma RequestIsDetermined<M, J>(o: Outside<M>, policy: RetryPolicy, n: nat, parser: Parser<J>, messages: M,
      a: seq<Try<M>>, b: seq<Try<M>>, x: Answer<J>, y: Answer<J>)
    requires IsRun(o, policy, n, parser, messages, a) && IsRun(o, policy, n, parser, messages, b)
    requires Concludes(o, policy, n, parser, a, x) && Concludes(o, policy, n, parser, b, y)
    ensures a == b && x == y
  {
    forall i | 0 <= i < |a| && i < |b| ensures a[i] == b[i] {
      SameAttempts(o, policy, n, parser, messages, a, b, i);
    }
    if |a| < |b| {
      assert b[..|a|] == a;
      NoAttemptAfterTheEnd(o, policy, n, parser, messages, b, |a|, x);
    } else if |b| < |a| {
      assert a[..|b|] == b;
      NoAttemptAfterTheEnd(o, policy, n, parser, messages, a, |b|, y);
    }
    SameAnswer(o, policy, n, parser, a, x, y);
  }
}

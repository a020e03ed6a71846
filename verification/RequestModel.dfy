/**
 A routed request: attempts over the candidates of a route, with retries, fallbacks, a shared
 circuit breaker and at most one compaction of the request.  Everything outside is an arbitrary
 function of the attempt's number, so the results hold for every behaviour of the outside.
 */
module RequestModel {
  import opened Basics
  import PE = ProviderEvents
  import opened ToolCalls
  import Law = ToolCallLaw
  import Circuit
  import opened Attempt
  import opened Retry

  /** What the outside does, by the number of the attempt or candidate; M is the type of a request's messages. */
  datatype Outside<!M> = Outside(
    cancelledAtStart: bool,
    skipped: nat -> bool,
    cancelledBefore: nat -> bool,
    reply: (nat, M) -> Reply,
    entry: nat -> Circuit.Entry,
    now: nat -> nat,
    retryAfter: nat -> Option<nat>,
    compact: (nat, M) -> Option<M>,
    cancelledWaiting: nat -> bool)

  /** Where an attempt starts from. */
  datatype Start<M> = Start(candidate: nat, priorRetries: nat, compacted: bool, messages: M)

  /**
   The record of one attempt; error is None when its output is the answer.  The circuit of its candidate is
   told whether it succeeded and whether it failed for the moment only, and answers with its new state.
   */
  datatype Try<M> = Try(start: Start<M>, reply: Reply, error: Option<ErrorKind>, success: bool, transient: bool,
      circuit: Circuit.State)

  datatype Answer<J> = Answered(output: Output<J>) | Refusal(kind: ErrorKind) | Stopped

  predicate IsTransient(kind: ErrorKind) {
    kind.RateLimit? || kind.Transport? || kind.Server? || kind.Timeout?
  }

  /** Why an output is not an answer: it was cut, or is an empty text. */
  function Objection<J>(output: Output<J>, truncated: bool): Option<ErrorKind> {
    if truncated then Some(Truncated)
    else if output.response == TextResponse("") then
      Some(if output.thinking.Some? then ReasoningOnly else EmptyCompletion)
    else None
  }

  ghost function ErrorOf<J>(reply: Reply, parser: Parser<J>): Option<ErrorKind> {
    match OutcomeOf(reply, parser)
    case Refused(kind) => Some(kind)
    case Produced(output) => Objection(output, PE.OutputTruncated in Events(reply))
  }

  ghost predicate Silent<M>(t: Try<M>) {
    !Committed(Events(t.reply))
  }

  /** The decision after a failed attempt: an open circuit turns a retry into a fallback or a failure. */
  function NextStep(policy: RetryPolicy, kind: ErrorKind, priorRetries: nat, retryAfter: Option<nat>, safe: bool,
      more: bool, circuit: Circuit.State): Decision {
    var decision := Decide(policy, kind, priorRetries, retryAfter, safe, more);
    if circuit.Open? && decision.Retry? then (if safe && more then Fallback else Fail) else decision
  }

  ghost function StepAfter<M>(o: Outside<M>, policy: RetryPolicy, n: nat, i: nat, t: Try<M>): Decision
    requires t.error.Some?
  {
    NextStep(policy, t.error.value, t.start.priorRetries, o.retryAfter(i), Silent(t),
             t.start.candidate + 1 < n, t.circuit)
  }

  // ----- which sequences of attempts are possible -----------------------------------------------------

  /** The request overflowed, and nothing had been compacted or shown: the request tries to compact. */
  ghost predicate TriesToCompact<M>(t: Try<M>) {
    t.error == Some(ContextOverflow) && !t.start.compacted && Silent(t)
  }

  ghost predicate Compacts<M>(o: Outside<M>, i: nat, t: Try<M>) {
    TriesToCompact(t) && o.compact(i, t.start.messages).Some?
  }

  ghost predicate AllSkipped<M>(o: Outside<M>, from: nat, to: nat) {
    forall c :: from <= c < to ==> o.skipped(c)
  }

  /** Attempt number i + 1 may start from `next` after attempt i. */
  ghost predicate Follows<M>(o: Outside<M>, policy: RetryPolicy, n: nat, i: nat, t: Try<M>, next: Start<M>) {
    && t.error.Some?
    && if Compacts(o, i, t) then
         next == t.start.(compacted := true, messages := o.compact(i, t.start.messages).value)
       else
         var step := StepAfter(o, policy, n, i, t);
         || (step.Retry? && !o.cancelledWaiting(i) && next == t.start.(priorRetries := t.start.priorRetries + 1))
         || (step.Fallback? && t.start.candidate < next.candidate
             && next == t.start.(candidate := next.candidate, priorRetries := 0)
             && AllSkipped(o, t.start.candidate + 1, next.candidate))
  }

  ghost predicate Opens<M>(o: Outside<M>, messages: M, next: Start<M>) {
    next == Start(next.candidate, 0, false, messages) && AllSkipped(o, 0, next.candidate)
  }

  predicate FailsToAssemble<J>(outcome: Outcome<J>) {
    outcome.Produced? && outcome.output.response.FailedResponse?
  }

  /** Attempt i happened as the outside and the breaker have it. */
  ghost predicate Happened<M, J>(o: Outside<M>, n: nat, parser: Parser<J>, i: nat, t: Try<M>) {
    && !o.cancelledBefore(i)
    && t.start.candidate < n && !o.skipped(t.start.candidate)
    && t.reply == o.reply(i, t.start.messages)
    && t.error == ErrorOf(t.reply, parser)
    && t.success == (t.error.None? && !FailsToAssemble(OutcomeOf(t.reply, parser)))
    && t.transient == (t.error.Some? && IsTransient(t.error.value))
    && t.circuit == Circuit.Record(o.entry(i), o.now(i), t.success, t.transient).1
  }

  ghost predicate IsRun<M, J>(o: Outside<M>, policy: RetryPolicy, n: nat, parser: Parser<J>, messages: M,
      tries: seq<Try<M>>) {
    && (forall i :: 0 <= i < |tries| ==> Happened(o, n, parser, i, tries[i]))
    && (|tries| > 0 ==> !o.cancelledAtStart && Opens(o, messages, tries[0].start))
    && (forall i :: 0 <= i < |tries| - 1 ==> Follows(o, policy, n, i, tries[i], tries[i + 1].start))
  }

  /** The next attempt may start from here. */
  ghost predicate MayStart<M>(o: Outside<M>, policy: RetryPolicy, n: nat, messages: M, tries: seq<Try<M>>,
      next: Start<M>) {
    if |tries| == 0 then Opens(o, messages, next) else Follows(o, policy, n, |tries| - 1, tries[|tries| - 1], next)
  }

  /** A further attempt would follow, if the request were not cancelled before it. */
  ghost predicate GoesOn<M>(o: Outside<M>, policy: RetryPolicy, n: nat, tries: seq<Try<M>>) {
    if |tries| == 0 then !AllSkipped(o, 0, n)
    else
      var i, t := |tries| - 1, tries[|tries| - 1];
      && t.error.Some?
      && (|| Compacts(o, i, t)
          || (StepAfter(o, policy, n, i, t).Retry? && !o.cancelledWaiting(i))
          || (StepAfter(o, policy, n, i, t).Fallback? && !AllSkipped(o, t.start.candidate + 1, n)))
  }

  /** The request was cancelled while it waited for its next attempt. */
  ghost predicate StoppedWaiting<M>(o: Outside<M>, policy: RetryPolicy, n: nat, tries: seq<Try<M>>) {
    && |tries| > 0
    && var i, t := |tries| - 1, tries[|tries| - 1];
       t.error.Some? && !Compacts(o, i, t) && StepAfter(o, policy, n, i, t).Retry? && o.cancelledWaiting(i)
  }

  /** Why the request ended with this answer. */
  ghost predicate Concludes<M, J>(o: Outside<M>, policy: RetryPolicy, n: nat, parser: Parser<J>,
      tries: seq<Try<M>>, answer: Answer<J>) {
    if o.cancelledAtStart then answer == Stopped && tries == []
    else
      match answer
      case Answered(output) =>
        && |tries| > 0 && tries[|tries| - 1].error.None?
        && OutcomeOf(tries[|tries| - 1].reply, parser) == Produced(output)
      case Refusal(kind) =>
        if |tries| == 0 then kind == Server && AllSkipped(o, 0, n)
        else
          var i, t := |tries| - 1, tries[|tries| - 1];
          && t.error == Some(kind) && !Compacts(o, i, t) && !StepAfter(o, policy, n, i, t).Retry?
          && (StepAfter(o, policy, n, i, t).Fallback? ==> AllSkipped(o, t.start.candidate + 1, n))
      case Stopped =>
        || (o.cancelledBefore(|tries|) && GoesOn(o, policy, n, tries))
        || StoppedWaiting(o, policy, n, tries)
  }

  /** All the text, and all the thinking, of the attempts. */
  function AllText<M>(tries: seq<Try<M>>): string {
    if |tries| == 0 then "" else AllText(tries[..|tries| - 1]) + Law.ShownText(Events(tries[|tries| - 1].reply))
  }

  function AllThinking<M>(tries: seq<Try<M>>): string {
    if |tries| == 0 then "" else AllThinking(tries[..|tries| - 1]) + ThinkingText(Events(tries[|tries| - 1].reply))
  }

  /** The request slept this long after attempt i. */
  ghost function WaitAfter<M>(o: Outside<M>, policy: RetryPolicy, n: nat, i: nat, t: Try<M>): seq<nat> {
    if t.error.Some? && !Compacts(o, i, t) && StepAfter(o, policy, n, i, t).Retry?
    then [StepAfter(o, policy, n, i, t).delay] else []
  }

  /** All the times a request slept, in order. */
  ghost function WaitsOf<M>(o: Outside<M>, policy: RetryPolicy, n: nat, tries: seq<Try<M>>): seq<nat> {
    if |tries| == 0 then []
    else WaitsOf(o, policy, n, tries[..|tries| - 1]) + WaitAfter(o, policy, n, |tries| - 1, tries[|tries| - 1])
  }

  ghost predicate ShowsAll<M>(shown: seq<Shown>, tries: seq<Try<M>>) {
    TextOf(shown) == AllText(tries) && ThinkingOf(shown) == AllThinking(tries)
  }

  lemma {:induction false} TextConcat(a: seq<Shown>, b: seq<Shown>)
    ensures TextOf(a + b) == TextOf(a) + TextOf(b)
  {
    if |b| == 0 {
      assert a + b == a;
    } else {
      assert (a + b)[..|a + b| - 1] == a + b[..|b| - 1];
      TextConcat(a, b[..|b| - 1]);
    }
  }

  lemma {:induction false} ThinkingConcat(a: seq<Shown>, b: seq<Shown>)
    ensures ThinkingOf(a + b) == ThinkingOf(a) + ThinkingOf(b)
  {
    if |b| == 0 {
      assert a + b == a;
    } else {
      assert (a + b)[..|a + b| - 1] == a + b[..|b| - 1];
      ThinkingConcat(a, b[..|b| - 1]);
    }
  }

  // ----- the loop over attempts --------------------------------------------------------------------------

  /** What a request carries along: the messages it sends now, what was shown, its sleeps, and its attempts. */
  datatype Progress<M> = Progress(messages: M, compacted: bool, shown: seq<Shown>, waits: seq<nat>, tries: seq<Try<M>>)

  datatype Verdict<J> = Ended(answer: Answer<J>) | FellBack

  lemma RunPush<M, J>(o: Outside<M>, policy: RetryPolicy, n: nat, parser: Parser<J>, messages: M, tries: seq<Try<M>>,
      t: Try<M>)
    requires IsRun(o, policy, n, parser, messages, tries) && MayStart(o, policy, n, messages, tries, t.start)
    requires Happened(o, n, parser, |tries|, t) && !o.cancelledAtStart
    ensures IsRun(o, policy, n, parser, messages, tries + [t])
  {
    var longer := tries + [t];
    forall i | 0 <= i < |longer| ensures Happened(o, n, parser, i, longer[i]) {
      if i < |tries| {
        assert Happened(o, n, parser, i, tries[i]);
      }
    }
    forall i | 0 <= i < |longer| - 1 ensures Follows(o, policy, n, i, longer[i], longer[i + 1].start) {
      if i < |tries| - 1 {
        assert Follows(o, policy, n, i, tries[i], tries[i + 1].start);
      }
    }
  }

  lemma ShowsPush<M>(shown: seq<Shown>, tries: seq<Try<M>>, more: seq<Shown>, t: Try<M>)
    requires ShowsAll(shown, tries)
    requires TextOf(more) == Law.ShownText(Events(t.reply)) && ThinkingOf(more) == ThinkingText(Events(t.reply))
    ensures ShowsAll(shown + more, tries + [t])
  {
    TextConcat(shown, more);
    ThinkingConcat(shown, more);
    assert (tries + [t])[..|tries + [t]| - 1] == tries;
  }

  lemma CommittedIfCalled(events: seq<PE.ProviderEvent>)
    ensures CalledTools(events) ==> Committed(events)
  {
    if i :| 0 <= i < |events| && AboutTools(events[i]) {
      assert Commits(events[i]);
    }
  }

  /** One attempt, recorded. */
  method TryOnce<M, J>(o: Outside<M>, policy: RetryPolicy, n: nat, parser: Parser<J>, ghost messages: M,
      p: Progress<M>, start: Start<M>)
    returns (p': Progress<M>, safe: bool, outcome: Outcome<J>)
    requires start.candidate < n && !o.skipped(start.candidate)
    requires start.messages == p.messages && start.compacted == p.compacted
    requires IsRun(o, policy, n, parser, messages, p.tries) && ShowsAll(p.shown, p.tries)
    requires MayStart(o, policy, n, messages, p.tries, start)
    requires !o.cancelledAtStart && !o.cancelledBefore(|p.tries|)
    ensures |p'.tries| == |p.tries| + 1 && p'.tries[..|p.tries|] == p.tries && p'.waits == p.waits
    ensures p'.messages == p.messages && p'.compacted == p.compacted
    ensures IsRun(o, policy, n, parser, messages, p'.tries) && ShowsAll(p'.shown, p'.tries)
    ensures var t := p'.tries[|p.tries|];
            && t.start == start && (safe <==> Silent(t)) && outcome == OutcomeOf(t.reply, parser)
            && Happened(o, n, parser, |p.tries|, t)
  {
    hide IsRun, ShowsAll, MayStart, OutcomeOf;
    var reply := o.reply(|p.tries|, start.messages);
    var report := RequestModelOnce(reply, parser);
    CommittedIfCalled(Events(reply));
    var error := match report.outcome
      case Refused(kind) => Some(kind)
      case Produced(output) => Objection(output, report.truncated);
    var success := error.None? && !FailsToAssemble(report.outcome);
    var transient := error.Some? && IsTransient(error.value);
    var circuit := Circuit.Record(o.entry(|p.tries|), o.now(|p.tries|), success, transient).1;
    var t := Try(start, reply, error, success, transient, circuit);
    RunPush(o, policy, n, parser, messages, p.tries, t);
    ShowsPush(p.shown, p.tries, report.shown, t);
    p' := p.(shown := p.shown + report.shown, tries := p.tries + [t]);
    safe, outcome := !report.committed && !report.toolSeen, report.outcome;
  }

  /** What to do after a failed attempt: compact the request once, or what the policy and the circuit say. */
  method React<M>(o: Outside<M>, policy: RetryPolicy, n: nat, number: nat, t: Try<M>, safe: bool)
    returns (smaller: Option<M>, triedToCompact: bool, decision: Decision)
    requires t.error.Some? && (safe <==> Silent(t))
    ensures smaller.Some? <==> Compacts(o, number, t)
    ensures smaller.Some? ==> triedToCompact && smaller == o.compact(number, t.start.messages)
    ensures smaller.None? ==> decision == StepAfter(o, policy, n, number, t)
    ensures triedToCompact ==> t.error == Some(ContextOverflow) && (smaller.None? ==> decision.Fail?)
  {
    smaller, triedToCompact, decision := None, false, Fail;
    if t.error.value == ContextOverflow && !t.start.compacted && safe {
      triedToCompact := true;
      smaller := o.compact(number, t.start.messages);
      if smaller.Some? {
        return;
      }
    }
    decision := NextStep(policy, t.error.value, t.start.priorRetries, o.retryAfter(number), safe,
                         t.start.candidate + 1 < n, t.circuit);
    DecideLaw(policy, t.error.value, t.start.priorRetries, o.retryAfter(number), safe, t.start.candidate + 1 < n);
  }

  /** Handed on to the next candidate by its last attempt. */
  ghost predicate HandedOn<M>(o: Outside<M>, policy: RetryPolicy, n: nat, p: Progress<M>, candidate: nat) {
    && |p.tries| > 0
    && var i, t := |p.tries| - 1, p.tries[|p.tries| - 1];
       && t.error.Some? && !Compacts(o, i, t) && StepAfter(o, policy, n, i, t).Fallback?
       && t.start.candidate == candidate && t.start.compacted == p.compacted && t.start.messages == p.messages
  }

  ghost predicate Carried<M, J>(o: Outside<M>, policy: RetryPolicy, n: nat, parser: Parser<J>, messages: M,
      p: Progress<M>) {
    && !o.cancelledAtStart && IsRun(o, policy, n, parser, messages, p.tries) && ShowsAll(p.shown, p.tries)
    && p.waits == WaitsOf(o, policy, n, p.tries)
  }

  /** One turn of the loop: an attempt, and then an end, a hand-over or the start of the next attempt. */
  method Turn<M, J>(o: Outside<M>, policy: RetryPolicy, n: nat, parser: Parser<J>, ghost messages: M, p: Progress<M>,
      start: Start<M>)
    returns (p': Progress<M>, verdict: Option<Verdict<J>>, next: Start<M>)
    requires start.candidate < n && !o.skipped(start.candidate)
    requires start.compacted == p.compacted && start.messages == p.messages
    requires Carried(o, policy, n, parser, messages, p) && MayStart(o, policy, n, messages, p.tries, start)
    ensures Carried(o, policy, n, parser, messages, p')
    ensures verdict.Some? && verdict.value.Ended? ==> Concludes(o, policy, n, parser, p'.tries, verdict.value.answer)
    ensures verdict == Some(FellBack) ==> HandedOn(o, policy, n, p', start.candidate)
    ensures verdict.None? ==>
              && MayStart(o, policy, n, messages, p'.tries, next)
              && next.candidate == start.candidate && next.compacted == p'.compacted && next.messages == p'.messages
              && if start.compacted == next.compacted
                then start.priorRetries < next.priorRetries <= MaxBudget(policy) else next.compacted
  {
    hide IsRun, ShowsAll, NextStep, OutcomeOf;
    next, verdict, p' := start, None, p;
    if o.cancelledBefore(|p.tries|) {
      verdict := Some(Ended(Stopped));
      return;
    }
    var number := |p.tries|;
    var safe: bool, outcome: Outcome<J>;
    p', safe, outcome := TryOnce(o, policy, n, parser, messages, p, start);
    var t := p'.tries[number];
    if t.error.None? {
      verdict := Some(Ended(Answered(outcome.output)));
      return;
    }
    var smaller, triedToCompact, decision := React(o, policy, n, number, t, safe);
    StepLaw(o, policy, n, number, t);
    p' := p'.(compacted := p'.compacted || triedToCompact);
    if smaller.None? && decision.Retry? {
      p' := p'.(waits := p'.waits + [decision.delay]);
    }
    if smaller.Some? {
      p' := p'.(messages := smaller.value);
      next := start.(compacted := true, messages := smaller.value);
    } else if decision.Retry? {
      next := start.(priorRetries := start.priorRetries + 1);
      verdict := if o.cancelledWaiting(number) then Some(Ended(Stopped)) else None;
    } else {
      verdict := Some(if decision.Fallback? then FellBack else Ended(Refusal(t.error.value)));
    }
  }

  /** All attempts on one candidate. */
  method TryCandidate<M, J>(o: Outside<M>, policy: RetryPolicy, n: nat, parser: Parser<J>, ghost messages: M,
      p: Progress<M>, candidate: nat)
    returns (p': Progress<M>, verdict: Verdict<J>)
    requires candidate < n && !o.skipped(candidate)
    requires Carried(o, policy, n, parser, messages, p)
    requires MayStart(o, policy, n, messages, p.tries, Start(candidate, 0, p.compacted, p.messages))
    ensures Carried(o, policy, n, parser, messages, p')
    ensures verdict.Ended? ==> Concludes(o, policy, n, parser, p'.tries, verdict.answer)
    ensures verdict.FellBack? ==> HandedOn(o, policy, n, p', candidate)
  {
    p' := p;
    var start := Start(candidate, 0, p.compacted, p.messages);
    while true
      invariant Carried(o, policy, n, parser, messages, p') && MayStart(o, policy, n, messages, p'.tries, start)
      invariant start.candidate == candidate && start.compacted == p'.compacted && start.messages == p'.messages
      decreases if start.compacted then 0 else 1, MaxBudget(policy) - start.priorRetries
    {
      var ended: Option<Verdict<J>>;
      p', ended, start := Turn(o, policy, n, parser, messages, p', start);
      if ended.Some? {
        return p', ended.value;
      }
    }
  }

  /** Between two candidates: no attempt yet, or the last one was handed on and its successors were skipped. */
  ghost predicate Between<M>(o: Outside<M>, policy: RetryPolicy, n: nat, messages: M, p: Progress<M>, candidate: nat) {
    if |p.tries| == 0 then p.messages == messages && !p.compacted && AllSkipped(o, 0, candidate)
    else
      var from := p.tries[|p.tries| - 1].start.candidate;
      HandedOn(o, policy, n, p, from) && from < candidate && AllSkipped(o, from + 1, candidate)
  }

  lemma BetweenMayStart<M>(o: Outside<M>, policy: RetryPolicy, n: nat, messages: M, p: Progress<M>, candidate: nat)
    requires Between(o, policy, n, messages, p, candidate)
    ensures MayStart(o, policy, n, messages, p.tries, Start(candidate, 0, p.compacted, p.messages))
  {
  }

  lemma BetweenSkips<M>(o: Outside<M>, policy: RetryPolicy, n: nat, messages: M, p: Progress<M>, candidate: nat)
    requires Between(o, policy, n, messages, p, candidate) && o.skipped(candidate)
    ensures Between(o, policy, n, messages, p, candidate + 1)
  {
  }

  lemma HandedOnIsBetween<M>(o: Outside<M>, policy: RetryPolicy, n: nat, messages: M, p: Progress<M>, candidate: nat)
    requires HandedOn(o, policy, n, p, candidate)
    ensures Between(o, policy, n, messages, p, candidate + 1)
  {
  }

  function LastError<M>(tries: seq<Try<M>>): ErrorKind {
    if |tries| > 0 && tries[|tries| - 1].error.Some? then tries[|tries| - 1].error.value else Server
  }

  lemma NoCandidateLeft<M, J>(o: Outside<M>, policy: RetryPolicy, n: nat, parser: Parser<J>, messages: M,
      p: Progress<M>)
    requires Between(o, policy, n, messages, p, n) && !o.cancelledAtStart
    ensures Concludes(o, policy, n, parser, p.tries, Refusal(LastError(p.tries)))
  {
  }

  /**
   The request over all candidates.  Its attempts form a possible run, the user is shown exactly what
   the attempts emitted, it sleeps exactly before the retries, and the answer is the one this run leads to.
   */
  method RequestModel<M, J>(o: Outside<M>, policy: RetryPolicy, n: nat, parser: Parser<J>, messages: M)
    returns (answer: Answer<J>, shown: seq<Shown>, waits: seq<nat>, tries: seq<Try<M>>)
    ensures IsRun(o, policy, n, parser, messages, tries)
    ensures Concludes(o, policy, n, parser, tries, answer)
    ensures ShowsAll(shown, tries)
    ensures waits == WaitsOf(o, policy, n, tries)
  {
    var p: Progress<M> := Progress(messages, false, [], [], []);
    if o.cancelledAtStart {
      return Stopped, [], [], [];
    }
    var lastError := Server;
    var candidate := 0;
    while candidate < n
      invariant candidate <= n
      invariant Carried(o, policy, n, parser, messages, p)
      invariant Between(o, policy, n, messages, p, candidate)
      invariant lastError == LastError(p.tries)
    {
      if o.skipped(candidate) {
        BetweenSkips(o, policy, n, messages, p, candidate);
      } else {
        BetweenMayStart(o, policy, n, messages, p, candidate);
        var verdict: Verdict<J>;
        p, verdict := TryCandidate(o, policy, n, parser, messages, p, candidate);
        if verdict.Ended? {
          return verdict.answer, p.shown, p.waits, p.tries;
        }
        HandedOnIsBetween(o, policy, n, messages, p, candidate);
        lastError := p.tries[|p.tries| - 1].error.value;
      }
      candidate := candidate + 1;
    }
    NoCandidateLeft(o, policy, n, parser, messages, p);
    return Refusal(lastError), p.shown, p.waits, p.tries;
  }

  // ----- what every run keeps ---------------------------------------------------------------------------

  /** What the decision after an attempt means: nothing follows an attempt that showed or called something. */
  lemma StepLaw<M>(o: Outside<M>, policy: RetryPolicy, n: nat, i: nat, t: Try<M>)
    requires t.error.Some?
    ensures var step := StepAfter(o, policy, n, i, t);
            && (step.Retry? ==> Silent(t) && !t.circuit.Open? && t.start.priorRetries < MaxBudget(policy))
            && (step.Fallback? ==> Silent(t) && t.start.candidate + 1 < n)
            && (t.error == Some(ContextOverflow) ==> step.Fail?)
  {
    DecideLaw(policy, t.error.value, t.start.priorRetries, o.retryAfter(i), Silent(t), t.start.candidate + 1 < n);
    BudgetIsBounded(policy, t.error.value);
  }

  /** Only the last attempt may have shown text or thinking, or touched a tool. */
  lemma OnlyTheLastCommits<M, J>(o: Outside<M>, policy: RetryPolicy, n: nat, parser: Parser<J>, messages: M,
      tries: seq<Try<M>>, i: nat)
    requires IsRun(o, policy, n, parser, messages, tries) && i < |tries| - 1
    ensures Silent(tries[i])
  {
    assert Follows(o, policy, n, i, tries[i], tries[i + 1].start);
    StepLaw(o, policy, n, i, tries[i]);
  }

  /** An attempt that follows on the same candidate never follows an attempt that left its circuit open. */
  lemma NeverOnAnOpenCircuit<M, J>(o: Outside<M>, policy: RetryPolicy, n: nat, parser: Parser<J>, messages: M,
      tries: seq<Try<M>>, i: nat)
    requires IsRun(o, policy, n, parser, messages, tries) && i < |tries| - 1
    requires tries[i].circuit.Open?
    ensures tries[i].start.candidate < tries[i + 1].start.candidate
  {
    assert Follows(o, policy, n, i, tries[i], tries[i + 1].start);
    assert Happened(o, n, parser, i, tries[i]);
    StepLaw(o, policy, n, i, tries[i]);
  }

  /** After an attempt that tried to compact, every later one knows that it was tried. */
  lemma {:induction false} TriedIsRemembered<M, J>(o: Outside<M>, policy: RetryPolicy, n: nat, parser: Parser<J>,
      messages: M, tries: seq<Try<M>>, i: nat, j: nat)
    requires IsRun(o, policy, n, parser, messages, tries) && i < j < |tries| && TriesToCompact(tries[i])
    ensures tries[j].start.compacted
  {
    if j == i + 1 {
      assert Follows(o, policy, n, i, tries[i], tries[i + 1].start);
      StepLaw(o, policy, n, i, tries[i]);
    } else {
      TriedIsRemembered(o, policy, n, parser, messages, tries, i, j - 1);
      assert Follows(o, policy, n, j - 1, tries[j - 1], tries[j - 1 + 1].start);
    }
  }

  /** Compacting is tried at most once in a request, whether it succeeds or not. */
  lemma CompactionIsTriedOnce<M, J>(o: Outside<M>, policy: RetryPolicy, n: nat, parser: Parser<J>, messages: M,
      tries: seq<Try<M>>, i: nat, j: nat)
    requires IsRun(o, policy, n, parser, messages, tries) && i < |tries| && j < |tries|
    requires TriesToCompact(tries[i]) && TriesToCompact(tries[j])
    ensures i == j
  {
    if i < j {
      TriedIsRemembered(o, policy, n, parser, messages, tries, i, j);
    } else if j < i {
      TriedIsRemembered(o, policy, n, parser, messages, tries, j, i);
    }
  }

  /** The request is compacted at most once: attempts send the original messages, then one compaction of them. */
  lemma {:induction false} CompactsOnce<M, J>(o: Outside<M>, policy: RetryPolicy, n: nat, parser: Parser<J>,
      messages: M, tries: seq<Try<M>>, i: nat)
    requires IsRun(o, policy, n, parser, messages, tries) && i < |tries|
    ensures !tries[i].start.compacted ==>
            forall j :: 0 <= j <= i ==> !tries[j].start.compacted && tries[j].start.messages == messages
    ensures tries[i].start.compacted ==>
              exists c :: 0 <= c < i && Compacts(o, c, tries[c]) && tries[c].start.messages == messages
                && tries[i].start.messages == o.compact(c, messages).value
  {
    if i > 0 {
      CompactsOnce(o, policy, n, parser, messages, tries, i - 1);
      assert Follows(o, policy, n, i - 1, tries[i - 1], tries[i - 1 + 1].start);
      if tries[i].start.compacted && !tries[i - 1].start.compacted {
        assert Compacts(o, i - 1, tries[i - 1]);
      }
    }
  }

  lemma Times(k: nat, a: nat, b: nat)
    requires a < b
    ensures k * a + k <= k * b
    decreases b
  {
    assert k * b == k * (b - 1) + k;
    if a < b - 1 {
      Times(k, a, b - 1);
    }
  }

  ghost predicate IsSpent<M>(policy: RetryPolicy, i: nat, start: Start<M>) {
    && start.priorRetries <= MaxBudget(policy)
    && i <= (MaxBudget(policy) + 1) * start.candidate + start.priorRetries + if start.compacted then 1 else 0
  }

  lemma SpentStep<M>(o: Outside<M>, policy: RetryPolicy, n: nat, i: nat, t: Try<M>, next: Start<M>)
    requires IsSpent(policy, i, t.start) && Follows(o, policy, n, i, t, next)
    ensures IsSpent(policy, i + 1, next)
  {
    StepLaw(o, policy, n, i, t);
    if t.start.candidate < next.candidate {
      Times(MaxBudget(policy) + 1, t.start.candidate, next.candidate);
    }
  }

  lemma {:induction false} Spent<M, J>(o: Outside<M>, policy: RetryPolicy, n: nat, parser: Parser<J>,
      messages: M, tries: seq<Try<M>>, i: nat)
    requires IsRun(o, policy, n, parser, messages, tries) && i < |tries|
    ensures IsSpent(policy, i, tries[i].start)
  {
    if i > 0 {
      Spent(o, policy, n, parser, messages, tries, i - 1);
      SpentStep(o, policy, n, i - 1, tries[i - 1], tries[i - 1 + 1].start);
    }
  }

  /** A request makes at most (largest retry budget + 1) attempts for each candidate, and one more for a compaction. */
  lemma AttemptsAreBounded<M, J>(o: Outside<M>, policy: RetryPolicy, n: nat, parser: Parser<J>, messages: M,
      tries: seq<Try<M>>)
    requires IsRun(o, policy, n, parser, messages, tries)
    ensures |tries| <= (MaxBudget(policy) + 1) * n + 1
  {
    if |tries| > 0 {
      var last := |tries| - 1;
      Spent(o, policy, n, parser, messages, tries, last);
      assert Happened(o, n, parser, last, tries[last]);
      Times(MaxBudget(policy) + 1, tries[last].start.candidate, n);
    } else {
      assert (MaxBudget(policy) + 1) * n >= 0;
    }
  }

  lemma {:induction false} SilentAttemptsShowNothing<M>(tries: seq<Try<M>>)
    requires forall i :: 0 <= i < |tries| ==> Silent(tries[i])
    ensures AllText(tries) == "" && AllThinking(tries) == ""
  {
    if |tries| > 0 {
      SilentAttemptsShowNothing(tries[..|tries| - 1]);
      UncommittedIsSilent(Events(tries[|tries| - 1].reply));
    }
  }

  /**
   When a request is answered, everything the user was shown on the way belongs to the answer: the
   shown thinking is the returned thinking, and the shown text is the returned text.
   */
  lemma AnswerIsWhatWasShown<M, J>(o: Outside<M>, policy: RetryPolicy, n: nat, parser: Parser<J>, messages: M,
      tries: seq<Try<M>>, answer: Answer<J>, shown: seq<Shown>)
    requires IsRun(o, policy, n, parser, messages, tries) && ShowsAll(shown, tries)
    requires Concludes(o, policy, n, parser, tries, answer)
    requires answer.Answered?
    ensures ThinkingOf(shown) == if answer.output.thinking.Some? then answer.output.thinking.value else ""
    ensures answer.output.response.TextResponse? ==> TextOf(shown) == answer.output.response.text
  {
    OnlyTheLastShows(o, policy, n, parser, messages, tries);
    Law.TextOnly(Events(tries[|tries| - 1].reply), parser);
  }

  lemma OnlyTheLastShows<M, J>(o: Outside<M>, policy: RetryPolicy, n: nat, parser: Parser<J>, messages: M,
      tries: seq<Try<M>>)
    requires IsRun(o, policy, n, parser, messages, tries) && |tries| > 0
    ensures AllText(tries) == Law.ShownText(Events(tries[|tries| - 1].reply))
    ensures AllThinking(tries) == ThinkingText(Events(tries[|tries| - 1].reply))
  {
    var front, last := tries[..|tries| - 1], tries[|tries| - 1];
    forall i | 0 <= i < |front| ensures Silent(front[i]) {
      OnlyTheLastCommits(o, policy, n, parser, messages, tries, i);
    }
    SilentAttemptsShowNothing(front);
    assert "" + Law.ShownText(Events(last.reply)) == Law.ShownText(Events(last.reply));
    assert "" + ThinkingText(Events(last.reply)) == ThinkingText(Events(last.reply));
  }

  /** An answer is never cut, and never an empty text. */
  lemma AnswerIsUsable<M, J>(o: Outside<M>, policy: RetryPolicy, n: nat, parser: Parser<J>, messages: M,
      tries: seq<Try<M>>, answer: Answer<J>)
    requires IsRun(o, policy, n, parser, messages, tries) && Concludes(o, policy, n, parser, tries, answer)
    requires answer.Answered?
    ensures answer.output.response != TextResponse("")
    ensures PE.OutputTruncated !in Events(tries[|tries| - 1].reply)
    ensures PE.ResponseStarted in Events(tries[|tries| - 1].reply) ==>
            PE.ProtocolDone in Events(tries[|tries| - 1].reply)
  {
    var i := |tries| - 1;
    assert Happened(o, n, parser, i, tries[i]);
  }
}

/** The retry policy: what to do after a failed attempt. */
module Retry {
  import opened Basics
  import opened Attempt

  datatype Decision = Fail | Retry(delay: nat) | Fallback

  datatype RetryPolicy = RetryPolicy(rateLimit: nat, transport: nat, server: nat, timeout: nat, protocol: nat,
      maxBackoff: nat)

  predicate IsPhaseTimeout(kind: ErrorKind) {
    kind.Timeout? && kind.phase != Overall
  }

  /** How often a failure of this kind may be retried. */
  function Budget(policy: RetryPolicy, kind: ErrorKind): nat {
    match kind
    case RateLimit => policy.rateLimit
    case Transport => policy.transport
    case Server => policy.server
    case Timeout(phase) => if phase == Overall then 0 else policy.timeout
    case Protocol => policy.protocol
    case _ => 0
  }

  function MaxBudget(policy: RetryPolicy): nat {
    Max(Max(policy.rateLimit, policy.transport), Max(Max(policy.server, policy.timeout), policy.protocol))
  }

  function Power2(n: nat): nat {
    if n == 0 then 1 else 2 * Power2(n - 1)
  }

  function Delay(policy: RetryPolicy, priorRetries: nat, retryAfter: Option<nat>): nat {
    var own := 100 * Power2(Min(priorRetries, 6)) + (priorRetries * 47 + 31) % 67;
    Min(if retryAfter.Some? then retryAfter.value else own, policy.maxBackoff)
  }

  predicate MayFallBack(policy: RetryPolicy, kind: ErrorKind) {
    kind.RateLimit? || kind.Transport? || kind.Server? || IsPhaseTimeout(kind) ||
      (kind.Protocol? && policy.protocol > 0)
  }

  function Decide(policy: RetryPolicy, kind: ErrorKind, priorRetries: nat, retryAfter: Option<nat>, safe: bool,
      more: bool): Decision {
    if !safe then Fail
    else if Budget(policy, kind) > priorRetries then Retry(Delay(policy, priorRetries, retryAfter))
    else if more && MayFallBack(policy, kind) then Fallback
    else Fail
  }

  /**
   The contract of the policy, kind by kind.  Nothing is repeated unsafely; a failure is retried exactly as
   often as the policy says for its own kind; a fallback needs a further candidate and no retry left; and
   what is neither retried nor handed on is final, as are the deadline of the whole request and the kinds
   that no repetition can help.
   */
  lemma DecideLaw(policy: RetryPolicy, kind: ErrorKind, priorRetries: nat, retryAfter: Option<nat>, safe: bool,
      more: bool)
    ensures var decision := Decide(policy, kind, priorRetries, retryAfter, safe, more);
            && (kind == RateLimit ==> (decision.Retry? <==> safe && priorRetries < policy.rateLimit))
            && (kind == Transport ==> (decision.Retry? <==> safe && priorRetries < policy.transport))
            && (kind == Server ==> (decision.Retry? <==> safe && priorRetries < policy.server))
            && (kind in {Timeout(Connect), Timeout(FirstEvent), Timeout(StreamIdle)} ==>
                  (decision.Retry? <==> safe && priorRetries < policy.timeout))
            && (kind == Protocol ==> (decision.Retry? <==> safe && priorRetries < policy.protocol))
            && (kind in {RateLimit, Transport, Server, Timeout(Connect), Timeout(FirstEvent), Timeout(StreamIdle)} ==>
                  (decision.Fallback? <==> safe && more && !decision.Retry?))
            && (kind == Protocol ==>
                  (decision.Fallback? <==> safe && more && !decision.Retry? && policy.protocol > 0))
            && (!safe ==> decision == Fail)
    ensures kind in {Auth, AccessDenied, QuotaExceeded, InvalidRequest, ContextOverflow, ContentPolicy,
              EmptyCompletion, ReasoningOnly, Truncated, Cancelled, Timeout(Overall)} ==>
              Decide(policy, kind, priorRetries, retryAfter, safe, more) == Fail
  {
  }

  /**
   How long a retry waits: what the provider asked for, or a time that doubles with each of the first six
   retries, with less than 67 ms on top; and never longer than the policy allows.
   */
  lemma DelayLaw(policy: RetryPolicy, kind: ErrorKind, priorRetries: nat, retryAfter: Option<nat>, safe: bool,
      more: bool)
    ensures var decision := Decide(policy, kind, priorRetries, retryAfter, safe, more);
            var base := [100, 200, 400, 800, 1600, 3200, 6400][if priorRetries < 6 then priorRetries else 6];
            decision.Retry? ==>
              && decision.delay <= policy.maxBackoff
              && (retryAfter.Some? ==> decision.delay == policy.maxBackoff || decision.delay == retryAfter.value)
              && (retryAfter.Some? ==> decision.delay <= retryAfter.value)
              && (retryAfter.None? ==> decision.delay == policy.maxBackoff || base <= decision.delay)
              && (retryAfter.None? ==> decision.delay < base + 67)
  {
    FirstPowers();
  }

  lemma FirstPowers()
    ensures Power2(0) == 1 && Power2(1) == 2 && Power2(2) == 4 && Power2(3) == 8
    ensures Power2(4) == 16 && Power2(5) == 32 && Power2(6) == 64
  {
    assert Power2(3) == 8;
    assert Power2(5) == 32;
  }

  lemma BudgetIsBounded(policy: RetryPolicy, kind: ErrorKind)
    ensures Budget(policy, kind) <= MaxBudget(policy)
  {
  }
}

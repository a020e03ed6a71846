/** Scheduled jobs with interval schedules: when they are taken, how often they are tried, what is remembered. */
module CronJobs {
  import opened Basics

  const MAX_HISTORY: nat := 20
  const U32_MAX: nat := 0xFFFF_FFFF
  const U64_MAX: nat := 0xFFFF_FFFF_FFFF_FFFF

  datatype RunRecord = RunRecord(attempts: nat, success: bool)

  datatype Job = Job(id: string, name: string, seconds: nat, enabled: bool, maxRetries: nat, backoff: nat,
                     nextRunAt: nat, history: seq<RunRecord>)

  // ----- the retry loop of one run ------------------------------------------------------------------

  function Power2(n: nat): nat {
    if n == 0 then 1 else 2 * Power2(n - 1)
  }

  /** The wait after attempt number n. */
  function Delay(backoff: nat, n: nat): nat {
    Min(backoff * Power2(Min(Max(n - 1, 0), 20)), U64_MAX)
  }

  function TotalDelay(backoff: nat, n: nat): nat {
    if n == 0 then 0 else TotalDelay(backoff, n - 1) + Delay(backoff, n)
  }

  datatype Progress = Finished(record: RunRecord) | StillTrying

  /** Whether a run that has failed n times is tried again; the counter saturates at u32::MAX. */
  predicate TriesAgain(job: Job, n: nat) {
    Min(n, U32_MAX) <= job.maxRetries
  }

  /** Every attempt before the last of these failed and was followed by another. */
  ghost predicate FailsBefore(job: Job, succeeds: seq<bool>, tried: nat)
    requires tried <= |succeeds|
  {
    && (forall i :: 0 <= i < tried - 1 ==> !succeeds[i])
    && (forall n: nat :: 0 < n < tried ==> TriesAgain(job, n))
  }

  /** The retry loop against the results its attempts would have, as far as they are given. */
  method ExecuteJob(job: Job, succeeds: seq<bool>) returns (progress: Progress, tried: nat, slept: nat)
    ensures tried <= |succeeds| && FailsBefore(job, succeeds, tried)
    ensures progress.Finished? ==>
              && tried > 0 && progress.record == RunRecord(Min(tried, U32_MAX), succeeds[tried - 1])
              && (!succeeds[tried - 1] ==> !TriesAgain(job, tried))
              && slept == TotalDelay(job.backoff, tried - 1)
    ensures progress.StillTrying? ==>
              && tried == |succeeds| && slept == TotalDelay(job.backoff, tried)
              && (tried > 0 ==> !succeeds[tried - 1] && TriesAgain(job, tried))
  {
    var attempts: nat := 0;
    tried, slept := 0, 0;
    while tried < |succeeds|
      invariant tried <= |succeeds| && attempts == Min(tried, U32_MAX)
      invariant FailsBefore(job, succeeds, tried)
      invariant tried > 0 ==> !succeeds[tried - 1] && TriesAgain(job, tried)
      invariant slept == TotalDelay(job.backoff, tried)
    {
      var success := succeeds[tried];
      tried := tried + 1;
      attempts := Min(attempts + 1, U32_MAX);
      if success {
        return Finished(RunRecord(attempts, true)), tried, slept;
      }
      if attempts > job.maxRetries {
        return Finished(RunRecord(attempts, false)), tried, slept;
      }
      DelaySaturates(job.backoff, tried);
      slept := slept + Delay(job.backoff, attempts);
    }
    progress := StillTrying;
  }

  /** The first wait is the backoff itself, each of the next twenty is twice the one before, and then it stays. */
  lemma DelayDoubles(backoff: nat, n: nat)
    ensures Delay(backoff, 1) == if backoff <= 0xFFFF_FFFF_FFFF_FFFF then backoff else 0xFFFF_FFFF_FFFF_FFFF
    ensures 1 <= n <= 20 && 2 * Delay(backoff, n) <= 0xFFFF_FFFF_FFFF_FFFF ==>
              Delay(backoff, n + 1) == 2 * Delay(backoff, n)
    ensures 1 <= n <= 20 && 2 * Delay(backoff, n) > 0xFFFF_FFFF_FFFF_FFFF ==>
              Delay(backoff, n + 1) == 0xFFFF_FFFF_FFFF_FFFF
    ensures n >= 21 ==> Delay(backoff, n + 1) == Delay(backoff, n)
  {
    assert Power2(0) == 1;
    if 1 <= n <= 20 {
      Distribute(backoff, Power2(n - 1), Power2(n - 1));
    }
  }

  lemma DelaySaturates(backoff: nat, n: nat)
    ensures Delay(backoff, Min(n, U32_MAX)) == Delay(backoff, n)
  {
  }

  lemma {:induction false} Power2Grows(a: nat, b: nat)
    requires a <= b
    ensures 1 <= Power2(a) <= Power2(b)
    decreases b
  {
    if a < b {
      Power2Grows(a, b - 1);
    } else if a > 0 {
      Power2Grows(a - 1, a - 1);
    }
  }

  lemma Distribute(k: nat, a: nat, b: nat)
    ensures k * a + k * b == k * (a + b)
  {
  }

  lemma Monotone(k: nat, a: nat, b: nat)
    requires a <= b
    ensures k * a <= k * b
  {
    Distribute(k, a, b - a);
  }

  lemma {:induction false} TotalDelayBound(backoff: nat, n: nat)
    ensures Power2(n) >= 1 && TotalDelay(backoff, n) <= backoff * (Power2(n) - 1)
  {
    Power2Grows(0, n);
    if n > 0 {
      TotalDelayBound(backoff, n - 1);
      Power2Grows(Min(n - 1, 20), n - 1);
      Monotone(backoff, Power2(Min(n - 1, 20)), Power2(n - 1));
      Distribute(backoff, Power2(n - 1) - 1, Power2(n - 1));
    }
  }

  /**
   Below the saturation point a run is tried at most max_retries + 1 times and sleeps at most
   backoff * (2^max_retries - 1) seconds.
   */
  lemma RunIsBounded(job: Job, succeeds: seq<bool>, tried: nat)
    requires job.maxRetries < U32_MAX && 0 < tried <= |succeeds| && FailsBefore(job, succeeds, tried)
    ensures tried <= job.maxRetries + 1
    ensures Power2(job.maxRetries) >= 1
    ensures TotalDelay(job.backoff, tried - 1) <= job.backoff * (Power2(job.maxRetries) - 1)
  {
    if tried > 1 {
      assert TriesAgain(job, tried - 1);
    }
    TotalDelayBound(job.backoff, tried - 1);
    Power2Grows(tried - 1, job.maxRetries);
    Monotone(job.backoff, Power2(tried - 1) - 1, Power2(job.maxRetries) - 1);
  }

  /** At u32::MAX retries the saturated counter never exceeds the limit: a job that always fails is tried forever. */
  lemma NeverGivesUpAtTheMaximum(job: Job, n: nat)
    ensures (forall k :: 0 <= k <= n ==> TriesAgain(job, k)) <==> n <= job.maxRetries || job.maxRetries >= U32_MAX
  {
    assert TriesAgain(job, n) <==> Min(n, U32_MAX) <= job.maxRetries;
  }

  // ----- the store ---------------------------------------------------------------------------------------

  function NextAfter(job: Job, now: nat): nat {
    Min(now + job.seconds, U64_MAX)
  }

  predicate IsDue(job: Job, now: nat) {
    job.enabled && job.nextRunAt <= now
  }

  function Advanced(job: Job, now: nat): Job {
    if IsDue(job, now) then job.(nextRunAt := NextAfter(job, now)) else job
  }

  /** Switching a job on starts its interval anew. */
  function Switched(job: Job, on: bool, now: nat): Job {
    if on then job.(enabled := true, nextRunAt := NextAfter(job, now)) else job.(enabled := false)
  }

  function IsDueAt(now: nat): Job -> bool {
    (job: Job) => IsDue(job, now)
  }

  function LastRecords(history: seq<RunRecord>): seq<RunRecord> {
    if |history| > MAX_HISTORY then history[|history| - MAX_HISTORY..] else history
  }

  predicate Matches(job: Job, key: string) {
    job.id == key || job.name == key
  }

  /** At most twenty records are kept, and they are the last. */
  lemma TheLastTwenty(history: seq<RunRecord>)
    ensures |LastRecords(history)| == if |history| < 20 then |history| else 20
    ensures LastRecords(history) == history[|history| - |LastRecords(history)|..]
  {
  }

  ghost predicate Known(jobs: seq<Job>, key: string) {
    exists i :: 0 <= i < |jobs| && Matches(jobs[i], key)
  }

  ghost predicate IsFirstMatch(jobs: seq<Job>, key: string, i: nat) {
    i < |jobs| && Matches(jobs[i], key) && forall k :: 0 <= k < i ==> !Matches(jobs[k], key)
  }

  /** The record went to job i, the first that matches, whose history keeps its last records. */
  ghost predicate RecordedAt(before: seq<Job>, after: seq<Job>, key: string, record: RunRecord, i: nat) {
    && IsFirstMatch(before, key, i)
    && after == before[i := before[i].(history := LastRecords(before[i].history + [record]))]
  }

  /** What the store keeps apart: ids among themselves, and names among themselves. */
  ghost predicate Distinct(jobs: seq<Job>) {
    forall i, j :: 0 <= i < j < |jobs| ==> jobs[i].id != jobs[j].id && jobs[i].name != jobs[j].name
  }

  /**
   A record made under the id of job j reaches job j exactly when no earlier job has that id for a name;
   otherwise it goes to that earlier job, and job j is left as it was.
   */
  lemma RecordReachesItsJob(before: seq<Job>, after: seq<Job>, record: RunRecord, i: nat, j: nat)
    requires Distinct(before) && j < |before| && RecordedAt(before, after, before[j].id, record, i)
    ensures i == j <==> forall k :: 0 <= k < j ==> before[k].name != before[j].id
    ensures i != j ==> i < j && before[i].name == before[j].id && after[j] == before[j]
    ensures i == j ==> after[j] == before[j].(history := LastRecords(before[j].history + [record]))
  {
    assert Matches(before[j], before[j].id);
    assert forall k :: 0 <= k < j && before[k].name == before[j].id ==> Matches(before[k], before[j].id);
  }

  /** And once its job is gone, a record goes to the job named like that id, if there is one. */
  lemma RecordOfARemovedJob(before: seq<Job>, after: seq<Job>, key: string, record: RunRecord, i: nat)
    requires Distinct(before) && RecordedAt(before, after, key, record, i)
    requires forall k :: 0 <= k < |before| ==> before[k].id != key
    ensures before[i].name == key
    ensures forall k :: 0 <= k < |before| && before[k].name == key ==> k == i
  {
    forall k | 0 <= k < |before| && before[k].name == key ensures k == i {
      assert Matches(before[k], key);
    }
  }

  /** Two jobs with different ids and names: the record of the second goes to the first. */
  lemma RecordCanGoAstray(record: RunRecord)
    ensures exists before: seq<Job>, after: seq<Job> ::
              Distinct(before) && |before| == 2 && RecordedAt(before, after, before[1].id, record, 0)
  {
    var before := [Job("cron-1-0", "cron-2-1", 60, true, 0, 0, 0, []),
      Job("cron-2-1", "backup", 60, true, 0, 0, 0, [])];
    var after := before[0 := before[0].(history := LastRecords(before[0].history + [record]))];
    assert before[0].id[5] != before[1].id[5] && before[0].name[0] != before[1].name[0];
    assert Matches(before[0], before[1].id);
    assert RecordedAt(before, after, before[1].id, record, 0);
  }

  class CronStore {
    var jobs: seq<Job>

    constructor (jobs: seq<Job>)
      ensures this.jobs == jobs
    {
      this.jobs := jobs;
    }

    /** Takes the due jobs and moves their next run; nothing changes when the new state cannot be stored. */
    method TakeDue(now: nat, stored: bool) returns (due: seq<Job>, ok: bool)
      modifies this
      ensures ok <==> stored || Keep(IsDueAt(now), old(jobs)) == []
      ensures ok ==> due == Keep(IsDueAt(now), old(jobs))
      ensures |jobs| == |old(jobs)|
      ensures forall i :: 0 <= i < |jobs| ==> jobs[i] == if ok then Advanced(old(jobs)[i], now) else old(jobs)[i]
    {
      due := [];
      var next: seq<Job> := [];
      for i := 0 to |jobs|
        invariant due == Keep(IsDueAt(now), jobs[..i])
        invariant |next| == i && forall k :: 0 <= k < i ==> next[k] == Advanced(jobs[k], now)
      {
        assert jobs[..i + 1][..i] == jobs[..i];
        if jobs[i].enabled && jobs[i].nextRunAt <= now {
          due := due + [jobs[i]];
          next := next + [jobs[i].(nextRunAt := NextAfter(jobs[i], now))];
        } else {
          next := next + [jobs[i]];
        }
      }
      assert jobs[..|jobs|] == jobs;
      ok := true;
      if due != [] {
        if !stored {
          return due, false;
        }
        jobs := next;
      } else {
        NothingDue(jobs, now);
      }
    }

    /** Switches the first job with this id or name on or off. */
    method SetEnabled(key: string, on: bool, now: nat, stored: bool) returns (ok: bool)
      modifies this
      ensures ok <==> stored && Known(old(jobs), key)
      ensures !ok ==> jobs == old(jobs)
      ensures ok ==> exists i: nat :: IsFirstMatch(old(jobs), key, i) &&
                                      jobs == old(jobs)[i := Switched(old(jobs)[i], on, now)]
    {
      var i: nat := 0;
      while i < |jobs| && jobs[i].id != key && jobs[i].name != key
        invariant i <= |jobs| && forall k :: 0 <= k < i ==> !Matches(jobs[k], key)
      {
        i := i + 1;
      }
      if i == |jobs| || !stored {
        return false;
      }
      assert IsFirstMatch(jobs, key, i);
      var job := jobs[i].(enabled := on);
      if on {
        job := job.(nextRunAt := NextAfter(job, now));
      }
      jobs := jobs[i := job];
      ok := true;
    }

    /** Adds a record to the first job with this id or name, and keeps its last twenty records. */
    method Record(key: string, record: RunRecord, stored: bool) returns (ok: bool)
      modifies this
      ensures ok <==> stored && Known(old(jobs), key)
      ensures !ok ==> jobs == old(jobs)
      ensures ok ==> exists i: nat :: RecordedAt(old(jobs), jobs, key, record, i)
    {
      var i: nat := 0;
      while i < |jobs| && jobs[i].id != key && jobs[i].name != key
        invariant i <= |jobs| && forall k :: 0 <= k < i ==> !Matches(jobs[k], key)
      {
        i := i + 1;
      }
      if i == |jobs| || !stored {
        return false;
      }
      assert Matches(jobs[i], key);
      var history := jobs[i].history + [record];
      if |history| > MAX_HISTORY {
        history := history[|history| - MAX_HISTORY..];
      }
      ghost var before := jobs;
      jobs := jobs[i := jobs[i].(history := history)];
      assert RecordedAt(before, jobs, key, record, i);
      ok := true;
    }
  }

  lemma NothingDue(jobs: seq<Job>, now: nat)
    requires Keep(IsDueAt(now), jobs) == []
    ensures forall i :: 0 <= i < |jobs| ==> Advanced(jobs[i], now) == jobs[i]
  {
    KeepMembers(IsDueAt(now), jobs);
    forall i | 0 <= i < |jobs| ensures Advanced(jobs[i], now) == jobs[i] {
      assert jobs[i] in jobs;
      assert jobs[i] !in Keep(IsDueAt(now), jobs);
    }
  }

  // ----- a job over many moments -------------------------------------------------------------------------

  /** A tick, or a user switching the job on or off; each reads the clock, which may have been set back. */
  datatype Moment = Tick(now: nat) | SetEnabled(on: bool, now: nat)

  function AfterMoment(job: Job, m: Moment): Job {
    match m
    case Tick(now) => Advanced(job, now)
    case SetEnabled(on, now) => Switched(job, on, now)
  }

  function After(job: Job, ms: seq<Moment>): Job {
    if |ms| == 0 then job else AfterMoment(After(job, ms[..|ms| - 1]), ms[|ms| - 1])
  }

  /** Moment i is a tick that takes the job. */
  predicate TakenAt(job: Job, ms: seq<Moment>, i: nat) {
    i < |ms| && ms[i].Tick? && IsDue(After(job, ms[..i]), ms[i].now)
  }

  /** The last moment that set the next run: a taking, or a switching on. */
  function LastSet(job: Job, ms: seq<Moment>): Option<nat> {
    if |ms| == 0 then None
    else if TakenAt(job, ms, |ms| - 1) || (ms[|ms| - 1].SetEnabled? && ms[|ms| - 1].on) then Some(|ms| - 1)
    else LastSet(job, ms[..|ms| - 1])
  }

  lemma TakenInPrefix(job: Job, ms: seq<Moment>, n: nat, i: nat)
    requires i < n <= |ms|
    ensures TakenAt(job, ms[..n], i) <==> TakenAt(job, ms, i)
  {
    assert ms[..n][..i] == ms[..i];
  }

  /**
   The next run is one interval after the clock of the moment that set it last, or the largest time there is;
   the job is otherwise unchanged.
   */
  lemma {:induction false} NextRunComesFromLastSet(job: Job, ms: seq<Moment>)
    ensures var after, e := After(job, ms), LastSet(job, ms);
            && after == job.(nextRunAt := after.nextRunAt, enabled := after.enabled)
            && (e.None? ==> after.nextRunAt == job.nextRunAt)
            && (e.Some? ==> e.value < |ms| && after.nextRunAt == NextAfter(job, ms[e.value].now))
            && (e.Some? && ms[e.value].now + job.seconds <= 0xFFFF_FFFF_FFFF_FFFF ==>
                  after.nextRunAt == ms[e.value].now + job.seconds)
            && (e.Some? && ms[e.value].now + job.seconds > 0xFFFF_FFFF_FFFF_FFFF ==>
                  after.nextRunAt == 0xFFFF_FFFF_FFFF_FFFF)
  {
    if |ms| > 0 {
      NextRunComesFromLastSet(job, ms[..|ms| - 1]);
    }
  }

  /** The last taking is the last setting, unless the job was switched on since. */
  lemma {:induction false} LastSetSince(job: Job, ms: seq<Moment>, i: nat)
    requires TakenAt(job, ms, i)
    ensures LastSet(job, ms).Some? && i <= LastSet(job, ms).value < |ms|
  {
    if i < |ms| - 1 {
      TakenInPrefix(job, ms, |ms| - 1, i);
      LastSetSince(job, ms[..|ms| - 1], i);
    }
  }

  /** A job is never taken before its time, and then by the first tick that reaches it. */
  lemma DueIsTaken(job: Job, ms: seq<Moment>, now: nat)
    ensures TakenAt(job, ms + [Tick(now)], |ms|) <==> After(job, ms).enabled && After(job, ms).nextRunAt <= now
  {
    assert (ms + [Tick(now)])[..|ms|] == ms;
  }

  /**
   After a taking, every tick that can take the job next is at least one interval later exactly when the
   job has not been switched on since, or the last switching on read a clock that was not behind the taking.
   When the interval would end after the largest time there is, that time takes its place.
   */
  lemma NextTakingIsApartExactly(job: Job, ms: seq<Moment>, i: nat)
    requires TakenAt(job, ms, i) && After(job, ms).enabled
    ensures LastSet(job, ms).Some? && i <= LastSet(job, ms).value < |ms|
    ensures ms[i].now + job.seconds <= 0xFFFF_FFFF_FFFF_FFFF ==>
              ((forall now: nat :: IsDue(After(job, ms), now) ==> now >= ms[i].now + job.seconds) <==>
                ms[LastSet(job, ms).value].now >= ms[i].now)
    ensures ms[i].now + job.seconds > 0xFFFF_FFFF_FFFF_FFFF ==>
              ((forall now: nat :: IsDue(After(job, ms), now) ==> now >= 0xFFFF_FFFF_FFFF_FFFF) <==>
                ms[LastSet(job, ms).value].now + job.seconds >= 0xFFFF_FFFF_FFFF_FFFF)
  {
    LastSetSince(job, ms, i);
    NextRunComesFromLastSet(job, ms);
    assert IsDue(After(job, ms), After(job, ms).nextRunAt);
  }

  /** No switching on reads a clock that is behind an earlier taking. */
  ghost predicate ClockKeepsUp(job: Job, ms: seq<Moment>) {
    forall i: nat, j: nat :: i < j < |ms| && TakenAt(job, ms, i) && ms[j].SetEnabled? && ms[j].on ==>
      ms[i].now <= ms[j].now
  }

  lemma LaterIsApart(job: Job, a: nat, b: nat)
    requires a <= b || NextAfter(job, a) <= b
    ensures NextAfter(job, a) <= NextAfter(job, b)
  {
  }

  /** Then the next run stays at least one interval behind every taking. */
  lemma {:induction false} NextRunIsApart(job: Job, ms: seq<Moment>, i: nat)
    requires ClockKeepsUp(job, ms) && TakenAt(job, ms, i)
    ensures After(job, ms).nextRunAt >= NextAfter(job, ms[i].now)
  {
    var n: nat := |ms| - 1;
    NextRunComesFromLastSet(job, ms[..n]);
    if i < n {
      PrefixKeepsUp(job, ms);
      TakenInPrefix(job, ms, n, i);
      NextRunIsApart(job, ms[..n], i);
      MomentKeepsApart(job, After(job, ms[..n]), ms[n], ms[i].now);
    }
  }

  lemma MomentKeepsApart(job: Job, current: Job, m: Moment, taken: nat)
    requires current.seconds == job.seconds && current.nextRunAt >= NextAfter(job, taken)
    requires m.SetEnabled? && m.on ==> taken <= m.now
    ensures AfterMoment(current, m).nextRunAt >= NextAfter(job, taken)
  {
    if m.SetEnabled? || IsDue(current, m.now) {
      if taken <= m.now || NextAfter(job, taken) <= m.now {
        LaterIsApart(job, taken, m.now);
      }
    }
  }

  lemma PrefixKeepsUp(job: Job, ms: seq<Moment>)
    requires ClockKeepsUp(job, ms) && |ms| > 0
    ensures ClockKeepsUp(job, ms[..|ms| - 1])
  {
    var front := ms[..|ms| - 1];
    forall i: nat, j: nat | i < j < |front| && TakenAt(job, front, i) && front[j].SetEnabled? && front[j].on
      ensures front[i].now <= front[j].now
    {
      TakenInPrefix(job, ms, |front|, i);
    }
  }

  /**
   So any two takings of an interval job are at least one interval apart, whatever the ticks read and
   however often the job is switched, as long as no switching on reads a clock behind an earlier taking.
   */
  lemma TakingsAreApart(job: Job, ms: seq<Moment>, i: nat, k: nat)
    requires i < k < |ms| && ClockKeepsUp(job, ms[..k]) && TakenAt(job, ms, i) && TakenAt(job, ms, k)
    ensures ms[k].now >= ms[i].now + job.seconds || ms[k].now >= 0xFFFF_FFFF_FFFF_FFFF
  {
    TakenInPrefix(job, ms, k, i);
    NextRunIsApart(job, ms[..k], i);
  }

  /** Switched on while the clock is behind, a job that runs every minute is taken twice in a row. */
  lemma SwitchingOnCanBringTakingsCloser()
    ensures exists job: Job, ms: seq<Moment> ::
              job.seconds == 60 && |ms| == 3 && TakenAt(job, ms, 0) && TakenAt(job, ms, 2) &&
              ms[0].now == 100 && ms[2].now == 101
  {
    var job := Job("cron-1-0", "minute", 60, true, 0, 0, 100, []);
    var ms := [Tick(100), SetEnabled(true, 0), Tick(101)];
    assert ms[..0] == [] && ms[..1][..0] == [] && ms[..2][..1] == ms[..1];
    assert After(job, ms[..1]).nextRunAt == 160;
    assert After(job, ms[..2]) == Switched(After(job, ms[..1]), true, 0);
    assert TakenAt(job, ms, 0) && TakenAt(job, ms, 2);
  }

  // ----- from takings to runs --------------------------------------------------------------------------------

  /** How long a taken job waits for those taken before it in the same tick. */
  function WaitOf(durations: seq<nat>, stagger: nat, k: nat): nat
    requires k <= |durations|
  {
    if k == 0 then 0 else WaitOf(durations, stagger, k - 1) + durations[k - 1] + stagger
  }

  ghost predicate StartInTurn(starts: seq<nat>, now: nat, durations: seq<nat>, stagger: nat)
    requires |starts| <= |durations|
  {
    forall k :: 0 <= k < |starts| ==> starts[k] == now + WaitOf(durations, stagger, k)
  }

  lemma StartPush(starts: seq<nat>, now: nat, durations: seq<nat>, stagger: nat, clock: nat)
    requires |starts| < |durations| && StartInTurn(starts, now, durations, stagger)
    requires clock == now + WaitOf(durations, stagger, |starts|)
    ensures StartInTurn(starts + [clock], now, durations, stagger)
    ensures WaitOf(durations, stagger, |starts| + 1) == clock - now + durations[|starts|] + stagger
  {
  }

  /** The jobs a tick has taken are run one after the other, with a pause between two of them. */
  method RunDue(now: nat, durations: seq<nat>, stagger: nat) returns (starts: seq<nat>)
    ensures |starts| == |durations| && StartInTurn(starts, now, durations, stagger)
    ensures |starts| > 0 ==> starts[0] == now
    ensures forall k :: 0 < k < |starts| ==> starts[k] == starts[k - 1] + durations[k - 1] + stagger
  {
    starts := [];
    var clock := now;
    for index := 0 to |durations|
      invariant |starts| == index && StartInTurn(starts, now, durations, stagger)
      invariant index == 0 ==> clock == now
      invariant index > 0 ==> clock + stagger == now + WaitOf(durations, stagger, index)
    {
      if index > 0 && stagger > 0 {
        clock := clock + stagger;
      }
      StartPush(starts, now, durations, stagger, clock);
      starts := starts + [clock];
      clock := clock + durations[index];
    }
  }

  /** When a job taken at this time starts. */
  function StartOf(taken: nat, wait: nat): nat {
    taken + wait
  }

  /**
   Takings that are an interval apart make runs that are, whatever the next one waits, exactly when the
   first of the two did not have to wait.
   */
  lemma RunsAreApartExactly(job: Job, taken: nat, wait: nat)
    ensures (forall next: nat, w: nat :: next >= NextAfter(job, taken) ==>
              StartOf(next, w) >= NextAfter(job, StartOf(taken, wait))) <==>
            wait == 0 || taken + job.seconds >= 0xFFFF_FFFF_FFFF_FFFF
    ensures (forall next: nat, w: nat :: next >= taken + job.seconds ==>
              StartOf(next, w) >= taken + wait + job.seconds) <==> wait == 0
  {
    if wait > 0 && taken + job.seconds < U64_MAX {
      assert StartOf(NextAfter(job, taken), 0) < NextAfter(job, StartOf(taken, wait));
    }
    if wait > 0 {
      assert StartOf(taken + job.seconds, 0) < taken + wait + job.seconds;
    }
  }

  /** Two ticks: behind a long run a job that runs every minute starts at 100, and again at 110. */
  lemma RunsCanBeCloser()
    ensures exists a: Job, b: Job ::
              && b.seconds == 60 && Keep(IsDueAt(0), [a, b]) == [a, b]
              && Keep(IsDueAt(110), [Advanced(a, 0), Advanced(b, 0)]) == [Advanced(b, 0)]
              && StartOf(0, WaitOf([100, 10], 0, 1)) == 100 && StartOf(110, WaitOf([10], 0, 0)) == 110
  {
    var a := Job("cron-1-0", "slow", 1000, true, 0, 0, 0, []);
    var b := Job("cron-1-1", "minute", 60, true, 0, 0, 0, []);
    KeepAll(IsDueAt(0), [a, b]);
    OnlyTheSecond(IsDueAt(110), Advanced(a, 0), Advanced(b, 0));
    assert WaitOf([100, 10], 0, 0) == 0;
  }

  lemma OnlyTheSecond(p: Job -> bool, a: Job, b: Job)
    requires !p(a) && p(b)
    ensures Keep(p, [a, b]) == [b]
  {
    KeepNone(p, [a]);
    KeepPush(p, [a], b);
    assert [a] + [b] == [a, b];
  }
}

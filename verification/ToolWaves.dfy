/**
 The execution of one batch of tool calls: runs of read-only calls share a wave of at most eight in
 flight, every other call has a wave of its own.  The scheduler is free: which call in flight
 finishes next, and when a further one is started, is decided at every step by an arbitrary schedule.
 */
module ToolWaves {
  import opened Basics

  const PARALLEL_READS: nat := 8

  datatype Event = Started(call: nat) | Finished(call: nat)

  /** What executing a call gives. */
  datatype Execution<R, X> = Ran(result: R) | Broke(error: X)

  datatype BatchResult<R, X> = AllRan(results: seq<R>) | FirstError(call: nat, error: X)

  // ----- what a log of events should satisfy ----------------------------------------------------------

  /** How many calls are in flight after these events. */
  function InFlight(log: seq<Event>): int {
    if |log| == 0 then 0
    else InFlight(log[..|log| - 1]) + if log[|log| - 1].Started? then 1 else -1
  }

  ghost predicate NeverMoreThan(log: seq<Event>, limit: nat) {
    forall p :: 0 <= p <= |log| ==> InFlight(log[..p]) <= limit
  }

  /** Unless both calls only read, the earlier one has finished before the later one starts. */
  ghost predicate StartsInTurn(before: seq<Event>, j: nat, readOnly: seq<bool>)
    requires j < |readOnly|
  {
    forall i :: 0 <= i < j && !(readOnly[i] && readOnly[j]) ==> Finished(i) in before
  }

  ghost predicate Ordered(log: seq<Event>, readOnly: seq<bool>) {
    forall p :: 0 <= p < |log| && log[p].Started? ==>
      log[p].call < |readOnly| && StartsInTurn(log[..p], log[p].call, readOnly)
  }

  ghost predicate Once(log: seq<Event>) {
    forall p, q :: 0 <= p < q < |log| ==> log[p] != log[q]
  }

  /** No call starts after a failing one, except reads of the same wave. */
  ghost predicate NothingAfter(log: seq<Event>, k: nat, readOnly: seq<bool>)
    requires k < |readOnly|
  {
    forall j: nat :: Started(j) in log && k < j ==> j < |readOnly| && forall i :: k <= i <= j ==> readOnly[i]
  }

  lemma LogPush(log: seq<Event>, e: Event, readOnly: seq<bool>, limit: nat)
    requires NeverMoreThan(log, limit) && Ordered(log, readOnly) && Once(log)
    requires InFlight(log) + (if e.Started? then 1 else -1) <= limit
    requires e !in log
    requires e.Started? ==> e.call < |readOnly| && StartsInTurn(log, e.call, readOnly)
    ensures NeverMoreThan(log + [e], limit) && Ordered(log + [e], readOnly) && Once(log + [e])
    ensures InFlight(log + [e]) == InFlight(log) + if e.Started? then 1 else -1
  {
    var longer := log + [e];
    assert longer[..|log|] == log && longer[..|longer|] == longer;
    assert forall p :: 0 <= p <= |log| ==> longer[..p] == log[..p];
    assert longer[..|longer| - 1] == log;
  }

  // ----- the machinery of one wave ---------------------------------------------------------------------

  lemma IntervalSize(s: set<nat>, lo: nat, hi: nat)
    requires lo <= hi && forall x :: x in s ==> lo <= x < hi
    ensures |s| <= hi - lo
    decreases hi - lo
  {
    if lo < hi {
      var rest := s - {hi - 1};
      IntervalSize(rest, lo, hi - 1);
      assert s <= rest + {hi - 1};
      if hi - 1 in s {
        assert s == rest + {hi - 1};
      } else {
        assert s == rest;
      }
    } else {
      assert s == {};
    }
  }

  /** The log holds exactly the calls below `started` as started, and those not in flight as finished. */
  ghost predicate Logged(log: seq<Event>, started: nat, inFlight: set<nat>) {
    && (forall i: nat :: Started(i) in log <==> i < started)
    && (forall i: nat :: Finished(i) in log <==> i < started && i !in inFlight)
    && (forall i :: i in inFlight ==> i < started)
    && InFlight(log) == |inFlight|
  }

  ghost predicate Good(log: seq<Event>, readOnly: seq<bool>) {
    NeverMoreThan(log, 8) && Ordered(log, readOnly) && Once(log)
  }

  /** Everything from lo up to hi may run together: it is one call, or only reads. */
  ghost predicate IsWave(readOnly: seq<bool>, lo: nat, hi: nat) {
    lo < hi <= |readOnly| && (hi == lo + 1 || forall i :: lo <= i < hi ==> readOnly[i])
  }

  /** A moment of a wave: `yielded` results have been collected, `inFlight` calls are running. */
  ghost predicate Midway(log: seq<Event>, readOnly: seq<bool>, lo: nat, hi: nat, yielded: nat, started: nat,
      inFlight: set<nat>) {
    && lo <= yielded <= started <= hi && started - yielded <= 8
    && (forall i :: i in inFlight ==> yielded <= i)
    && Good(log, readOnly) && Logged(log, started, inFlight)
  }

  lemma EarlierAreDone(log: seq<Event>, readOnly: seq<bool>, lo: nat, hi: nat, started: nat, inFlight: set<nat>)
    requires IsWave(readOnly, lo, hi) && lo <= started < hi && Logged(log, started, inFlight)
    requires forall i :: i in inFlight ==> lo <= i
    ensures StartsInTurn(log, started, readOnly)
  {
    forall i | 0 <= i < started && !(readOnly[i] && readOnly[started]) ensures Finished(i) in log {
      assert i < lo;
    }
  }

  lemma LoggedStart(log: seq<Event>, started: nat, inFlight: set<nat>)
    requires Logged(log, started, inFlight)
    ensures Logged(log + [Started(started)], started + 1, inFlight + {started})
    ensures |inFlight + {started}| == |inFlight| + 1
  {
    assert started !in inFlight;
    assert (log + [Started(started)])[..|log|] == log;
  }

  lemma StartStep(log: seq<Event>, readOnly: seq<bool>, lo: nat, hi: nat, yielded: nat, started: nat,
      inFlight: set<nat>)
    requires IsWave(readOnly, lo, hi) && Midway(log, readOnly, lo, hi, yielded, started, inFlight)
    requires started < hi && started - yielded < 8
    ensures Midway(log + [Started(started)], readOnly, lo, hi, yielded, started + 1, inFlight + {started})
    ensures |inFlight + {started}| == |inFlight| + 1
  {
    IntervalSize(inFlight, yielded, started);
    EarlierAreDone(log, readOnly, lo, hi, started, inFlight);
    LoggedStart(log, started, inFlight);
    LogPush(log, Started(started), readOnly, 8);
  }

  lemma FinishStep(log: seq<Event>, readOnly: seq<bool>, lo: nat, hi: nat, yielded: nat, started: nat,
      inFlight: set<nat>, i: nat)
    requires Midway(log, readOnly, lo, hi, yielded, started, inFlight) && i in inFlight
    ensures Midway(log + [Finished(i)], readOnly, lo, hi, yielded, started, inFlight - {i})
    ensures |inFlight - {i}| == |inFlight| - 1
  {
    LogPush(log, Finished(i), readOnly, 8);
  }

  lemma YieldStep(log: seq<Event>, readOnly: seq<bool>, lo: nat, hi: nat, yielded: nat, started: nat,
      inFlight: set<nat>)
    requires Midway(log, readOnly, lo, hi, yielded, started, inFlight) && yielded < started && yielded !in inFlight
    ensures Midway(log, readOnly, lo, hi, yielded + 1, started, inFlight)
  {
  }

  lemma WaveStarts(log: seq<Event>, readOnly: seq<bool>, lo: nat, hi: nat)
    requires IsWave(readOnly, lo, hi) && Good(log, readOnly) && Logged(log, lo, {})
    ensures Midway(log, readOnly, lo, hi, lo, lo, {})
  {
  }

  lemma WaveEnds(log: seq<Event>, readOnly: seq<bool>, lo: nat, hi: nat, started: nat, inFlight: set<nat>)
    requires Midway(log, readOnly, lo, hi, hi, started, inFlight)
    ensures Good(log, readOnly) && Logged(log, hi, {}) && started == hi && inFlight == {}
  {
    assert inFlight == {};
  }

  function Remaining(hi: nat, yielded: nat, started: nat, flying: nat): int {
    4 * (hi - started) + 2 * flying + (started - yielded)
  }

  // ----- the scheduler --------------------------------------------------------------------------------

  /** What the scheduler does next: start a call, let one in flight finish, or collect the next result. */
  datatype Choice = Start | Finish(call: nat) | Collect

  /** What happens at every step of a run, as far as it is up to the scheduler. */
  type Schedule = nat -> Choice

  datatype Moment = Moment(log: seq<Event>, yielded: nat, started: nat, inFlight: set<nat>)

  function StartNext(m: Moment): Moment {
    m.(log := m.log + [Started(m.started)], started := m.started + 1, inFlight := m.inFlight + {m.started})
  }

  function FinishCall(m: Moment, call: nat): Moment {
    m.(log := m.log + [Finished(call)], inFlight := m.inFlight - {call})
  }

  /** There is a further call in the wave, and room for it. */
  predicate CanStart(m: Moment, hi: nat) {
    m.started < hi && m.started < m.yielded + PARALLEL_READS
  }

  predicate CanCollect(m: Moment) {
    m.yielded < m.started && m.yielded !in m.inFlight
  }

  /** The scheduler's choice where it is possible, and otherwise something that is. */
  function Perform(m: Moment, hi: nat, choice: Choice): Moment {
    if choice.Start? && CanStart(m, hi) then StartNext(m)
    else if choice.Finish? && choice.call in m.inFlight then FinishCall(m, choice.call)
    else if CanCollect(m) then m.(yielded := m.yielded + 1)
    else if CanStart(m, hi) then StartNext(m)
    else FinishCall(m, m.yielded)
  }

  /** The moment after k steps of the schedule, from step n on. */
  function Played(m: Moment, hi: nat, schedule: Schedule, n: nat, k: nat): Moment {
    if k == 0 then m else Perform(Played(m, hi, schedule, n, k - 1), hi, schedule(n + k - 1))
  }

  ghost predicate MidwayAt(m: Moment, readOnly: seq<bool>, lo: nat, hi: nat) {
    Midway(m.log, readOnly, lo, hi, m.yielded, m.started, m.inFlight)
  }

  function Left(m: Moment, hi: nat): int {
    Remaining(hi, m.yielded, m.started, |m.inFlight|)
  }

  /** Every step of every schedule keeps what a wave keeps, and brings the wave nearer to its end. */
  lemma StepGoesOn(m: Moment, readOnly: seq<bool>, lo: nat, hi: nat, choice: Choice)
    requires IsWave(readOnly, lo, hi) && MidwayAt(m, readOnly, lo, hi) && m.yielded < hi
    ensures MidwayAt(Perform(m, hi, choice), readOnly, lo, hi)
    ensures m.yielded <= Perform(m, hi, choice).yielded <= m.yielded + 1
    ensures 0 <= Left(Perform(m, hi, choice), hi) < Left(m, hi)
  {
    hide Good, Logged, IsWave;
    var m' := Perform(m, hi, choice);
    if m' == StartNext(m) {
      StartStep(m.log, readOnly, lo, hi, m.yielded, m.started, m.inFlight);
    } else if m' == m.(yielded := m.yielded + 1) {
      YieldStep(m.log, readOnly, lo, hi, m.yielded, m.started, m.inFlight);
    } else {
      var i: nat := if choice.Finish? && choice.call in m.inFlight then choice.call else m.yielded;
      FinishStep(m.log, readOnly, lo, hi, m.yielded, m.started, m.inFlight, i);
    }
  }

  /** A step of the scheduler. */
  method Advance(m: Moment, hi: nat, choice: Choice) returns (m': Moment)
    ensures m' == Perform(m, hi, choice)
  {
    var (log, yielded, started, inFlight) := (m.log, m.yielded, m.started, m.inFlight);
    var mayStart := started < hi && started < yielded + PARALLEL_READS;
    if mayStart && (choice.Start? || (!(choice.Finish? && choice.call in inFlight) &&
                                      !(yielded < started && yielded !in inFlight))) {
      log, started, inFlight := log + [Started(started)], started + 1, inFlight + {started};
    } else if !(choice.Finish? && choice.call in inFlight) && yielded < started && yielded !in inFlight {
      yielded := yielded + 1;
    } else {
      var call := if choice.Finish? && choice.call in inFlight then choice.call else yielded;
      log, inFlight := log + [Finished(call)], inFlight - {call};
    }
    m' := Moment(log, yielded, started, inFlight);
  }

  /** Eight reads of a wave can be in flight at once, in the order of the calls; a ninth can not. */
  lemma {:induction false} EightMayRun(m: Moment, hi: nat, schedule: Schedule, n: nat, k: nat)
    requires m.yielded == m.started && m.inFlight == {} && k <= 8 && m.started + k <= hi
    requires forall i :: n <= i < n + k ==> schedule(i) == Start
    ensures forall i: nat :: i in Played(m, hi, schedule, n, k).inFlight <==> m.started <= i < m.started + k
    ensures Played(m, hi, schedule, n, k).log == m.log + seq(k, i requires 0 <= i < k => Started(m.started + i))
    ensures Played(m, hi, schedule, n, k).started == m.started + k
    ensures Played(m, hi, schedule, n, k).yielded == m.yielded
    ensures k == 8 ==> !CanStart(Played(m, hi, schedule, n, k), hi)
  {
    if k > 0 {
      EightMayRun(m, hi, schedule, n, k - 1);
      assert schedule(n + k - 1) == Start;
    }
  }

  lemma SlicePush<T>(s: seq<T>, lo: nat, hi: nat)
    requires lo <= hi < |s|
    ensures s[lo..hi + 1] == s[lo..hi] + [s[hi]]
  {
  }

  /** One wave.  Calls are started in order while there is room, finish in any order, and are collected in order. */
  method RunWave<T>(readOnly: seq<bool>, executions: seq<T>, lo: nat, hi: nat, log0: seq<Event>, schedule: Schedule,
      n: nat)
    returns (batch: seq<T>, log: seq<Event>, steps: nat)
    requires IsWave(readOnly, lo, hi) && |executions| == |readOnly|
    requires Good(log0, readOnly) && Logged(log0, lo, {})
    ensures Good(log, readOnly) && Logged(log, hi, {})
    ensures batch == executions[lo..hi]
    ensures Played(Moment(log0, lo, lo, {}), hi, schedule, n, steps) == Moment(log, hi, hi, {})
  {
    hide Good, Logged, Perform, Midway, Left;
    var m := Moment(log0, lo, lo, {});
    batch, steps := [], 0;
    WaveStarts(log0, readOnly, lo, hi);
    while m.yielded < hi
      invariant lo <= m.yielded <= hi <= |executions| && MidwayAt(m, readOnly, lo, hi)
      invariant batch == executions[lo..m.yielded]
      invariant m == Played(Moment(log0, lo, lo, {}), hi, schedule, n, steps)
      decreases Left(m, hi)
    {
      var before := m.yielded;
      StepGoesOn(m, readOnly, lo, hi, schedule(n + steps));
      m := Advance(m, hi, schedule(n + steps));
      steps := steps + 1;
      if before < m.yielded {
        SlicePush(executions, lo, before);
        batch := batch + [executions[before]];
      }
    }
    WaveEnds(m.log, readOnly, lo, hi, m.started, m.inFlight);
    log := m.log;
  }

  // ----- the batch -------------------------------------------------------------------------------------------

  /** The calls from `from` on that only read, in a row. */
  method EndOfReads(readOnly: seq<bool>, from: nat) returns (end: nat)
    requires from < |readOnly| && readOnly[from]
    ensures from < end <= |readOnly|
    ensures forall i :: from <= i < end ==> readOnly[i]
    ensures end < |readOnly| ==> !readOnly[end]
  {
    end := from + 1;
    while end < |readOnly| && readOnly[end]
      invariant from < end <= |readOnly|
      invariant forall i :: from <= i < end ==> readOnly[i]
    {
      end := end + 1;
    }
  }

  datatype Failure<X> = Failure(call: nat, error: X)

  /** The results of a wave, or its first error. */
  method CollectWave<R, X>(batch: seq<Execution<R, X>>, lo: nat) returns (results: seq<R>, failure: Option<Failure<X>>)
    ensures failure.None? ==> |results| == |batch| && forall i :: 0 <= i < |batch| ==> batch[i] == Ran(results[i])
    ensures failure.Some? ==>
              && lo <= failure.value.call < lo + |batch|
              && batch[failure.value.call - lo] == Broke(failure.value.error)
              && forall i :: 0 <= i < failure.value.call - lo ==> batch[i].Ran?
  {
    results, failure := [], None;
    for i := 0 to |batch|
      invariant |results| == i && forall k :: 0 <= k < i ==> batch[k] == Ran(results[k])
    {
      if batch[i].Broke? {
        return results, Some(Failure(lo + i, batch[i].error));
      }
      results := results + [batch[i].result];
    }
  }

  /** All the reads from lo on, in a row, or one other call. */
  ghost predicate IsWholeWave(readOnly: seq<bool>, lo: nat, hi: nat) {
    && lo < hi <= |readOnly|
    && (!readOnly[lo] ==> hi == lo + 1)
    && (readOnly[lo] ==> (forall i :: lo <= i < hi ==> readOnly[i]) && (hi < |readOnly| ==> !readOnly[hi]))
  }

  /** The wave that starts at the cursor. */
  method NextWave<T>(readOnly: seq<bool>, executions: seq<T>, cursor: nat, log0: seq<Event>, schedule: Schedule, n: nat)
    returns (batch: seq<T>, end: nat, log: seq<Event>, steps: nat)
    requires cursor < |readOnly| == |executions| && Good(log0, readOnly) && Logged(log0, cursor, {})
    ensures IsWholeWave(readOnly, cursor, end) && Good(log, readOnly) && Logged(log, end, {})
    ensures batch == executions[cursor..end]
    ensures Played(Moment(log0, cursor, cursor, {}), end, schedule, n, steps) == Moment(log, end, end, {})
  {
    end := cursor + 1;
    if readOnly[cursor] {
      end := EndOfReads(readOnly, cursor);
    }
    batch, log, steps := RunWave(readOnly, executions, cursor, end, log0, schedule, n);
  }

  /** A wave that was played: its calls, the number of its steps, and the log after it. */
  datatype Wave = Wave(lo: nat, hi: nat, steps: nat, log: seq<Event>)

  function StepsOf(waves: seq<Wave>): nat {
    if |waves| == 0 then 0 else StepsOf(waves[..|waves| - 1]) + waves[|waves| - 1].steps
  }

  function EndOf(waves: seq<Wave>): nat {
    if |waves| == 0 then 0 else waves[|waves| - 1].hi
  }

  function LogOf(waves: seq<Wave>): seq<Event> {
    if |waves| == 0 then [] else waves[|waves| - 1].log
  }

  /** Whole waves, one after the other, each played by the schedule from where the one before it ended. */
  ghost predicate PlayedInTurn(waves: seq<Wave>, readOnly: seq<bool>, schedule: Schedule) {
    forall k :: 0 <= k < |waves| ==> PlayedAfter(waves[..k], waves[k], readOnly, schedule)
  }

  ghost predicate PlayedAfter(before: seq<Wave>, w: Wave, readOnly: seq<bool>, schedule: Schedule) {
    && w.lo == EndOf(before) && IsWholeWave(readOnly, w.lo, w.hi)
    && Played(Moment(LogOf(before), w.lo, w.lo, {}), w.hi, schedule, StepsOf(before), w.steps) ==
       Moment(w.log, w.hi, w.hi, {})
  }

  lemma NothingYet(readOnly: seq<bool>, schedule: Schedule)
    ensures Good([], readOnly) && Logged([], 0, {}) && PlayedInTurn([], readOnly, schedule) && StepsOf([]) == 0
  {
  }

  lemma OneMoreWave(waves: seq<Wave>, w: Wave, readOnly: seq<bool>, schedule: Schedule)
    requires PlayedInTurn(waves, readOnly, schedule) && w.lo == EndOf(waves) && IsWholeWave(readOnly, w.lo, w.hi)
    requires Played(Moment(LogOf(waves), w.lo, w.lo, {}), w.hi, schedule, StepsOf(waves), w.steps) ==
             Moment(w.log, w.hi, w.hi, {})
    ensures PlayedInTurn(waves + [w], readOnly, schedule)
    ensures StepsOf(waves + [w]) == StepsOf(waves) + w.steps
    ensures EndOf(waves + [w]) == w.hi && LogOf(waves + [w]) == w.log
  {
    hide Played;
    PlayedPush(waves, w, readOnly, schedule);
  }

  lemma PlayedPush(waves: seq<Wave>, w: Wave, readOnly: seq<bool>, schedule: Schedule)
    requires PlayedInTurn(waves, readOnly, schedule) && PlayedAfter(waves, w, readOnly, schedule)
    ensures PlayedInTurn(waves + [w], readOnly, schedule)
    ensures StepsOf(waves + [w]) == StepsOf(waves) + w.steps
    ensures EndOf(waves + [w]) == w.hi && LogOf(waves + [w]) == w.log
  {
    var longer := waves + [w];
    assert longer[..|waves|] == waves;
    forall k | 0 <= k < |longer| ensures PlayedAfter(longer[..k], longer[k], readOnly, schedule) {
      if k < |waves| {
        assert longer[..k] == waves[..k];
      }
    }
  }

  lemma StopsWithTheWave(log: seq<Event>, readOnly: seq<bool>, lo: nat, hi: nat, k: nat)
    requires IsWave(readOnly, lo, hi) && Logged(log, hi, {}) && lo <= k < hi
    ensures NothingAfter(log, k, readOnly) && Started(k) in log
  {
  }

  lemma AllFinished(log: seq<Event>, n: nat)
    requires Logged(log, n, {})
    ensures forall i: nat :: Started(i) in log <==> Finished(i) in log
    ensures forall i: nat :: i < n ==> Finished(i) in log
  {
  }

  /** Result i belongs to call i, for the first n calls. */
  ghost predicate Matches<R, X>(executions: seq<Execution<R, X>>, results: seq<R>, n: nat)
    requires n <= |executions|
  {
    |results| == n && forall i :: 0 <= i < n ==> executions[i] == Ran(results[i])
  }

  /**
   For every schedule: results come back in the order of the calls whatever finishes first; at most eight calls
   are in flight; a call that may write runs alone; and the first failing call, by position, decides a failed
   batch, after which no later wave is started.  Reads in a row are one wave, in which the schedule decides.
   */
  method ExecuteInWaves<R, X>(readOnly: seq<bool>, executions: seq<Execution<R, X>>, schedule: Schedule)
    returns (outcome: BatchResult<R, X>, waves: seq<Wave>, log: seq<Event>)
    requires |executions| == |readOnly|
    ensures Good(log, readOnly)
    ensures forall i: nat :: Started(i) in log <==> Finished(i) in log
    ensures PlayedInTurn(waves, readOnly, schedule) && log == LogOf(waves)
    ensures outcome.AllRan? ==> EndOf(waves) == |readOnly|
    ensures match outcome
            case AllRan(results) =>
              Matches(executions, results, |readOnly|) && forall i: nat :: i < |readOnly| ==> Finished(i) in log
            case FirstError(k, error) =>
              && k < |readOnly| && executions[k] == Broke(error) && Started(k) in log
              && (forall i :: 0 <= i < k ==> executions[i].Ran?)
              && NothingAfter(log, k, readOnly)
  {
    hide Good, Logged, Played, Perform, PlayedInTurn, PlayedAfter, StepsOf, NothingAfter;
    NothingYet(readOnly, schedule);
    log, waves := [], [];
    var results: seq<R>, cursor: nat, n: nat := [], 0, 0;
    while cursor < |readOnly|
      invariant cursor <= |readOnly| && Matches(executions, results, cursor)
      invariant Good(log, readOnly) && Logged(log, cursor, {})
      invariant PlayedInTurn(waves, readOnly, schedule) && log == LogOf(waves)
      invariant cursor == EndOf(waves) && n == StepsOf(waves)
    {
      var batch: seq<Execution<R, X>>, end: nat, steps: nat;
      batch, end, log, steps := NextWave(readOnly, executions, cursor, log, schedule, n);
      OneMoreWave(waves, Wave(cursor, end, steps, log), readOnly, schedule);
      waves, n := waves + [Wave(cursor, end, steps, log)], n + steps;
      var more, failure := CollectWave(batch, cursor);
      AllFinished(log, end);
      if failure.Some? {
        StopsWithTheWave(log, readOnly, cursor, end, failure.value.call);
        FirstFailure(executions, results, cursor, end, failure.value.call);
        return FirstError(failure.value.call, failure.value.error), waves, log;
      }
      MatchesPush(executions, results, more, cursor, end);
      results := results + more;
      cursor := end;
    }
    AllFinished(log, cursor);
    outcome := AllRan(results);
  }

  lemma MatchesPush<R, X>(executions: seq<Execution<R, X>>, results: seq<R>, more: seq<R>, n: nat, end: nat)
    requires n <= end <= |executions| && Matches(executions, results, n) && Matches(executions[n..end], more, end - n)
    ensures Matches(executions, results + more, end)
  {
    forall i | n <= i < end ensures executions[i] == Ran(more[i - n]) {
      assert executions[n..end][i - n] == Ran(more[i - n]);
    }
  }

  lemma FirstFailure<R, X>(executions: seq<Execution<R, X>>, results: seq<R>, n: nat, end: nat, k: nat)
    requires n <= k < end <= |executions| && Matches(executions, results, n)
    requires forall i :: 0 <= i < k - n ==> executions[n..end][i].Ran?
    ensures forall i :: 0 <= i < k ==> executions[i].Ran?
  {
    forall i | n <= i < k ensures executions[i].Ran? {
      assert executions[n..end][i - n].Ran?;
    }
  }

  /** A batch that is dropped midway leaves a prefix of such a log, and a prefix is as good. */
  lemma PrefixIsGood(log: seq<Event>, p: nat, readOnly: seq<bool>)
    requires Good(log, readOnly) && p <= |log|
    ensures Good(log[..p], readOnly)
  {
    var front := log[..p];
    forall q | 0 <= q <= |front| ensures InFlight(front[..q]) <= 8 {
      assert front[..q] == log[..q];
    }
    forall q | 0 <= q < |front| && front[q].Started?
      ensures front[q].call < |readOnly| && StartsInTurn(front[..q], front[q].call, readOnly)
    {
      assert front[..q] == log[..q] && log[q].Started?;
    }
  }

  /** Calls that cannot run together never overlap: at no moment are both in flight. */
  lemma NoOverlap(log: seq<Event>, readOnly: seq<bool>, i: nat, j: nat, p: nat)
    requires Good(log, readOnly) && p <= |log|
    requires i < j < |readOnly| && !(readOnly[i] && readOnly[j])
    requires Started(j) in log[..p]
    ensures Finished(i) in log[..p]
  {
    var q :| 0 <= q < p && log[q] == Started(j);
    assert StartsInTurn(log[..q], j, readOnly);
    assert Finished(i) in log[..q];
  }
}

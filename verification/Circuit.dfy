/**
 The circuit breaker shared by all model requests: one entry per key, opened by three transient
 failures in a row, probed once it has been open long enough.  The class keeps a ghost log of every
 call, and its answers are explained by that log alone.
 */
module Circuit {
  import opened Basics

  const U32_MAX: nat := 0xFFFF_FFFF
  const FAILURE_LIMIT: nat := 3

  datatype State = Closed | Open | HalfOpen

  datatype Entry = Entry(failures: nat, openedAt: Option<nat>, probeActive: bool)

  const NewEntry := Entry(0, None, false)

  datatype Op =
    | Acquired(key: string, at: nat, result: State)
    | Recorded(key: string, at: nat, success: bool, transient: bool)

  function Acquire(e: Entry, now: nat, openDuration: nat): (Entry, State) {
    if e.openedAt.None? then (e, Closed)
    else if Max(now - e.openedAt.value, 0) < openDuration || e.probeActive then (e, Open)
    else (e.(probeActive := true), HalfOpen)
  }

  function Record(e: Entry, now: nat, success: bool, transient: bool): (Entry, State) {
    if success then (Entry(0, None, false), Closed)
    else
      var failures := if transient then Min(e.failures + 1, U32_MAX) else 0;
      var openedAt := if transient then e.openedAt else None;
      if failures >= FAILURE_LIMIT then (Entry(failures, Some(now), false), Open)
      else (Entry(failures, openedAt, false), Closed)
  }

  /** The entry of a key after a history of calls on all keys. */
  function EntryAfter(log: seq<Op>, key: string, openDuration: nat): Entry {
    if |log| == 0 then NewEntry
    else
      var before := EntryAfter(log[..|log| - 1], key, openDuration);
      match log[|log| - 1]
      case Acquired(k, at, _) => if k == key then Acquire(before, at, openDuration).0 else before
      case Recorded(k, at, success, transient) =>
        if k == key then Record(before, at, success, transient).0 else before
  }

  lemma EntryPush(log: seq<Op>, op: Op, key: string, openDuration: nat)
    ensures EntryAfter(log + [op], key, openDuration) ==
            if op.key != key then EntryAfter(log, key, openDuration)
            else if op.Acquired? then Acquire(EntryAfter(log, key, openDuration), op.at, openDuration).0
            else Record(EntryAfter(log, key, openDuration), op.at, op.success, op.transient).0
  {
    assert (log + [op])[..|log + [op]| - 1] == log;
  }

  class CircuitBreaker {
    var entries: map<string, Entry>
    const openDuration: nat
    ghost var log: seq<Op>

    ghost predicate Valid()
      reads this
    {
      && (forall key :: (if key in entries then entries[key] else NewEntry) == EntryAfter(log, key, openDuration))
      && Truthful(log, openDuration)
    }

    constructor (openDuration: nat)
      ensures Valid() && log == [] && this.openDuration == openDuration
    {
      this.openDuration, entries, log := openDuration, map[], [];
    }

    /** Stores the entry of the key the operation is about. */
    method Note(key: string, entry: Entry, ghost op: Op)
      requires Valid() && op.key == key
      requires entry == EntryAfter(log + [op], key, openDuration)
      requires op.Acquired? ==> op.result == Acquire(EntryAfter(log, key, openDuration), op.at, openDuration).1
      modifies this
      ensures Valid() && log == old(log) + [op]
    {
      entries := entries[key := entry];
      TruthfulPush(log, op, openDuration);
      forall other | other != key
        ensures EntryAfter(log + [op], other, openDuration) == EntryAfter(log, other, openDuration)
      {
        EntryPush(log, op, other, openDuration);
      }
      log := log + [op];
    }

    method AcquireKey(key: string, now: nat) returns (state: State)
      requires Valid()
      modifies this
      ensures Valid() && log == old(log) + [Acquired(key, now, state)]
      ensures state == Acquire(EntryAfter(old(log), key, openDuration), now, openDuration).1
    {
      var entry := if key in entries then entries[key] else NewEntry;
      match entry.openedAt {
        case Some(at) =>
          if Max(now - at, 0) < openDuration || entry.probeActive {
            state := Open;
          } else {
            entry, state := entry.(probeActive := true), HalfOpen;
          }
        case None => state := Closed;
      }
      EntryPush(log, Acquired(key, now, state), key, openDuration);
      Note(key, entry, Acquired(key, now, state));
    }

    method RecordKey(key: string, now: nat, success: bool, transient: bool) returns (state: State)
      requires Valid()
      modifies this
      ensures Valid() && log == old(log) + [Recorded(key, now, success, transient)]
      ensures state == Record(EntryAfter(old(log), key, openDuration), now, success, transient).1
    {
      var entry := if key in entries then entries[key] else NewEntry;
      entry := entry.(probeActive := false);
      if success {
        entry, state := entry.(failures := 0, openedAt := None), Closed;
      } else {
        if transient {
          entry := entry.(failures := Min(entry.failures + 1, U32_MAX));
        } else {
          entry := entry.(failures := 0, openedAt := None);
        }
        if entry.failures >= FAILURE_LIMIT {
          entry, state := entry.(openedAt := Some(now)), Open;
        } else {
          state := Closed;
        }
      }
      EntryPush(log, Recorded(key, now, success, transient), key, openDuration);
      Note(key, entry, Recorded(key, now, success, transient));
    }
  }

  // ----- what the history means -------------------------------------------------------------

  /** Every answer in the log is the one the breaker gave. */
  ghost predicate Truthful(log: seq<Op>, openDuration: nat) {
    forall i :: 0 <= i < |log| && log[i].Acquired? ==>
      log[i].result == Acquire(EntryAfter(log[..i], log[i].key, openDuration), log[i].at, openDuration).1
  }

  lemma TruthfulPush(log: seq<Op>, op: Op, openDuration: nat)
    requires Truthful(log, openDuration)
    requires op.Acquired? ==> op.result == Acquire(EntryAfter(log, op.key, openDuration), op.at, openDuration).1
    ensures Truthful(log + [op], openDuration)
  {
    var longer := log + [op];
    forall i | 0 <= i < |longer| && longer[i].Acquired?
      ensures longer[i].result ==
              Acquire(EntryAfter(longer[..i], longer[i].key, openDuration), longer[i].at, openDuration).1
    {
      if i < |log| {
        assert longer[..i] == log[..i];
      } else {
        assert longer[..i] == log;
      }
    }
  }

  predicate IsRecord(op: Op, key: string) {
    op.Recorded? && op.key == key
  }

  /** The transient failures recorded on the key since its last other record. */
  function TrailingFailures(log: seq<Op>, key: string): nat {
    if |log| == 0 then 0
    else
      var last := log[|log| - 1];
      if !IsRecord(last, key) then TrailingFailures(log[..|log| - 1], key)
      else if !last.success && last.transient then TrailingFailures(log[..|log| - 1], key) + 1
      else 0
  }

  function LastRecordAt(log: seq<Op>, key: string): Option<nat> {
    if |log| == 0 then None
    else if IsRecord(log[|log| - 1], key) then Some(log[|log| - 1].at)
    else LastRecordAt(log[..|log| - 1], key)
  }

  /** A probe has been granted since the last record on the key. */
  function ProbeGranted(log: seq<Op>, key: string): bool {
    if |log| == 0 then false
    else
      var last := log[|log| - 1];
      if IsRecord(last, key) then false
      else (last.Acquired? && last.key == key && last.result == HalfOpen) || ProbeGranted(log[..|log| - 1], key)
  }

  /** The entry says exactly what the records on its own key say, and nothing about other keys. */
  lemma {:induction false} EntryMeaning(log: seq<Op>, key: string, openDuration: nat)
    requires Truthful(log, openDuration)
    ensures var e := EntryAfter(log, key, openDuration);
            && e.failures == Min(TrailingFailures(log, key), U32_MAX)
            && (e.openedAt.Some? <==> TrailingFailures(log, key) >= 3)
            && (e.openedAt.Some? ==> e.openedAt == LastRecordAt(log, key))
            && (e.probeActive <==> ProbeGranted(log, key))
            && (e.probeActive ==> e.openedAt.Some?)
  {
    if |log| > 0 {
      var front := log[..|log| - 1];
      assert Truthful(front, openDuration) by {
        forall i | 0 <= i < |front| && front[i].Acquired?
          ensures front[i].result ==
                  Acquire(EntryAfter(front[..i], front[i].key, openDuration), front[i].at, openDuration).1
        {
          assert front[..i] == log[..i];
        }
      }
      EntryMeaning(front, key, openDuration);
    }
  }

  /**
   The answer to an acquire, from the history alone: closed below three trailing transient failures;
   a probe only when as much as the open duration has passed since the last record and no probe was
   granted since; otherwise open.
   */
  lemma AcquireLaw(log: seq<Op>, key: string, now: nat, openDuration: nat)
    requires Truthful(log, openDuration)
    ensures var answer := Acquire(EntryAfter(log, key, openDuration), now, openDuration).1;
            var last := LastRecordAt(log, key);
            && (answer == Closed <==> TrailingFailures(log, key) < 3)
            && (answer == HalfOpen <==>
                  TrailingFailures(log, key) >= 3 && last.Some? &&
                  Max(now - last.value, 0) >= openDuration && !ProbeGranted(log, key))
  {
    EntryMeaning(log, key, openDuration);
  }

  /** A record leaves the circuit open exactly when it is the third or a later transient failure in a row. */
  lemma RecordLaw(log: seq<Op>, key: string, now: nat, success: bool, transient: bool, openDuration: nat)
    requires Truthful(log, openDuration)
    ensures Record(EntryAfter(log, key, openDuration), now, success, transient).1 ==
            if TrailingFailures(log + [Recorded(key, now, success, transient)], key) >= 3
            then Open else Closed
  {
    var op := Recorded(key, now, success, transient);
    assert (log + [op])[..|log + [op]| - 1] == log;
    EntryMeaning(log, key, openDuration);
  }

  lemma {:induction false} GrantedStays(log: seq<Op>, key: string, i: nat)
    requires i < |log| && log[i].Acquired? && log[i].key == key && log[i].result == HalfOpen
    requires forall m :: i < m < |log| ==> !IsRecord(log[m], key)
    ensures ProbeGranted(log, key)
  {
    if i < |log| - 1 {
      GrantedStays(log[..|log| - 1], key, i);
    }
  }

  /** Between two probes granted on a key there is a record on that key. */
  lemma OneProbePerRecord(log: seq<Op>, key: string, openDuration: nat, i: nat, j: nat)
    requires Truthful(log, openDuration) && i < j < |log|
    requires log[i].Acquired? && log[i].key == key && log[i].result == HalfOpen
    requires log[j].Acquired? && log[j].key == key && log[j].result == HalfOpen
    ensures exists m :: i < m < j && IsRecord(log[m], key)
  {
    var before := log[..j];
    assert Truthful(before, openDuration) by {
      forall k | 0 <= k < |before| && before[k].Acquired?
        ensures before[k].result ==
                Acquire(EntryAfter(before[..k], before[k].key, openDuration), before[k].at, openDuration).1
      {
        assert before[..k] == log[..k];
      }
    }
    AcquireLaw(before, key, log[j].at, openDuration);
    if forall m :: i < m < j ==> !IsRecord(log[m], key) {
      GrantedStays(before, key, i);
    }
  }

  /** Keys are independent: erasing the calls on other keys changes no entry. */
  lemma {:induction false} KeysAreIndependent(log: seq<Op>, key: string, openDuration: nat)
    ensures EntryAfter(Keep(OnKey(key), log), key, openDuration) == EntryAfter(log, key, openDuration)
  {
    if |log| > 0 {
      var front, last := log[..|log| - 1], log[|log| - 1];
      KeysAreIndependent(front, key, openDuration);
      var kept := Keep(OnKey(key), front);
      if last.key == key {
        assert Keep(OnKey(key), log) == kept + [last];
        assert (kept + [last])[..|kept + [last]| - 1] == kept;
      } else {
        assert Keep(OnKey(key), log) == kept;
      }
    }
  }

  function OnKey(key: string): Op -> bool {
    (op: Op) => op.key == key
  }

  // ----- keys of candidates ---------------------------------------------------------------------

  function CircuitKey(profile: string, model: string): string {
    profile + ":" + model
  }

  /** One profile id, closed by a colon, begins the other. */
  predicate Nested(p1: string, p2: string) {
    p1 + ":" <= p2 + ":" || p2 + ":" <= p1 + ":"
  }

  lemma NestedCollides(p1: string, p2: string) returns (m1: string, m2: string)
    requires p1 + ":" <= p2 + ":"
    ensures CircuitKey(p1, m1) == CircuitKey(p2, m2)
  {
    m2 := "";
    m1 := (p2 + ":")[|p1| + 1..];
    assert CircuitKey(p2, m2) == p2 + ":";
    assert p2 + ":" == (p2 + ":")[..|p1| + 1] + m1;
  }

  /** Two profiles have separate circuits for all their models exactly when neither id is nested in the other. */
  lemma ProfilesSeparate(p1: string, p2: string)
    ensures (exists m1, m2 :: CircuitKey(p1, m1) == CircuitKey(p2, m2)) <==> Nested(p1, p2)
  {
    if m1, m2 :| CircuitKey(p1, m1) == CircuitKey(p2, m2) {
      var key := CircuitKey(p1, m1);
      assert key[..|p1| + 1] == p1 + ":" && key[..|p2| + 1] == p2 + ":";
      assert |p1| <= |p2| ==> (p2 + ":")[..|p1| + 1] == key[..|p1| + 1];
      assert |p2| <= |p1| ==> (p1 + ":")[..|p2| + 1] == key[..|p2| + 1];
    }
    if p1 + ":" <= p2 + ":" {
      var m1, m2 := NestedCollides(p1, p2);
    } else if p2 + ":" <= p1 + ":" {
      var m2, m1 := NestedCollides(p2, p1);
      assert CircuitKey(p1, m1) == CircuitKey(p2, m2);
    }
  }

  /** Within one profile the models have separate circuits. */
  lemma ModelsSeparate(p: string, m1: string, m2: string)
    ensures CircuitKey(p, m1) == CircuitKey(p, m2) <==> m1 == m2
  {
    assert CircuitKey(p, m1)[|p| + 1..] == m1 && CircuitKey(p, m2)[|p| + 1..] == m2;
  }

  /** Two different candidates with one circuit. */
  lemma KeysCanCollide()
    ensures CircuitKey("a:b", "c") == CircuitKey("a", "b:c")
  {
    assert CircuitKey("a:b", "c") == "a:b:c";
    assert CircuitKey("a", "b:c") == "a:b:c";
  }
}

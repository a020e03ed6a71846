/**
 The replay buffer of an active request: published updates are kept as long as their total
 size stays within a byte budget, and the oldest are dropped first.
 */
module ActiveReplay {

  const ACTIVE_REPLAY_BYTES: nat := 1024 * 1024
  const OVERHEAD_BYTES: nat := 64

  /** A published update, known by the length of its printed payload. */
  datatype Update = Update(id: nat, payloadBytes: nat)

  function ReplayBytes(update: Update): nat {
    update.payloadBytes + OVERHEAD_BYTES
  }

  function TotalBytes(updates: seq<Update>): nat {
    if |updates| == 0 then 0 else ReplayBytes(updates[0]) + TotalBytes(updates[1..])
  }

  lemma {:induction false} TotalBytesPush(updates: seq<Update>, last: Update)
    ensures TotalBytes(updates + [last]) == TotalBytes(updates) + ReplayBytes(last)
  {
    if |updates| == 0 {
      assert updates + [last] == [last];
    } else {
      assert (updates + [last])[1..] == updates[1..] + [last];
      TotalBytesPush(updates[1..], last);
    }
  }

  /** Longer suffixes weigh more. */
  lemma {:induction false} TotalBytesOfSuffix(updates: seq<Update>, cut: nat)
    requires cut <= |updates|
    ensures TotalBytes(updates[cut..]) + OVERHEAD_BYTES * cut <= TotalBytes(updates)
  {
    if cut > 0 {
      TotalBytesOfSuffix(updates[1..], cut - 1);
      assert updates[1..][cut - 1..] == updates[cut..];
    }
  }

  /** replay is a suffix of published, and no longer one fits the budget. */
  ghost predicate NothingLongerFits(replay: seq<Update>, published: seq<Update>) {
    && |replay| <= |published|
    && replay == published[|published| - |replay|..]
    && (|replay| < |published| ==> TotalBytes(published[|published| - |replay| - 1..]) > 1024 * 1024)
  }

  /** replay is the longest suffix of published that fits the budget. */
  ghost predicate LongestSuffix(replay: seq<Update>, published: seq<Update>) {
    NothingLongerFits(replay, published) && TotalBytes(replay) <= 1024 * 1024
  }

  lemma PushedFits(replay: seq<Update>, published: seq<Update>, last: Update)
    requires NothingLongerFits(replay, published)
    ensures NothingLongerFits(replay + [last], published + [last])
  {
    if |replay| < |published| {
      var longer := published[|published| - |replay| - 1..];
      TotalBytesPush(longer, last);
      assert (published + [last])[|published| - |replay| - 1..] == longer + [last];
    }
  }

  lemma OldestDropped(replay: seq<Update>, published: seq<Update>)
    requires NothingLongerFits(replay, published) && TotalBytes(replay) > ACTIVE_REPLAY_BYTES
    ensures NothingLongerFits(replay[1..], published)
    ensures TotalBytes(replay[1..]) + ReplayBytes(replay[0]) == TotalBytes(replay)
  {
    assert published[|published| - |replay|..][1..] == published[|published| - |replay| + 1..];
  }

  class ActiveRequest {
    var replay: seq<Update>
    var replayBytes: nat
    ghost var published: seq<Update>

    ghost predicate Valid()
      reads this
    {
      LongestSuffix(replay, published) && replayBytes == TotalBytes(replay)
    }

    constructor ()
      ensures Valid() && published == []
    {
      replay, replayBytes, published := [], 0, [];
    }

    method Publish(update: Update)
      requires Valid()
      modifies this
      ensures Valid()
      ensures published == old(published) + [update]
    {
      TotalBytesPush(replay, update);
      PushedFits(replay, published, update);
      published := published + [update];
      replay := replay + [update];
      replayBytes := replayBytes + ReplayBytes(update);
      while replayBytes > ACTIVE_REPLAY_BYTES
        invariant published == old(published) + [update]
        invariant NothingLongerFits(replay, published) && replayBytes == TotalBytes(replay)
        decreases |replay|
      {
        OldestDropped(replay, published);
        var removed := replay[0];
        replay := replay[1..];
        replayBytes := replayBytes - ReplayBytes(removed);
      }
    }

    /** What a new subscriber is given: the same suffix, whatever was published before. */
    method Subscribe() returns (snapshot: seq<Update>)
      requires Valid()
      ensures LongestSuffix(snapshot, published)
    {
      snapshot := replay;
    }
  }

  /** The suffix kept is determined by what was published, and no longer one fits. */
  lemma LongestSuffixIsUnique(replay: seq<Update>, published: seq<Update>, keep: nat)
    requires LongestSuffix(replay, published) && keep <= |published|
    ensures TotalBytes(published[|published| - keep..]) <= 1024 * 1024 <==> keep <= |replay|
  {
    if keep <= |replay| {
      assert published[|published| - keep..] == replay[|replay| - keep..];
      TotalBytesOfSuffix(replay, |replay| - keep);
    } else {
      var longer := published[|published| - keep..];
      assert longer[keep - |replay| - 1..] == published[|published| - |replay| - 1..];
      TotalBytesOfSuffix(longer, keep - |replay| - 1);
    }
  }
}

/**
 What the two `resync_required` answers are worth: what a client has seen in the end that pages the log
 from the returned cursor, all displayable events counted.
 */
module RunResync {
  import opened Basics
  import opened RunEvents
  import opened RunSubscription
  import opened RunNotices

  /** The displayable events of the rows numbered in (lo, hi]. */
  function Stored(log: seq<Row>, lo: nat, hi: nat): seq<Update>
    decreases hi
  {
    if hi <= lo || hi > |log| then []
    else
      var update := StoredUpdate(log[hi - 1], hi);
      Stored(log, lo, hi - 1) + if update.Some? then [update.value] else []
  }

  /** The events a subscriber should see: everything displayable except approval requests. */
  function Expected(log: seq<Row>, lo: nat, hi: nat): seq<Update> {
    Keep(NotApproval, Stored(log, lo, hi))
  }

  lemma {:induction false} StoredSplit(log: seq<Row>, lo: nat, mid: nat, hi: nat)
    requires lo <= mid <= hi <= |log|
    ensures Stored(log, lo, hi) == Stored(log, lo, mid) + Stored(log, mid, hi)
    decreases hi
  {
    if mid < hi {
      StoredSplit(log, lo, mid, hi - 1);
    } else {
      assert Stored(log, mid, hi) == [];
    }
  }

  /** A client that pages the log from a cursor until the end. */
  method ReadPages(log: seq<Row>, from: nat, limit: nat) returns (shown: seq<Update>)
    requires limit > 0
    ensures shown == Stored(log, from, |log|)
  {
    var cursor := from;
    shown := [];
    while cursor < |log|
      invariant from <= cursor && (cursor <= |log| || cursor == from)
      invariant shown == Stored(log, from, cursor)
      decreases |log| - cursor
    {
      var end := PageEnd(log, cursor, limit);
      StoredSplit(log, from, cursor, end);
      shown := shown + Stored(log, cursor, end);
      cursor := end;
    }
  }

  // ----- after a page overflow ------------------------------------------------------------------------

  /** Rows in range show nothing exactly when none of them must be shown. */
  lemma {:induction false} NothingToShow(log: seq<Row>, lo: nat, hi: nat)
    requires lo <= hi <= |log|
    ensures Expected(log, lo, hi) == [] <==> forall i :: lo <= i < hi ==> !MustShow(log[i])
    decreases hi
  {
    if lo < hi {
      NothingToShow(log, lo, hi - 1);
      var update := StoredUpdate(log[hi - 1], hi);
      var more := if update.Some? then [update.value] else [];
      KeepConcat(NotApproval, Stored(log, lo, hi - 1), more);
      KeepUniform(NotApproval, more);
    }
  }

  lemma ExpectedSplit(log: seq<Row>, lo: nat, mid: nat, hi: nat)
    requires lo <= mid <= hi <= |log|
    ensures Expected(log, lo, hi) == Expected(log, lo, mid) + Expected(log, mid, hi)
  {
    StoredSplit(log, lo, mid, hi);
    KeepConcat(NotApproval, Stored(log, lo, mid), Stored(log, mid, hi));
  }

  /**
   After a page overflow nothing was delivered, yet the returned cursor is the last row of the page that
   was read and dropped.  Paging from it is complete exactly when that page holds no event to show; what
   is missing is that page and nothing else.
   */
  lemma OverflowResyncSkipsThePage(after: nat, w: World, from: nat)
    requires Reachable(after, w) && w.subscriber == Done(ResyncOverflow(from))
    ensures w.frames == [] && from == after + PAGE_LIMIT <= |w.log|
    ensures Expected(w.log, after, |w.log|) == Expected(w.log, after, from) + Expected(w.log, from, |w.log|)
    ensures Expected(w.log, from, |w.log|) == Expected(w.log, after, |w.log|) <==>
            forall i :: after <= i < from ==> !MustShow(w.log[i])
  {
    InvAlways(after, w);
    ExpectedSplit(w.log, after, from, |w.log|);
    NothingToShow(w.log, after, from);
  }

  // ----- after a lag ----------------------------------------------------------------------------------

  /** What the row at index j adds when the row at index i is counted. */
  function Counts(row: Row, i: nat, other: Row, j: nat): nat
    requires MustShow(row)
  {
    if IsNotice(row) then (if other == row then 1 else 0) else if j == i then 1 else 0
  }

  lemma StoredPush(front: seq<Update>, log: seq<Row>, i: nat, j: nat)
    requires i < |log| && j < |log| && MustShow(log[i])
    ensures var update := StoredUpdate(log[j], j + 1);
            TimesShown(front + (if update.Some? then [update.value] else []), log[i], i + 1) ==
            TimesShown(front, log[i], i + 1) + Counts(log[i], i, log[j], j)
  {
    var update := StoredUpdate(log[j], j + 1);
    var more := if update.Some? then [update.value] else [];
    KeepConcat(Shows(log[i], i + 1), front, more);
    KeepUniform(Shows(log[i], i + 1), more);
  }

  /** How often the rows of a range should show a row: once for each copy of a notice, once for any other. */
  function Copies(log: seq<Row>, lo: nat, hi: nat, i: nat): nat
    requires i < |log| && MustShow(log[i])
  {
    if IsNotice(log[i]) then Rows(log, log[i].kind, log[i].payload, lo, hi) else if lo <= i < hi then 1 else 0
  }

  lemma CopiesStep(log: seq<Row>, lo: nat, hi: nat, i: nat)
    requires lo < hi <= |log| && i < |log| && MustShow(log[i])
    ensures Copies(log, lo, hi, i) == Copies(log, lo, hi - 1, i) + Counts(log[i], i, log[hi - 1], hi - 1)
  {}

  lemma StoredStep(log: seq<Row>, lo: nat, hi: nat)
    requires lo < hi <= |log|
    ensures var update := StoredUpdate(log[hi - 1], hi);
            Stored(log, lo, hi) == Stored(log, lo, hi - 1) + if update.Some? then [update.value] else []
  {}

  lemma NoneStored(log: seq<Row>, lo: nat, hi: nat, i: nat)
    requires hi <= lo && i < |log| && MustShow(log[i])
    ensures TimesShown(Stored(log, lo, hi), log[i], i + 1) == 0 == Copies(log, lo, hi, i)
  {}

  lemma TimesStoredStep(log: seq<Row>, lo: nat, hi: nat, i: nat)
    requires lo < hi <= |log| && i < |log| && MustShow(log[i])
    requires TimesShown(Stored(log, lo, hi - 1), log[i], i + 1) == Copies(log, lo, hi - 1, i)
    ensures TimesShown(Stored(log, lo, hi), log[i], i + 1) == Copies(log, lo, hi, i)
  {
    StoredStep(log, lo, hi);
    StoredPush(Stored(log, lo, hi - 1), log, i, hi - 1);
    CopiesStep(log, lo, hi, i);
  }

  /** And so often paging them shows it. */
  lemma {:induction false} TimesStored(log: seq<Row>, lo: nat, hi: nat, i: nat)
    requires hi <= |log| && i < |log| && MustShow(log[i])
    ensures TimesShown(Stored(log, lo, hi), log[i], i + 1) == Copies(log, lo, hi, i)
    decreases hi
  {
    if lo < hi {
      TimesStored(log, lo, hi - 1, i);
      TimesStoredStep(log, lo, hi, i);
    } else {
      NoneStored(log, lo, hi, i);
    }
  }

  /** What a client has seen that was resynchronised after a lag: the frames, and then the pages. */
  function Resynced(w: World, from: nat): seq<Update> {
    w.frames + Stored(w.log, from, |w.log|)
  }

  /** Where the notice of a row comes from, pages included. */
  ghost function AllSources(w: World, from: nat, row: Row): nat
    requires IsNotice(row) && w.joined <= w.next <= |w.sent|
  {
    Sources(w, row) + Rows(w.log, row.kind, row.payload, from, |w.log|)
  }

  /** What the frames have shown of a row. */
  lemma ShownAtTheLag(after: nat, w: World, i: nat)
    requires Reachable(after, w) && Following(w.subscriber) && after <= i < |w.log| && MustShow(w.log[i])
    ensures w.joined <= w.next <= |w.sent|
    ensures TimesShown(w.frames, w.log[i], i + 1) ==
            if IsNotice(w.log[i]) then Sources(w, w.log[i]) else if i < w.cursor then 1 else 0
  {
    NoticeAlways(after, w, DelegationSpawned, 0);
    if IsNotice(w.log[i]) {
      NoticesShown(after, w, w.log[i]);
    } else {
      OwnShown(after, w, i + 1);
    }
  }

  lemma LaggedCursor(w: World, from: nat)
    requires Inv(w) && w.subscriber == Done(ResyncLagged(from))
    ensures from == w.cursor && w.after <= from && (from <= |w.log| || from == w.after)
  {}

  /**
   After a lag, row by row: an own event has been seen exactly once in the end; a notice as often as its
   rows lie in the replayed page or above the cursor, and its broadcasts were read before the lag.
   */
  lemma LagShows(after: nat, w: World, from: nat, i: nat)
    requires Reachable(after, w) && w.subscriber == Done(ResyncLagged(from))
    requires after <= i < |w.log| && MustShow(w.log[i])
    ensures w.joined <= w.next <= |w.sent|
    ensures TimesShown(Resynced(w, from), w.log[i], i + 1) ==
            if IsNotice(w.log[i]) then AllSources(w, from, w.log[i]) else 1
  {
    NoticeAlways(after, w, DelegationSpawned, 0);
    InvAlways(after, w);
    KeepConcat(Shows(w.log[i], i + 1), w.frames, Stored(w.log, from, |w.log|));
    ShownAtTheLag(after, w, i);
    LaggedCursor(w, from);
    TimesStored(w.log, from, |w.log|, i);
  }

  /**
   So resynchronising after a lag loses nothing exactly when every notice above `after` has a source, and
   repeats nothing besides exactly when none has two.
   */
  lemma LagResyncIsComplete(after: nat, w: World, from: nat)
    requires Reachable(after, w) && w.subscriber == Done(ResyncLagged(from))
    ensures w.joined <= w.next <= |w.sent|
    ensures (forall i :: after <= i < |w.log| && MustShow(w.log[i]) ==>
              TimesShown(Resynced(w, from), w.log[i], i + 1) > 0) <==>
            (forall i :: after <= i < |w.log| && IsNotice(w.log[i]) ==> AllSources(w, from, w.log[i]) > 0)
    ensures (forall i :: after <= i < |w.log| && MustShow(w.log[i]) ==>
              TimesShown(Resynced(w, from), w.log[i], i + 1) == 1) <==>
            (forall i :: after <= i < |w.log| && IsNotice(w.log[i]) ==> AllSources(w, from, w.log[i]) == 1)
  {
    NoticeAlways(after, w, DelegationSpawned, 0);
    forall i | after <= i < |w.log| && MustShow(w.log[i])
      ensures TimesShown(Resynced(w, from), w.log[i], i + 1) ==
              if IsNotice(w.log[i]) then AllSources(w, from, w.log[i]) else 1
    {
      LagShows(after, w, from, i);
    }
  }

  /**
   A notice has been seen exactly when a row of it lies in the replayed page or above the returned cursor,
   or a broadcast of it was read before the lag.
   */
  lemma NoticeSeenAfterLag(after: nat, w: World, from: nat, s: nat)
    requires Reachable(after, w) && w.subscriber == Done(ResyncLagged(from))
    requires after < s <= |w.log| && IsNotice(w.log[s - 1])
    ensures w.joined <= w.next <= |w.sent|
    ensures TimesShown(Resynced(w, from), w.log[s - 1], s) > 0 <==>
            || (exists i :: after <= i < |w.log| && w.log[i] == w.log[s - 1] && (i < w.pageEnd || from <= i))
            || Notices(Heard(w), w.log[s - 1].kind, w.log[s - 1].payload) > 0
  {
    var row := w.log[s - 1];
    LagShows(after, w, from, s - 1);
    InvAlways(after, w);
    LaggedCursor(w, from);
    RowsFind(w.log, row.kind, row.payload, after, Min(w.pageEnd, |w.log|));
    RowsFind(w.log, row.kind, row.payload, from, |w.log|);
    assert row == Displayed(row.kind, row.payload);
  }

  /**
   A spawn notice at or below the returned cursor has been seen exactly when it was in the replayed page or
   its broadcast was read before the lag.
   */
  lemma SpawnBelowTheLag(after: nat, w: World, from: nat, s: nat)
    requires Reachable(after, w) && w.subscriber == Done(ResyncLagged(from)) && after < s <= from && s <= |w.log|
    requires w.log[s - 1].Displayed? && w.log[s - 1].kind == DelegationSpawned
    ensures w.joined <= w.next <= |w.sent|
    ensures TimesShown(Resynced(w, from), w.log[s - 1], s) > 0 <==>
            s <= w.pageEnd || Notices(Heard(w), DelegationSpawned, w.log[s - 1].payload) > 0
  {
    var child := w.log[s - 1].payload;
    LagShows(after, w, from, s - 1);
    SpawnShown(after, w, s);
    NoticesShown(after, w, w.log[s - 1]);
    var log, steps :| Fresh(log) && w == Exec(Start(after, log), steps);
    OneSpawnExec(Start(after, log), steps);
    SpawnRows(w.log, child, from, |w.log|, s);
  }

  /** The run's own events are in order besides: those delivered, followed by those of the pages, are the whole. */
  lemma LagKeepsOwnEvents(after: nat, w: World, from: nat)
    requires Reachable(after, w) && w.subscriber == Done(ResyncLagged(from))
    ensures Keep(NotApproval, Keep(IsOwn, w.frames)) + Keep(NotApproval, Tail(w.log, from)) ==
            Keep(NotApproval, Tail(w.log, after))
  {
    InvAlways(after, w);
    DeliveredNonApprovals(w);
    TailSplit(w.log, after, from);
    KeepConcat(NotApproval, OwnRows(w.log, after, from), Tail(w.log, from));
  }

  // ----- runs that lose an event ----------------------------------------------------------------------

  /** One text event followed by a thousand other rows: the resynchronised client never sees it. */
  lemma OverflowCanLoseAnEvent()
    ensures exists w :: Reachable(0, w) && w.subscriber == Done(ResyncOverflow(PAGE_LIMIT)) && w.frames == [] &&
                        Stored(w.log, PAGE_LIMIT, |w.log|) == [] && |w.log| > 0 && w.log[0] == Displayed(TextDelta, 7)
  {
    var w0 := Start(0, []);
    LeadsNowhere(w0);
    LeadsStep(w0, w0, PublishAppend(TextDelta, 7));
    var w1 := w0.(log := [Displayed(TextDelta, 7)], executor := Logged(Event(TextDelta, 7, Some(1))));
    assert Apply(w0, PublishAppend(TextDelta, 7)) == w1;
    LeadsInternalRows(w0, w1, PAGE_LIMIT);
    var w2 := w1.(log := w1.log + seq(PAGE_LIMIT, _ => Internal));
    LeadsSubscribe(w0, w2);
    LeadsReplay(w0, Subscribed(w2));
    LongPageOverflows(Subscribed(w2));
    assert w2.log[PAGE_LIMIT] == Internal;
    assert Stored(w2.log, PAGE_LIMIT, PAGE_LIMIT) == [];
    LeadsReachable(0, [], DoReplayPage(Subscribed(w2)));
  }

  lemma LongPageOverflows(w: World)
    requires w.subscriber == HasPending(Snapshot(|w.log|, Active), {}) && w.after == 0 && |w.log| == PAGE_LIMIT + 1
    ensures DoReplayPage(w) == w.(subscriber := Done(ResyncOverflow(PAGE_LIMIT)))
  {}

  lemma {:induction false} LeadsNotices(w0: World, w: World, child: nat, n: nat)
    requires Leads(w0, w) && MayNotify(w, DelegationSpawned, child)
    ensures Leads(w0, w.(sent := w.sent + seq(n, _ => Event(DelegationSpawned, child, None))))
  {
    if n == 0 {
      assert w.sent + seq(0, _ => Event(DelegationSpawned, child, None)) == w.sent;
    } else {
      LeadsNotices(w0, w, child, n - 1);
      var w1 := w.(sent := w.sent + seq(n - 1, _ => Event(DelegationSpawned, child, None)));
      LeadsNotify(w0, w1, DelegationSpawned, child);
      assert w1.sent + [Event(DelegationSpawned, child, None)] ==
             w.sent + seq(n, _ => Event(DelegationSpawned, child, None));
    }
  }

  /** A spawn is logged as row 1, the run's text as row 2, and only the text has been broadcast and read. */
  lemma TextBeforeNotice(w0: World) returns (w: World)
    requires w0 == Start(0, [])
    ensures Leads(w0, w)
    ensures w == Early(w0).(log := [Displayed(DelegationSpawned, 3), Displayed(TextDelta, 7)], next := 1, cursor := 2,
                            sent := [Event(TextDelta, 7, Some(2))], frames := [Event(TextDelta, 7, Some(2))])
  {
    LeadsEarly(w0);
    var notice, text := Displayed(DelegationSpawned, 3), Event(TextDelta, 7, Some(2));
    LeadsLog(w0, Early(w0), notice);
    var w1 := Early(w0).(log := [notice]);
    assert [] + [notice] == w1.log;
    LeadsStep(w0, w1, PublishAppend(TextDelta, 7));
    var w2 := w1.(log := [notice, Displayed(TextDelta, 7)], executor := Logged(text));
    assert Apply(w1, PublishAppend(TextDelta, 7)) == w2;
    LeadsBroadcast(w0, w2);
    var w3 := w2.(sent := [text], executor := Working);
    assert DoPublishBroadcast(w2) == w3;
    LeadsReceive(w0, w3);
    w := w3.(next := 1, cursor := 2, frames := [text]);
    assert DoReceive(w3) == w;
  }

  /** Too many broadcasts follow: the cursor returned has passed row 1, which was never shown. */
  lemma LagCanLoseANotice()
    ensures exists w :: Reachable(0, w) && w.subscriber == Done(ResyncLagged(2)) &&
                        |w.log| == 2 && w.log[0] == Displayed(DelegationSpawned, 3) &&
                        w.frames == [Event(TextDelta, 7, Some(2))] && Stored(w.log, 2, |w.log|) == []
  {
    var w0 := Start(0, []);
    var w1 := TextBeforeNotice(w0);
    LeadsNotices(w0, w1, 3, CHANNEL_CAPACITY + 1);
    var w2 := w1.(sent := w1.sent + seq(CHANNEL_CAPACITY + 1, _ => Event(DelegationSpawned, 3, None)));
    LeadsReceive(w0, w2);
    assert DoReceive(w2) == w2.(subscriber := Done(ResyncLagged(2)));
    LeadsReachable(0, [], DoReceive(w2));
  }
}

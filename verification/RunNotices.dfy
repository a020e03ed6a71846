/**
 Delegation notices: they are logged with a number, broadcast without one, and broadcast any number of
 times after they were logged.  How often a subscriber is shown one, in every interleaving.
 */
module RunNotices {
  import opened Basics
  import opened RunEvents
  import opened RunSubscription

  function Carries(kind: Kind, child: nat): Update -> bool {
    (u: Update) => u.Event? && u.kind == kind && u.payload == child
  }

  /** How many of the updates carry the notice. */
  function Notices(updates: seq<Update>, kind: Kind, child: nat): nat {
    |Keep(Carries(kind, child), updates)|
  }

  /** How many rows numbered in (lo, hi] hold the notice. */
  function Rows(log: seq<Row>, kind: Kind, child: nat, lo: nat, hi: nat): nat
    decreases hi
  {
    if hi <= lo || hi > |log| then 0
    else Rows(log, kind, child, lo, hi - 1) + if log[hi - 1] == Displayed(kind, child) then 1 else 0
  }

  /** What the subscriber has read of the channel since it registered. */
  function Heard(w: World): seq<Update>
    requires w.joined <= w.next <= |w.sent|
  {
    w.sent[w.joined..w.next]
  }

  lemma NoticesPush(updates: seq<Update>, u: Update, kind: Kind, child: nat)
    ensures Notices(updates + [u], kind, child) ==
            Notices(updates, kind, child) + if Carries(kind, child)(u) then 1 else 0
  {
    assert (updates + [u])[..|updates + [u]| - 1] == updates;
  }

  /** What replaying one more row adds. */
  lemma ReplayedPush(front: seq<Update>, row: Row, s: nat, ids: set<nat>, kind: Kind, child: nat)
    requires IsDelegation(kind)
    ensures var update := StoredUpdate(row, s);
            var more := if update.Some? && !IsResolvedApproval(update.value, ids) then [update.value] else [];
            Notices(front + more, kind, child) ==
            Notices(front, kind, child) + if row == Displayed(kind, child) then 1 else 0
  {
    var update := StoredUpdate(row, s);
    if update.Some? {
      NoticesPush(front, update.value, kind, child);
    }
    assert front + [] == front;
  }

  lemma {:induction false} ReplayedNotices(log: seq<Row>, lo: nat, hi: nat, ids: set<nat>, kind: Kind, child: nat)
    requires IsDelegation(kind)
    ensures Notices(Replayed(log, lo, hi, ids), kind, child) == Rows(log, kind, child, lo, hi)
    decreases hi
  {
    if lo < hi <= |log| {
      ReplayedNotices(log, lo, hi - 1, ids, kind, child);
      ReplayedPush(Replayed(log, lo, hi - 1, ids), log[hi - 1], hi, ids, kind, child);
    }
  }

  lemma {:induction false} RowsAppend(log: seq<Row>, more: seq<Row>, kind: Kind, child: nat, lo: nat, hi: nat)
    requires hi <= |log| || hi <= lo
    ensures Rows(log + more, kind, child, lo, hi) == Rows(log, kind, child, lo, hi)
    decreases hi
  {
    if lo < hi {
      RowsAppend(log, more, kind, child, lo, hi - 1);
    }
  }

  lemma {:induction false} RowsSplit(log: seq<Row>, kind: Kind, child: nat, lo: nat, mid: nat, hi: nat)
    requires lo <= mid <= hi <= |log|
    ensures Rows(log, kind, child, lo, hi) == Rows(log, kind, child, lo, mid) + Rows(log, kind, child, mid, hi)
    decreases hi
  {
    if mid < hi {
      RowsSplit(log, kind, child, lo, mid, hi - 1);
    }
  }

  lemma {:induction false} RowsFind(log: seq<Row>, kind: Kind, child: nat, lo: nat, hi: nat)
    requires hi <= |log|
    ensures Rows(log, kind, child, lo, hi) > 0 <==> exists i :: lo <= i < hi && log[i] == Displayed(kind, child)
    decreases hi
  {
    if lo < hi {
      RowsFind(log, kind, child, lo, hi - 1);
    }
  }

  // ----- the invariant ----------------------------------------------------------------------------

  /** The subscriber was shown its page and follows the channel, or did until the end. */
  predicate Following(subscriber: Subscriber) {
    subscriber.Live? || (subscriber.Done? && !subscriber.outcome.ResyncOverflow?)
  }

  /** The frames that carry the notice are its rows in the page and its broadcasts read since. */
  ghost predicate NoticeInv(w: World, kind: Kind, child: nat) {
    && w.joined <= w.next <= |w.sent|
    && (Waiting(w.subscriber) ==> w.frames == [] && w.next == w.joined && w.pageEnd == w.after)
    && (Following(w.subscriber) ==>
          && (w.pageEnd <= |w.log| || w.pageEnd == w.after)
          && Notices(w.frames, kind, child) ==
             Rows(w.log, kind, child, w.after, w.pageEnd) + Notices(Heard(w), kind, child))
    && (w.subscriber == Done(Answered(true)) ==> w.next == w.joined && (w.pageEnd == |w.log| || |w.log| <= w.after))
    && (w.subscriber == Done(TerminalReceived) ==> w.joined < w.next && w.sent[w.next - 1].Terminal?)
  }

  lemma HeardGrows(w: World, w': World)
    requires w.joined <= w.next <= |w.sent| && w.sent <= w'.sent && w'.joined == w.joined && w'.next == w.next
    ensures Heard(w') == Heard(w)
  {
    assert forall i :: w.joined <= i < w.next ==> w'.sent[i] == w.sent[i];
  }

  lemma NoticeGrows(w: World, w': World, kind: Kind, child: nat)
    requires NoticeInv(w, kind, child) && SameSubscriber(w, w') && w.log <= w'.log && w.sent <= w'.sent
    requires w.subscriber == Done(Answered(true)) ==> w'.log == w.log
    ensures NoticeInv(w', kind, child)
  {
    HeardGrows(w, w');
    if Following(w.subscriber) {
      assert w'.log == w.log + w'.log[|w.log|..];
      RowsAppend(w.log, w'.log[|w.log|..], kind, child, w.after, w.pageEnd);
    }
    if w.subscriber == Done(TerminalReceived) {
      assert w'.sent[w.next - 1] == w.sent[w.next - 1];
    }
  }

  lemma NoticeElsewhere(w: World, step: Step, kind: Kind, child: nat)
    requires NoticeInv(w, kind, child) && Inv(w) && !IsSubscriberStep(step)
    ensures NoticeInv(Apply(w, step), kind, child)
  {
    OthersGrow(w, step);
    NoticeGrows(w, Apply(w, step), kind, child);
  }

  /** Replaying the page shows exactly its rows; a completed run is answered only when the page is the whole rest. */
  lemma PageEffect(w: World)
    requires Inv(w) && w.subscriber.HasPending?
    ensures var w', end := DoReplayPage(w), PageEnd(w.log, w.after, PAGE_LIMIT);
            && w'.sent == w.sent && w'.joined == w.joined && w'.next == w.next && w'.log == w.log && w'.after == w.after
            && !Waiting(w'.subscriber)
            && (Following(w'.subscriber) ==>
                 w'.pageEnd == end && w'.frames == Replayed(w.log, w.after, end, w.subscriber.ids))
            && (w'.subscriber == Done(Answered(true)) ==> end == |w.log| || |w.log| <= w.after)
  {
    var replayed := Replayed(w.log, w.after, PageEnd(w.log, w.after, PAGE_LIMIT), w.subscriber.ids);
    assert [] + replayed == replayed;
  }

  lemma NoticeReplay(w: World, kind: Kind, child: nat)
    requires NoticeInv(w, kind, child) && Inv(w) && w.subscriber.HasPending? && IsDelegation(kind)
    ensures NoticeInv(DoReplayPage(w), kind, child)
  {
    PageEffect(w);
    ReplayedNotices(w.log, w.after, PageEnd(w.log, w.after, PAGE_LIMIT), w.subscriber.ids, kind, child);
    assert Heard(DoReplayPage(w)) == [];
  }

  lemma NoticeReceive(w: World, kind: Kind, child: nat)
    requires NoticeInv(w, kind, child) && Closing(w) && IsDelegation(kind)
    ensures NoticeInv(DoReceive(w), kind, child)
  {
    if DoReceive(w).next == w.next + 1 {
      ReceiveEffect(w);
      NoticeHeard(w, DoReceive(w), kind, child);
    } else {
      ReceiveNothing(w);
      NothingHeard(w, DoReceive(w), kind, child);
    }
  }

  lemma NoticeHeard(w: World, w': World, kind: Kind, child: nat)
    requires NoticeInv(w, kind, child) && w.subscriber.Live? && w.next < |w.sent| && IsDelegation(kind)
    requires w'.sent == w.sent && w'.log == w.log && w'.joined == w.joined && w'.next == w.next + 1
    requires w'.pageEnd == w.pageEnd && w'.after == w.after
    requires Following(w'.subscriber) && w'.subscriber != Done(Answered(true))
    requires w'.subscriber == Done(TerminalReceived) ==> w.sent[w.next].Terminal?
    requires w'.frames == w.frames + [w.sent[w.next]] || (w'.frames == w.frames && IsOwn(w.sent[w.next]))
    ensures NoticeInv(w', kind, child)
  {
    var u := w.sent[w.next];
    assert Heard(w') == Heard(w) + [u];
    NoticesPush(Heard(w), u, kind, child);
    NoticesPush(w.frames, u, kind, child);
  }

  lemma NothingHeard(w: World, w': World, kind: Kind, child: nat)
    requires NoticeInv(w, kind, child) && w'.sent == w.sent && w'.log == w.log && w'.joined == w.joined
    requires w'.next == w.next && w'.pageEnd == w.pageEnd && w'.after == w.after && w'.frames == w.frames
    requires w'.subscriber == w.subscriber ||
             (w.subscriber.Live? && Following(w'.subscriber) &&
              w'.subscriber != Done(Answered(true)) && w'.subscriber != Done(TerminalReceived))
    ensures NoticeInv(w', kind, child)
  {
    assert Heard(w') == Heard(w);
  }

  /** Reading an update shows it, unless it is an own event that the cursor has passed. */
  lemma ReceiveEffect(w: World)
    requires Closing(w) && DoReceive(w).next == w.next + 1
    ensures w.subscriber.Live? && w.next < |w.sent|
    ensures var w', u := DoReceive(w), w.sent[w.next];
            && w'.sent == w.sent && w'.log == w.log && w'.joined == w.joined && w'.pageEnd == w.pageEnd
            && w'.after == w.after && Following(w'.subscriber) && w'.subscriber != Done(Answered(true))
            && (w'.subscriber == Done(TerminalReceived) ==> u.Terminal?)
            && (w'.frames == w.frames + [u] || (w'.frames == w.frames && IsOwn(u)))
  {
  }

  lemma ReceiveNothing(w: World)
    requires DoReceive(w).next != w.next + 1
    ensures var w' := DoReceive(w);
            && w' == w.(subscriber := w'.subscriber)
            && (|| w'.subscriber == w.subscriber
                || (w.subscriber.Live? && w'.subscriber.Done? &&
                    (w'.subscriber.outcome.ResyncLagged? || w'.subscriber.outcome.ChannelClosed?)))
  {
  }

  predicate IsOpening(step: Step) {
    step.Register? || step.TakeSnapshot? || step.ReadPending?
  }

  /** What a subscriber does before it reads its page. */
  lemma OpeningEffect(w: World, step: Step)
    requires IsOpening(step)
    ensures var w' := Apply(w, step);
            w' == w || (&& Waiting(w.subscriber) && Waiting(w'.subscriber)
                        && w'.sent == w.sent && w'.frames == w.frames && w'.pageEnd == w.pageEnd && w'.after == w.after
                        && ((w'.joined == w.joined && w'.next == w.next) || w'.joined == w'.next == |w.sent|))
  {
  }

  lemma NoticeOpening(w: World, step: Step, kind: Kind, child: nat)
    requires NoticeInv(w, kind, child) && IsOpening(step)
    ensures NoticeInv(Apply(w, step), kind, child)
  {
    OpeningEffect(w, step);
  }

  lemma NoticeStep(w: World, step: Step, kind: Kind, child: nat)
    requires NoticeInv(w, kind, child) && Inv(w) && IsDelegation(kind)
    ensures NoticeInv(Apply(w, step), kind, child)
  {
    if step.ReplayPage? {
      if w.subscriber.HasPending? {
        NoticeReplay(w, kind, child);
      }
    } else if step.Receive? {
      NoticeReceive(w, kind, child);
    } else if IsOpening(step) {
      NoticeOpening(w, step, kind, child);
    } else {
      NoticeElsewhere(w, step, kind, child);
    }
  }

  lemma {:induction false} NoticeExec(w0: World, steps: seq<Step>, kind: Kind, child: nat)
    requires NoticeInv(w0, kind, child) && Inv(w0) && IsDelegation(kind)
    ensures NoticeInv(Exec(w0, steps), kind, child)
  {
    if |steps| > 0 {
      NoticeExec(w0, steps[..|steps| - 1], kind, child);
      InvExec(w0, steps[..|steps| - 1]);
      NoticeStep(Exec(w0, steps[..|steps| - 1]), steps[|steps| - 1], kind, child);
    }
  }

  lemma NoticeAlways(after: nat, w: World, kind: Kind, child: nat)
    requires Reachable(after, w) && IsDelegation(kind)
    ensures NoticeInv(w, kind, child) && w.after == after
  {
    InvAlways(after, w);
    var log, steps :| Fresh(log) && w == Exec(Start(after, log), steps);
    InvStart(after, log);
    NoticeExec(Start(after, log), steps, kind, child);
  }

  // ----- spawn notices are logged once --------------------------------------------------------------

  ghost predicate OneSpawnEach(log: seq<Row>) {
    forall i, j :: 0 <= i < j < |log| && log[i].Displayed? && log[i].kind == DelegationSpawned ==> log[i] != log[j]
  }

  lemma OneSpawnStep(w: World, step: Step)
    requires OneSpawnEach(w.log)
    ensures OneSpawnEach(Apply(w, step).log)
  {
    var w' := Apply(w, step);
    assert w'.log != w.log ==> step.PublishAppend? || step.Commit? || step.AppendElsewhere? || step.FinishElsewhere?;
  }

  lemma {:induction false} OneSpawnExec(w0: World, steps: seq<Step>)
    requires OneSpawnEach(w0.log)
    ensures OneSpawnEach(Exec(w0, steps).log)
  {
    if |steps| > 0 {
      OneSpawnExec(w0, steps[..|steps| - 1]);
      OneSpawnStep(Exec(w0, steps[..|steps| - 1]), steps[|steps| - 1]);
    }
  }

  lemma {:induction false} SpawnRows(log: seq<Row>, child: nat, lo: nat, hi: nat, s: nat)
    requires OneSpawnEach(log) && hi <= |log| && 0 < s <= |log| && log[s - 1] == Displayed(DelegationSpawned, child)
    ensures Rows(log, DelegationSpawned, child, lo, hi) == if lo < s <= hi then 1 else 0
    decreases hi
  {
    if lo < hi {
      SpawnRows(log, child, lo, hi - 1, s);
      assert hi != s ==> log[hi - 1] != log[s - 1];
    }
  }

  // ----- how often a notice is shown ---------------------------------------------------------------

  predicate IsNotice(row: Row) {
    row.Displayed? && IsDelegation(row.kind)
  }

  /** The places a subscriber learns of the notice of a row from: rows of its page, and broadcasts it heard. */
  ghost function Sources(w: World, row: Row): nat
    requires IsNotice(row) && w.joined <= w.next <= |w.sent|
  {
    Rows(w.log, row.kind, row.payload, w.after, w.pageEnd) + Notices(Heard(w), row.kind, row.payload)
  }

  /**
   In every interleaving, and at every moment after the page was replayed, a notice has been shown as
   often as its rows lie in the page and its broadcasts were read since the registration; in the end
   those are the broadcasts up to the terminal.
   */
  lemma NoticesShown(after: nat, w: World, row: Row)
    requires Reachable(after, w) && Following(w.subscriber) && IsNotice(row)
    ensures w.joined <= w.next <= |w.sent|
    ensures Notices(w.frames, row.kind, row.payload) == Sources(w, row)
    ensures w.subscriber == Done(TerminalReceived) ==> w.joined < w.next && w.sent[w.next - 1].Terminal?
  {
    NoticeAlways(after, w, row.kind, row.payload);
  }

  /** A spawn notice has one row: it is shown once for the page, if it lies there, and once for each broadcast. */
  lemma SpawnShown(after: nat, w: World, s: nat)
    requires Reachable(after, w) && Following(w.subscriber)
    requires after < s <= |w.log| && w.log[s - 1].Displayed? && w.log[s - 1].kind == DelegationSpawned
    ensures w.joined <= w.next <= |w.sent|
    ensures Notices(w.frames, DelegationSpawned, w.log[s - 1].payload) ==
            (if s <= w.pageEnd then 1 else 0) + Notices(Heard(w), DelegationSpawned, w.log[s - 1].payload)
  {
    var child := w.log[s - 1].payload;
    NoticeAlways(after, w, DelegationSpawned, child);
    var log, steps :| Fresh(log) && w == Exec(Start(after, log), steps);
    OneSpawnExec(Start(after, log), steps);
    if w.pageEnd <= |w.log| {
      SpawnRows(w.log, child, after, w.pageEnd, s);
    }
  }

  // ----- every event, once ---------------------------------------------------------------------------

  /** A row whose event every subscriber should see: anything displayed except an approval request. */
  predicate MustShow(row: Row) {
    row.AssistantContent? || (row.Displayed? && row.kind != ApprovalRequired)
  }

  /** The updates that show row s: a notice with or without its number, any other event with it. */
  function Shows(row: Row, s: nat): Update -> bool
    requires MustShow(row)
  {
    if IsNotice(row) then Carries(row.kind, row.payload) else (u: Update) => Some(u) == StoredUpdate(row, s)
  }

  function TimesShown(frames: seq<Update>, row: Row, s: nat): nat
    requires MustShow(row)
  {
    |Keep(Shows(row, s), frames)|
  }

  lemma {:induction false} OneMatch<T>(p: T -> bool, s: seq<T>, i: nat)
    requires i < |s| && p(s[i]) && forall j :: 0 <= j < |s| && p(s[j]) ==> j == i
    ensures |Keep(p, s)| == 1
  {
    var front, last := s[..|s| - 1], s[|s| - 1];
    if i == |s| - 1 {
      KeepUniform(p, front);
    } else {
      OneMatch(p, front, i);
    }
  }

  /** Following subscribers have been shown the own events up to their cursor. */
  lemma FollowingIsDelivered(after: nat, w: World)
    requires Reachable(after, w) && Following(w.subscriber)
    ensures Delivered(w) && w.after == after
  {
    InvAlways(after, w);
  }

  /** An own event above `after` has been shown exactly once when the cursor has passed it, and not at all before. */
  lemma OwnShown(after: nat, w: World, s: nat)
    requires Reachable(after, w) && Following(w.subscriber)
    requires after < s <= |w.log| && IsOwnEvent(w.log[s - 1])
    ensures TimesShown(w.frames, w.log[s - 1], s) == if s <= w.cursor then 1 else 0
  {
    var u := StoredUpdate(w.log[s - 1], s).value;
    OwnMembers(after, w, s);
    if u in w.frames {
      var i :| 0 <= i < |w.frames| && w.frames[i] == u;
      NumbersIncrease(after, w);
      forall j | 0 <= j < |w.frames| && w.frames[j] == u ensures j == i {
        if j < i {
          IncreasingAtDistance(w.frames, j, i);
        } else if i < j {
          IncreasingAtDistance(w.frames, i, j);
        }
      }
      OneMatch(Shows(w.log[s - 1], s), w.frames, i);
    } else {
      KeepUniform(Shows(w.log[s - 1], s), w.frames);
    }
  }

  lemma OwnMembers(after: nat, w: World, s: nat)
    requires Reachable(after, w) && Following(w.subscriber)
    requires after < s <= |w.log| && IsOwnEvent(w.log[s - 1])
    ensures StoredUpdate(w.log[s - 1], s).value in w.frames <==> s <= w.cursor
  {
    FollowingIsDelivered(after, w);
    DeliveredNonApprovals(w);
    OwnIsKept(w.frames, OwnRows(w.log, after, w.cursor), StoredUpdate(w.log[s - 1], s).value);
    OwnRowIsNumbered(w.log, after, w.cursor, s);
  }

  lemma OwnIsKept(frames: seq<Update>, own: seq<Update>, u: Update)
    requires Keep(NotApproval, Keep(IsOwn, frames)) == Keep(NotApproval, own)
    requires IsOwn(u) && NotApproval(u)
    ensures u in frames <==> u in own
  {
    KeepMembers(IsOwn, frames);
    KeepMembers(NotApproval, Keep(IsOwn, frames));
    KeepMembers(NotApproval, own);
  }

  lemma OwnRowIsNumbered(log: seq<Row>, lo: nat, hi: nat, s: nat)
    requires lo < s <= |log| && IsOwnRow(log[s - 1]) && (hi <= |log| || hi <= lo)
    ensures StoredUpdate(log[s - 1], s).value in OwnRows(log, lo, hi) <==> s <= hi
  {
    var u, own := StoredUpdate(log[s - 1], s).value, OwnRows(log, lo, hi);
    OwnRowsBounds(log, lo, hi);
    if s <= hi {
      OwnRowsComplete(log, lo, hi, s);
    }
  }

  /** `ExactlyOnce` as a count: when the terminal arrives an own event has been shown once. */
  lemma OwnShownOnce(after: nat, w: World, s: nat)
    requires Reachable(after, w) && w.subscriber == Done(TerminalReceived)
    requires after < s <= |w.log| && IsOwnEvent(w.log[s - 1])
    ensures TimesShown(w.frames, w.log[s - 1], s) == 1
  {
    ExactlyOnce(after, w, s);
    var u := StoredUpdate(w.log[s - 1], s).value;
    var i :| 0 <= i < |w.frames| && w.frames[i] == u && forall j :: 0 <= j < |w.frames| && w.frames[j] == u ==> j == i;
    OneMatch(Shows(w.log[s - 1], s), w.frames, i);
  }

  /**
   When the run's terminal arrives, every displayable event above `after` that is not an approval has
   been shown exactly once if and only if every notice among them had exactly one source: a row in the
   page and no broadcast heard, or one broadcast heard and no row in the page.
   */
  lemma EveryEventOnce(after: nat, w: World)
    requires Reachable(after, w) && w.subscriber == Done(TerminalReceived)
    ensures w.joined <= w.next <= |w.sent|
    ensures (forall i :: after <= i < |w.log| && MustShow(w.log[i]) ==> TimesShown(w.frames, w.log[i], i + 1) == 1) <==>
            (forall i :: after <= i < |w.log| && IsNotice(w.log[i]) ==> Sources(w, w.log[i]) == 1)
  {
    NoticeAlways(after, w, DelegationSpawned, 0);
    forall i | after <= i < |w.log| && MustShow(w.log[i])
      ensures TimesShown(w.frames, w.log[i], i + 1) == if IsNotice(w.log[i]) then Sources(w, w.log[i]) else 1
    {
      if IsNotice(w.log[i]) {
        NoticesShown(after, w, w.log[i]);
      } else {
        OwnShownOnce(after, w, i + 1);
      }
    }
  }

  /** A subscription answered from a completed snapshot has shown each notice as often as it was logged. */
  lemma AnsweredShowsNotices(after: nat, w: World, row: Row)
    requires Reachable(after, w) && w.subscriber == Done(Answered(true)) && IsNotice(row)
    ensures Notices(w.frames, row.kind, row.payload) == Rows(w.log, row.kind, row.payload, after, |w.log|)
  {
    NoticeAlways(after, w, row.kind, row.payload);
    assert Heard(w) == [];
  }

  // ----- a notice shown twice, and one never shown -----------------------------------------------------

  lemma LeadsNotify(w0: World, w: World, kind: Kind, child: nat)
    requires Leads(w0, w) && MayNotify(w, kind, child)
    ensures Leads(w0, w.(sent := w.sent + [Event(kind, child, None)]))
  {
    LeadsStep(w0, w, NotifyDelegation(kind, child));
    assert Apply(w, NotifyDelegation(kind, child)) == DoNotifyDelegation(w, kind, child);
  }

  lemma LeadsLog(w0: World, w: World, row: Row)
    requires Leads(w0, w) && MayLogNotice(w, row)
    ensures Leads(w0, w.(log := w.log + [row]))
  {
    LeadsStep(w0, w, AppendElsewhere(row));
    assert Apply(w, AppendElsewhere(row)) == DoAppendElsewhere(w, row);
  }

  /** A subscription to a run whose log is still empty. */
  function Early(w: World): World {
    w.(subscriber := Live, listening := true)
  }

  lemma LeadsEarly(w0: World)
    requires w0 == Start(0, [])
    ensures Leads(w0, Early(w0))
  {
    LeadsNowhere(w0);
    LeadsSubscribe(w0, w0);
    LeadsReplay(w0, Subscribed(w0));
    assert Replayed([], 0, 0, {}) == [];
    assert DoReplayPage(Subscribed(w0)) == Early(w0);
  }

  /**
   A notice is logged before the subscriber reads its page, and broadcast after it registered: the
   cursor cannot recognise the unnumbered copy, and the notice is shown twice.
   */
  lemma DelegationCanBeShownTwice()
    ensures exists w :: Reachable(0, w) &&
                        w.frames == [Event(DelegationSpawned, 3, Some(1)), Event(DelegationSpawned, 3, None)]
  {
    var w0, notice := Start(0, []), Displayed(DelegationSpawned, 3);
    LeadsNowhere(w0);
    LeadsLog(w0, w0, notice);
    var w1 := w0.(log := [notice]);
    assert w0.log + [notice] == w1.log;
    LeadsSubscribe(w0, w1);
    LeadsReplay(w0, Subscribed(w1));
    DelegationIsReplayed(Subscribed(w1));
    var w2 := DoReplayPage(Subscribed(w1));
    LeadsNotify(w0, w2, DelegationSpawned, 3);
    var w3 := w2.(sent := w2.sent + [Event(DelegationSpawned, 3, None)]);
    LeadsReceive(w0, w3);
    LeadsReachable(0, [], DoReceive(w3));
  }

  lemma DelegationIsReplayed(w: World)
    requires w.subscriber == HasPending(Snapshot(1, Active), {}) && w.log == [Displayed(DelegationSpawned, 3)]
    requires w.after == 0 && w.frames == [] && w.listening
    ensures DoReplayPage(w) == w.(cursor := 1, pageEnd := 1, ids := {}, subscriber := Live,
                                  frames := [Event(DelegationSpawned, 3, Some(1))])
  {
    var update := Event(DelegationSpawned, 3, Some(1));
    assert Replayed(w.log, 0, 0, {}) == [];
    assert Replayed(w.log, 0, 1, {}) == [update];
    assert w.frames + [update] == [update];
  }

  /** A child is spawned, its spawn is broadcast and read, and it ends: its end is logged and not yet broadcast. */
  lemma ChildEndsUnheard(w0: World) returns (w: World)
    requires w0 == Start(0, [])
    ensures Leads(w0, w)
    ensures var spawned := Event(DelegationSpawned, 3, None);
            w == Early(w0).(log := [Displayed(DelegationSpawned, 3), Displayed(DelegationTerminal, 3)],
                            sent := [spawned], next := 1, frames := [spawned])
  {
    LeadsEarly(w0);
    var w1 := SpawnHeard(w0);
    var ended := Displayed(DelegationTerminal, 3);
    LeadsLog(w0, w1, ended);
    assert w1.log + [ended] == [Displayed(DelegationSpawned, 3), ended];
    w := w1.(log := w1.log + [ended]);
  }

  lemma SpawnHeard(w0: World) returns (w: World)
    requires w0 == Start(0, []) && Leads(w0, Early(w0))
    ensures Leads(w0, w)
    ensures var spawned := Event(DelegationSpawned, 3, None);
            w == Early(w0).(log := [Displayed(DelegationSpawned, 3)], sent := [spawned], next := 1, frames := [spawned])
  {
    var spawned := Displayed(DelegationSpawned, 3);
    LeadsLog(w0, Early(w0), spawned);
    var w1 := Early(w0).(log := [spawned]);
    assert [] + [spawned] == w1.log;
    LeadsNotify(w0, w1, DelegationSpawned, 3);
    w := w1.(sent := [Event(DelegationSpawned, 3, None)]);
    assert [] + [Event(DelegationSpawned, 3, None)] == w.sent;
    LeadsReceive(w0, w);
    w := DoReceive(w);
  }

  /** The run fails and says so. */
  lemma RunFails(w0: World, w: World) returns (w': World)
    requires Leads(w0, w) && w.executor.Working? && w.status == Active
    ensures Leads(w0, w')
    ensures w' == w.(log := w.log + [Internal], status := Failed, executor := Ended, sent := w.sent + [Terminal(false)])
  {
    LeadsStep(w0, w, Commit(None));
    var w1 := DoCommit(w, None);
    assert Apply(w, Commit(None)) == w1;
    assert w.log + [] == w.log;
    LeadsStep(w0, w1, BroadcastTerminal);
    w' := DoBroadcastTerminal(w1);
    assert Apply(w1, BroadcastTerminal) == w';
  }

  /** The parent's terminal arrives before the broadcast of its child's end: the subscriber never hears of it. */
  lemma NoticeCanBeLost()
    ensures exists w :: Reachable(0, w) && w.subscriber == Done(TerminalReceived) &&
                        w.frames == [Event(DelegationSpawned, 3, None), Terminal(false)] &&
                        |w.log| > 1 && w.log[1] == Displayed(DelegationTerminal, 3)
  {
    var w0 := Start(0, []);
    var w1 := ChildEndsUnheard(w0);
    var w2 := RunFails(w0, w1);
    LeadsReceive(w0, w2);
    assert w2.sent[1] == Terminal(false);
    assert w1.frames + [Terminal(false)] == [Event(DelegationSpawned, 3, None), Terminal(false)];
    LeadsReachable(0, [], DoReceive(w2));
  }
}

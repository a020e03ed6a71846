/**
 What a subscriber of a run has been shown, in every interleaving of `RunEvents`: the run's own
 events arrive exactly once and in order, and approval requests may be lost.
 */
module RunSubscription {
  import opened Basics
  import opened RunEvents

  function Unresolved(ids: set<nat>): Update -> bool {
    u => !IsResolvedApproval(u, ids)
  }

  function IsApproval(u: Update): bool {
    u.Event? && u.kind == ApprovalRequired
  }

  function NotApproval(u: Update): bool {
    !IsApproval(u)
  }

  function Tail(log: seq<Row>, from: nat): seq<Update> {
    OwnRows(log, from, |log|)
  }

  // ----- the invariant -------------------------------------------------------------------

  /** The executor's own updates read so far are numbered at most `bound`. */
  ghost predicate ReadUpTo(w: World, bound: nat)
    requires w.next <= |w.sent|
  {
    forall i :: 0 <= i < w.next && IsOwn(w.sent[i]) ==> w.sent[i].seqno.value <= bound
  }

  predicate Frozen(w: World) {
    w.status != Active && !w.executor.Working? && !w.executor.Logged?
  }

  ghost predicate SnapshotOf(w: World, snapshot: Snapshot)
    requires w.next <= |w.sent|
  {
    && snapshot.lastSeq <= |w.log| && ReadUpTo(w, snapshot.lastSeq)
    && (snapshot.status == Completed ==> w.status == Completed)
    && (snapshot.status == Completed ==> snapshot.lastSeq == |w.log|)
  }

  /** Delivered: the unresolved part of the page, then every own row up to the cursor. */
  ghost predicate Delivered(w: World) {
    && w.after <= w.pageEnd <= w.cursor
    && (w.cursor <= |w.log| || w.cursor == w.after)
    && Keep(IsOwn, w.frames) ==
       Keep(Unresolved(w.ids), OwnRows(w.log, w.after, w.pageEnd)) + OwnRows(w.log, w.pageEnd, w.cursor)
  }

  ghost predicate OutcomeInv(w: World, outcome: Outcome) {
    match outcome
    case TerminalReceived => Delivered(w) && Frozen(w) && Tail(w.log, w.cursor) == []
    case Answered(success) => Delivered(w) && (success ==> Frozen(w) && Tail(w.log, w.cursor) == [])
    case ResyncOverflow(from) => w.frames == [] && from == w.after + PAGE_LIMIT && from < |w.log|
    case ResyncLagged(from) => Delivered(w) && from == w.cursor
    case NotRunning => Delivered(w)
    case ChannelClosed => Delivered(w)
  }

  ghost predicate SubscriberInv(w: World) {
    && w.next <= |w.sent|
    && (w.status == Completed ==> Frozen(w))
    && match w.subscriber {
         case Connecting => w.frames == []
         case Registered => w.frames == []
         case HasSnapshot(snapshot) => w.frames == [] && SnapshotOf(w, snapshot)
         case HasPending(snapshot, _) => w.frames == [] && SnapshotOf(w, snapshot)
         case Live => Delivered(w) && ReadUpTo(w, w.cursor)
         case Done(outcome) => OutcomeInv(w, outcome)
       }
  }

  ghost predicate Inv(w: World) {
    Accounted(w) && Closing(w) && SubscriberInv(w)
  }

  // ----- steps of the executor and of other tasks ----------------------------------------

  ghost predicate SameSubscriber(w: World, w': World) {
    && w'.subscriber == w.subscriber && w'.joined == w.joined && w'.next == w.next
    && w'.after == w.after && w'.cursor == w.cursor
    && w'.frames == w.frames && w'.pageEnd == w.pageEnd && w'.ids == w.ids && w'.listening == w.listening
  }

  ghost predicate Grows(w: World, w': World) {
    && SameSubscriber(w, w')
    && w.log <= w'.log && w.sent <= w'.sent
    && (w.status == Completed ==> w'.status == Completed)
    && (Frozen(w) ==> Frozen(w') && w'.log == w.log)
    && (w'.status == Completed ==> Frozen(w'))
  }

  predicate IsSubscriberStep(step: Step) {
    step.Register? || step.TakeSnapshot? || step.ReadPending? || step.ReplayPage? || step.Receive?
  }

  lemma OthersGrow(w: World, step: Step)
    requires !IsSubscriberStep(step) && Closing(w) && (w.status == Completed ==> Frozen(w))
    ensures Grows(w, Apply(w, step))
  {}

  lemma DeliveredGrows(w: World, w': World)
    requires Delivered(w) && Grows(w, w')
    ensures Delivered(w')
  {
    assert w'.log == w.log + w'.log[|w.log|..];
    if w.cursor <= |w.log| {
      OwnRowsAppend(w.log, w'.log[|w.log|..], w.after, w.pageEnd);
      OwnRowsAppend(w.log, w'.log[|w.log|..], w.pageEnd, w.cursor);
    }
  }

  lemma SubscriberInvGrows(w: World, w': World)
    requires SubscriberInv(w) && Grows(w, w')
    ensures SubscriberInv(w')
  {
    if Delivered(w) {
      DeliveredGrows(w, w');
    }
    assert forall i :: 0 <= i < w.next ==> w'.sent[i] == w.sent[i];
  }

  // ----- the subscriber's own steps -------------------------------------------------------

  /** Broadcast updates never run ahead of the log. */
  lemma SentIsLogged(w: World)
    requires Accounted(w)
    ensures forall i :: 0 <= i < |w.sent| && IsOwn(w.sent[i]) ==> w.sent[i].seqno.value <= |w.log|
  {
    OwnRowsBounds(w.log, 0, |w.log|);
    KeepMembers(IsOwn, w.sent);
    forall i | 0 <= i < |w.sent| && IsOwn(w.sent[i])
      ensures w.sent[i].seqno.value <= |w.log|
    {
      assert w.sent[i] in w.sent;
      assert w.sent[i] in Keep(IsOwn, w.sent);
      var k :| 0 <= k < |Keep(IsOwn, w.sent)| && Keep(IsOwn, w.sent)[k] == w.sent[i];
      assert OwnRows(w.log, 0, |w.log|)[k] == w.sent[i];
    }
  }

  /** What one row adds to the own part of a replay is what it adds to the unresolved own rows. */
  lemma OwnOfReplayedRow(row: Row, s: nat, ids: set<nat>)
    ensures var update := StoredUpdate(row, s);
            Keep(IsOwn, if update.Some? && !IsResolvedApproval(update.value, ids) then [update.value] else []) ==
            Keep(Unresolved(ids), if IsOwnRow(row) then [update.value] else [])
  {
    var update := StoredUpdate(row, s);
    KeepUniform(IsOwn, if update.Some? && !IsResolvedApproval(update.value, ids) then [update.value] else []);
    KeepUniform(Unresolved(ids), if IsOwnRow(row) then [update.value] else []);
  }

  lemma {:induction false} OwnOfReplayed(log: seq<Row>, lo: nat, hi: nat, ids: set<nat>)
    ensures Keep(IsOwn, Replayed(log, lo, hi, ids)) == Keep(Unresolved(ids), OwnRows(log, lo, hi))
    decreases hi
  {
    if lo < hi <= |log| {
      OwnOfReplayed(log, lo, hi - 1, ids);
      var update := StoredUpdate(log[hi - 1], hi);
      OwnOfReplayedRow(log[hi - 1], hi, ids);
      KeepConcat(IsOwn, Replayed(log, lo, hi - 1, ids),
                 if update.Some? && !IsResolvedApproval(update.value, ids) then [update.value] else []);
      KeepConcat(Unresolved(ids), OwnRows(log, lo, hi - 1), if IsOwnRow(log[hi - 1]) then [update.value] else []);
    }
  }

  /** A page that has just been shown is all that has been delivered. */
  lemma PageIsDelivered(w: World)
    requires w.cursor == w.pageEnd == PageEnd(w.log, w.after, PAGE_LIMIT)
    requires w.frames == Replayed(w.log, w.after, w.pageEnd, w.ids)
    ensures Delivered(w)
  {
    OwnOfReplayed(w.log, w.after, w.pageEnd, w.ids);
    assert OwnRows(w.log, w.pageEnd, w.pageEnd) == [];
  }

  lemma ReplayKeepsInv(w: World)
    requires Inv(w) && w.subscriber.HasPending?
    ensures SubscriberInv(DoReplayPage(w))
  {
    var snapshot := w.subscriber.snapshot;
    var end := PageEnd(w.log, w.after, PAGE_LIMIT);
    if !(end - w.after == PAGE_LIMIT && end < snapshot.lastSeq) {
      var replayed := Replayed(w.log, w.after, end, w.subscriber.ids);
      assert [] + replayed == replayed;
      ShownPageKeepsInv(w, DoReplayPage(w), snapshot);
    }
  }

  lemma ShownPageKeepsInv(w: World, w': World, snapshot: Snapshot)
    requires w.next <= |w.sent| && SnapshotOf(w, snapshot) && (w.status == Completed ==> Frozen(w))
    requires w'.log == w.log && w'.sent == w.sent && w'.status == w.status && w'.executor == w.executor
    requires w'.next == w.next && w'.after == w.after
    requires w'.cursor == w'.pageEnd == PageEnd(w.log, w.after, PAGE_LIMIT) && snapshot.lastSeq <= w'.cursor
    requires w'.frames == Replayed(w.log, w.after, w'.pageEnd, w'.ids)
    requires w'.subscriber == Live || w'.subscriber == Done(NotRunning) ||
             w'.subscriber == Done(Answered(snapshot.status == Completed))
    ensures SubscriberInv(w')
  {
    PageIsDelivered(w');
  }

  lemma KeptAround(sent: seq<Update>, k: nat)
    requires k < |sent| && IsOwn(sent[k])
    ensures Keep(IsOwn, sent) == Keep(IsOwn, sent[..k]) + ([sent[k]] + Keep(IsOwn, sent[k + 1..]))
  {
    assert sent == sent[..k] + sent[k..];
    KeepConcat(IsOwn, sent[..k], sent[k..]);
    assert sent[k..] == [sent[k]] + sent[k + 1..];
    KeepConcat(IsOwn, [sent[k]], sent[k + 1..]);
    KeepUniform(IsOwn, [sent[k]]);
  }

  lemma Regroup(x: seq<Update>, y: seq<Update>, z: seq<Update>)
    ensures (x + y) + z == x + (y + z)
  {
  }

  /** The own updates of the channel split at the read position. */
  lemma UnreadPart(w: World)
    requires Accounted(w) && w.next < |w.sent| && IsOwn(w.sent[w.next])
    ensures var y := [w.sent[w.next]] + Keep(IsOwn, w.sent[w.next + 1..]) + InFlight(w);
            Keep(IsOwn, w.sent[..w.next]) + y == OwnRows(w.log, 0, |w.log|)
  {
    KeptAround(w.sent, w.next);
    Regroup(Keep(IsOwn, w.sent[..w.next]), [w.sent[w.next]] + Keep(IsOwn, w.sent[w.next + 1..]), InFlight(w));
  }

  /** The next unread own update is the next own row of the log above the cursor. */
  lemma NextUnreadIsNextRow(w: World)
    requires Accounted(w) && w.next < |w.sent| && IsOwn(w.sent[w.next])
    requires ReadUpTo(w, w.cursor) && w.cursor < w.sent[w.next].seqno.value
    ensures w.sent[w.next].seqno.value <= |w.log|
    ensures OwnRows(w.log, w.cursor, w.sent[w.next].seqno.value) == [w.sent[w.next]]
  {
    SentIsLogged(w);
    UnreadPart(w);
    ReadPart(w);
    CutAtCursor(w.log, w.cursor, Keep(IsOwn, w.sent[..w.next]),
                [w.sent[w.next]] + Keep(IsOwn, w.sent[w.next + 1..]) + InFlight(w));
    FirstOwnRow(w.log, w.cursor, |w.log|);
  }

  lemma CutAtCursor(log: seq<Row>, cursor: nat, x: seq<Update>, y: seq<Update>)
    requires cursor <= |log| && x + y == OwnRows(log, 0, |log|)
    requires forall i :: 0 <= i < |x| ==> IsNumbered(x[i]) && x[i].seqno.value <= cursor
    requires y != [] ==> IsNumbered(y[0]) && y[0].seqno.value > cursor
    ensures y == Tail(log, cursor)
  {
    OwnRowsSplit(log, 0, cursor, |log|);
    OwnRowsBounds(log, 0, cursor);
    OwnRowsBounds(log, cursor, |log|);
    SameCut(x, y, OwnRows(log, 0, cursor), OwnRows(log, cursor, |log|), cursor);
  }

  lemma ReadPart(w: World)
    requires w.next <= |w.sent| && ReadUpTo(w, w.cursor)
    ensures var x := Keep(IsOwn, w.sent[..w.next]);
            forall i :: 0 <= i < |x| ==> IsNumbered(x[i]) && x[i].seqno.value <= w.cursor
  {
    var x := Keep(IsOwn, w.sent[..w.next]);
    KeepMembers(IsOwn, w.sent[..w.next]);
    forall i | 0 <= i < |x| ensures IsNumbered(x[i]) && x[i].seqno.value <= w.cursor {
      assert x[i] in x;
      assert x[i] in w.sent[..w.next];
      var k :| 0 <= k < w.next && w.sent[..w.next][k] == x[i];
      assert w.sent[k] == x[i];
    }
  }

  /** When a terminal is next, every own row has been read. */
  lemma TerminalIsLast(w: World)
    requires Accounted(w) && Closing(w) && w.next < |w.sent| && w.sent[w.next].Terminal?
    requires ReadUpTo(w, w.cursor)
    ensures Frozen(w) && Tail(w.log, w.cursor) == []
  {
    assert QuietFrom(w.sent, w.next);
    if w.cursor < |w.log| {
      assert w.sent == w.sent[..w.next] + w.sent[w.next..];
      KeepConcat(IsOwn, w.sent[..w.next], w.sent[w.next..]);
      KeepUniform(IsOwn, w.sent[w.next..]);
      var x := Keep(IsOwn, w.sent[..w.next]);
      assert x + [] == OwnRows(w.log, 0, |w.log|);
      ReadPart(w);
      CutAtCursor(w.log, w.cursor, x, []);
    }
  }

  /** Reading an own update above the cursor extends what was delivered by exactly that row. */
  lemma ReceiveOwn(w: World)
    requires Inv(w) && w.subscriber.Live? && w.next < |w.sent| && IsOwn(w.sent[w.next])
    requires w.cursor < w.sent[w.next].seqno.value
    ensures w.sent[w.next].seqno.value <= |w.log|
    ensures Keep(IsOwn, w.frames + [w.sent[w.next]]) ==
            Keep(Unresolved(w.ids), OwnRows(w.log, w.after, w.pageEnd)) +
            OwnRows(w.log, w.pageEnd, w.sent[w.next].seqno.value)
  {
    NextUnreadIsNextRow(w);
    KeepPush(IsOwn, w.frames, w.sent[w.next]);
    OwnRowsSplit(w.log, w.pageEnd, w.cursor, w.sent[w.next].seqno.value);
  }

  lemma ReceiveKeepsInv(w: World)
    requires Inv(w)
    ensures SubscriberInv(DoReceive(w))
  {
    var w' := DoReceive(w);
    if w.subscriber.Live? && |w.sent| <= w.next + CHANNEL_CAPACITY && w.next < |w.sent| {
      var update := w.sent[w.next];
      KeepPush(IsOwn, w.frames, update);
      assert forall i :: 0 <= i < w.next ==> w'.sent[i] == w.sent[i];
      if update.Terminal? {
        TerminalIsLast(w);
      } else if update.seqno.Some? {
        assert IsOwn(update);
        if update.seqno.value > w.cursor {
          ReceiveOwn(w);
        }
      }
    }
  }

  lemma SubscriberStepKeepsInv(w: World, step: Step)
    requires Inv(w) && IsSubscriberStep(step)
    ensures SubscriberInv(Apply(w, step))
  {
    match step {
      case Register =>
      case TakeSnapshot => SentIsLogged(w);
      case ReadPending =>
      case ReplayPage => if w.subscriber.HasPending? { ReplayKeepsInv(w); }
      case Receive => ReceiveKeepsInv(w);
    }
  }

  lemma InvStep(w: World, step: Step)
    requires Inv(w)
    ensures Inv(Apply(w, step))
  {
    AccountedStep(w, step);
    ClosingStep(w, step);
    if IsSubscriberStep(step) {
      SubscriberStepKeepsInv(w, step);
    } else {
      OthersGrow(w, step);
      SubscriberInvGrows(w, Apply(w, step));
    }
  }

  /** A run starts with a log that holds none of the executor's rows yet. */
  predicate Fresh(log: seq<Row>) {
    forall i :: 0 <= i < |log| ==> log[i] == Internal
  }

  lemma {:induction false} FreshHasNoOwnRows(log: seq<Row>, hi: nat)
    requires Fresh(log) && hi <= |log|
    ensures OwnRows(log, 0, hi) == []
  {
    if hi > 0 {
      FreshHasNoOwnRows(log, hi - 1);
    }
  }

  lemma InvStart(after: nat, log: seq<Row>)
    requires Fresh(log)
    ensures Inv(Start(after, log))
  {
    FreshHasNoOwnRows(log, |log|);
  }

  lemma AfterNeverMoves(w: World, step: Step)
    ensures Apply(w, step).after == w.after
  {}

  lemma {:induction false} InvExec(w0: World, steps: seq<Step>)
    requires Inv(w0)
    ensures Inv(Exec(w0, steps))
    ensures Exec(w0, steps).after == w0.after
  {
    if |steps| > 0 {
      var w, last := Exec(w0, steps[..|steps| - 1]), steps[|steps| - 1];
      InvExec(w0, steps[..|steps| - 1]);
      InvStep(w, last);
      AfterNeverMoves(w, last);
    }
  }

  /** Some interleaving, from a fresh run subscribed to from `after`, leads to w. */
  ghost predicate Reachable(after: nat, w: World) {
    exists log, steps :: Fresh(log) && w == Exec(Start(after, log), steps)
  }

  lemma InvAlways(after: nat, w: World)
    requires Reachable(after, w)
    ensures Inv(w) && w.after == after
  {
    var log, steps :| Fresh(log) && w == Exec(Start(after, log), steps);
    InvStart(after, log);
    InvExec(Start(after, log), steps);
  }

  // ----- what follows for every interleaving ----------------------------------------------

  lemma KeepNothingTwice(s: seq<Update>, ids: set<nat>)
    ensures Keep(NotApproval, Keep(Unresolved(ids), s)) == Keep(NotApproval, s)
  {
    if |s| > 0 {
      var front, last := s[..|s| - 1], s[|s| - 1];
      KeepNothingTwice(front, ids);
      var kept := if Unresolved(ids)(last) then [last] else [];
      KeepConcat(NotApproval, Keep(Unresolved(ids), front), kept);
      KeepUniform(NotApproval, kept);
    }
  }

  /** Of what was delivered, the part that is not an approval is every such own row up to the cursor. */
  lemma DeliveredNonApprovals(w: World)
    requires Delivered(w)
    ensures Keep(NotApproval, Keep(IsOwn, w.frames)) == Keep(NotApproval, OwnRows(w.log, w.after, w.cursor))
  {
    var page := OwnRows(w.log, w.after, w.pageEnd);
    KeepConcat(NotApproval, Keep(Unresolved(w.ids), page), OwnRows(w.log, w.pageEnd, w.cursor));
    KeepNothingTwice(page, w.ids);
    KeepConcat(NotApproval, page, OwnRows(w.log, w.pageEnd, w.cursor));
    if w.cursor <= |w.log| {
      OwnRowsSplit(w.log, w.after, w.pageEnd, w.cursor);
    } else {
      assert OwnRows(w.log, w.after, w.cursor) == page + OwnRows(w.log, w.pageEnd, w.cursor);
    }
  }

  /** Rows at and below the cursor, followed by the rest, are the whole tail. */
  lemma TailSplit(log: seq<Row>, after: nat, cursor: nat)
    requires after <= cursor && (cursor <= |log| || cursor == after)
    ensures OwnRows(log, after, cursor) + Tail(log, cursor) == Tail(log, after)
  {
    if cursor <= |log| {
      OwnRowsSplit(log, after, cursor, |log|);
    }
  }

  /**
   Exactly once: a subscription that ends with the run's terminal, or that is answered from a
   completed snapshot, has shown every own event numbered above `after` that is not an approval
   request, once each and in the order of the log.
   */
  lemma TerminalMeansComplete(after: nat, w: World)
    requires Reachable(after, w)
    requires w.subscriber == Done(TerminalReceived) || w.subscriber == Done(Answered(true))
    ensures Keep(NotApproval, Keep(IsOwn, w.frames)) == Keep(NotApproval, Tail(w.log, after))
  {
    InvAlways(after, w);
    DeliveredNonApprovals(w);
    TailSplit(w.log, after, w.cursor);
    assert OwnRows(w.log, after, w.cursor) + [] == OwnRows(w.log, after, w.cursor);
  }

  // ----- the order of the numbered frames ---------------------------------------------------

  lemma {:induction false} ReplayedBounds(log: seq<Row>, lo: nat, hi: nat, ids: set<nat>)
    ensures Increasing(Replayed(log, lo, hi, ids))
    ensures forall u :: u in Replayed(log, lo, hi, ids) ==> IsNumbered(u) && lo < u.seqno.value <= hi
    decreases hi
  {
    if lo < hi <= |log| {
      ReplayedBounds(log, lo, hi - 1, ids);
    }
  }

  predicate Waiting(subscriber: Subscriber) {
    !subscriber.Live? && !subscriber.Done?
  }

  /** Strictly increasing numbers, none above the bound. */
  ghost predicate Climbs(numbered: seq<Update>, bound: nat) {
    Increasing(numbered) && forall i :: 0 <= i < |numbered| ==> numbered[i].seqno.value <= bound
  }

  ghost predicate Ordered(w: World) {
    Climbs(Keep(IsNumbered, w.frames), w.cursor) && (Waiting(w.subscriber) ==> w.frames == [])
  }

  lemma OrderedPage(w: World, lo: nat, ids: set<nat>)
    requires w.frames == Replayed(w.log, lo, w.cursor, ids) && !Waiting(w.subscriber)
    ensures Ordered(w)
  {
    var replayed := w.frames;
    ReplayedBounds(w.log, lo, w.cursor, ids);
    forall i | 0 <= i < |replayed| ensures IsNumbered(replayed[i]) && replayed[i].seqno.value <= w.cursor {
      assert replayed[i] in replayed;
    }
    KeepUniform(IsNumbered, replayed);
  }

  /** What replaying the page does: either resynchronise, or show the page and move the cursor. */
  lemma ReplayEffect(w: World)
    requires w.subscriber.HasPending? && w.frames == []
    ensures var w' := DoReplayPage(w);
            && !Waiting(w'.subscriber)
            && (|| (w'.frames == [] && w'.cursor == w.cursor)
                || (w'.frames == Replayed(w'.log, w.after, w'.cursor, w.subscriber.ids)))
  {
    var replayed := Replayed(w.log, w.after, PageEnd(w.log, w.after, PAGE_LIMIT), w.subscriber.ids);
    assert [] + replayed == replayed;
  }

  lemma OrderedReplay(w: World)
    requires Ordered(w) && w.subscriber.HasPending?
    ensures Ordered(DoReplayPage(w))
  {
    ReplayEffect(w);
    var w' := DoReplayPage(w);
    if w'.frames != [] {
      OrderedPage(w', w.after, w.subscriber.ids);
    }
  }

  lemma ClimbsPush(numbered: seq<Update>, bound: nat, u: Update, bound': nat)
    requires Climbs(numbered, bound) && IsNumbered(u) && bound < u.seqno.value <= bound'
    ensures Climbs(numbered + [u], bound')
  {
  }

  /** One more frame keeps the order if its number, when it has one, moves the cursor there. */
  lemma OrderedPush(w: World, w': World, u: Update)
    requires Ordered(w) && w'.frames == w.frames + [u] && !Waiting(w'.subscriber)
    requires if IsNumbered(u) then w.cursor < u.seqno.value == w'.cursor else w'.cursor == w.cursor
    ensures Ordered(w')
  {
    KeepPush(IsNumbered, w.frames, u);
    if IsNumbered(u) {
      ClimbsPush(Keep(IsNumbered, w.frames), w.cursor, u, w'.cursor);
    } else {
      assert Keep(IsNumbered, w.frames) + [] == Keep(IsNumbered, w.frames);
    }
  }

  lemma OrderedReceive(w: World)
    requires Ordered(w)
    ensures Ordered(DoReceive(w))
  {
    var w' := DoReceive(w);
    if w'.next == w.next || w'.frames == w.frames {
      assert w'.frames == w.frames && w'.cursor == w.cursor;
    } else {
      OrderedPush(w, w', w.sent[w.next]);
    }
  }

  lemma OrderedStep(w: World, step: Step)
    requires Ordered(w)
    ensures Ordered(Apply(w, step))
  {
    match step
    case ReplayPage => if w.subscriber.HasPending? { OrderedReplay(w); }
    case Receive => OrderedReceive(w);
    case _ =>
      FramesUntouched(w, step);
      assert Apply(w, step).frames == w.frames;
  }

  lemma FramesUntouched(w: World, step: Step)
    requires !step.ReplayPage? && !step.Receive?
    ensures var w' := Apply(w, step);
            w'.frames == w.frames && w'.cursor == w.cursor && (Waiting(w'.subscriber) <==> Waiting(w.subscriber))
  {}

  lemma {:induction false} OrderedExec(w0: World, steps: seq<Step>)
    requires Ordered(w0)
    ensures Ordered(Exec(w0, steps))
  {
    if |steps| > 0 {
      OrderedExec(w0, steps[..|steps| - 1]);
      OrderedStep(Exec(w0, steps[..|steps| - 1]), steps[|steps| - 1]);
    }
  }

  /** Whatever the interleaving and the outcome, numbered events arrive in strictly increasing order. */
  lemma NumbersIncrease(after: nat, w: World)
    requires Reachable(after, w)
    ensures Increasing(Keep(IsNumbered, w.frames))
  {
    var log, steps :| Fresh(log) && w == Exec(Start(after, log), steps);
    OrderedExec(Start(after, log), steps);
  }

  lemma {:induction false} IncreasingAtDistance(s: seq<Update>, i: nat, j: nat)
    requires Increasing(Keep(IsNumbered, s)) && i < j < |s| && IsNumbered(s[i]) && IsNumbered(s[j])
    ensures s[i].seqno.value < s[j].seqno.value
  {
    var front, last := s[..|s| - 1], s[|s| - 1];
    var kept := Keep(IsNumbered, front);
    assert kept == Keep(IsNumbered, s)[..|kept|];
    if j < |s| - 1 {
      IncreasingAtDistance(front, i, j);
    } else {
      KeepMembers(IsNumbered, front);
      assert front[i] in front;
      var k :| 0 <= k < |kept| && kept[k] == s[i];
      assert Keep(IsNumbered, s)[k] == s[i] && Keep(IsNumbered, s)[|kept|] == s[j];
    }
  }

  /** A row of the run's own, and no approval request. */
  predicate IsOwnEvent(row: Row) {
    IsOwnRow(row) && (row.Displayed? ==> row.kind != ApprovalRequired)
  }

  /** The same, row by row: each own row above `after` that is not an approval arrives exactly once. */
  lemma ExactlyOnce(after: nat, w: World, s: nat)
    requires Reachable(after, w)
    requires w.subscriber == Done(TerminalReceived) || w.subscriber == Done(Answered(true))
    requires after < s <= |w.log| && IsOwnEvent(w.log[s - 1])
    ensures var row := w.log[s - 1];
            var u := if row.Displayed? then Event(row.kind, row.payload, Some(s))
                     else Event(TurnCompleted, row.payload, Some(s));
            exists i :: 0 <= i < |w.frames| && w.frames[i] == u &&
                        forall j :: 0 <= j < |w.frames| && w.frames[j] == u ==> j == i
  {
    var u := StoredUpdate(w.log[s - 1], s).value;
    TerminalMeansComplete(after, w);
    OwnRowsComplete(w.log, after, |w.log|, s);
    KeepMembers(NotApproval, Tail(w.log, after));
    KeepMembers(NotApproval, Keep(IsOwn, w.frames));
    KeepMembers(IsOwn, w.frames);
    assert u in w.frames;
    var i :| 0 <= i < |w.frames| && w.frames[i] == u;
    NumbersIncrease(after, w);
    forall j | 0 <= j < |w.frames| && w.frames[j] == u ensures j == i {
      if j < i {
        IncreasingAtDistance(w.frames, j, i);
      } else if i < j {
        IncreasingAtDistance(w.frames, i, j);
      }
    }
  }

  // ----- approvals ------------------------------------------------------------------------------

  /**
   An approval request reaches a subscription that ends with the terminal exactly when it came
   live, or its id was among those read as open before the page was read.
   */
  lemma ApprovalFate(after: nat, w: World, s: nat)
    requires Reachable(after, w) && w.subscriber == Done(TerminalReceived)
    requires after < s <= |w.log| && w.log[s - 1].Displayed? && w.log[s - 1].kind == ApprovalRequired
    ensures StoredUpdate(w.log[s - 1], s).value in w.frames <==>
            (s <= w.pageEnd ==> w.log[s - 1].payload in w.ids)
  {
    InvAlways(after, w);
    var u := StoredUpdate(w.log[s - 1], s).value;
    var page := OwnRows(w.log, after, w.pageEnd);
    var live := OwnRows(w.log, w.pageEnd, w.cursor);
    KeepMembers(IsOwn, w.frames);
    KeepMembers(Unresolved(w.ids), page);
    assert u in w.frames <==> u in Keep(Unresolved(w.ids), page) + live;
    OwnRowsBounds(w.log, after, w.pageEnd);
    OwnRowsBounds(w.log, w.pageEnd, w.cursor);
    if s <= w.pageEnd {
      OwnRowsComplete(w.log, after, w.pageEnd, s);
    } else {
      if s > w.cursor {
        OwnRowsComplete(w.log, w.cursor, |w.log|, s);
      }
      OwnRowsComplete(w.log, w.pageEnd, w.cursor, s);
    }
  }

  // ----- runs that lose or repeat an event --------------------------------------------------------

  ghost predicate Leads(w0: World, w: World) {
    exists steps :: Exec(w0, steps) == w
  }

  lemma LeadsStep(w0: World, w: World, step: Step)
    requires Leads(w0, w)
    ensures Leads(w0, Apply(w, step))
  {
    var steps :| Exec(w0, steps) == w;
    assert (steps + [step])[..|steps + [step]| - 1] == steps;
    assert Exec(w0, steps + [step]) == Apply(w, step);
  }

  lemma LeadsNowhere(w0: World)
    ensures Leads(w0, w0)
  {
    assert Exec(w0, []) == w0;
  }

  lemma LeadsReachable(after: nat, log: seq<Row>, w: World)
    requires Fresh(log) && Leads(Start(after, log), w)
    ensures Reachable(after, w)
  {}

  /** The subscriber's first three steps, with nothing in between. */
  function Subscribed(w: World): World {
    w.(subscriber := HasPending(Snapshot(|w.log|, w.status), w.pending),
       listening := !w.executor.Removed?, joined := |w.sent|, next := |w.sent|)
  }

  lemma LeadsSubscribe(w0: World, w: World)
    requires Leads(w0, w) && w.subscriber.Connecting?
    ensures Leads(w0, Subscribed(w))
  {
    LeadsStep(w0, w, Register);
    var w1 := Apply(w, Register);
    LeadsStep(w0, w1, TakeSnapshot);
    var w2 := Apply(w1, TakeSnapshot);
    LeadsStep(w0, w2, ReadPending);
    assert Apply(w2, ReadPending) == Subscribed(w);
  }

  lemma {:induction false} LeadsInternalRows(w0: World, w: World, n: nat)
    requires Leads(w0, w) && w.status == Active
    ensures Leads(w0, w.(log := w.log + seq(n, _ => Internal)))
  {
    if n == 0 {
      assert w.log + seq(0, _ => Internal) == w.log;
    } else {
      LeadsInternalRows(w0, w, n - 1);
      var w1 := w.(log := w.log + seq(n - 1, _ => Internal));
      LeadsStep(w0, w1, AppendElsewhere(Internal));
      assert w.log + seq(n - 1, _ => Internal) + [Internal] == w.log + seq(n, _ => Internal);
    }
  }

  /** An approval is opened and logged after the open ids were read. */
  lemma ApprovalOpensLate(w0: World, id: nat) returns (w: World)
    requires w0 == Start(0, [])
    ensures Leads(w0, w) && w.subscriber == HasPending(Snapshot(0, Active), {}) && w.pending == {id}
    ensures w.log == [Displayed(ApprovalRequired, id)] && w.executor == Logged(Event(ApprovalRequired, id, Some(1)))
    ensures w.after == 0 && w.frames == [] && w.sent == [] && w.listening && w.next == 0 && w.status == Active
  {
    LeadsNowhere(w0);
    LeadsSubscribe(w0, w0);
    var w1 := Subscribed(w0);
    LeadsStep(w0, w1, RegisterApproval(id));
    var w2 := Apply(w1, RegisterApproval(id));
    LeadsStep(w0, w2, PublishAppend(ApprovalRequired, id));
    w := DoPublishAppend(w2, ApprovalRequired, id);
    assert w == Apply(w2, PublishAppend(ApprovalRequired, id));
  }

  lemma LeadsReplay(w0: World, w: World)
    requires Leads(w0, w)
    ensures Leads(w0, DoReplayPage(w))
  {
    LeadsStep(w0, w, ReplayPage);
    assert Apply(w, ReplayPage) == DoReplayPage(w);
  }

  lemma LeadsReceive(w0: World, w: World)
    requires Leads(w0, w)
    ensures Leads(w0, DoReceive(w))
  {
    LeadsStep(w0, w, Receive);
    assert Apply(w, Receive) == DoReceive(w);
  }

  lemma LeadsBroadcast(w0: World, w: World)
    requires Leads(w0, w)
    ensures Leads(w0, DoPublishBroadcast(w))
  {
    LeadsStep(w0, w, PublishBroadcast);
    assert Apply(w, PublishBroadcast) == DoPublishBroadcast(w);
  }

  /**
   An approval opened between the read of the open ids and the read of the page is dropped from
   the replay as if it were resolved, and dropped again when it comes live: it is still open, the
   subscriber has read everything there is, and it was never shown.
   */
  lemma ApprovalCanBeLost()
    ensures exists w :: Reachable(0, w) && w.subscriber == Live && w.next == |w.sent| &&
                        w.pending == {5} && w.log == [Displayed(ApprovalRequired, 5)] && w.frames == []
  {
    var w0 := Start(0, []);
    var w1 := ApprovalOpensLate(w0, 5);
    LeadsReplay(w0, w1);
    var w2 := w1.(cursor := 1, pageEnd := 1, ids := {}, subscriber := Live);
    LateApprovalIsFiltered(w1);
    LeadsBroadcast(w0, w2);
    var w3 := w2.(sent := [Event(ApprovalRequired, 5, Some(1))], executor := Working);
    assert DoPublishBroadcast(w2) == w3;
    LeadsReceive(w0, w3);
    var w4 := w3.(next := 1);
    assert DoReceive(w3) == w4;
    LeadsReachable(0, [], w4);
  }

  lemma LateApprovalIsFiltered(w: World)
    requires w.subscriber == HasPending(Snapshot(0, Active), {}) && w.log == [Displayed(ApprovalRequired, 5)]
    requires w.after == 0 && w.frames == [] && w.listening
    ensures DoReplayPage(w) == w.(cursor := 1, pageEnd := 1, ids := {}, subscriber := Live)
  {
    assert Replayed(w.log, 0, 0, {}) == [];
    assert Replayed(w.log, 0, 1, {}) == [];
    assert w.frames + [] == w.frames;
  }

  // ----- the receive loop ---------------------------------------------------------------------------

  /** Receiving until the channel has nothing more to offer or the subscription is over. */
  ghost function Drained(w: World): World
    decreases |w.sent| - w.next, if w.subscriber.Live? then 1 else 0
  {
    if !w.subscriber.Live? || (w.next >= |w.sent| && !w.executor.Removed?) then w
    else Drained(DoReceive(w))
  }

  lemma {:induction false} DrainedIsReachable(after: nat, w: World)
    requires Reachable(after, w)
    ensures Reachable(after, Drained(w))
    decreases |w.sent| - w.next, if w.subscriber.Live? then 1 else 0
  {
    if w.subscriber.Live? && (w.next < |w.sent| || w.executor.Removed?) {
      var log, steps :| Fresh(log) && w == Exec(Start(after, log), steps);
      LeadsReceive(Start(after, log), w);
      LeadsReachable(after, log, DoReceive(w));
      DrainedIsReachable(after, DoReceive(w));
    }
  }

  /** The state a live subscription keeps while it follows the channel. */
  class Subscription {
    var cursor: nat
    var next: nat
    var frames: seq<Update>
    var outcome: Option<Outcome>

    ghost function View(w: World): World
      reads this
    {
      w.(cursor := cursor, next := next, frames := frames,
         subscriber := if outcome.Some? then Done(outcome.value) else Live)
    }

    constructor (cursor: nat, next: nat, frames: seq<Update>)
      ensures this.cursor == cursor && this.next == next && this.frames == frames && outcome == None
    {
      this.cursor, this.next, this.frames, this.outcome := cursor, next, frames, None;
    }

    method Follow(sent: seq<Update>, closed: bool, ghost w: World)
      requires w.sent == sent && (closed <==> w.executor.Removed?)
      modifies this
      ensures View(w) == Drained(old(View(w)))
    {
      while outcome.None? && (next < |sent| || closed)
        invariant Drained(View(w)) == Drained(old(View(w)))
        decreases |sent| - next, outcome.None?
      {
        if |sent| > next + CHANNEL_CAPACITY {
          outcome := Some(ResyncLagged(cursor));
        } else if next < |sent| {
          var update := sent[next];
          next := next + 1;
          if update.Terminal? {
            frames, outcome := frames + [update], Some(TerminalReceived);
          } else if update.seqno.None? {
            frames := frames + [update];
          } else if update.seqno.value > cursor {
            frames, cursor := frames + [update], update.seqno.value;
          }
        } else {
          outcome := Some(ChannelClosed);
        }
      }
    }
  }
}

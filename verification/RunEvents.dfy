/**
 The event protocol of one run: the run's executor appends an event to a durable log and
 then broadcasts it; a subscriber registers on the broadcast channel, reads a snapshot of the
 run, reads the ids of the open approvals, replays one page of the log, and then follows the
 channel, skipping everything at or below its cursor.  Other tasks append to the same log.

 Every atomic action is a `Step`; a run of the system is any sequence of steps, so a statement
 about `Exec(Start(after, log), steps)` for all `steps` is a statement about every interleaving.
 */
module RunEvents {
  import opened Basics

  const PAGE_LIMIT: nat := 1000
  const CHANNEL_CAPACITY: nat := 1024

  datatype Kind =
    | TurnStarted | ThinkingDelta | ThinkingFinished | TextDelta
    | ToolStarted | ToolFinished | ApprovalRequired | TurnCompleted
    | DelegationSpawned | DelegationTerminal

  /** One row of the log; the row at index i has sequence number i + 1. */
  datatype Row =
    | Displayed(kind: Kind, payload: nat)
    | AssistantContent(payload: nat)
    | Internal

  datatype Update =
    | Event(kind: Kind, payload: nat, seqno: Option<nat>)
    | Terminal(success: bool)

  datatype Status = Active | Completed | Failed

  datatype Snapshot = Snapshot(lastSeq: nat, status: Status)

  /** Where the executor of the run is; it performs these actions one after the other. */
  datatype Executor =
    | Working
    | Logged(update: Update)
    | Committed(content: Option<nat>)
    | CompletionRead(update: Update)
    | CompletionSent
    | Ended
    | Removed

  datatype Outcome =
    | TerminalReceived
    | Answered(success: bool)
    | ResyncOverflow(from: nat)
    | ResyncLagged(from: nat)
    | NotRunning
    | ChannelClosed

  datatype Subscriber =
    | Connecting
    | Registered
    | HasSnapshot(snapshot: Snapshot)
    | HasPending(snapshot: Snapshot, ids: set<nat>)
    | Live
    | Done(outcome: Outcome)

  /**
   The log, the broadcast history and the two parties.  `joined` and `next` delimit what the
   subscriber has read of the history; `pageEnd` and `ids` remember where the replayed page ended
   and which approvals were open when it was filtered.  The payload of an approval is its id, and
   the payload of a delegation notice is the child it is about.
   */
  datatype World = World(
    log: seq<Row>, status: Status, sent: seq<Update>, executor: Executor,
    registered: set<nat>, pending: set<nat>,
    subscriber: Subscriber, listening: bool, joined: nat, next: nat, after: nat, cursor: nat,
    frames: seq<Update>, pageEnd: nat, ids: set<nat>)

  datatype Step =
    | PublishAppend(kind: Kind, payload: nat)
    | PublishBroadcast
    | Commit(content: Option<nat>)
    | ReadCompletion
    | BroadcastCompletion
    | BroadcastTerminal
    | Retire
    | Abandon
    | AppendElsewhere(row: Row)
    | FinishElsewhere
    | NotifyDelegation(kind: Kind, payload: nat)
    | RegisterApproval(id: nat)
    | ResolveApproval(id: nat)
    | Register
    | TakeSnapshot
    | ReadPending
    | ReplayPage
    | Receive

  // ----- the log and its pages ---------------------------------------------------------

  function IsDelegation(kind: Kind): bool {
    kind == DelegationSpawned || kind == DelegationTerminal
  }

  function StoredUpdate(row: Row, seqno: nat): Option<Update> {
    match row
    case Displayed(kind, payload) => Some(Event(kind, payload, Some(seqno)))
    case AssistantContent(payload) => Some(Event(TurnCompleted, payload, Some(seqno)))
    case Internal => None
  }

  function IsResolvedApproval(update: Update, ids: set<nat>): bool {
    update.Event? && update.kind == ApprovalRequired && update.payload !in ids
  }

  /** Sequence number of the last of the first `limit` rows numbered above `after`. */
  function PageEnd(log: seq<Row>, after: nat, limit: nat): (end: nat) {
    if |log| <= after then after else Min(after + limit, |log|)
  }

  /** What replaying the rows numbered in (lo, hi] sends. */
  function Replayed(log: seq<Row>, lo: nat, hi: nat, ids: set<nat>): seq<Update>
    decreases hi
  {
    if hi <= lo || hi > |log| then []
    else
      var update := StoredUpdate(log[hi - 1], hi);
      Replayed(log, lo, hi - 1, ids) +
      (if update.Some? && !IsResolvedApproval(update.value, ids) then [update.value] else [])
  }

  /** The replay loop of a subscription: it moves the cursor over every row of the page. */
  method Replay(log: seq<Row>, after: nat, limit: nat, ids: set<nat>)
    returns (frames: seq<Update>, cursor: nat)
    ensures cursor == PageEnd(log, after, limit)
    ensures frames == Replayed(log, after, cursor, ids)
  {
    var end := PageEnd(log, after, limit);
    frames, cursor := [], after;
    while cursor < end
      invariant after <= cursor <= end
      invariant frames == Replayed(log, after, cursor, ids)
    {
      var update := StoredUpdate(log[cursor], cursor + 1);
      cursor := cursor + 1;
      if update.Some? && !IsResolvedApproval(update.value, ids) {
        frames := frames + [update.value];
      }
    }
  }

  // ----- the steps ---------------------------------------------------------------------

  function Start(after: nat, log: seq<Row>): World {
    World(log, Active, [], Working, {}, {}, Connecting, false, 0, 0, after, after, [], after, {})
  }

  predicate Publishes(kind: Kind) {
    kind != TurnCompleted && !IsDelegation(kind)
  }

  // The executor's actions.  A step that is not enabled changes nothing.

  /** Logging an approval request makes the run wait for it, whatever its status was. */
  function DoPublishAppend(w: World, kind: Kind, payload: nat): World {
    if w.executor.Working? && Publishes(kind) && (kind == ApprovalRequired ==> payload in w.registered)
    then w.(log := w.log + [Displayed(kind, payload)],
            status := if kind == ApprovalRequired then Active else w.status,
            executor := Logged(Event(kind, payload, Some(|w.log| + 1))))
    else w
  }

  function DoPublishBroadcast(w: World): World {
    if w.executor.Logged? then w.(sent := w.sent + [w.executor.update], executor := Working) else w
  }

  /** The store refuses a second terminal status; the executor then leaves without a word. */
  function DoCommit(w: World, content: Option<nat>): World {
    if !w.executor.Working? then w
    else if w.status != Active then w.(executor := Removed)
    else w.(log := w.log + (if content.Some? then [AssistantContent(content.value)] else []) + [Internal],
            status := if content.Some? then Completed else Failed,
            executor := Committed(content))
  }

  function DoReadCompletion(w: World): World {
    if w.executor.Committed? && w.executor.content.Some?
    then w.(executor := CompletionRead(
              Event(TurnCompleted, w.executor.content.value, Some(Max(|w.log| - 1, 0)))))
    else w
  }

  function DoBroadcastCompletion(w: World): World {
    if w.executor.CompletionRead?
    then w.(sent := w.sent + [w.executor.update], executor := CompletionSent) else w
  }

  function DoBroadcastTerminal(w: World): World {
    if w.executor == Committed(None) || w.executor == CompletionSent
    then w.(sent := w.sent + [Terminal(w.status == Completed)], executor := Ended) else w
  }

  // Actions of other tasks.

  /**
   A child is spawned once, and its end is logged only for a child that was spawned; its end may be
   logged again when an unknown end is reconciled.
   */
  predicate MayLogNotice(w: World, row: Row) {
    && row.Displayed? && IsDelegation(row.kind) && w.status == Active
    && (row.kind == DelegationSpawned ==> row !in w.log)
    && (row.kind == DelegationTerminal ==> Displayed(DelegationSpawned, row.payload) in w.log)
  }

  function DoAppendElsewhere(w: World, row: Row): World {
    if row.Internal? && (w.status == Active || w.executor.Working? || w.executor.Logged?)
    then w.(log := w.log + [row])
    else if MayLogNotice(w, row) then w.(log := w.log + [row])
    else w
  }

  function DoFinishElsewhere(w: World): World {
    if w.status == Active then w.(log := w.log + [Internal], status := Failed) else w
  }

  /**
   A notice is broadcast after its row was logged, any number of times.  Only the end of a child that
   ends after this run did has no row here.
   */
  predicate MayNotify(w: World, kind: Kind, payload: nat) {
    && IsDelegation(kind) && !w.executor.Removed?
    && (Displayed(kind, payload) in w.log || (kind == DelegationTerminal && w.status != Active))
  }

  function DoNotifyDelegation(w: World, kind: Kind, payload: nat): World {
    if MayNotify(w, kind, payload)
    then w.(sent := w.sent + [Event(kind, payload, None)]) else w
  }

  // The subscriber's actions.

  function DoReplayPage(w: World): World {
    if !w.subscriber.HasPending? then w
    else
      var snapshot := w.subscriber.snapshot;
      var end := PageEnd(w.log, w.after, PAGE_LIMIT);
      if end - w.after == PAGE_LIMIT && end < snapshot.lastSeq then
        w.(subscriber := Done(ResyncOverflow(end)))
      else
        w.(frames := w.frames + Replayed(w.log, w.after, end, w.subscriber.ids),
           cursor := end, pageEnd := end, ids := w.subscriber.ids,
           subscriber := if snapshot.status != Active then Done(Answered(snapshot.status == Completed))
                         else if !w.listening then Done(NotRunning)
                         else Live)
  }

  function DoReceive(w: World): World {
    if !w.subscriber.Live? then w
    else if |w.sent| > w.next + CHANNEL_CAPACITY then w.(subscriber := Done(ResyncLagged(w.cursor)))
    else if w.next < |w.sent| then
      var update := w.sent[w.next];
      if update.Terminal? then
        w.(next := w.next + 1, frames := w.frames + [update], subscriber := Done(TerminalReceived))
      else if update.seqno.None? then w.(next := w.next + 1, frames := w.frames + [update])
      else if update.seqno.value <= w.cursor then w.(next := w.next + 1)
      else w.(next := w.next + 1, frames := w.frames + [update], cursor := update.seqno.value)
    else if w.executor.Removed? then w.(subscriber := Done(ChannelClosed))
    else w
  }

  function Apply(w: World, step: Step): World {
    match step
    case PublishAppend(kind, payload) => DoPublishAppend(w, kind, payload)
    case PublishBroadcast => DoPublishBroadcast(w)
    case Commit(content) => DoCommit(w, content)
    case ReadCompletion => DoReadCompletion(w)
    case BroadcastCompletion => DoBroadcastCompletion(w)
    case BroadcastTerminal => DoBroadcastTerminal(w)
    case Retire => if w.executor.Ended? then w.(executor := Removed) else w
    case Abandon => if w.executor.Working? then w.(executor := Removed) else w
    case AppendElsewhere(row) => DoAppendElsewhere(w, row)
    case FinishElsewhere => DoFinishElsewhere(w)
    case NotifyDelegation(kind, payload) => DoNotifyDelegation(w, kind, payload)
    case RegisterApproval(id) =>
      if id in w.registered then w else w.(registered := w.registered + {id}, pending := w.pending + {id})
    case ResolveApproval(id) => w.(pending := w.pending - {id})
    case Register =>
      if w.subscriber.Connecting?
      then w.(subscriber := Registered, listening := !w.executor.Removed?, joined := |w.sent|, next := |w.sent|) else w
    case TakeSnapshot =>
      if w.subscriber.Registered?
      then w.(subscriber := HasSnapshot(Snapshot(|w.log|, w.status))) else w
    case ReadPending =>
      if w.subscriber.HasSnapshot?
      then w.(subscriber := HasPending(w.subscriber.snapshot, w.pending)) else w
    case ReplayPage => DoReplayPage(w)
    case Receive => DoReceive(w)
  }

  function Exec(w: World, steps: seq<Step>): World {
    if |steps| == 0 then w else Apply(Exec(w, steps[..|steps| - 1]), steps[|steps| - 1])
  }

  // ----- what a subscriber should see ----------------------------------------------------

  /** Numbered updates of the run's own executor: everything but delegation notices. */
  function IsOwn(update: Update): bool {
    update.Event? && update.seqno.Some? && !IsDelegation(update.kind)
  }

  function IsOwnRow(row: Row): bool {
    row.AssistantContent? || (row.Displayed? && !IsDelegation(row.kind))
  }

  /** The updates of the executor's own rows numbered in (lo, hi]. */
  function OwnRows(log: seq<Row>, lo: nat, hi: nat): seq<Update>
    decreases hi
  {
    if hi <= lo || hi > |log| then []
    else OwnRows(log, lo, hi - 1) +
         (if IsOwnRow(log[hi - 1]) then [StoredUpdate(log[hi - 1], hi).value] else [])
  }

  function IsNumbered(update: Update): bool {
    update.Event? && update.seqno.Some?
  }

  predicate Increasing(updates: seq<Update>)
  {
    && (forall i :: 0 <= i < |updates| ==> IsNumbered(updates[i]))
    && (forall i, j :: 0 <= i < j < |updates| ==> updates[i].seqno.value < updates[j].seqno.value)
  }

  lemma {:induction false} OwnRowsSplit(log: seq<Row>, lo: nat, mid: nat, hi: nat)
    requires lo <= mid <= hi <= |log|
    ensures OwnRows(log, lo, hi) == OwnRows(log, lo, mid) + OwnRows(log, mid, hi)
    decreases hi
  {
    if mid < hi {
      OwnRowsSplit(log, lo, mid, hi - 1);
    } else {
      assert OwnRows(log, mid, hi) == [];
    }
  }

  lemma {:induction false} OwnRowsAppend(log: seq<Row>, more: seq<Row>, lo: nat, hi: nat)
    requires hi <= |log|
    ensures OwnRows(log + more, lo, hi) == OwnRows(log, lo, hi)
    decreases hi
  {
    if lo < hi {
      OwnRowsAppend(log, more, lo, hi - 1);
    }
  }

  ghost predicate Within(updates: seq<Update>, lo: nat, hi: nat) {
    && Increasing(updates)
    && forall i :: 0 <= i < |updates| ==> IsOwn(updates[i]) && lo < updates[i].seqno.value <= hi
  }

  lemma WithinPush(updates: seq<Update>, lo: nat, hi: nat, tail: seq<Update>)
    requires hi > 0 && Within(updates, lo, hi - 1) && lo < hi
    requires tail == [] || (|tail| == 1 && IsOwn(tail[0]) && tail[0].seqno == Some(hi))
    ensures Within(updates + tail, lo, hi)
  {
  }

  lemma {:induction false} OwnRowsBounds(log: seq<Row>, lo: nat, hi: nat)
    ensures Within(OwnRows(log, lo, hi), lo, Min(hi, |log|))
    decreases hi
  {
    if lo < hi <= |log| {
      OwnRowsBounds(log, lo, hi - 1);
      WithinPush(OwnRows(log, lo, hi - 1), lo, hi,
                 if IsOwnRow(log[hi - 1]) then [StoredUpdate(log[hi - 1], hi).value] else []);
    }
  }

  /** Every own row in range is there, at its own number. */
  lemma {:induction false} OwnRowsComplete(log: seq<Row>, lo: nat, hi: nat, s: nat)
    requires lo < s <= hi <= |log| && IsOwnRow(log[s - 1])
    ensures StoredUpdate(log[s - 1], s).value in OwnRows(log, lo, hi)
    decreases hi
  {
    if s < hi {
      OwnRowsComplete(log, lo, hi - 1, s);
    }
  }

  ghost predicate InRange(updates: seq<Update>, lo: nat, hi: nat) {
    forall i :: 0 <= i < |updates| ==> IsNumbered(updates[i]) && lo < updates[i].seqno.value <= hi
  }

  lemma OwnRowsInRange(log: seq<Row>, lo: nat, hi: nat)
    requires hi <= |log|
    ensures InRange(OwnRows(log, lo, hi), lo, hi)
  {
    OwnRowsBounds(log, lo, hi);
  }

  /** The head of three parts in ascending order is the first two parts, when the second holds at most one. */
  lemma OnlyHead(u: Update, x: seq<Update>, y: seq<Update>, z: seq<Update>, lo: nat, s: nat, hi: nat)
    requires |(x + y) + z| > 0 && ((x + y) + z)[0] == u && IsNumbered(u) && |y| <= 1
    requires 0 < s == u.seqno.value && InRange(x, lo, s - 1) && InRange(z, s, hi)
    ensures x + y == [u]
  {
  }

  lemma LastOwnRow(log: seq<Row>, s: nat)
    requires 0 < s <= |log|
    ensures |OwnRows(log, s - 1, s)| <= 1
  {
    assert OwnRows(log, s - 1, s - 1) == [];
  }

  lemma ThreeParts(log: seq<Row>, lo: nat, s: nat, hi: nat)
    requires lo < s <= hi <= |log|
    ensures OwnRows(log, lo, s) == OwnRows(log, lo, s - 1) + OwnRows(log, s - 1, s)
    ensures OwnRows(log, lo, hi) == (OwnRows(log, lo, s - 1) + OwnRows(log, s - 1, s)) + OwnRows(log, s, hi)
  {
    OwnRowsSplit(log, lo, s, hi);
    OwnRowsSplit(log, lo, s - 1, s);
  }

  lemma CutAtHead(log: seq<Row>, lo: nat, s: nat, hi: nat, u: Update)
    requires lo < s <= hi <= |log| && OwnRows(log, lo, hi) != [] && OwnRows(log, lo, hi)[0] == u
    requires IsNumbered(u) && u.seqno.value == s
    ensures OwnRows(log, lo, s) == [u]
  {
    ThreeParts(log, lo, s, hi);
    OwnRowsInRange(log, lo, s - 1);
    OwnRowsInRange(log, s, hi);
    LastOwnRow(log, s);
    OnlyHead(u, OwnRows(log, lo, s - 1), OwnRows(log, s - 1, s), OwnRows(log, s, hi), lo, s, hi);
  }

  /** If the first own row above lo is numbered s, there is no other up to s. */
  lemma FirstOwnRow(log: seq<Row>, lo: nat, hi: nat)
    requires lo <= hi <= |log| && OwnRows(log, lo, hi) != []
    ensures var u := OwnRows(log, lo, hi)[0];
            u.Event? && u.seqno.Some? && lo < u.seqno.value <= hi && OwnRows(log, lo, u.seqno.value) == [u]
  {
    OwnRowsBounds(log, lo, hi);
    CutAtHead(log, lo, OwnRows(log, lo, hi)[0].seqno.value, hi, OwnRows(log, lo, hi)[0]);
  }

  /** Two ways of cutting the same list at a number agree. */
  lemma SameCut(x: seq<Update>, y: seq<Update>, a: seq<Update>, b: seq<Update>, cut: nat)
    requires x + y == a + b
    requires forall i :: 0 <= i < |x| ==> IsNumbered(x[i]) && x[i].seqno.value <= cut
    requires forall i :: 0 <= i < |a| ==> IsNumbered(a[i]) && a[i].seqno.value <= cut
    requires y != [] ==> IsNumbered(y[0]) && y[0].seqno.value > cut
    requires b != [] ==> IsNumbered(b[0]) && b[0].seqno.value > cut
    ensures x == a && y == b
  {
    var all := x + y;
    assert y != [] ==> all[|x|] == y[0];
    assert b != [] ==> (a + b)[|a|] == b[0];
    assert |x| == |a|;
    assert x == (x + y)[..|x|] && a == (a + b)[..|a|];
    assert y == (x + y)[|x|..] && b == (a + b)[|a|..];
  }

  // ----- the executor's side -------------------------------------------------------------

  /** What has been logged but not yet broadcast. */
  function InFlight(w: World): seq<Update> {
    match w.executor
    case Logged(update) => [update]
    case Committed(content) =>
      if content.Some? then [Event(TurnCompleted, content.value, Some(Max(|w.log| - 1, 0)))] else []
    case CompletionRead(update) => [update]
    case _ => []
  }

  predicate AfterCommit(executor: Executor) {
    executor.Committed? || executor.CompletionRead? || executor.CompletionSent? || executor.Ended?
  }

  /** Broadcast so far, followed by what is in flight, is exactly the executor's own rows. */
  ghost predicate Accounted(w: World) {
    Keep(IsOwn, w.sent) + InFlight(w) == OwnRows(w.log, 0, |w.log|)
  }

  predicate QuietFrom(sent: seq<Update>, k: nat) {
    forall j :: k <= j < |sent| ==> !IsOwn(sent[j])
  }

  /**
   Only the executor's own updates carry numbers on the channel; once it has committed the run
   has a final status; nothing of its own follows a terminal.
   */
  ghost predicate Closing(w: World) {
    && (forall i :: 0 <= i < |w.sent| && IsNumbered(w.sent[i]) ==> IsOwn(w.sent[i]))
    && (AfterCommit(w.executor) ==> w.status != Active)
    && (forall k :: 0 <= k < |w.sent| && w.sent[k].Terminal? ==>
          (w.executor.Ended? || w.executor.Removed?) && w.status != Active && QuietFrom(w.sent, k))
  }

  lemma OwnRowsPush(log: seq<Row>, row: Row)
    ensures OwnRows(log + [row], 0, |log| + 1) ==
            OwnRows(log, 0, |log|) + (if IsOwnRow(row) then [StoredUpdate(row, |log| + 1).value] else [])
  {
    OwnRowsAppend(log, [row], 0, |log|);
  }

  lemma InFlightIsOwn(w: World)
    requires Accounted(w)
    ensures forall i :: 0 <= i < |InFlight(w)| ==> IsOwn(InFlight(w)[i]) && InFlight(w)[i].seqno.value <= |w.log|
  {
    OwnRowsBounds(w.log, 0, |w.log|);
    forall i | 0 <= i < |InFlight(w)|
      ensures IsOwn(InFlight(w)[i]) && InFlight(w)[i].seqno.value <= |w.log|
    {
      assert InFlight(w)[i] == (Keep(IsOwn, w.sent) + InFlight(w))[|Keep(IsOwn, w.sent)| + i];
    }
  }

  /** Appending a row that is not the executor's own and sending nothing keeps the account. */
  lemma AccountedForeignRow(w: World, w': World, row: Row)
    requires Accounted(w) && w'.sent == w.sent && w'.log == w.log + [row]
    requires !IsOwnRow(row) && InFlight(w') == InFlight(w)
    ensures Accounted(w')
  {
    OwnRowsPush(w.log, row);
  }

  lemma AccountedSend(w: World, w': World, u: Update)
    requires Accounted(w) && w'.sent == w.sent + [u] && w'.log == w.log
    requires InFlight(w) == if IsOwn(u) then [u] + InFlight(w') else InFlight(w')
    ensures Accounted(w')
  {
    KeepPush(IsOwn, w.sent, u);
  }

  lemma AccountedPublishAppend(w: World, kind: Kind, payload: nat)
    requires Accounted(w)
    ensures Accounted(DoPublishAppend(w, kind, payload))
  {
    OwnRowsPush(w.log, Displayed(kind, payload));
  }

  lemma AccountedPublishBroadcast(w: World)
    requires Accounted(w)
    ensures Accounted(DoPublishBroadcast(w))
  {
    if w.executor.Logged? {
      InFlightIsOwn(w);
      assert IsOwn(InFlight(w)[0]);
      AccountedSend(w, DoPublishBroadcast(w), w.executor.update);
    }
  }

  lemma CommittedRows(log: seq<Row>, content: nat)
    ensures var committed := log + [AssistantContent(content)] + [Internal];
            OwnRows(committed, 0, |committed|) ==
            OwnRows(log, 0, |log|) + [Event(TurnCompleted, content, Some(|log| + 1))]
  {
    OwnRowsPush(log, AssistantContent(content));
    OwnRowsPush(log + [AssistantContent(content)], Internal);
  }

  lemma AccountedContent(w: World, w': World, content: nat)
    requires Accounted(w) && InFlight(w) == [] && w'.sent == w.sent && w'.executor == Committed(Some(content))
    requires w'.log == w.log + [AssistantContent(content)] + [Internal]
    ensures Accounted(w')
  {
    CommittedRows(w.log, content);
    assert InFlight(w') == [Event(TurnCompleted, content, Some(|w.log| + 1))];
  }

  lemma AccountedCommit(w: World, content: Option<nat>)
    requires Accounted(w)
    ensures Accounted(DoCommit(w, content))
  {
    if w.executor.Working? && w.status == Active {
      if content.Some? {
        AccountedContent(w, DoCommit(w, content), content.value);
      } else {
        assert w.log + [] == w.log;
        AccountedForeignRow(w, DoCommit(w, content), Internal);
      }
    }
  }

  lemma AccountedBroadcastCompletion(w: World)
    requires Accounted(w)
    ensures Accounted(DoBroadcastCompletion(w))
  {
    if w.executor.CompletionRead? {
      InFlightIsOwn(w);
      assert IsOwn(InFlight(w)[0]);
      AccountedSend(w, DoBroadcastCompletion(w), w.executor.update);
    }
  }

  lemma AccountedBroadcastTerminal(w: World)
    requires Accounted(w)
    ensures Accounted(DoBroadcastTerminal(w))
  {
    if w.executor == Committed(None) || w.executor == CompletionSent {
      AccountedSend(w, DoBroadcastTerminal(w), Terminal(w.status == Completed));
    }
  }

  /** Rows come from elsewhere only while the run is not over, so they never get between content and completion. */
  lemma AccountedAppendElsewhere(w: World, row: Row)
    requires Accounted(w) && Closing(w)
    ensures Accounted(DoAppendElsewhere(w, row))
  {
    if DoAppendElsewhere(w, row) != w {
      AccountedForeignRow(w, DoAppendElsewhere(w, row), row);
    }
  }

  lemma AccountedFinishElsewhere(w: World)
    requires Accounted(w) && Closing(w)
    ensures Accounted(DoFinishElsewhere(w))
  {
    if DoFinishElsewhere(w) != w {
      AccountedForeignRow(w, DoFinishElsewhere(w), Internal);
    }
  }

  lemma AccountedNotify(w: World, kind: Kind, payload: nat)
    requires Accounted(w)
    ensures Accounted(DoNotifyDelegation(w, kind, payload))
  {
    if DoNotifyDelegation(w, kind, payload) != w {
      AccountedSend(w, DoNotifyDelegation(w, kind, payload), Event(kind, payload, None));
    }
  }

  lemma AccountedQuiet(w: World, w': World)
    requires Accounted(w) && w'.sent == w.sent && w'.log == w.log && InFlight(w') == InFlight(w)
    ensures Accounted(w')
  {}

  predicate IsQuiet(step: Step) {
    step.ReadCompletion? || step.Retire? || step.Abandon? || step.RegisterApproval? ||
    step.ResolveApproval? || step.Register? || step.TakeSnapshot? || step.ReadPending? ||
    step.ReplayPage? || step.Receive?
  }

  lemma QuietStep(w: World, step: Step)
    requires IsQuiet(step)
    ensures var w' := Apply(w, step); w'.sent == w.sent && w'.log == w.log && InFlight(w') == InFlight(w)
  {}

  lemma AccountedStep(w: World, step: Step)
    requires Accounted(w) && Closing(w)
    ensures Accounted(Apply(w, step))
  {
    if IsQuiet(step) {
      QuietStep(w, step);
      AccountedQuiet(w, Apply(w, step));
    } else {
      AccountedBusyStep(w, step);
    }
  }

  lemma AccountedBusyStep(w: World, step: Step)
    requires Accounted(w) && Closing(w) && !IsQuiet(step)
    ensures Accounted(Apply(w, step))
  {
    var w' := Apply(w, step);
    match step {
      case PublishAppend(kind, payload) =>
        assert w' == DoPublishAppend(w, kind, payload);
        AccountedPublishAppend(w, kind, payload);
      case PublishBroadcast =>
        assert w' == DoPublishBroadcast(w);
        AccountedPublishBroadcast(w);
      case Commit(content) =>
        assert w' == DoCommit(w, content);
        AccountedCommit(w, content);
      case BroadcastCompletion =>
        assert w' == DoBroadcastCompletion(w);
        AccountedBroadcastCompletion(w);
      case BroadcastTerminal =>
        assert w' == DoBroadcastTerminal(w);
        AccountedBroadcastTerminal(w);
      case AppendElsewhere(row) =>
        assert w' == DoAppendElsewhere(w, row);
        AccountedAppendElsewhere(w, row);
      case FinishElsewhere =>
        assert w' == DoFinishElsewhere(w);
        AccountedFinishElsewhere(w);
      case NotifyDelegation(kind, payload) =>
        assert w' == DoNotifyDelegation(w, kind, payload);
        AccountedNotify(w, kind, payload);
    }
  }

  /** Closing is kept by a step that sends at most one update. */
  lemma ClosingSend(w: World, w': World)
    requires Closing(w)
    requires w'.sent == w.sent || (|w'.sent| == |w.sent| + 1 && w'.sent[..|w.sent|] == w.sent)
    requires AfterCommit(w'.executor) ==> w'.status != Active
    requires w.executor.Ended? || w.executor.Removed? ==>
               && (w'.executor.Ended? || w'.executor.Removed?)
               && QuietFrom(w'.sent, |w.sent|)
    requires (w.executor.Ended? || w.executor.Removed?) && w.status != Active ==> w'.status != Active
    requires |w'.sent| > |w.sent| && w'.sent[|w.sent|].Terminal? ==> w'.executor.Ended?
    requires |w'.sent| > |w.sent| && IsNumbered(w'.sent[|w.sent|]) ==> IsOwn(w'.sent[|w.sent|])
    ensures Closing(w')
  {
    assert forall i :: 0 <= i < |w.sent| ==> w'.sent[..|w.sent|][i] == w.sent[i];
    forall k | 0 <= k < |w'.sent| && w'.sent[k].Terminal?
      ensures (w'.executor.Ended? || w'.executor.Removed?) && w'.status != Active && QuietFrom(w'.sent, k)
    {
      if k < |w.sent| {
        assert w.sent[k] == w'.sent[..|w.sent|][k];
        assert QuietFrom(w.sent, k);
        forall j | k <= j < |w'.sent| ensures !IsOwn(w'.sent[j]) {
          if j < |w.sent| { assert w.sent[j] == w'.sent[..|w.sent|][j]; }
        }
      }
    }
  }

  lemma ClosingQuietStep(w: World, step: Step)
    requires Closing(w) && IsQuiet(step)
    ensures Closing(Apply(w, step))
  {
    QuietStep(w, step);
    ClosingSend(w, Apply(w, step));
  }

  lemma ClosingBroadcast(w: World)
    requires Closing(w) && Accounted(w)
    ensures Closing(DoPublishBroadcast(w))
    ensures Closing(DoBroadcastCompletion(w))
    ensures Closing(DoBroadcastTerminal(w))
  {
    InFlightIsOwn(w);
    assert w.executor.Logged? || w.executor.CompletionRead? ==> IsOwn(InFlight(w)[0]);
    ClosingSend(w, DoPublishBroadcast(w));
    ClosingSend(w, DoBroadcastCompletion(w));
    ClosingSend(w, DoBroadcastTerminal(w));
  }

  lemma ClosingStep(w: World, step: Step)
    requires Closing(w) && Accounted(w)
    ensures Closing(Apply(w, step))
  {
    if IsQuiet(step) {
      ClosingQuietStep(w, step);
    } else if step.PublishBroadcast? || step.BroadcastCompletion? || step.BroadcastTerminal? {
      ClosingBroadcast(w);
    } else {
      ClosingSend(w, Apply(w, step));
    }
  }
}

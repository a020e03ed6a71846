/**
 Every interleaving of tools opening approvals and giving up, the event task logging them, receivers
 being dropped, runs finishing, and control requests that answer or cancel under the control lock.
 A run is a sequence of steps; a step that is not enabled changes nothing.
 */
module ApprovalProtocol {
  import opened Basics
  import opened Approvals

  datatype Lock =
    | Free
    | Answering(id: Id, approved: bool, row: Interaction, revision: int)
    | Repairing(id: Id)
    | Cancelling(session: SessionId, request: RequestId)

  /** `swept` collects the waiters refused by a cancellation. */
  datatype World = World(broker: Broker, store: Store, lock: Lock, swept: set<Id>)

  datatype Step =
    | OpenApproval(session: Option<SessionId>, request: RequestId)
    | LogApproval(id: Id, owner: SessionId, run: RunId)
    | LoseReceiver(id: Id)
    | GiveUp(id: Id)
    | FinishRun(run: RunId)
    | BeginAnswer(id: Id, approved: bool, expected: Option<int>)
    | FinishAnswer
    | Repair
    | BeginCancel(of: SessionId, requested: RequestId)
    | Sweep

  const Initial := World(Broker(0, map[], map[], {}), Store(map[], map[]), Free, {})

  function Finish(st: Store, run: RunId): Store {
    Store(map id | id in st.rows ::
            if st.rows[id].run == run && st.rows[id].answer == Unanswered
            then st.rows[id].(answer := Orphaned, revision := st.rows[id].revision + 1) else st.rows[id],
          st.runs[run := Finished])
  }

  predicate IsDecided(row: Interaction) {
    row.answer == Answered || row.answer == Rejected
  }

  /**
   A control request that has read the row claims it and wakes the waiter.  When that fails it looks at
   the row again before it lets go of the lock.
   */
  function Answer(w: World): World
    requires w.lock.Answering?
  {
    var (id, approved, row) := (w.lock.id, w.lock.approved, w.lock.row);
    if row.answer == Unanswered then
      var (broker, store, accepted) := Respond(w.broker, w.store, id, approved, row.session, row.run, w.lock.revision);
      w.(broker := broker, store := store, lock := if accepted then Free else Repairing(id))
    else w.(store := Claim(w.store, id, row.session, row.run, w.lock.revision, approved).0, lock := Free)
  }

  /** A row that was decided although nobody could be told ends its run. */
  function Repaired(w: World): World
    requires w.lock.Repairing?
  {
    if w.lock.id in w.store.rows && IsDecided(w.store.rows[w.lock.id])
    then w.(store := Finish(w.store, w.store.rows[w.lock.id].run), lock := Free)
    else w.(lock := Free)
  }

  function Apply(w: World, step: Step): World {
    match step
    case OpenApproval(session, request) => w.(broker := Open(w.broker, Waiter(session, request)))
    case LogApproval(id, owner, run) =>
      if id < w.broker.nextId && id !in w.store.rows
      then w.(store := Store(w.store.rows[id := Interaction(owner, run, Unanswered, 0, None)],
                             w.store.runs[run := WaitingInteraction]))
      else w
    case LoseReceiver(id) => if id < w.broker.nextId then w.(broker := w.broker.(gone := w.broker.gone + {id})) else w
    case GiveUp(id) => if id < w.broker.nextId then w.(broker := Withdraw(w.broker, id)) else w
    case FinishRun(run) => w.(store := Finish(w.store, run))
    case BeginAnswer(id, approved, expected) =>
      if w.lock.Free? && id in w.store.rows
      then w.(lock := Answering(id, approved, w.store.rows[id],
                                if expected.Some? then expected.value else w.store.rows[id].revision))
      else w
    case FinishAnswer => if w.lock.Answering? then Answer(w) else w
    case Repair => if w.lock.Repairing? then Repaired(w) else w
    case BeginCancel(of, requested) => if w.lock.Free? then w.(lock := Cancelling(of, requested)) else w
    case Sweep =>
      if w.lock.Cancelling?
      then var ids := Matching(w.broker, Some(w.lock.session), w.lock.request);
           w.(broker := Refuse(w.broker, ids), swept := w.swept + ids, lock := Free)
      else w
  }

  function Exec(w: World, steps: seq<Step>): World {
    if |steps| == 0 then w else Apply(Exec(w, steps[..|steps| - 1]), steps[|steps| - 1])
  }

  // ----- the invariant -------------------------------------------------------------------------

  /** A waiter in the map has been sent nothing yet. */
  ghost predicate BrokerInv(b: Broker) {
    && (forall id :: id in b.pending ==> id < b.nextId && Sent(b, id) == [])
    && (forall id :: id in b.delivered ==> id < b.nextId)
    && (forall id :: id in b.gone ==> id < b.nextId)
  }

  /** A run with an unanswered interaction is waiting. */
  ghost predicate WaitInv(st: Store) {
    forall id :: id in st.rows && st.rows[id].answer == Unanswered ==>
      st.rows[id].run in st.runs && st.runs[st.rows[id].run] == WaitingInteraction
  }

  ghost predicate RowInv(row: Interaction) {
    && (IsDecided(row) <==> row.response.Some?)
    && (row.answer == Answered <==> row.response == Some(true))
    && (row.answer == Rejected <==> row.response == Some(false))
  }

  /** How one approval's durable row, its waiter and the sweeps agree. */
  ghost predicate ApprovalInv(w: World, id: Id) {
    && |Sent(w.broker, id)| <= 1
    && (id in w.store.rows ==>
          && id < w.broker.nextId && RowInv(w.store.rows[id])
          && (w.store.rows[id].response.Some? ==>
                id !in w.broker.pending &&
                (Sent(w.broker, id) == [w.store.rows[id].response.value] ||
                 (Sent(w.broker, id) == [] && id in w.broker.gone))))
    && (id in w.swept ==> id < w.broker.nextId && id !in w.broker.pending && true !in Sent(w.broker, id))
    && (true in Sent(w.broker, id) ==> id in w.store.rows && w.store.rows[id].response == Some(true))
  }

  /** The row read under the control lock may be orphaned since, but nobody else answers it. */
  ghost predicate LockInv(w: World) {
    w.lock.Answering? ==>
      && w.lock.id in w.store.rows
      && var row := w.store.rows[w.lock.id];
         && row.session == w.lock.row.session && row.run == w.lock.row.run
         && (w.lock.row.answer == Unanswered ==> row.response.None?)
         && (w.lock.row.answer != Unanswered ==> row.answer != Unanswered)
  }

  ghost predicate Inv(w: World) {
    BrokerInv(w.broker) && WaitInv(w.store) && LockInv(w) && forall id :: ApprovalInv(w, id)
  }

  lemma FinishKeepsInv(w: World, run: RunId)
    requires Inv(w)
    ensures Inv(w.(store := Finish(w.store, run)))
  {
    var w' := w.(store := Finish(w.store, run));
    forall id ensures ApprovalInv(w', id) {
      assert ApprovalInv(w, id);
    }
  }

  lemma RespondKeepsInv(w: World, id: Id, approved: bool, session: SessionId, run: RunId, revision: int)
    requires Inv(w)
    ensures var (broker, store, _) := Respond(w.broker, w.store, id, approved, session, run, revision);
            Inv(w.(broker := broker, store := store, lock := Free))
  {
    var (broker, store, _) := Respond(w.broker, w.store, id, approved, session, run, revision);
    assert ApprovalInv(w, id);
    forall other ensures ApprovalInv(w.(broker := broker, store := store, lock := Free), other) {
      assert ApprovalInv(w, other);
    }
  }

  lemma LockKeepsInv(w: World, lock: Lock)
    requires Inv(w) && !lock.Answering?
    ensures Inv(w.(lock := lock))
  {
    forall id ensures ApprovalInv(w.(lock := lock), id) {
      assert ApprovalInv(w, id);
    }
  }

  lemma BeginKeepsInv(w: World, w': World, id: Id)
    requires Inv(w) && w' == w.(lock := w'.lock)
    requires w'.lock == w.lock ||
             (w'.lock.Answering? && w'.lock.id == id && id in w.store.rows && w'.lock.row == w.store.rows[id])
    ensures Inv(w')
  {
    assert ApprovalInv(w, id);
    forall other ensures ApprovalInv(w', other) {
      assert ApprovalInv(w, other);
    }
  }

  lemma AnswerKeepsInv(w: World)
    requires Inv(w) && w.lock.Answering?
    ensures Inv(Answer(w))
  {
    var (id, approved, row) := (w.lock.id, w.lock.approved, w.lock.row);
    if row.answer == Unanswered {
      var (broker, store, _) := Respond(w.broker, w.store, id, approved, row.session, row.run, w.lock.revision);
      RespondKeepsInv(w, id, approved, row.session, row.run, w.lock.revision);
      LockKeepsInv(w.(broker := broker, store := store, lock := Free), Answer(w).lock);
    } else {
      assert Claim(w.store, id, row.session, row.run, w.lock.revision, approved).0 == w.store;
      LockKeepsInv(w, Free);
    }
  }

  lemma RepairKeepsInv(w: World)
    requires Inv(w) && w.lock.Repairing?
    ensures Inv(Repaired(w))
  {
    LockKeepsInv(w, Free);
    if w.lock.id in w.store.rows {
      FinishKeepsInv(w.(lock := Free), w.store.rows[w.lock.id].run);
    }
  }

  lemma SweepKeepsInv(w: World, ids: set<Id>)
    requires Inv(w) && forall id :: id in ids ==> id in w.broker.pending
    ensures Inv(w.(broker := Refuse(w.broker, ids), swept := w.swept + ids, lock := Free))
  {
    var w' := w.(broker := Refuse(w.broker, ids), swept := w.swept + ids, lock := Free);
    forall id ensures ApprovalInv(w', id) {
      assert ApprovalInv(w, id);
    }
  }

  lemma InvStep(w: World, step: Step)
    requires Inv(w)
    ensures Inv(Apply(w, step))
  {
    var w' := Apply(w, step);
    match step {
      case FinishRun(run) => FinishKeepsInv(w, run);
      case BeginAnswer(id, _, _) => BeginKeepsInv(w, w', id);
      case FinishAnswer => if w.lock.Answering? { AnswerKeepsInv(w); }
      case Repair => if w.lock.Repairing? { RepairKeepsInv(w); }
      case Sweep =>
        if w.lock.Cancelling? {
          SweepKeepsInv(w, Matching(w.broker, Some(w.lock.session), w.lock.request));
        }
      case _ =>
        forall id ensures ApprovalInv(w', id) {
          assert ApprovalInv(w, id);
        }
    }
  }

  lemma {:induction false} InvAlways(steps: seq<Step>)
    ensures Inv(Exec(Initial, steps))
  {
    if |steps| > 0 {
      InvAlways(steps[..|steps| - 1]);
      InvStep(Exec(Initial, steps[..|steps| - 1]), steps[|steps| - 1]);
    }
  }

  // ----- what follows for every interleaving ------------------------------------------------------

  ghost predicate Reachable(w: World) {
    exists steps :: w == Exec(Initial, steps)
  }

  /** Each waiter is sent at most one answer, and `true` only after a durable approval of its own row. */
  lemma AnswersAreClaimed(w: World, id: Id)
    requires Reachable(w)
    ensures |Sent(w.broker, id)| <= 1
    ensures true in Sent(w.broker, id) ==> id in w.store.rows && w.store.rows[id].response == Some(true)
  {
    var steps :| w == Exec(Initial, steps);
    InvAlways(steps);
    assert ApprovalInv(w, id);
  }

  /** A durable answer is what its waiter was sent, unless the waiter was no longer listening. */
  lemma DurableAnswerIsDelivered(w: World, id: Id)
    requires Reachable(w) && id in w.store.rows && w.store.rows[id].response.Some?
    ensures id !in w.broker.pending
    ensures Sent(w.broker, id) == [w.store.rows[id].response.value] || (Sent(w.broker, id) == [] && id in w.broker.gone)
  {
    var steps :| w == Exec(Initial, steps);
    InvAlways(steps);
    assert ApprovalInv(w, id);
  }

  /** A waiter refused by a cancellation is never approved, then or later. */
  lemma SweptIsNeverApproved(w: World, id: Id)
    requires Reachable(w) && id in w.swept
    ensures id !in w.broker.pending && true !in Sent(w.broker, id)
  {
    var steps :| w == Exec(Initial, steps);
    InvAlways(steps);
    assert ApprovalInv(w, id);
  }

  /**
   A sweep refuses exactly the open waiters of its own session and request, and only those that
   still listen hear of it; a waiter of another session keeps its place even if the request ids repeat.
   */
  lemma SweepIsScoped(w: World, id: Id)
    requires w.lock.Cancelling?
    ensures var w' := Apply(w, Sweep);
            var hit := id in w.broker.pending &&
                       w.broker.pending[id] == Waiter(Some(w.lock.session), w.lock.request);
            && (hit ==> id !in w'.broker.pending && id in w'.swept)
            && (!hit ==>
                  && (id in w'.broker.pending <==> id in w.broker.pending)
                  && Sent(w'.broker, id) == Sent(w.broker, id))
            && (hit && id !in w.broker.gone ==> Sent(w'.broker, id) == Sent(w.broker, id) + [false])
  {}

  /** An opened approval that has left the map is decided for good. */
  lemma DecidedStep(w: World, step: Step, id: Id)
    requires id < w.broker.nextId && id !in w.broker.pending
    ensures var w' := Apply(w, step);
            id < w'.broker.nextId && id !in w'.broker.pending && Sent(w'.broker, id) == Sent(w.broker, id)
  {}

  lemma {:induction false} DecidedIsFinal(w: World, later: seq<Step>, id: Id)
    requires id < w.broker.nextId && id !in w.broker.pending
    ensures var w' := Exec(w, later);
            id < w'.broker.nextId && id !in w'.broker.pending && Sent(w'.broker, id) == Sent(w.broker, id)
  {
    if |later| > 0 {
      DecidedIsFinal(w, later[..|later| - 1], id);
      DecidedStep(Exec(w, later[..|later| - 1]), later[|later| - 1], id);
    }
  }

  /** A request that gives up is not answered any more. */
  lemma GivenUpIsNeverAnswered(w: World, id: Id, later: seq<Step>)
    requires id < w.broker.nextId
    ensures var v := Exec(Apply(w, GiveUp(id)), later);
            id !in v.broker.pending && Sent(v.broker, id) == Sent(w.broker, id)
  {
    DecidedIsFinal(Apply(w, GiveUp(id)), later, id);
  }

  /**
   A control request whose answer was stored but could not be delivered ends the run of the interaction before
   it lets go of the lock; one whose answer was delivered, or not stored, ends no run.
   */
  lemma UndeliveredAnswerEndsItsRun(w: World)
    requires Reachable(w) && w.lock.Answering? && w.lock.row.answer == Unanswered
    ensures var (answered, id) := (Apply(w, FinishAnswer), w.lock.id);
            var repaired := Apply(answered, Repair);
            && id in w.store.rows && repaired.lock == Free
            && (answered.lock == Free <==> Sent(answered.broker, id) != Sent(w.broker, id))
            && (answered.lock == Free ==> answered.store.rows[id].response == Some(w.lock.approved))
            && (answered.lock != Free ==>
                  var run := answered.store.rows[id].run;
                  if answered.store.rows[id].response.Some?
                  then run in repaired.store.runs && repaired.store.runs[run] == Finished && id in w.broker.gone
                  else repaired.store == w.store && repaired.broker == w.broker)
  {
    var steps :| w == Exec(Initial, steps);
    InvAlways(steps);
    assert ApprovalInv(w, w.lock.id);
    assert Apply(w, FinishAnswer) == Answer(w);
  }

  lemma {:induction false} NextIdGrows(w: World, later: seq<Step>)
    ensures Exec(w, later).broker.nextId >= w.broker.nextId
  {
    if |later| > 0 {
      NextIdGrows(w, later[..|later| - 1]);
    }
  }

  /**
   Cancelling: whoever was opened for the run before its sweep is, from the sweep on, never sent
   anything more, so it can no longer be answered true.
   */
  lemma SweepEndsApprovals(w: World, id: Id, later: seq<Step>)
    requires Reachable(w) && w.lock.Cancelling? && id < w.broker.nextId
    requires id in w.broker.pending ==>
               w.broker.pending[id] == Waiter(Some(w.lock.session), w.lock.request)
    ensures var swept := Apply(w, Sweep);
            && Sent(Exec(swept, later).broker, id) == Sent(swept.broker, id)
            && (id in w.broker.pending ==> true !in Sent(Exec(swept, later).broker, id))
  {
    SweepIsScoped(w, id);
    DecidedIsFinal(Apply(w, Sweep), later, id);
    if id in w.broker.pending {
      var steps :| w == Exec(Initial, steps);
      InvAlways(steps);
      InvStep(w, Sweep);
      assert ApprovalInv(Apply(w, Sweep), id);
    }
  }

  // ----- what can still be approved ----------------------------------------------------------------

  ghost predicate Leads(w0: World, w: World) {
    exists steps :: Exec(w0, steps) == w
  }

  lemma LeadsStep(w0: World, w: World, step: Step)
    requires Leads(w0, w)
    ensures Leads(w0, Apply(w, step))
  {
    var steps :| Exec(w0, steps) == w;
    assert (steps + [step])[..|steps + [step]| - 1] == steps;
    assert Exec(w0, steps + [step]) == Apply(w, step);
  }

  lemma LeadsNowhere(w0: World)
    ensures Leads(w0, w0)
  {
    assert Exec(w0, []) == w0;
  }

  lemma {:induction false} ExecTwice(w0: World, first: seq<Step>, second: seq<Step>)
    ensures Exec(w0, first + second) == Exec(Exec(w0, first), second)
  {
    if |second| == 0 {
      assert first + second == first;
    } else {
      assert (first + second)[..|first + second| - 1] == first + second[..|second| - 1];
      ExecTwice(w0, first, second[..|second| - 1]);
    }
  }

  lemma ReachableLeads(w0: World, w: World)
    requires Reachable(w0) && Leads(w0, w)
    ensures Reachable(w) && Inv(w)
  {
    var first :| w0 == Exec(Initial, first);
    var second :| Exec(w0, second) == w;
    ExecTwice(Initial, first, second);
    InvAlways(first + second);
  }

  /** Some later steps answer the waiter with true. */
  ghost predicate CanBeApproved(w: World, id: Id) {
    exists v :: Leads(w, v) && true in Sent(v.broker, id)
  }

  /** An open approval that listens, and whose interaction, if it is logged already, is unanswered. */
  predicate Answerable(w: World, id: Id) {
    && id in w.broker.pending && id !in w.broker.gone
    && (id in w.store.rows ==> w.store.rows[id].answer == Unanswered)
  }

  /** An opened approval that is not answerable any more never becomes so, and is not sent true. */
  ghost predicate Dead(w: World, id: Id) {
    id < w.broker.nextId && !Answerable(w, id) && true !in Sent(w.broker, id)
  }

  lemma NoClaimOnTheDead(w: World, id: Id, approved: bool, session: SessionId, run: RunId, revision: int)
    requires Inv(w) && Dead(w, id) && id in w.broker.pending
    ensures Claim(w.store, id, session, run, revision, approved).1 ==> id in w.broker.gone
  {
    assert ApprovalInv(w, id);
  }

  lemma DeadRespond(w: World, other: Id, approved: bool, session: SessionId, run: RunId, revision: int, id: Id)
    requires Inv(w) && Dead(w, id)
    ensures var (broker, store, _) := Respond(w.broker, w.store, other, approved, session, run, revision);
            Dead(w.(broker := broker, store := store, lock := Free), id)
  {
    if other == id && id in w.broker.pending {
      NoClaimOnTheDead(w, id, approved, session, run, revision);
    }
  }

  lemma DeadFinish(w: World, run: RunId, id: Id)
    requires Dead(w, id)
    ensures Dead(w.(store := Finish(w.store, run)), id)
  {}

  lemma DeadAnswer(w: World, id: Id)
    requires Inv(w) && Dead(w, id) && w.lock.Answering?
    ensures Dead(Answer(w), id)
  {
    var (other, approved, row) := (w.lock.id, w.lock.approved, w.lock.row);
    if row.answer == Unanswered {
      var (broker, store, _) := Respond(w.broker, w.store, other, approved, row.session, row.run, w.lock.revision);
      DeadRespond(w, other, approved, row.session, row.run, w.lock.revision, id);
    } else {
      assert Claim(w.store, other, row.session, row.run, w.lock.revision, approved).0 == w.store;
    }
  }

  lemma DeadStep(w: World, step: Step, id: Id)
    requires Inv(w) && Dead(w, id)
    ensures Dead(Apply(w, step), id)
  {
    match step
    case FinishRun(run) => DeadFinish(w, run, id);
    case FinishAnswer => if w.lock.Answering? { DeadAnswer(w, id); }
    case Repair =>
      if w.lock.Repairing? && w.lock.id in w.store.rows {
        DeadFinish(w, w.store.rows[w.lock.id].run, id);
      }
    case _ =>
  }

  /** Whoever holds the control lock is about to end the approval: it refuses it, sweeps it or ends its run. */
  ghost predicate Blocked(w: World, id: Id) {
    match w.lock
    case Free => false
    case Answering(other, approved, row, revision) =>
      other == id && !approved && id in w.store.rows && w.store.rows[id].revision == revision
    case Repairing(other) =>
      && id in w.store.rows && other in w.store.rows && IsDecided(w.store.rows[other])
      && w.store.rows[other].run == w.store.rows[id].run
    case Cancelling(session, request) => id in w.broker.pending && Matches(w.broker.pending[id], Some(session), request)
  }

  ghost predicate Barred(w: World, id: Id) {
    Dead(w, id) || (Answerable(w, id) && Blocked(w, id))
  }

  lemma BlockedAnswer(w: World, id: Id)
    requires Inv(w) && Answerable(w, id) && Blocked(w, id) && w.lock.Answering?
    ensures Dead(Answer(w), id)
  {
    assert ApprovalInv(w, id);
    var row := w.store.rows[id];
    assert Claim(w.store, id, row.session, row.run, row.revision, false).1;
    assert Sent(Resolve(w.broker, id, false), id) == [false];
  }

  lemma BlockedStep(w: World, step: Step, id: Id)
    requires Inv(w) && Answerable(w, id) && Blocked(w, id)
    ensures Barred(Apply(w, step), id)
  {
    assert ApprovalInv(w, id);
    match step
    case FinishAnswer => if w.lock.Answering? { BlockedAnswer(w, id); }
    case _ =>
  }

  lemma {:induction false} BarredForGood(w: World, later: seq<Step>, id: Id)
    requires Inv(w) && Barred(w, id)
    ensures Inv(Exec(w, later)) && Barred(Exec(w, later), id)
  {
    if |later| > 0 {
      BarredForGood(w, later[..|later| - 1], id);
      var v := Exec(w, later[..|later| - 1]);
      InvStep(v, later[|later| - 1]);
      if Dead(v, id) {
        DeadStep(v, later[|later| - 1], id);
      } else {
        BlockedStep(v, later[|later| - 1], id);
      }
    }
  }

  /** Answering a logged, answerable approval with true under a free lock reaches its waiter. */
  lemma AnswerIsSent(w: World, id: Id)
    requires Inv(w) && w.lock.Free? && Answerable(w, id) && id in w.store.rows
    ensures Sent(Apply(Apply(w, BeginAnswer(id, true, None)), FinishAnswer).broker, id) == [true]
  {
    var row := w.store.rows[id];
    assert ApprovalInv(w, id);
    var w1 := w.(lock := Answering(id, true, row, row.revision));
    assert Apply(w, BeginAnswer(id, true, None)) == w1;
    assert Claim(w.store, id, row.session, row.run, row.revision, true).1;
    assert Sent(Resolve(w.broker, id, true), id) == [true];
    assert Apply(w1, FinishAnswer) == Answer(w1);
  }

  /** The session an approval is logged under is that of its waiter, when it has one. */
  function OwnerOf(waiter: Waiter): SessionId {
    if waiter.session.Some? then waiter.session.value else 0
  }

  /** Under a free lock: logging what is not logged yet, under whatever run, and then answering it. */
  lemma AnswerableIsApproved(w0: World, w: World, id: Id, run: RunId)
    requires Reachable(w0) && Leads(w0, w) && w.lock.Free? && Answerable(w, id)
    ensures CanBeApproved(w0, id)
  {
    ReachableLeads(w0, w);
    var w1 := w;
    if id !in w.store.rows {
      LeadsStep(w0, w, LogApproval(id, OwnerOf(w.broker.pending[id]), run));
      w1 := Apply(w, LogApproval(id, OwnerOf(w.broker.pending[id]), run));
    }
    ReachableLeads(w0, w1);
    AnswerIsSent(w1, id);
    LeadsStep(w0, w1, BeginAnswer(id, true, None));
    LeadsStep(w0, Apply(w1, BeginAnswer(id, true, None)), FinishAnswer);
  }

  /** A holder that is not about to end the approval can let go of the lock and leave it answerable. */
  lemma RepairLeaves(w0: World, w: World, id: Id, run: RunId)
    requires Reachable(w0) && Leads(w0, w) && w.lock.Repairing? && Answerable(w, id) && !Blocked(w, id)
    ensures CanBeApproved(w0, id)
  {
    LeadsStep(w0, w, Repair);
    AnswerableIsApproved(w0, Repaired(w), id, run);
  }

  lemma SweepLeaves(w: World, id: Id, run: RunId)
    requires Reachable(w) && w.lock.Cancelling? && Answerable(w, id) && !Blocked(w, id)
    ensures CanBeApproved(w, id)
  {
    LeadsNowhere(w);
    LeadsStep(w, w, Sweep);
    AnswerableIsApproved(w, Apply(w, Sweep), id, run);
  }

  /** The holder answers another approval, whose request gives up before it is told. */
  lemma OtherAnswerLeaves(w: World, id: Id, run: RunId)
    requires Reachable(w) && w.lock.Answering? && w.lock.id != id && Answerable(w, id)
    ensures CanBeApproved(w, id)
  {
    LeadsNowhere(w);
    ReachableLeads(w, w);
    assert ApprovalInv(w, w.lock.id) && ApprovalInv(w, id);
    LeadsStep(w, w, GiveUp(w.lock.id));
    var w1 := w.(broker := Withdraw(w.broker, w.lock.id));
    assert Apply(w, GiveUp(w.lock.id)) == w1;
    LeadsStep(w, w1, FinishAnswer);
    if w.lock.row.answer == Unanswered {
      assert Answer(w1) == w1.(lock := Repairing(w.lock.id));
      RepairLeaves(w, Answer(w1), id, run);
    } else {
      assert Answer(w1) == w1.(lock := Free);
      AnswerableIsApproved(w, Answer(w1), id, run);
    }
  }

  /** The holder answers this approval, with true or under an outdated revision. */
  lemma OwnAnswerLeaves(w: World, id: Id, run: RunId)
    requires Reachable(w) && w.lock.Answering? && w.lock.id == id && Answerable(w, id) && !Blocked(w, id)
    ensures CanBeApproved(w, id)
  {
    LeadsNowhere(w);
    ReachableLeads(w, w);
    assert ApprovalInv(w, id);
    LeadsStep(w, w, FinishAnswer);
    var row := w.store.rows[id];
    if w.lock.revision == row.revision {
      assert Claim(w.store, id, row.session, row.run, row.revision, true).1;
      assert Sent(Resolve(w.broker, id, true), id) == [true];
      assert true in Sent(Apply(w, FinishAnswer).broker, id);
    } else {
      assert Answer(w) == w.(lock := Repairing(id));
      RepairLeaves(w, Answer(w), id, run);
    }
  }

  /**
   From every reachable state, an opened approval can be answered true later exactly when it was so
   already, or it is still open, its receiver listens, its interaction is not orphaned, and whoever holds
   the control lock is not about to end it.
   */
  lemma ApprovableExactly(w: World, id: Id)
    requires Reachable(w) && id < w.broker.nextId
    ensures CanBeApproved(w, id) <==> true in Sent(w.broker, id) || (Answerable(w, id) && !Blocked(w, id))
  {
    LeadsNowhere(w);
    ReachableLeads(w, w);
    if Answerable(w, id) && !Blocked(w, id) {
      match w.lock
      case Free => AnswerableIsApproved(w, w, id, 0);
      case Answering(other, _, _, _) =>
        if other == id { OwnAnswerLeaves(w, id, 0); } else { OtherAnswerLeaves(w, id, 0); }
      case Repairing(_) => RepairLeaves(w, w, id, 0);
      case Cancelling(_, _) => SweepLeaves(w, id, 0);
    } else if true !in Sent(w.broker, id) {
      forall v | Leads(w, v) ensures true !in Sent(v.broker, id) {
        var later :| Exec(w, later) == v;
        BarredForGood(w, later, id);
      }
    }
  }

  // ----- what can be approved after the cancellation -------------------------------------------------

  predicate OpenFor(w: World, id: Id, session: SessionId, request: RequestId) {
    id in w.broker.pending && w.broker.pending[id] == Waiter(Some(session), request)
  }

  /** An id that has been given out is not opened again. */
  lemma NotOpenedAgain(w: World, step: Step, id: Id, session: SessionId, request: RequestId)
    requires id < w.broker.nextId && !OpenFor(w, id, session, request)
    ensures var w' := Apply(w, step);
            w.broker.nextId <= w'.broker.nextId && !OpenFor(w', id, session, request)
  {
  }

  /** After its sweep, a request's open approvals are those opened after the sweep. */
  lemma {:induction false} OpenSinceTheSweep(w: World, later: seq<Step>, id: Id)
    requires w.lock.Cancelling? && id < w.broker.nextId
    ensures Exec(Apply(w, Sweep), later).broker.nextId >= w.broker.nextId
    ensures !OpenFor(Exec(Apply(w, Sweep), later), id, w.lock.session, w.lock.request)
  {
    if |later| > 0 {
      OpenSinceTheSweep(w, later[..|later| - 1], id);
      NotOpenedAgain(Exec(Apply(w, Sweep), later[..|later| - 1]), later[|later| - 1], id,
                     w.lock.session, w.lock.request);
    }
  }

  /** Opening approvals for the request until one gets the id. */
  lemma {:induction false} LeadsOpen(w0: World, w: World, waiter: Waiter, n: nat) returns (v: World)
    requires Leads(w0, w)
    ensures Leads(w0, v) && v.lock == w.lock && v.store == w.store && v.broker.gone == w.broker.gone
    ensures v.broker.nextId == w.broker.nextId + n
    ensures n > 0 ==> v.broker.nextId - 1 in v.broker.pending && v.broker.pending[v.broker.nextId - 1] == waiter
  {
    v := w;
    if n > 0 {
      var before := LeadsOpen(w0, w, waiter, n - 1);
      LeadsStep(w0, before, OpenApproval(waiter.session, waiter.request));
      v := Apply(before, OpenApproval(waiter.session, waiter.request));
    }
  }

  /**
   Cancelling a run: an approval of its session and request can be open and be answered true after the
   sweep exactly when it is opened after the sweep.
   */
  lemma ApprovedAfterSweepExactly(w: World, id: Id)
    requires Reachable(w) && w.lock.Cancelling?
    ensures (exists v :: Leads(Apply(w, Sweep), v) && OpenFor(v, id, w.lock.session, w.lock.request) &&
              CanBeApproved(v, id))
            <==> w.broker.nextId <= id
  {
    var swept := Apply(w, Sweep);
    LeadsNowhere(w);
    LeadsStep(w, w, Sweep);
    ReachableLeads(w, swept);
    LeadsNowhere(swept);
    if w.broker.nextId <= id {
      var v := LeadsOpen(swept, swept, Waiter(Some(w.lock.session), w.lock.request), id + 1 - w.broker.nextId);
      ReachableLeads(swept, v);
      assert ApprovalInv(swept, id);
      LeadsNowhere(v);
      AnswerableIsApproved(v, v, id, 0);
    } else {
      forall v | Leads(swept, v) ensures !OpenFor(v, id, w.lock.session, w.lock.request) {
        var later :| Exec(swept, later) == v;
        OpenSinceTheSweep(w, later, id);
      }
    }
  }

  /**
   And the one that is open at some moment after the sweep was opened after it, and can be answered true
   exactly when its receiver is alive, its interaction is not orphaned, and no other control request is
   about to end it.
   */
  lemma OpenAfterSweepExactly(w: World, v: World, id: Id)
    requires Reachable(w) && w.lock.Cancelling? && Leads(Apply(w, Sweep), v)
    requires OpenFor(v, id, w.lock.session, w.lock.request)
    ensures w.broker.nextId <= id
    ensures CanBeApproved(v, id) <==>
            && id !in v.broker.gone && (id in v.store.rows ==> v.store.rows[id].answer == Unanswered)
            && !Blocked(v, id)
  {
    var later :| Exec(Apply(w, Sweep), later) == v;
    if id < w.broker.nextId {
      OpenSinceTheSweep(w, later, id);
    }
    LeadsNowhere(w);
    LeadsStep(w, w, Sweep);
    ReachableLeads(w, Apply(w, Sweep));
    ReachableLeads(Apply(w, Sweep), v);
    assert ApprovalInv(v, id);
    ApprovableExactly(v, id);
  }

  // ----- a run that does -------------------------------------------------------------------------------

  lemma ReachableStep(w: World, step: Step)
    requires Reachable(w)
    ensures Reachable(Apply(w, step))
  {
    LeadsNowhere(w);
    LeadsStep(w, w, step);
    ReachableLeads(w, Apply(w, step));
  }

  /** The sweep of session 1, request 9 is over; a tool of that same run then opens approval 0. */
  lemma OpensAfterSweep() returns (w: World)
    ensures Reachable(w) && w.lock == Free
    ensures w.broker == Broker(1, map[0 := Waiter(Some(1), 9)], map[], {})
    ensures w.store == Store(map[0 := Interaction(1, 7, Unanswered, 0, None)], map[7 := WaitingInteraction])
  {
    assert Exec(Initial, []) == Initial;
    ReachableStep(Initial, BeginCancel(1, 9));
    var w1 := Apply(Initial, BeginCancel(1, 9));
    ReachableStep(w1, Sweep);
    var w2 := Apply(w1, Sweep);
    assert Matching(w1.broker, Some(1), 9) == {};
    assert w2.broker.pending == map[] && w2.broker.delivered == map[];
    ReachableStep(w2, OpenApproval(Some(1), 9));
    var w3 := Apply(w2, OpenApproval(Some(1), 9));
    ReachableStep(w3, LogApproval(0, 1, 7));
    w := Apply(w3, LogApproval(0, 1, 7));
  }

  /**
   The sweep protects only what was already open: an approval the cancelled run opens afterwards
   can still be answered true.
   */
  lemma OpenedAfterSweepCanBeApproved()
    ensures exists w :: Reachable(w) && Sent(w.broker, 0) == [true]
  {
    var w := OpensAfterSweep();
    ReachableStep(w, BeginAnswer(0, true, None));
    var w1 := w.(lock := Answering(0, true, w.store.rows[0], 0));
    assert Apply(w, BeginAnswer(0, true, None)) == w1;
    ReachableStep(w1, FinishAnswer);
    var w2 := Apply(w1, FinishAnswer);
    var (claimed, granted) := Claim(w.store, 0, 1, 7, 0, true);
    assert granted;
    assert Sent(Resolve(w.broker, 0, true), 0) == [true];
    assert w2 == Answer(w1);
    assert Sent(w2.broker, 0) == [true];
  }
}

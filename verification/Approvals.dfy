/**
 Approval requests: a tool that needs consent parks a waiter in the broker, a control request
 claims the durable interaction row and then wakes the waiter, and cancelling a run sweeps its
 waiters with a refusal.  The broker's map is locked per operation; answering and cancelling
 also exclude each other through the control lock, while opening, logging and finishing do not.
 */
module Approvals {
  import opened Basics

  type Id = nat
  type SessionId = nat
  type RequestId = nat
  type RunId = nat

  // ----- the broker ------------------------------------------------------------------------

  datatype Waiter = Waiter(session: Option<SessionId>, request: RequestId)

  /**
   `delivered` is what each waiter was sent, in order; `gone` are waiters whose receiver was
   dropped, to which a send fails.
   */
  datatype Broker = Broker(nextId: nat, pending: map<Id, Waiter>, delivered: map<Id, seq<bool>>, gone: set<Id>)

  function Sent(b: Broker, id: Id): seq<bool> {
    if id in b.delivered then b.delivered[id] else []
  }

  /** The waiter leaves the map and is sent the answer, unless its receiver is gone. */
  function Resolve(b: Broker, id: Id, answer: bool): Broker {
    b.(pending := b.pending - {id},
       delivered := if id in b.gone then b.delivered else b.delivered[id := Sent(b, id) + [answer]])
  }

  function Open(b: Broker, waiter: Waiter): Broker {
    b.(nextId := b.nextId + 1, pending := b.pending[b.nextId := waiter])
  }

  /** A request that gives up takes its waiter back and drops its receiver. */
  function Withdraw(b: Broker, id: Id): Broker {
    b.(pending := b.pending - {id}, gone := b.gone + {id})
  }

  predicate Matches(waiter: Waiter, session: Option<SessionId>, request: RequestId) {
    waiter.request == request && (session.Some? ==> waiter.session == session)
  }

  function Matching(b: Broker, session: Option<SessionId>, request: RequestId): set<Id> {
    set id | id in b.pending && Matches(b.pending[id], session, request)
  }

  function Refusals(b: Broker, ids: set<Id>): map<Id, seq<bool>> {
    map id | id in ids && id !in b.gone :: Sent(b, id) + [false]
  }

  /** Refusing a set of waiters; the order in which they are refused does not matter. */
  function Refuse(b: Broker, ids: set<Id>): Broker {
    b.(pending := b.pending - ids,
       delivered := b.delivered + Refusals(b, ids))
  }

  lemma RefusalsOneMore(b: Broker, done: set<Id>, id: Id)
    ensures b.delivered + Refusals(b, done + {id}) ==
            if id in b.gone then b.delivered + Refusals(b, done)
            else (b.delivered + Refusals(b, done))[id := Sent(b, id) + [false]]
  {
  }

  lemma RefuseOneMore(b: Broker, done: set<Id>, id: Id)
    requires id !in done
    ensures Resolve(Refuse(b, done), id, false) == Refuse(b, done + {id})
  {
    assert b.pending - done - {id} == b.pending - (done + {id});
    assert Sent(Refuse(b, done), id) == Sent(b, id);
    RefusalsOneMore(b, done, id);
  }

  class ApprovalBroker {
    var nextId: nat
    var pending: map<Id, Waiter>
    var delivered: map<Id, seq<bool>>
    var gone: set<Id>

    ghost function View(): Broker
      reads this
    {
      Broker(nextId, pending, delivered, gone)
    }

    constructor ()
      ensures View() == Broker(0, map[], map[], {})
    {
      nextId, pending, delivered, gone := 0, map[], map[], {};
    }

    /** Registers the waiter and announces it; when nobody takes the announcement the waiter goes again. */
    method Request(session: Option<SessionId>, request: RequestId, announced: bool) returns (id: Id, waits: bool)
      modifies this
      ensures id == old(nextId) && waits == announced
      ensures var parked := Open(old(View()), Waiter(session, request));
              View() == if announced then parked else Withdraw(parked, id)
    {
      id := nextId;
      nextId := nextId + 1;
      pending := pending[id := Waiter(session, request)];
      waits := announced;
      if !announced {
        GiveUp(id);
      }
    }

    /** What a request does that cannot be announced, or whose answer will never come. */
    method GiveUp(id: Id)
      modifies this
      ensures View() == Withdraw(old(View()), id)
    {
      pending := pending - {id};
      gone := gone + {id};
    }

    method Send(id: Id, answer: bool) returns (received: bool)
      modifies this
      ensures received == (id !in gone) && View() == Resolve(old(View()), id, answer)
    {
      pending := pending - {id};
      received := id !in gone;
      if received {
        delivered := delivered[id := (if id in delivered then delivered[id] else []) + [answer]];
      }
    }

    method RespondClaimed(id: Id, approved: bool, store: InteractionStore, session: SessionId, run: RunId,
        revision: int)
      returns (accepted: bool)
      modifies this, store
      ensures (View(), store.View(), accepted) ==
              Respond(old(View()), old(store.View()), id, approved, session, run, revision)
    {
      if id !in pending { return false; }
      var claimed := store.ClaimInteraction(id, session, run, revision, approved);
      if !claimed { return false; }
      accepted := Send(id, approved);
    }

    /** One refusal per matching waiter, in whatever order the map lists them. */
    method CancelMatching(session: Option<SessionId>, request: RequestId)
      modifies this
      ensures View() == Refuse(old(View()), Matching(old(View()), session, request))
    {
      var todo := set id | id in pending && Matches(pending[id], session, request);
      ghost var done: set<Id> := {};
      assert Refuse(View(), {}) == View();
      while todo != {}
        invariant todo + done == Matching(old(View()), session, request) && todo !! done
        invariant View() == Refuse(old(View()), done)
        decreases todo
      {
        var id :| id in todo;
        todo := todo - {id};
        RefuseOneMore(old(View()), done, id);
        var _ := Send(id, false);
        done := done + {id};
      }
    }
  }

  // ----- the durable interactions ------------------------------------------------------------

  datatype Answer = Unanswered | Answered | Rejected | Orphaned

  datatype Interaction = Interaction(session: SessionId, run: RunId, answer: Answer, revision: int,
      response: Option<bool>)

  datatype RunState = Running | WaitingInteraction | Finished

  datatype Store = Store(rows: map<Id, Interaction>, runs: map<RunId, RunState>)

  /** What claiming an interaction does to the store, and whether the claim is granted. */
  function Claim(st: Store, id: Id, session: SessionId, run: RunId, revision: int, approved: bool): (Store, bool) {
    if id !in st.rows then (st, false)
    else
      var row := st.rows[id];
      if row.session != session || row.run != run then (st, false)
      else if row.answer != Unanswered then
        (st, (row.answer == Answered || row.answer == Rejected) && row.response == Some(approved))
      else if row.revision != revision then (st, false)
      else if row.run !in st.runs || st.runs[row.run] != WaitingInteraction then (st, false)
      else
        var rows := st.rows[id := row.(answer := if approved then Answered else Rejected,
                                       revision := row.revision + 1, response := Some(approved))];
        var open := exists other :: other in rows && rows[other].run == row.run && rows[other].answer == Unanswered;
        (Store(rows, if open then st.runs else st.runs[row.run := Running]), true)
  }

  /**
   A claim is granted exactly when the interaction is this run's own and either was answered like this before,
   or is unanswered at the revision the claim expects while its run waits.
   */
  lemma ClaimIsGrantedExactly(st: Store, id: Id, session: SessionId, run: RunId, revision: int, approved: bool)
    ensures Claim(st, id, session, run, revision, approved).1 <==>
            && id in st.rows && st.rows[id].session == session && st.rows[id].run == run
            && (|| (st.rows[id].answer in {Answered, Rejected} && st.rows[id].response == Some(approved))
                || (&& st.rows[id].answer == Unanswered && st.rows[id].revision == revision
                    && run in st.runs && st.runs[run] == WaitingInteraction))
  {}

  /** What a granted claim writes, when the interaction was unanswered: the answer, at the next revision. */
  lemma ClaimWrites(st: Store, id: Id, session: SessionId, run: RunId, revision: int, approved: bool)
    requires Claim(st, id, session, run, revision, approved).1 && st.rows[id].answer == Unanswered
    ensures Claim(st, id, session, run, revision, approved).0.rows ==
            st.rows[id := Interaction(session, run, if approved then Answered else Rejected, revision + 1,
                                      Some(approved))]
  {}

  /** A granted claim is on record: the same answer is granted again at any revision, the other one never. */
  lemma ClaimedForGood(st: Store, id: Id, session: SessionId, run: RunId, revision: int, approved: bool)
    requires Claim(st, id, session, run, revision, approved).1
    ensures var st' := Claim(st, id, session, run, revision, approved).0;
            && id in st'.rows && st'.rows[id].response == Some(approved)
            && forall r, a :: Claim(st', id, session, run, r, a) == (st', a == approved)
  {}

  /** Only the claimed row changes; its run resumes exactly when no other interaction of the run is open. */
  lemma ClaimReleasesTheRun(st: Store, id: Id, session: SessionId, run: RunId, revision: int, approved: bool)
    ensures var (st', granted) := Claim(st, id, session, run, revision, approved);
            && st'.rows.Keys == st.rows.Keys
            && (forall other :: other in st.rows && other != id ==> st'.rows[other] == st.rows[other])
            && (st' != st ==> granted && st.rows[id].answer == Unanswered && run in st'.runs)
            && (st' != st ==>
                  st'.runs == st.runs[run := if OthersOpen(st, id, run) then WaitingInteraction else Running])
  {
    var (st', granted) := Claim(st, id, session, run, revision, approved);
    if st' != st {
      assert forall other :: other in st.rows && other != id ==> st'.rows[other] == st.rows[other];
      if OthersOpen(st, id, run) {
        var other :| other in st.rows && other != id && st.rows[other].run == run &&
          st.rows[other].answer == Unanswered;
        assert st'.rows[other].run == run && st'.rows[other].answer == Unanswered;
      }
    }
  }

  ghost predicate OthersOpen(st: Store, id: Id, run: RunId) {
    exists other :: other in st.rows && other != id && st.rows[other].run == run && st.rows[other].answer == Unanswered
  }

  datatype ClaimRequest = ClaimRequest(id: Id, session: SessionId, run: RunId, revision: int, approved: bool)

  function ClaimOf(st: Store, c: ClaimRequest): (Store, bool) {
    Claim(st, c.id, c.session, c.run, c.revision, c.approved)
  }

  function AfterClaims(st: Store, claims: seq<ClaimRequest>): Store {
    if |claims| == 0 then st else ClaimOf(AfterClaims(st, claims[..|claims| - 1]), claims[|claims| - 1]).0
  }

  lemma AnswerStays(st: Store, id: Id, answer: bool, c: ClaimRequest)
    requires id in st.rows && st.rows[id].answer != Unanswered && st.rows[id].response == Some(answer)
    ensures var st' := ClaimOf(st, c).0; id in st'.rows && st'.rows[id] == st.rows[id]
    ensures c.id == id && ClaimOf(st, c).1 ==> c.approved == answer
  {}

  /** However claims race, all that are granted for one interaction give the same answer, and it stays on record. */
  lemma {:induction false} OneAnswerWins(st: Store, claims: seq<ClaimRequest>, i: nat, j: nat)
    requires i < j <= |claims| && ClaimOf(AfterClaims(st, claims[..i]), claims[i]).1
    ensures var st', id := AfterClaims(st, claims[..j]), claims[i].id;
            && id in st'.rows && st'.rows[id].answer != Unanswered && st'.rows[id].response == Some(claims[i].approved)
            && (j < |claims| && claims[j].id == id && ClaimOf(st', claims[j]).1 ==>
                 claims[j].approved == claims[i].approved)
  {
    assert claims[..j][..j - 1] == claims[..j - 1];
    if i < j - 1 {
      OneAnswerWins(st, claims, i, j - 1);
      AnswerStays(AfterClaims(st, claims[..j - 1]), claims[i].id, claims[i].approved, claims[j - 1]);
    } else {
      assert claims[..j][..i] == claims[..i];
    }
    if j < |claims| {
      AnswerStays(AfterClaims(st, claims[..j]), claims[i].id, claims[i].approved, claims[j]);
    }
  }

  /** The broker's answer to a control request: nothing without a waiter, nothing without a claim. */
  function Respond(b: Broker, st: Store, id: Id, approved: bool, session: SessionId, run: RunId, revision: int)
    : (Broker, Store, bool)
  {
    if id !in b.pending then (b, st, false)
    else
      var (claimed, granted) := Claim(st, id, session, run, revision, approved);
      if granted then (Resolve(b, id, approved), claimed, id !in b.gone) else (b, claimed, false)
  }

  class InteractionStore {
    var rows: map<Id, Interaction>
    var runs: map<RunId, RunState>

    ghost function View(): Store
      reads this
    {
      Store(rows, runs)
    }

    method ClaimInteraction(id: Id, session: SessionId, run: RunId, revision: int, approved: bool)
      returns (granted: bool)
      modifies this
      ensures (View(), granted) == Claim(old(View()), id, session, run, revision, approved)
    {
      if id !in rows { return false; }
      var row := rows[id];
      if row.session != session || row.run != run { return false; }
      if row.answer != Unanswered {
        return (row.answer == Answered || row.answer == Rejected) && row.response == Some(approved);
      }
      if row.revision != revision { return false; }
      if row.run !in runs || runs[row.run] != WaitingInteraction { return false; }
      rows := rows[id := row.(answer := if approved then Answered else Rejected,
                              revision := row.revision + 1, response := Some(approved))];
      var open := set other | other in rows && rows[other].run == row.run && rows[other].answer == Unanswered;
      if open == {} {
        runs := runs[row.run := Running];
        assert forall other :: other in rows && rows[other].run == row.run ==> other !in open;
      } else {
        var other :| other in open;
        assert other in rows && rows[other].run == row.run && rows[other].answer == Unanswered;
      }
      return true;
    }
  }
}

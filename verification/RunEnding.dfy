/**
 How a run's end is told: what its terminal says, what an answer from a snapshot says, and which
 snapshots lead to which end of the replay.
 */
module RunEnding {
  import opened Basics
  import opened RunEvents
  import opened RunSubscription

  /** The run has stored the assistant's answer. */
  ghost predicate HasContent(log: seq<Row>) {
    exists i :: 0 <= i < |log| && log[i].AssistantContent?
  }

  lemma ContentPush(log: seq<Row>, row: Row)
    ensures HasContent(log + [row]) <==> HasContent(log) || row.AssistantContent?
  {
    var longer := log + [row];
    assert longer[|log|] == row;
    assert forall i :: 0 <= i < |log| ==> longer[i] == log[i];
  }

  // ----- the invariant ----------------------------------------------------------------------------

  /** A run is completed exactly when it has its answer, and every terminal says which. */
  ghost predicate Truthful(w: World) {
    && (w.status == Completed <==> HasContent(w.log))
    && forall k :: 0 <= k < |w.sent| && w.sent[k].Terminal? ==> (w.sent[k].success <==> HasContent(w.log))
  }

  ghost predicate SnapshotTruthful(w: World, snapshot: Snapshot) {
    snapshot.lastSeq <= |w.log| && (snapshot.status == Completed <==> HasContent(w.log[..snapshot.lastSeq]))
  }

  /** What the subscriber knows of the end. */
  ghost predicate Informed(w: World) {
    && (forall i :: 0 <= i < |w.frames| && w.frames[i].Terminal? ==>
          w.subscriber == Done(TerminalReceived) && i == |w.frames| - 1)
    && match w.subscriber
       case Connecting => true
       case Registered => w.listening || w.executor.Removed?
       case HasSnapshot(snapshot) => (w.listening || w.executor.Removed?) && SnapshotTruthful(w, snapshot)
       case HasPending(snapshot, _) => (w.listening || w.executor.Removed?) && SnapshotTruthful(w, snapshot)
       case Live => w.listening
       case Done(TerminalReceived) =>
         |w.frames| > 0 && w.frames[|w.frames| - 1] == Terminal(HasContent(w.log))
       case Done(Answered(success)) => success ==> HasContent(w.log)
       case Done(NotRunning) => w.executor.Removed?
       case Done(_) => true
  }

  // ----- the run's side -----------------------------------------------------------------------------

  lemma TruthfulRow(w: World, w': World, row: Row)
    requires Truthful(w) && w'.log == w.log + [row] && !row.AssistantContent? && w'.sent == w.sent
    requires w'.status == Completed <==> w.status == Completed
    ensures Truthful(w') && (HasContent(w'.log) <==> HasContent(w.log))
  {
    ContentPush(w.log, row);
  }

  lemma TruthfulSend(w: World, w': World, u: Update)
    requires Truthful(w) && w'.log == w.log && w'.status == w.status && w'.sent == w.sent + [u]
    requires u.Terminal? ==> (u.success <==> w.status == Completed)
    ensures Truthful(w')
  {
    forall k | 0 <= k < |w'.sent| && w'.sent[k].Terminal? ensures w'.sent[k].success <==> HasContent(w'.log) {
      if k < |w.sent| {
        assert w'.sent[k] == w.sent[k];
      }
    }
  }

  /** While the executor works no terminal has been sent. */
  lemma TruthfulCommit(w: World, content: Option<nat>)
    requires Truthful(w) && Inv(w)
    ensures Truthful(DoCommit(w, content))
  {
    var w' := DoCommit(w, content);
    if w.executor.Working? && w.status == Active {
      assert forall k :: 0 <= k < |w.sent| ==> !w.sent[k].Terminal?;
      if content.Some? {
        ContentPush(w.log, AssistantContent(content.value));
        ContentPush(w.log + [AssistantContent(content.value)], Internal);
      } else {
        assert w.log + [] == w.log;
        ContentPush(w.log, Internal);
      }
    }
  }

  lemma TruthfulAppend(w: World, kind: Kind, payload: nat)
    requires Truthful(w) && Inv(w)
    ensures Truthful(DoPublishAppend(w, kind, payload))
  {
    if DoPublishAppend(w, kind, payload) != w {
      TruthfulRow(w, DoPublishAppend(w, kind, payload), Displayed(kind, payload));
    }
  }

  lemma TruthfulElsewhere(w: World, row: Row)
    requires Truthful(w)
    ensures Truthful(DoAppendElsewhere(w, row)) && Truthful(DoFinishElsewhere(w))
  {
    if DoAppendElsewhere(w, row) != w {
      TruthfulRow(w, DoAppendElsewhere(w, row), row);
    }
    if DoFinishElsewhere(w) != w {
      TruthfulRow(w, DoFinishElsewhere(w), Internal);
    }
  }

  lemma TruthfulBroadcast(w: World, kind: Kind, payload: nat)
    requires Truthful(w) && Inv(w)
    ensures Truthful(DoPublishBroadcast(w)) && Truthful(DoBroadcastCompletion(w))
    ensures Truthful(DoBroadcastTerminal(w)) && Truthful(DoNotifyDelegation(w, kind, payload))
  {
    InFlightIsOwn(w);
    if w.executor.Logged? || w.executor.CompletionRead? {
      assert IsOwn(InFlight(w)[0]);
      var w' := if w.executor.Logged? then DoPublishBroadcast(w) else DoBroadcastCompletion(w);
      TruthfulSend(w, w', w.executor.update);
    }
    if DoBroadcastTerminal(w) != w {
      TruthfulSend(w, DoBroadcastTerminal(w), Terminal(w.status == Completed));
    }
    if DoNotifyDelegation(w, kind, payload) != w {
      TruthfulSend(w, DoNotifyDelegation(w, kind, payload), Event(kind, payload, None));
    }
  }

  lemma TruthfulStep(w: World, step: Step)
    requires Truthful(w) && Inv(w)
    ensures Truthful(Apply(w, step))
  {
    match step
    case PublishAppend(kind, payload) => TruthfulAppend(w, kind, payload);
    case Commit(content) => TruthfulCommit(w, content);
    case AppendElsewhere(row) => TruthfulElsewhere(w, row);
    case FinishElsewhere => TruthfulElsewhere(w, Internal);
    case PublishBroadcast => TruthfulBroadcast(w, TextDelta, 0);
    case BroadcastCompletion => TruthfulBroadcast(w, TextDelta, 0);
    case BroadcastTerminal => TruthfulBroadcast(w, TextDelta, 0);
    case NotifyDelegation(kind, payload) => TruthfulBroadcast(w, kind, payload);
    case _ => TruthfulQuiet(w, step);
  }

  lemma TruthfulQuiet(w: World, step: Step)
    requires Truthful(w) && IsQuiet(step)
    ensures Truthful(Apply(w, step))
  {
    QuietStep(w, step);
    assert Apply(w, step).status == w.status;
  }

  // ----- the subscriber's side ----------------------------------------------------------------------

  lemma ContentGrows(log: seq<Row>, longer: seq<Row>)
    requires log <= longer
    ensures HasContent(log) ==> HasContent(longer)
  {
    if i :| 0 <= i < |log| && log[i].AssistantContent? {
      assert longer[i] == log[i];
    }
  }

  lemma InformedGrows(w: World, w': World)
    requires Informed(w) && Grows(w, w') && SubscriberInv(w)
    requires w.executor.Removed? ==> w'.executor.Removed?
    ensures Informed(w')
  {
    ContentGrows(w.log, w'.log);
    match w.subscriber
    case HasSnapshot(snapshot) => assert w'.log[..snapshot.lastSeq] == w.log[..snapshot.lastSeq];
    case HasPending(snapshot, _) => assert w'.log[..snapshot.lastSeq] == w.log[..snapshot.lastSeq];
    case _ =>
  }

  /** Where the terminals stand. */
  ghost function Terminals(updates: seq<Update>): set<nat> {
    set i: nat | i < |updates| && updates[i].Terminal?
  }

  lemma {:induction false} ReplayedHasNoTerminal(log: seq<Row>, lo: nat, hi: nat, ids: set<nat>)
    ensures Terminals(Replayed(log, lo, hi, ids)) == {}
    decreases hi
  {
    if lo < hi <= |log| {
      ReplayedHasNoTerminal(log, lo, hi - 1, ids);
    }
  }

  /** After the replay, on the parts of the state alone. */
  lemma InformedShown(w: World, w': World, snapshot: Snapshot)
    requires SnapshotTruthful(w, snapshot) && w'.log == w.log && w'.executor == w.executor
    requires Terminals(w'.frames) == {}
    requires w.listening || w.executor.Removed?
    requires || (w'.subscriber.Done? && w'.subscriber.outcome.ResyncOverflow?)
             || w'.subscriber == Done(Answered(snapshot.status == Completed))
             || (!w.listening && w'.subscriber == Done(NotRunning))
             || (w'.listening && w'.subscriber == Live)
    ensures Informed(w')
  {
    ContentGrows(w.log[..snapshot.lastSeq], w.log);
    assert forall i: nat :: i < |w'.frames| && w'.frames[i].Terminal? ==> i in Terminals(w'.frames);
  }

  lemma InformedReplay(w: World)
    requires Informed(w) && SubscriberInv(w) && w.subscriber.HasPending?
    ensures Informed(DoReplayPage(w))
  {
    hide HasContent;
    ReplayedHasNoTerminal(w.log, w.after, PageEnd(w.log, w.after, PAGE_LIMIT), w.subscriber.ids);
    assert w.frames + Replayed(w.log, w.after, PageEnd(w.log, w.after, PAGE_LIMIT), w.subscriber.ids) ==
           Replayed(w.log, w.after, PageEnd(w.log, w.after, PAGE_LIMIT), w.subscriber.ids);
    InformedShown(w, DoReplayPage(w), w.subscriber.snapshot);
  }

  lemma InformedReceive(w: World)
    requires Informed(w) && SubscriberInv(w) && Truthful(w)
    ensures Informed(DoReceive(w))
  {
    hide HasContent;
    if w.subscriber.Live? && w.next < |w.sent| && w.sent[w.next].Terminal? {
      assert w.sent[w.next] == Terminal(HasContent(w.log));
    }
  }

  lemma InformedOpening(w: World, step: Step)
    requires Informed(w) && SubscriberInv(w) && Truthful(w)
    requires step.Register? || step.TakeSnapshot? || step.ReadPending?
    ensures Informed(Apply(w, step))
  {
    hide HasContent;
    assert w.log[..|w.log|] == w.log;
  }

  lemma InformedStep(w: World, step: Step)
    requires Informed(w) && Inv(w) && Truthful(w)
    ensures Informed(Apply(w, step))
  {
    hide Informed, Truthful, Accounted, Closing, SubscriberInv;
    if step.ReplayPage? {
      assert Apply(w, step) == DoReplayPage(w);
      if w.subscriber.HasPending? { InformedReplay(w); }
    } else if step.Receive? {
      assert Apply(w, step) == DoReceive(w);
      InformedReceive(w);
    } else if IsSubscriberStep(step) {
      InformedOpening(w, step);
    } else {
      InformedElsewhere(w, step);
    }
  }

  lemma InformedElsewhere(w: World, step: Step)
    requires Informed(w) && Inv(w) && !IsSubscriberStep(step)
    ensures Informed(Apply(w, step))
  {
    hide Informed, Accounted, Closing;
    CompletedIsFrozen(w);
    OthersGrow(w, step);
    RemovedStays(w, step);
    InformedGrows(w, Apply(w, step));
  }

  lemma CompletedIsFrozen(w: World)
    requires SubscriberInv(w)
    ensures w.status == Completed ==> Frozen(w)
  {}

  lemma RemovedStays(w: World, step: Step)
    ensures w.executor.Removed? ==> Apply(w, step).executor.Removed?
  {}

  lemma {:induction false} EndingExec(w0: World, steps: seq<Step>)
    requires Inv(w0) && Truthful(w0) && Informed(w0)
    ensures Truthful(Exec(w0, steps)) && Informed(Exec(w0, steps))
  {
    if |steps| > 0 {
      var w := Exec(w0, steps[..|steps| - 1]);
      EndingExec(w0, steps[..|steps| - 1]);
      InvExec(w0, steps[..|steps| - 1]);
      TruthfulStep(w, steps[|steps| - 1]);
      InformedStep(w, steps[|steps| - 1]);
    }
  }

  lemma EndingAlways(after: nat, w: World)
    requires Reachable(after, w)
    ensures Inv(w) && Truthful(w) && Informed(w)
  {
    InvAlways(after, w);
    var log, steps :| Fresh(log) && w == Exec(Start(after, log), steps);
    InvStart(after, log);
    EndingExec(Start(after, log), steps);
  }

  // ----- what a subscriber is told -------------------------------------------------------------------

  /**
   A subscription that ends with the terminal ends with exactly one, as its last frame, and it says success
   exactly when the run has stored an answer.
   */
  lemma TerminalTellsTheTruth(after: nat, w: World)
    requires Reachable(after, w) && w.subscriber == Done(TerminalReceived)
    ensures |w.frames| > 0 && w.frames[|w.frames| - 1].Terminal?
    ensures forall i :: 0 <= i < |w.frames| - 1 ==> !w.frames[i].Terminal?
    ensures w.frames[|w.frames| - 1].success <==> exists i :: 0 <= i < |w.log| && w.log[i].AssistantContent?
  {
    EndingAlways(after, w);
  }

  /** A terminal stands only at the end of a subscription that it ended. */
  lemma NoOtherTerminal(after: nat, w: World, i: nat)
    requires Reachable(after, w) && i < |w.frames| && w.frames[i].Terminal?
    ensures w.subscriber == Done(TerminalReceived) && i == |w.frames| - 1
  {
    EndingAlways(after, w);
  }

  /**
   What follows the replay of a page, from the snapshot and the registration alone: a full page that ends
   below the snapshot asks to resynchronise; a run with an answer in the snapshot is answered with success
   and one that had failed with failure; of an active run the channel is followed, or there is none to
   follow, and then the executor is gone.
   */
  lemma AfterThePage(after: nat, w: World)
    requires Reachable(after, w) && w.subscriber.HasPending?
    ensures var (snapshot, end) := (w.subscriber.snapshot, Apply(w, ReplayPage).subscriber);
            var overflows := after + 1000 <= |w.log| && after + 1000 < snapshot.lastSeq;
            && snapshot.lastSeq <= |w.log|
            && (overflows <==> end == Done(ResyncOverflow(after + 1000)))
            && (end == Done(Answered(true)) <==>
                  !overflows && exists i :: 0 <= i < snapshot.lastSeq && w.log[i].AssistantContent?)
            && (end == Done(Answered(false)) <==> !overflows && snapshot.status == Failed)
            && (end == Live <==> !overflows && snapshot.status == Active && w.listening)
            && (end == Done(NotRunning) <==> !overflows && snapshot.status == Active && !w.listening)
            && (!w.listening ==> w.executor.Removed?)
  {
    EndingAlways(after, w);
    InvAlways(after, w);
    var snapshot := w.subscriber.snapshot;
    assert HasContent(w.log[..snapshot.lastSeq]) <==>
           exists i :: 0 <= i < snapshot.lastSeq && w.log[i].AssistantContent?
    by {
      if i :| 0 <= i < snapshot.lastSeq && w.log[i].AssistantContent? {
        assert w.log[..snapshot.lastSeq][i] == w.log[i];
      }
    }
    assert Apply(w, ReplayPage) == DoReplayPage(w);
  }

  /** An answer of success is true, and a subscription that found no channel belongs to an executor that is gone. */
  lemma AnswersAreTrue(after: nat, w: World)
    requires Reachable(after, w)
    ensures w.subscriber == Done(Answered(true)) ==> exists i :: 0 <= i < |w.log| && w.log[i].AssistantContent?
    ensures w.subscriber == Done(NotRunning) ==> w.executor.Removed?
  {
    EndingAlways(after, w);
  }

  // ----- an answer of failure, and what can come after it ----------------------------------------------

  lemma QuietExecutorStep(w: World, step: Step)
    requires !w.executor.Working? && !w.executor.Logged?
    ensures var w' := Apply(w, step);
            !w'.executor.Working? && !w'.executor.Logged? && (HasContent(w'.log) <==> HasContent(w.log))
  {
    var w' := Apply(w, step);
    if w'.log != w.log {
      assert |w'.log| == |w.log| + 1 && w'.log == w.log + [w'.log[|w.log|]];
      ContentPush(w.log, w'.log[|w.log|]);
    }
  }

  lemma {:induction false} QuietExecutorForGood(w: World, later: seq<Step>)
    requires !w.executor.Working? && !w.executor.Logged?
    ensures var v := Exec(w, later);
            !v.executor.Working? && !v.executor.Logged? && (HasContent(v.log) <==> HasContent(w.log))
  {
    if |later| > 0 {
      QuietExecutorForGood(w, later[..|later| - 1]);
      QuietExecutorStep(Exec(w, later[..|later| - 1]), later[|later| - 1]);
    }
  }

  /** A working executor whose run is active commits an answer. */
  lemma CommitsContent(w0: World, w: World) returns (v: World)
    requires Leads(w0, w) && w.executor.Working? && w.status == Active
    ensures Leads(w0, v) && HasContent(v.log) && v.status == Completed && v.subscriber == w.subscriber
  {
    LeadsStep(w0, w, Commit(Some(0)));
    v := Apply(w, Commit(Some(0)));
    assert v.log[|w.log|].AssistantContent?;
  }

  /** Whatever the status is, logging an approval request makes the run active again. */
  lemma WorksAgain(w0: World, w: World) returns (v: World)
    requires Leads(w0, w) && w.executor.Working?
    ensures Leads(w0, v) && v.executor.Working? && v.status == Active && v.subscriber == w.subscriber
  {
    LeadsStep(w0, w, RegisterApproval(0));
    var w1 := Apply(w, RegisterApproval(0));
    LeadsStep(w0, w1, PublishAppend(ApprovalRequired, 0));
    var w2 := Apply(w1, PublishAppend(ApprovalRequired, 0));
    LeadsStep(w0, w2, PublishBroadcast);
    v := Apply(w2, PublishBroadcast);
  }

  /**
   A run that has not stored an answer yet can still do so exactly when its executor works or is about to
   broadcast, even if it was finished from outside meanwhile.  So a subscription that was answered with
   failure was answered for good exactly when the executor is past that.
   */
  lemma MayCompleteExactly(w: World)
    requires !HasContent(w.log)
    ensures (exists v :: Leads(w, v) && HasContent(v.log)) <==> w.executor.Working? || w.executor.Logged?
  {
    LeadsNowhere(w);
    if w.executor.Working? {
      var v := WorksAgain(w, w);
      v := CommitsContent(w, v);
    } else if w.executor.Logged? {
      LeadsStep(w, w, PublishBroadcast);
      var v := WorksAgain(w, Apply(w, PublishBroadcast));
      v := CommitsContent(w, v);
    } else {
      forall v | Leads(w, v) ensures !HasContent(v.log) {
        var later :| Exec(w, later) == v;
        QuietExecutorForGood(w, later);
      }
    }
  }

  /** A run finished from outside while it works: the subscriber is answered with failure, and the run completes. */
  lemma FailedAnswerCanBeOvertaken()
    ensures exists w :: Reachable(0, w) && w.subscriber == Done(Answered(false)) && w.status == Completed
  {
    var w0 := Start(0, []);
    LeadsNowhere(w0);
    LeadsStep(w0, w0, FinishElsewhere);
    var w1 := w0.(log := [Internal], status := Failed);
    assert Apply(w0, FinishElsewhere) == w1;
    LeadsSubscribe(w0, w1);
    LeadsReplay(w0, Subscribed(w1));
    var w2 := DoReplayPage(Subscribed(w1));
    assert w2.subscriber == Done(Answered(false));
    var w3 := WorksAgain(w0, w2);
    w3 := CommitsContent(w0, w3);
    LeadsReachable(0, [], w3);
  }
}

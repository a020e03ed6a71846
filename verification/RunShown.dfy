/**
 Nothing is shown that is not so: every frame of a subscription is a row of the log, an announcement of a
 child, or the terminal.
 */
module RunShown {
  import opened Basics
  import opened RunEvents
  import opened RunSubscription

  /** A numbered update is the row of this number, and one without a number is about a child. */
  ghost predicate IsSo(log: seq<Row>, after: nat, u: Update) {
    u.Event? ==>
      if u.seqno.Some? then
        && after < u.seqno.value <= |log|
        && var row := log[u.seqno.value - 1];
           row == Displayed(u.kind, u.payload) || (u.kind == TurnCompleted && row == AssistantContent(u.payload))
      else
        || u.kind == DelegationTerminal
        || (u.kind == DelegationSpawned && Displayed(DelegationSpawned, u.payload) in log)
  }

  ghost predicate AllSo(log: seq<Row>, after: nat, updates: seq<Update>) {
    forall i :: 0 <= i < |updates| ==> IsSo(log, after, updates[i])
  }

  lemma StaysSo(log: seq<Row>, longer: seq<Row>, after: nat, updates: seq<Update>)
    requires log <= longer && AllSo(log, after, updates)
    ensures AllSo(longer, after, updates)
  {
    forall i | 0 <= i < |updates| ensures IsSo(longer, after, updates[i]) {
      assert IsSo(log, after, updates[i]);
    }
  }

  lemma {:induction false} ReplayedIsSo(log: seq<Row>, lo: nat, hi: nat, ids: set<nat>)
    ensures AllSo(log, lo, Replayed(log, lo, hi, ids))
    decreases hi
  {
    if lo < hi <= |log| {
      ReplayedIsSo(log, lo, hi - 1, ids);
    }
  }

  lemma {:induction false} OwnRowsAreSo(log: seq<Row>, lo: nat, hi: nat)
    ensures AllSo(log, lo, OwnRows(log, lo, hi))
    decreases hi
  {
    if lo < hi <= |log| {
      OwnRowsAreSo(log, lo, hi - 1);
    }
  }

  /** What the executor has broadcast or is about to is so. */
  lemma OwnIsSo(w: World, u: Update)
    requires Accounted(w) && IsOwn(u) && (u in w.sent || u in InFlight(w))
    ensures IsSo(w.log, 0, u)
  {
    OwnRowsAreSo(w.log, 0, |w.log|);
    KeepMembers(IsOwn, w.sent);
    var own := OwnRows(w.log, 0, |w.log|);
    assert u in Keep(IsOwn, w.sent) || u in InFlight(w);
    assert u in own;
    var i :| 0 <= i < |own| && own[i] == u;
  }

  /** Announcements on the channel are so. */
  ghost predicate NoticesAreSo(w: World) {
    forall k :: 0 <= k < |w.sent| && w.sent[k].Event? && w.sent[k].seqno.None? ==> IsSo(w.log, 0, w.sent[k])
  }

  lemma NoticesKept(w: World, w': World)
    requires NoticesAreSo(w) && w.log <= w'.log
    requires w'.sent == w.sent || (|w'.sent| == |w.sent| + 1 && w.sent <= w'.sent)
    requires |w'.sent| == |w.sent| + 1 && w'.sent[|w.sent|].Event? && w'.sent[|w.sent|].seqno.None? ==>
               IsSo(w'.log, 0, w'.sent[|w.sent|])
    ensures NoticesAreSo(w')
  {
    forall k | 0 <= k < |w'.sent| && w'.sent[k].Event? && w'.sent[k].seqno.None?
      ensures IsSo(w'.log, 0, w'.sent[k])
    {
      if k < |w.sent| {
        assert w.sent[k] == w'.sent[k];
        assert IsSo(w.log, 0, w.sent[k]);
      }
    }
  }

  lemma NoticesSend(w: World)
    requires NoticesAreSo(w) && Accounted(w)
    ensures NoticesAreSo(DoPublishBroadcast(w)) && NoticesAreSo(DoBroadcastCompletion(w))
    ensures NoticesAreSo(DoBroadcastTerminal(w))
  {
    InFlightIsOwn(w);
    if w.executor.Logged? || w.executor.CompletionRead? {
      assert IsOwn(InFlight(w)[0]);
    }
    NoticesKept(w, DoPublishBroadcast(w));
    NoticesKept(w, DoBroadcastCompletion(w));
    NoticesKept(w, DoBroadcastTerminal(w));
  }

  lemma NoticesNotify(w: World, kind: Kind, payload: nat)
    requires NoticesAreSo(w)
    ensures NoticesAreSo(DoNotifyDelegation(w, kind, payload))
  {
    NoticesKept(w, DoNotifyDelegation(w, kind, payload));
  }

  lemma NoticesStep(w: World, step: Step)
    requires NoticesAreSo(w) && Accounted(w)
    ensures NoticesAreSo(Apply(w, step))
  {
    hide NoticesAreSo, Accounted;
    match step
    case PublishBroadcast => NoticesSend(w);
    case BroadcastCompletion => NoticesSend(w);
    case BroadcastTerminal => NoticesSend(w);
    case NotifyDelegation(kind, payload) => NoticesNotify(w, kind, payload);
    case _ =>
      LogOnlyGrows(w, step);
      NoticesKept(w, Apply(w, step));
  }

  predicate Sends(step: Step) {
    step.PublishBroadcast? || step.BroadcastCompletion? || step.BroadcastTerminal? || step.NotifyDelegation?
  }

  lemma LogOnlyGrows(w: World, step: Step)
    ensures w.log <= Apply(w, step).log
    ensures !Sends(step) ==> Apply(w, step).sent == w.sent
  {}

  // ----- the frames ---------------------------------------------------------------------------------

  lemma FramesReplay(w: World)
    requires AllSo(w.log, w.after, w.frames)
    ensures AllSo(w.log, w.after, DoReplayPage(w).frames)
  {
    if w.subscriber.HasPending? {
      var end := PageEnd(w.log, w.after, PAGE_LIMIT);
      ReplayedIsSo(w.log, w.after, end, w.subscriber.ids);
      JoinedIsSo(w.log, w.after, w.frames, Replayed(w.log, w.after, end, w.subscriber.ids));
    }
  }

  lemma JoinedIsSo(log: seq<Row>, after: nat, a: seq<Update>, b: seq<Update>)
    requires AllSo(log, after, a) && AllSo(log, after, b)
    ensures AllSo(log, after, a + b)
  {
  }

  lemma FramesReceive(w: World)
    requires Inv(w) && NoticesAreSo(w) && AllSo(w.log, w.after, w.frames)
    ensures AllSo(w.log, w.after, DoReceive(w).frames)
  {
    if w.subscriber.Live? && w.next < |w.sent| {
      var u := w.sent[w.next];
      if u.Event? && u.seqno.Some? {
        assert IsOwn(u);
        OwnIsSo(w, u);
      }
      if u.Terminal? || u.seqno.None? || u.seqno.value > w.cursor {
        assert IsSo(w.log, w.after, u);
        JoinedIsSo(w.log, w.after, w.frames, [u]);
      }
    }
  }

  lemma FramesStep(w: World, step: Step)
    requires Inv(w) && NoticesAreSo(w) && AllSo(w.log, w.after, w.frames)
    ensures AllSo(Apply(w, step).log, w.after, Apply(w, step).frames)
  {
    hide AllSo, NoticesAreSo, Accounted, Closing, SubscriberInv;
    LogOnlyGrows(w, step);
    if step.ReplayPage? {
      FramesReplay(w);
      StaysSo(w.log, Apply(w, step).log, w.after, DoReplayPage(w).frames);
    } else if step.Receive? {
      FramesReceive(w);
      StaysSo(w.log, Apply(w, step).log, w.after, DoReceive(w).frames);
    } else {
      FramesUntouched(w, step);
      StaysSo(w.log, Apply(w, step).log, w.after, w.frames);
    }
  }

  lemma {:induction false} SoExec(w0: World, steps: seq<Step>)
    requires Inv(w0) && NoticesAreSo(w0) && AllSo(w0.log, w0.after, w0.frames)
    ensures var w := Exec(w0, steps); NoticesAreSo(w) && AllSo(w.log, w0.after, w.frames)
  {
    hide AllSo, NoticesAreSo, Inv;
    if |steps| > 0 {
      var w, last := Exec(w0, steps[..|steps| - 1]), steps[|steps| - 1];
      SoExec(w0, steps[..|steps| - 1]);
      InvExec(w0, steps[..|steps| - 1]);
      AccountedOf(w);
      NoticesStep(w, last);
      FramesStep(w, last);
    }
  }

  lemma AccountedOf(w: World)
    requires Inv(w)
    ensures Accounted(w)
  {
  }

  /**
   Whatever the interleaving: a numbered frame is the row of the log with this number, above where the
   subscription started; a frame without a number announces a child, and one that announces its start has
   its row in the log; and everything else is a terminal.
   */
  lemma ShownIsSo(after: nat, w: World, i: nat)
    requires Reachable(after, w) && i < |w.frames| && w.frames[i].Event?
    ensures var u := w.frames[i];
            if u.seqno.Some? then
              && after < u.seqno.value <= |w.log|
              && var row := w.log[u.seqno.value - 1];
                 row == Displayed(u.kind, u.payload) || (u.kind == TurnCompleted && row == AssistantContent(u.payload))
            else
              || u.kind == DelegationTerminal
              || (u.kind == DelegationSpawned && Displayed(DelegationSpawned, u.payload) in w.log)
  {
    var log, steps :| Fresh(log) && w == Exec(Start(after, log), steps);
    InvStart(after, log);
    SoExec(Start(after, log), steps);
    assert IsSo(w.log, after, w.frames[i]);
  }

  // ----- open approvals -----------------------------------------------------------------------------

  /** Registered for the first time by step j, and not resolved since. */
  ghost predicate OpenedAt(steps: seq<Step>, id: nat, j: nat) {
    && j < |steps| && steps[j] == RegisterApproval(id)
    && (forall i :: 0 <= i < j ==> steps[i] != RegisterApproval(id))
    && (forall k :: j < k < |steps| ==> steps[k] != ResolveApproval(id))
  }

  /**
   The approvals that are open, and that a subscriber reads as open, are those registered and not resolved
   since their first registration.
   */
  lemma {:induction false} OpenExactly(after: nat, log: seq<Row>, steps: seq<Step>, id: nat)
    ensures var w := Exec(Start(after, log), steps);
            && (id in w.pending <==> exists j: nat :: OpenedAt(steps, id, j))
            && (id in w.registered <==> RegisterApproval(id) in steps)
  {
    if |steps| > 0 {
      var front, last := steps[..|steps| - 1], steps[|steps| - 1];
      assert steps == front + [last];
      OpenExactly(after, log, front, id);
      Registering(Exec(Start(after, log), front), last, id);
      if last == RegisterApproval(id) && last !in front {
        assert OpenedAt(steps, id, |front|);
      }
      if j: nat :| OpenedAt(front, id, j) && last != ResolveApproval(id) {
        assert OpenedAt(steps, id, j);
      }
      if j: nat :| OpenedAt(steps, id, j) && j < |front| {
        assert OpenedAt(front, id, j);
      }
    }
  }

  lemma Registering(w: World, step: Step, id: nat)
    ensures var w' := Apply(w, step);
            && (id in w'.registered <==> id in w.registered || step == RegisterApproval(id))
            && (id in w'.pending <==>
                  || (step == RegisterApproval(id) && id !in w.registered)
                  || (id in w.pending && step != ResolveApproval(id)))
  {}

  // ----- the end of the channel -----------------------------------------------------------------------

  /**
   An executor that has sent its terminal, or finds its run ended from outside, leaves without another word;
   and a subscriber that follows the channel of an executor that has left comes to an end.
   */
  lemma ChannelEnds(after: nat, w: World, content: Option<nat>)
    requires Reachable(after, w)
    ensures w.executor.Ended? ==> Apply(w, Retire) == w.(executor := Removed)
    ensures w.executor.Working? && w.status != Active ==> Apply(w, Commit(content)) == w.(executor := Removed)
    ensures w.executor.Working? ==> Apply(w, Abandon) == w.(executor := Removed)
    ensures w.executor.Removed? && w.subscriber.Live? ==> Drained(w).subscriber.Done?
  {
    if w.executor.Removed? {
      DrainedEnds(w);
    }
  }

  lemma {:induction false} DrainedEnds(w: World)
    requires w.executor.Removed?
    ensures w.subscriber.Live? ==> Drained(w).subscriber.Done?
    decreases |w.sent| - w.next, if w.subscriber.Live? then 1 else 0
  {
    if w.subscriber.Live? {
      DrainedEnds(DoReceive(w));
      if !DoReceive(w).subscriber.Live? {
        assert Drained(DoReceive(w)) == DoReceive(w);
      }
    }
  }
}

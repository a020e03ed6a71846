/**
 The cancellation token: any number of tasks wait on it and any number cancel it, one atomic action
 at a time, in any order.  A waiter that registers with the notifier is woken by notifications sent
 after it registered; the notifier is a generation counter that registering remembers.
 */
module Cancellation {
  datatype Waiter = Idle | NotSeenYet | RegisteredAt(generation: nat) | WaitingSince(generation: nat) | Returned

  datatype Canceller = NotStarted | MustNotify | Over

  datatype World = World(cancelled: bool, generation: nat, waiters: seq<Waiter>, cancellers: seq<Canceller>)

  datatype Step = Wait(waiter: nat) | Cancel(canceller: nat)

  predicate Initial(w: World) {
    && !w.cancelled && w.generation == 0
    && (forall i :: 0 <= i < |w.waiters| ==> w.waiters[i] == Idle)
    && (forall i :: 0 <= i < |w.cancellers| ==> w.cancellers[i] == NotStarted)
  }

  /** The next action of a waiter; a waiter that sleeps and has not been notified does nothing. */
  function NextOfWaiter(w: World, waiter: Waiter): Waiter {
    match waiter
    case Idle => if w.cancelled then Returned else NotSeenYet
    case NotSeenYet => RegisteredAt(w.generation)
    case RegisteredAt(generation) => if w.cancelled then Returned else WaitingSince(generation)
    case WaitingSince(generation) => if generation < w.generation then Returned else waiter
    case Returned => waiter
  }

  function Apply(w: World, step: Step): World {
    match step
    case Wait(i) =>
      if i < |w.waiters| then w.(waiters := w.waiters[i := NextOfWaiter(w, w.waiters[i])]) else w
    case Cancel(i) =>
      if i >= |w.cancellers| then w
      else
        match w.cancellers[i]
        case NotStarted =>
          w.(cancelled := true, cancellers := w.cancellers[i := if w.cancelled then Over else MustNotify])
        case MustNotify => w.(generation := w.generation + 1, cancellers := w.cancellers[i := Over])
        case Over => w
  }

  function Exec(w: World, steps: seq<Step>): World {
    if |steps| == 0 then w else Apply(Exec(w, steps[..|steps| - 1]), steps[|steps| - 1])
  }

  // ----- the invariant ----------------------------------------------------------------------------------

  /** A notification is still to come. */
  ghost predicate NoticePending(w: World) {
    exists i :: 0 <= i < |w.cancellers| && w.cancellers[i].MustNotify?
  }

  ghost predicate Inv(w: World) {
    && (w.generation > 0 ==> w.cancelled)
    && (w.cancelled ==> w.generation > 0 || NoticePending(w))
    && (NoticePending(w) ==> w.cancelled)
    && (forall i :: 0 <= i < |w.waiters| ==>
          && (w.waiters[i].WaitingSince? ==> w.waiters[i].generation == 0)
          && (w.waiters[i].RegisteredAt? ==> w.waiters[i].generation <= w.generation)
          && (w.waiters[i].Returned? ==> w.cancelled))
  }

  lemma InvStep(w: World, step: Step)
    requires Inv(w)
    ensures Inv(Apply(w, step))
  {
    var w' := Apply(w, step);
    match step
    case Wait(_) =>
    case Cancel(i) =>
      if i < |w.cancellers| {
        if w.cancellers[i].NotStarted? && !w.cancelled {
          assert w'.cancellers[i].MustNotify?;
        } else if w.cancelled && w'.generation == 0 {
          var j :| 0 <= j < |w.cancellers| && w.cancellers[j].MustNotify?;
          assert w'.cancellers[j].MustNotify?;
        }
      }
  }

  lemma {:induction false} InvAlways(w: World, steps: seq<Step>)
    requires Initial(w)
    ensures Inv(Exec(w, steps)) && |Exec(w, steps).waiters| == |w.waiters|
  {
    if |steps| > 0 {
      InvAlways(w, steps[..|steps| - 1]);
      InvStep(Exec(w, steps[..|steps| - 1]), steps[|steps| - 1]);
    }
  }

  // ----- no wakeup is lost ---------------------------------------------------------------------------------

  /** How many more actions of its own a waiter needs at most. */
  function StepsLeft(waiter: Waiter): nat {
    match waiter
    case Idle => 3
    case NotSeenYet => 2
    case RegisteredAt(_) => 1
    case WaitingSince(_) => 1
    case Returned => 0
  }

  function ActionsLeft(w: World, i: nat): nat {
    if i < |w.waiters| then StepsLeft(w.waiters[i]) else 0
  }

  /** A waiter returns only after a cancellation. */
  lemma ReturnsOnlyWhenCancelled(w: World, steps: seq<Step>, i: nat)
    requires Initial(w) && i < |w.waiters|
    ensures |Exec(w, steps).waiters| == |w.waiters|
    ensures Exec(w, steps).waiters[i].Returned? ==> Exec(w, steps).cancelled
  {
    InvAlways(w, steps);
  }

  /** The token is cancelled and every notification has been sent. */
  ghost predicate Settled(w: World) {
    w.cancelled && !NoticePending(w)
  }

  lemma SettledStep(w: World, step: Step)
    requires Inv(w) && Settled(w)
    ensures Settled(Apply(w, step))
  {
    var w' := Apply(w, step);
    forall j | 0 <= j < |w'.cancellers| ensures !w'.cancellers[j].MustNotify? {
      assert !w.cancellers[j].MustNotify?;
    }
  }

  /** From then on every action of a waiter brings it closer to returning, whatever it had seen before. */
  lemma EveryActionCounts(w: World, step: Step, i: nat)
    requires Inv(w) && Settled(w) && i < |w.waiters|
    ensures |Apply(w, step).waiters| == |w.waiters|
    ensures StepsLeft(Apply(w, step).waiters[i]) <= StepsLeft(w.waiters[i])
    ensures step == Wait(i) && !w.waiters[i].Returned? ==>
            StepsLeft(Apply(w, step).waiters[i]) < StepsLeft(w.waiters[i])
  {}

  /** How many of the steps are actions of waiter i. */
  function ActionsOf(i: nat, steps: seq<Step>): nat {
    if |steps| == 0 then 0
    else ActionsOf(i, steps[..|steps| - 1]) + if steps[|steps| - 1] == Wait(i) then 1 else 0
  }

  lemma {:induction false} ActionsAddUp(w: World, later: seq<Step>, i: nat)
    requires Inv(w) && Settled(w) && i < |w.waiters|
    ensures var v := Exec(w, later);
            && Inv(v) && Settled(v) && |v.waiters| == |w.waiters|
            && (v.waiters[i].Returned? || StepsLeft(v.waiters[i]) + ActionsOf(i, later) <= StepsLeft(w.waiters[i]))
  {
    if |later| > 0 {
      var front, last := later[..|later| - 1], later[|later| - 1];
      ActionsAddUp(w, front, i);
      InvStep(Exec(w, front), last);
      SettledStep(Exec(w, front), last);
      EveryActionCounts(Exec(w, front), last, i);
    }
  }

  /**
   Once the token is cancelled and no notification is outstanding, a waiter that gets its turn often enough
   has returned, wherever it was and whatever the others do in between.
   */
  lemma NoWakeupIsLost(w: World, steps: seq<Step>, later: seq<Step>, i: nat)
    requires Initial(w) && i < |w.waiters| && Settled(Exec(w, steps))
    requires ActionsOf(i, later) >= ActionsLeft(Exec(w, steps), i)
    ensures |Exec(Exec(w, steps), later).waiters| == |w.waiters|
    ensures Exec(Exec(w, steps), later).waiters[i].Returned?
  {
    InvAlways(w, steps);
    ActionsAddUp(Exec(w, steps), later, i);
  }

  /** And cancelling is for good, and notifies exactly once however many cancel. */
  ghost predicate NotifiesOnce(w: World) {
    && w.generation <= 1
    && (w.generation == 1 ==> !NoticePending(w))
    && (forall i, j :: 0 <= i < j < |w.cancellers| ==> !(w.cancellers[i].MustNotify? && w.cancellers[j].MustNotify?))
  }

  lemma NotifiesOnceStep(w: World, step: Step)
    requires Inv(w) && NotifiesOnce(w)
    ensures NotifiesOnce(Apply(w, step))
    ensures w.cancelled ==> Apply(w, step).cancelled
  {
    var w' := Apply(w, step);
    if step.Cancel? && step.canceller < |w.cancellers| {
      var i := step.canceller;
      assert w.cancellers[i].MustNotify? ==> NoticePending(w);
      forall j | 0 <= j < |w.cancellers| && j != i ensures w'.cancellers[j] == w.cancellers[j] {
      }
      if w.cancellers[i].NotStarted? && !w.cancelled {
        assert forall j :: 0 <= j < |w.cancellers| ==> !w.cancellers[j].MustNotify?;
      }
    }
  }

  lemma {:induction false} NotifiesOnceAlways(w: World, steps: seq<Step>)
    requires Initial(w)
    ensures NotifiesOnce(Exec(w, steps))
  {
    if |steps| > 0 {
      NotifiesOnceAlways(w, steps[..|steps| - 1]);
      InvAlways(w, steps[..|steps| - 1]);
      NotifiesOnceStep(Exec(w, steps[..|steps| - 1]), steps[|steps| - 1]);
    }
  }

  // ----- a cancellation reaches everyone ---------------------------------------------------------------

  /** How many of the steps are actions of canceller i. */
  function CancelsOf(i: nat, steps: seq<Step>): nat {
    if |steps| == 0 then 0
    else CancelsOf(i, steps[..|steps| - 1]) + if steps[|steps| - 1] == Cancel(i) then 1 else 0
  }

  /** A canceller that has not acted has not started, one action cancels the token, and two end its notification. */
  lemma {:induction false} CancellerProgress(w: World, steps: seq<Step>, i: nat)
    requires Initial(w) && i < |w.cancellers|
    ensures var v := Exec(w, steps);
            && |v.cancellers| == |w.cancellers|
            && (CancelsOf(i, steps) == 0 <==> v.cancellers[i].NotStarted?)
            && (CancelsOf(i, steps) >= 1 ==> v.cancelled)
            && (CancelsOf(i, steps) >= 2 ==> v.cancellers[i].Over?)
  {
    if |steps| > 0 {
      CancellerProgress(w, steps[..|steps| - 1], i);
    }
  }

  lemma SettlesWhenNotified(w: World, steps: seq<Step>, c: nat)
    requires Initial(w) && c < |w.cancellers| && CancelsOf(c, steps) >= 1
    requires forall d: nat :: d < |w.cancellers| ==> CancelsOf(d, steps) != 1
    ensures Settled(Exec(w, steps))
  {
    CancellerProgress(w, steps, c);
    var v := Exec(w, steps);
    forall d: nat | d < |v.cancellers| ensures !v.cancellers[d].MustNotify? {
      CancellerProgress(w, steps, d);
    }
  }

  /**
   A cancellation reaches everyone.  When someone has cancelled, and everyone who began to has also taken the
   second action, the notification, then every waiter that takes three actions of its own has returned,
   wherever it was and whatever the others do in between.
   */
  lemma CancellationReachesEveryone(w: World, steps: seq<Step>, later: seq<Step>, c: nat, i: nat)
    requires Initial(w) && c < |w.cancellers| && i < |w.waiters|
    requires CancelsOf(c, steps) >= 1
    requires forall d: nat :: d < |w.cancellers| ==> CancelsOf(d, steps) != 1
    requires ActionsOf(i, later) >= 3
    ensures |Exec(Exec(w, steps), later).waiters| == |w.waiters|
    ensures Exec(Exec(w, steps), later).waiters[i].Returned?
  {
    hide Exec, CancelsOf, ActionsOf, Settled;
    SettlesWhenNotified(w, steps, c);
    InvAlways(w, steps);
    NoWakeupIsLost(w, steps, later, i);
  }

  /** And the token is cancelled only by a canceller. */
  lemma {:induction false} OnlyCancellersCancel(w: World, steps: seq<Step>)
    requires Initial(w)
    ensures |Exec(w, steps).cancellers| == |w.cancellers|
    ensures Exec(w, steps).cancelled <==> exists c: nat :: c < |w.cancellers| && Cancel(c) in steps
  {
    if |steps| > 0 {
      var front, last := steps[..|steps| - 1], steps[|steps| - 1];
      OnlyCancellersCancel(w, front);
      InvAlways(w, front);
      assert steps == front + [last];
      if last.Cancel? && last.canceller < |w.cancellers| {
        CancellerProgress(w, steps, last.canceller);
        assert CancelsOf(last.canceller, steps) >= 1;
        assert Cancel(last.canceller) in steps;
      }
    }
  }
}

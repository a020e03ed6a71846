/**
 Cancelling a tree of runs while other tasks keep delegating.  The cancelled run is marked first,
 then its delegations are listed, then each listed descendant is marked; a run that is marked
 admits no child any more.
 */
module DelegationCancel {
  import opened DelegationTree

  datatype Phase =
    | Idle
    | Marked(top: RunId)
    | Marking(top: RunId, listed: seq<Delegation>, targets: seq<RunId>, next: nat)

  datatype World = World(known: set<RunId>, forest: seq<Delegation>, cancelled: set<RunId>, phase: Phase)

  datatype Step =
    | NewRun(run: RunId)
    | Spawn(d: Delegation)
    | MarkTop(top: RunId)
    | List(targets: seq<RunId>)
    | MarkNext

  /** What the scan of the listed delegations returns; see DelegationTree.CancelTargets. */
  ghost predicate IsTargets(listed: seq<Delegation>, top: RunId, targets: seq<RunId>) {
    forall run :: run in targets <==> run != top && Below(listed, top, run)
  }

  ghost predicate Enabled(w: World, step: Step) {
    match step
    case NewRun(run) => run !in w.known
    case Spawn(d) => d.parent in w.known && d.parent !in w.cancelled && d.child !in w.known
    case MarkTop(top) => w.phase.Idle? && top in w.known
    case List(targets) => w.phase.Marked? && IsTargets(w.forest, w.phase.top, targets)
    case MarkNext => w.phase.Marking? && w.phase.next < |w.phase.targets|
  }

  function Apply(w: World, step: Step): World {
    match step
    case NewRun(run) => w.(known := w.known + {run})
    case Spawn(d) => w.(known := w.known + {d.child}, forest := w.forest + [d])
    case MarkTop(top) => w.(cancelled := w.cancelled + {top}, phase := Marked(top))
    case List(targets) =>
      if w.phase.Marked? then w.(phase := Marking(w.phase.top, w.forest, targets, 0)) else w
    case MarkNext =>
      if w.phase.Marking? && w.phase.next < |w.phase.targets|
      then w.(cancelled := w.cancelled + {w.phase.targets[w.phase.next]},
              phase := w.phase.(next := w.phase.next + 1))
      else w
  }

  /** w' follows from w by enabled steps. */
  ghost predicate IsRun(trace: seq<World>, steps: seq<Step>) {
    && |trace| == |steps| + 1
    && forall i :: 0 <= i < |steps| ==> Enabled(trace[i], steps[i]) && trace[i + 1] == Apply(trace[i], steps[i])
  }

  predicate Initial(w: World) {
    w.forest == [] && w.cancelled == {} && w.phase.Idle?
  }

  ghost predicate Inv(w: World) {
    && (forall d :: d in w.forest ==> d.parent in w.known && d.child in w.known)
    && (w.phase.Idle? ==> w.cancelled == {})
    && (w.phase.Marked? ==> w.cancelled == {w.phase.top} && w.phase.top in w.known)
    && (w.phase.Marking? ==>
          && w.phase.listed <= w.forest && w.phase.next <= |w.phase.targets|
          && IsTargets(w.phase.listed, w.phase.top, w.phase.targets)
          && w.cancelled == {w.phase.top} + Elements(w.phase.targets[..w.phase.next])
          && w.phase.top in w.known
          && (forall k :: |w.phase.listed| <= k < |w.forest| ==>
                w.forest[k].child != w.phase.top && w.forest[k].child !in w.phase.targets))
  }

  lemma TargetsAreKnown(w: World, top: RunId, targets: seq<RunId>, run: RunId)
    requires forall d :: d in w.forest ==> d.child in w.known
    requires IsTargets(w.forest, top, targets) && run in targets
    ensures run in w.known
  {
    var path :| IsPath(w.forest, path) && path[0] == top && path[|path| - 1] == run;
    assert Linked(w.forest, path[|path| - 2], path[|path| - 1]);
  }

  /** Runs below the top among the listed delegations are known, so no later child is one of them. */
  ghost predicate KnownTargets(w: World) {
    w.phase.Marking? ==> forall run :: run in w.phase.targets ==> run in w.known
  }

  lemma InvStep(w: World, step: Step)
    requires Inv(w) && KnownTargets(w) && Enabled(w, step)
    ensures Inv(Apply(w, step)) && KnownTargets(Apply(w, step))
  {
    var w' := Apply(w, step);
    match step {
      case NewRun(_) =>
      case Spawn(d) =>
        if w.phase.Marking? {
          forall k | |w.phase.listed| <= k < |w'.forest|
            ensures w'.forest[k].child != w.phase.top && w'.forest[k].child !in w.phase.targets
          {
            if k < |w.forest| { assert w'.forest[k] == w.forest[k]; }
          }
        }
      case MarkTop(_) =>
      case List(targets) =>
        assert targets[..0] == [];
        forall run | run in targets ensures run in w.known {
          TargetsAreKnown(w, w.phase.top, targets, run);
        }
      case MarkNext =>
        var next := w.phase.next;
        assert w.phase.targets[..next + 1] == w.phase.targets[..next] + [w.phase.targets[next]];
    }
  }

  lemma {:induction false} InvAlways(trace: seq<World>, steps: seq<Step>)
    requires IsRun(trace, steps) && Initial(trace[0])
    ensures Inv(trace[|steps|]) && KnownTargets(trace[|steps|])
  {
    if |steps| > 0 {
      InvAlways(trace[..|steps|], steps[..|steps| - 1]);
      InvStep(trace[|steps| - 1], steps[|steps| - 1]);
    }
  }

  /** A path in the forest all of whose links were listed already. */
  lemma {:induction false} OldPath(w: World, top: RunId, path: seq<RunId>)
    requires w.phase.Marking? && w.phase.listed <= w.forest && IsPath(w.forest, path) && path[0] == top
    requires forall k :: |w.phase.listed| <= k < |w.forest| ==> !Below(w.forest, top, w.forest[k].child)
    ensures IsPath(w.phase.listed, path)
  {
    forall k | 0 <= k < |path| - 1 ensures Linked(w.phase.listed, path[k], path[k + 1]) {
      assert Linked(w.forest, path[k], path[k + 1]);
      var d :| d in w.forest && d.parent == path[k] && d.child == path[k + 1];
      var j :| 0 <= j < |w.forest| && w.forest[j] == d;
      var front := path[..k + 2];
      assert IsPath(w.forest, front) by {
        forall m | 0 <= m < |front| - 1 ensures Linked(w.forest, front[m], front[m + 1]) {
          assert Linked(w.forest, path[m], path[m + 1]);
        }
      }
      assert Below(w.forest, top, w.forest[j].child);
      assert w.forest[j] == w.phase.listed[j];
    }
  }

  /**
   When the cancellation is over, every run below the top has been cancelled exactly when nothing
   was delegated below the top after its delegations had been listed.
   */
  lemma CancellationIsComplete(trace: seq<World>, steps: seq<Step>)
    requires IsRun(trace, steps) && Initial(trace[0])
    requires var w := trace[|steps|]; w.phase.Marking? && w.phase.next == |w.phase.targets|
    ensures var w := trace[|steps|]; var top := w.phase.top;
            (forall run :: Below(w.forest, top, run) ==> run in w.cancelled) <==>
            (forall k :: |w.phase.listed| <= k < |w.forest| ==> !Below(w.forest, top, w.forest[k].child))
  {
    InvAlways(trace, steps);
    var w := trace[|steps|];
    var top := w.phase.top;
    assert w.phase.targets[..w.phase.next] == w.phase.targets;
    if forall k :: |w.phase.listed| <= k < |w.forest| ==> !Below(w.forest, top, w.forest[k].child) {
      forall run | Below(w.forest, top, run) ensures run in w.cancelled {
        var path :| IsPath(w.forest, path) && path[0] == top && path[|path| - 1] == run;
        OldPath(w, top, path);
        assert Below(w.phase.listed, top, run);
      }
    }
  }

  ghost function Children(forest: seq<Delegation>, run: RunId): set<RunId> {
    set d | d in forest && d.parent == run :: d.child
  }

  /** Whatever follows, a marked run stays marked and its children stay what they are. */
  lemma {:induction false} MarkedRunsStopDelegating(trace: seq<World>, steps: seq<Step>, i: nat, j: nat, run: RunId)
    requires IsRun(trace, steps) && i <= j <= |steps| && run in trace[i].cancelled
    ensures run in trace[j].cancelled && trace[i].forest <= trace[j].forest
    ensures Children(trace[j].forest, run) == Children(trace[i].forest, run)
    decreases j
  {
    if i < j {
      MarkedRunsStopDelegating(trace, steps, i, j - 1, run);
      assert Enabled(trace[j - 1], steps[j - 1]) && trace[j] == Apply(trace[j - 1], steps[j - 1]);
    }
  }

  /** Every run below the top is marked. */
  ghost predicate WhollyCancelled(w: World, top: RunId) {
    forall run :: Below(w.forest, top, run) ==> run in w.cancelled
  }

  /** A path from the top of a wholly cancelled tree has no link that was made later. */
  lemma {:induction false} PathIsOld(trace: seq<World>, steps: seq<Step>, i: nat, j: nat, path: seq<RunId>)
    requires IsRun(trace, steps) && i <= j <= |steps| && IsPath(trace[j].forest, path)
    requires WhollyCancelled(trace[i], path[0])
    ensures IsPath(trace[i].forest, path)
  {
    if |path| > 1 {
      var front, last := path[..|path| - 1], path[|path| - 1];
      assert IsPath(trace[j].forest, front) by {
        forall k | 0 <= k < |front| - 1 ensures Linked(trace[j].forest, front[k], front[k + 1]) {
          assert Linked(trace[j].forest, path[k], path[k + 1]);
        }
      }
      PathIsOld(trace, steps, i, j, front);
      var parent := front[|front| - 1];
      assert Below(trace[i].forest, path[0], parent);
      MarkedRunsStopDelegating(trace, steps, i, j, parent);
      assert Linked(trace[j].forest, parent, last);
      assert last in Children(trace[j].forest, parent);
      assert Linked(trace[i].forest, parent, last);
      forall k | 0 <= k < |path| - 1 ensures Linked(trace[i].forest, path[k], path[k + 1]) {
        assert k < |front| - 1 ==> Linked(trace[i].forest, front[k], front[k + 1]);
      }
    }
  }

  /** A tree that is wholly cancelled at some moment neither grows nor comes back: it is the same tree for good. */
  lemma CancelledTreeIsFinal(trace: seq<World>, steps: seq<Step>, i: nat, j: nat, top: RunId)
    requires IsRun(trace, steps) && i <= j <= |steps| && WhollyCancelled(trace[i], top)
    ensures WhollyCancelled(trace[j], top)
    ensures forall run :: Below(trace[j].forest, top, run) <==> Below(trace[i].forest, top, run)
  {
    assert IsPath(trace[i].forest, [top]) && [top][0] == top;
    assert Below(trace[i].forest, top, top);
    MarkedRunsStopDelegating(trace, steps, i, j, top);
    forall run ensures Below(trace[j].forest, top, run) <==> Below(trace[i].forest, top, run) {
      if path :| IsPath(trace[j].forest, path) && path[0] == top && path[|path| - 1] == run {
        PathIsOld(trace, steps, i, j, path);
      }
      if path :| IsPath(trace[i].forest, path) && path[0] == top && path[|path| - 1] == run {
        PathGrows(trace[i].forest, trace[j].forest, path);
      }
    }
    forall run | Below(trace[i].forest, top, run) ensures run in trace[j].cancelled {
      MarkedRunsStopDelegating(trace, steps, i, j, run);
    }
  }

  lemma PathGrows(forest: seq<Delegation>, later: seq<Delegation>, path: seq<RunId>)
    requires forest <= later && IsPath(forest, path)
    ensures IsPath(later, path)
  {
    forall k | 0 <= k < |path| - 1 ensures Linked(later, path[k], path[k + 1]) {
      assert Linked(forest, path[k], path[k + 1]);
    }
  }

  /** The cancellation of run 0 is over, and run 2, two levels below it, is not cancelled. */
  ghost predicate Escaped(w: World) {
    && w.phase.Marking? && w.phase.next == |w.phase.targets| && w.phase.top == 0
    && Below(w.forest, 0, 2) && 2 !in w.cancelled
  }

  lemma OnlyChild(child: Delegation)
    requires child.parent == 0 && child.child == 1
    ensures IsTargets([child], 0, [1])
  {
    assert IsPath([child], [0, 1]) by {
      assert Linked([child], 0, 1);
    }
    assert [0, 1][0] == 0 && [0, 1][|[0, 1]| - 1] == 1;
    forall run | run != 0 && Below([child], 0, run) ensures run == 1 {
      var path :| IsPath([child], path) && path[0] == 0 && path[|path| - 1] == run;
      assert Linked([child], path[|path| - 2], path[|path| - 1]);
    }
  }

  lemma Grandchild(child: Delegation, grandchild: Delegation)
    requires child.parent == 0 && child.child == 1 && grandchild.parent == 1 && grandchild.child == 2
    ensures Below([child, grandchild], 0, 2)
  {
    var forest, path := [child, grandchild], [0, 1, 2];
    assert Linked(forest, 0, 1) && Linked(forest, 1, 2);
    assert IsPath(forest, path) && path[0] == 0 && path[|path| - 1] == 2;
  }

  /**
   A listed child may delegate once more before its own turn comes, and that grandchild is neither
   listed nor cancelled.
   */
  lemma GrandchildCanEscape(child: Delegation, grandchild: Delegation)
    requires child.parent == 0 && child.child == 1 && grandchild.parent == 1 && grandchild.child == 2
    ensures exists trace: seq<World>, steps :: IsRun(trace, steps) && Initial(trace[0]) && Escaped(trace[|steps|])
  {
    var w0 := World({0}, [], {}, Idle);
    var w1 := World({0, 1}, [child], {}, Idle);
    var w2 := World({0, 1}, [child], {0}, Marked(0));
    var w3 := World({0, 1}, [child], {0}, Marking(0, [child], [1], 0));
    var w4 := World({0, 1, 2}, [child, grandchild], {0}, Marking(0, [child], [1], 0));
    var w5 := World({0, 1, 2}, [child, grandchild], {0, 1}, Marking(0, [child], [1], 1));
    var trace := [w0, w1, w2, w3, w4, w5];
    var steps := [Spawn(child), MarkTop(0), List([1]), Spawn(grandchild), MarkNext];
    OnlyChild(child);
    assert Apply(w0, steps[0]) == w1;
    assert Apply(w1, steps[1]) == w2;
    assert Apply(w2, steps[2]) == w3;
    assert Apply(w3, steps[3]) == w4;
    assert Apply(w4, steps[4]) == w5;
    assert IsRun(trace, steps);
    Grandchild(child, grandchild);
    assert Escaped(trace[|steps|]);
  }
}

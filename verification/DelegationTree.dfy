/**
 Sub-agent delegations: admission with inherited budgets, and the cancellation of a run together
 with everything below it, found by scanning the listed delegations until nothing is added.
 */
module DelegationTree {
  import opened Basics

  type RunId = nat

  const MAX_DEPTH := 2
  const MAX_ROOT_SPAWNS := 8
  const MAX_ROOT_ACTIVE := 4

  datatype Delegation = Delegation(
    root: RunId, parent: RunId, child: RunId, depth: int,
    tools: set<string>, maxRounds: int, maxTokens: int, maxToolCalls: int, deadline: int)

  // ----- the cancellation closure -----------------------------------------------------------

  /** Consecutive runs of a path are linked by listed delegations. */
  ghost predicate IsPath(listed: seq<Delegation>, path: seq<RunId>) {
    |path| > 0 && forall k :: 0 <= k < |path| - 1 ==> Linked(listed, path[k], path[k + 1])
  }

  ghost predicate Linked(listed: seq<Delegation>, parent: RunId, child: RunId) {
    exists d :: d in listed && d.parent == parent && d.child == child
  }

  ghost predicate Below(listed: seq<Delegation>, top: RunId, run: RunId) {
    exists path :: IsPath(listed, path) && path[0] == top && path[|path| - 1] == run
  }

  lemma BelowExtends(listed: seq<Delegation>, top: RunId, d: Delegation)
    requires d in listed && Below(listed, top, d.parent)
    ensures Below(listed, top, d.child)
  {
    var path :| IsPath(listed, path) && path[0] == top && path[|path| - 1] == d.parent;
    var longer := path + [d.child];
    assert Linked(listed, d.parent, d.child);
    assert IsPath(listed, longer);
  }

  ghost predicate Closed(listed: seq<Delegation>, owned: set<RunId>) {
    forall d :: d in listed && d.parent in owned ==> d.child in owned
  }

  lemma {:induction false} ClosedHoldsPaths(listed: seq<Delegation>, owned: set<RunId>, path: seq<RunId>)
    requires Closed(listed, owned) && IsPath(listed, path) && path[0] in owned
    ensures path[|path| - 1] in owned
  {
    if |path| > 1 {
      var front := path[..|path| - 1];
      assert IsPath(listed, front) by {
        forall k | 0 <= k < |front| - 1 ensures Linked(listed, front[k], front[k + 1]) {
          assert Linked(listed, path[k], path[k + 1]);
        }
      }
      ClosedHoldsPaths(listed, owned, front);
      assert Linked(listed, path[|path| - 2], path[|path| - 1]);
    }
  }

  function Elements(targets: seq<RunId>): set<RunId> {
    set t | t in targets
  }

  ghost predicate Distinct(targets: seq<RunId>) {
    forall i, j :: 0 <= i < j < |targets| ==> targets[i] != targets[j]
  }

  /** Whoever cancels target k has cancelled a parent of it before: the run itself or an earlier target. */
  ghost predicate ParentFirst(listed: seq<Delegation>, top: RunId, targets: seq<RunId>) {
    forall k :: 0 <= k < |targets| ==>
      exists d :: d in listed && d.child == targets[k] && (d.parent == top || d.parent in targets[..k])
  }

  /** The facts the scan keeps about what it owns and what it will cancel, in order. */
  ghost predicate Scan(listed: seq<Delegation>, top: RunId, owned: set<RunId>, targets: seq<RunId>) {
    && owned == {top} + Elements(targets) && top !in targets
    && Distinct(targets)
    && ParentFirst(listed, top, targets)
    && (forall run :: run in owned ==> Below(listed, top, run))
  }

  lemma ScanPush(listed: seq<Delegation>, top: RunId, owned: set<RunId>, targets: seq<RunId>, d: Delegation)
    requires Scan(listed, top, owned, targets) && d in listed && d.parent in owned && d.child !in owned
    ensures Scan(listed, top, owned + {d.child}, targets + [d.child])
  {
    var more := targets + [d.child];
    BelowExtends(listed, top, d);
    assert Elements(more) == Elements(targets) + {d.child};
    forall k | 0 <= k < |more|
      ensures exists e :: e in listed && e.child == more[k] && (e.parent == top || e.parent in more[..k])
    {
      if k < |targets| {
        assert more[..k] == targets[..k];
      } else {
        assert more[..k] == targets;
      }
    }
  }

  /** Runs that may still be added: the children listed and not yet owned. */
  function Missing(listed: seq<Delegation>, owned: set<RunId>): set<RunId> {
    (set d | d in listed :: d.child) - owned
  }

  /**
   The runs to cancel with `top`: exactly the strict descendants among the listed delegations,
   each once, and never before the run it was delegated by.  The list may be in any order.
   */
  method CancelTargets(listed: seq<Delegation>, top: RunId) returns (targets: seq<RunId>)
    ensures forall run :: run in targets <==> run != top && Below(listed, top, run)
    ensures Distinct(targets)
    ensures ParentFirst(listed, top, targets)
  {
    var owned := {top};
    targets := [];
    assert IsPath(listed, [top]) && [top][0] == top;
    assert Below(listed, top, top);
    var growing := true;
    while growing
      invariant Scan(listed, top, owned, targets)
      invariant !growing ==> Closed(listed, owned)
      decreases Missing(listed, owned), growing
    {
      var before := |targets|;
      ghost var was := owned;
      for i := 0 to |listed|
        invariant Scan(listed, top, owned, targets)
        invariant was <= owned && |targets| >= before
        invariant |targets| == before ==> owned == was
        invariant |targets| > before ==> Missing(listed, owned) < Missing(listed, was)
        invariant forall k :: 0 <= k < i && listed[k].parent in was ==> listed[k].child in owned
      {
        var d := listed[i];
        if d.parent in owned && d.child !in owned {
          ScanPush(listed, top, owned, targets, d);
          assert d.child in Missing(listed, owned) && d.child !in Missing(listed, owned + {d.child});
          owned, targets := owned + {d.child}, targets + [d.child];
        }
      }
      growing := |targets| != before;
    }
    forall run | run != top && Below(listed, top, run) ensures run in targets {
      var path :| IsPath(listed, path) && path[0] == top && path[|path| - 1] == run;
      ClosedHoldsPaths(listed, owned, path);
    }
  }

  /** In a forest, where a run is delegated at most once, that parent is the only one. */
  lemma ForestCancelsTopDown(listed: seq<Delegation>, top: RunId, targets: seq<RunId>, d: Delegation, k: nat)
    requires ParentFirst(listed, top, targets)
    requires forall a, b :: a in listed && b in listed && a.child == b.child ==> a == b
    requires d in listed && k < |targets| && targets[k] == d.child
    ensures d.parent == top || d.parent in targets[..k]
  {}

  // ----- admission ---------------------------------------------------------------------------

  datatype Request = Request(
    parent: RunId, child: RunId, tools: set<string>,
    maxRounds: int, maxTokens: int, maxToolCalls: int, timeout: int)

  /**
   A request and what it meets: the clock, whether its parent runs, which runs are queued, running or
   waiting, and the token budget of the parent's session.
   */
  datatype Asked = Asked(request: Request, now: int, parentRuns: bool, live: set<RunId>, sessionTokens: int)

  function Find(forest: seq<Delegation>, child: RunId): Option<Delegation> {
    if |forest| == 0 then None
    else if forest[|forest| - 1].child == child then Some(forest[|forest| - 1])
    else Find(forest[..|forest| - 1], child)
  }

  predicate BudgetAllowed(r: Request, parent: Option<Delegation>) {
    && r.tools == {"read_file"}
    && (parent.Some? ==> r.tools <= parent.value.tools)
    && 1 <= r.maxRounds <= 15 && 512 <= r.maxTokens <= 32_000 && 1 <= r.maxToolCalls <= 32
    && 1_000 <= r.timeout <= 600_000
    && (parent.Some? ==> r.maxRounds <= parent.value.maxRounds && r.maxTokens <= parent.value.maxTokens &&
                         r.maxToolCalls <= parent.value.maxToolCalls)
  }

  function OfRoot(root: RunId): Delegation -> bool {
    (d: Delegation) => d.root == root
  }

  function LiveOf(root: RunId, live: set<RunId>): Delegation -> bool {
    (d: Delegation) => d.root == root && d.child in live
  }

  function CountRoot(forest: seq<Delegation>, root: RunId): nat {
    |Keep(OfRoot(root), forest)|
  }

  /** The record a request is admitted as, if it is. */
  function Admitted(forest: seq<Delegation>, q: Asked): Option<Delegation> {
    var (r, now) := (q.request, q.now);
    var parent := Find(forest, r.parent);
    var root := if parent.Some? then parent.value.root else r.parent;
    var depth := if parent.Some? then parent.value.depth + 1 else 1;
    var deadline := if parent.Some? then Min(now + r.timeout, parent.value.deadline) else now + r.timeout;
    if !BudgetAllowed(r, parent) || r.maxTokens > q.sessionTokens || !q.parentRuns || deadline <= now
       || depth > MAX_DEPTH || CountRoot(forest, root) >= MAX_ROOT_SPAWNS
       || |Keep(LiveOf(root, q.live), forest)| >= MAX_ROOT_ACTIVE
    then None
    else Some(Delegation(root, r.parent, r.child, depth, r.tools, r.maxRounds, r.maxTokens, r.maxToolCalls, deadline))
  }

  /** A new run id is fresh: neither a child nor a parent of anything admitted before. */
  predicate FreshChild(forest: seq<Delegation>, r: Request) {
    r.child != r.parent && forall d :: d in forest ==> d.child != r.child && d.parent != r.child
  }

  function Admit(forest: seq<Delegation>, q: Asked): seq<Delegation> {
    var admitted := Admitted(forest, q);
    if FreshChild(forest, q.request) && admitted.Some? then forest + [admitted.value] else forest
  }

  function AdmitAll(requests: seq<Asked>): seq<Delegation> {
    if |requests| == 0 then [] else Admit(AdmitAll(requests[..|requests| - 1]), requests[|requests| - 1])
  }

  /** b asks for no more than a has, in every dimension. */
  predicate Within(b: Delegation, a: Delegation) {
    b.tools <= a.tools && b.maxRounds <= a.maxRounds && b.maxTokens <= a.maxTokens &&
    b.maxToolCalls <= a.maxToolCalls && b.deadline <= a.deadline
  }

  /** Every run is delegated at most once, and only after its parent. */
  ghost predicate Ranked(forest: seq<Delegation>) {
    && (forall i, j :: 0 <= i < j < |forest| ==>
         forest[i].child != forest[j].child && forest[i].parent != forest[j].child)
    && (forall i :: 0 <= i < |forest| ==> forest[i].parent != forest[i].child && 1 <= forest[i].depth <= MAX_DEPTH)
  }

  ghost predicate ChildOf(b: Delegation, a: Delegation) {
    b.parent == a.child ==> Within(b, a) && b.root == a.root && b.depth == a.depth + 1
  }

  ghost predicate Narrowing(forest: seq<Delegation>) {
    forall a, b :: a in forest && b in forest ==> ChildOf(b, a)
  }

  ghost predicate Limited(forest: seq<Delegation>) {
    forall root :: CountRoot(forest, root) <= MAX_ROOT_SPAWNS
  }

  ghost predicate ForestInv(forest: seq<Delegation>) {
    Ranked(forest) && Narrowing(forest) && Limited(forest)
  }

  lemma {:induction false} FindFinds(forest: seq<Delegation>, child: RunId)
    ensures Find(forest, child).Some? <==> exists d :: d in forest && d.child == child
    ensures Find(forest, child).Some? ==>
            Find(forest, child).value in forest && Find(forest, child).value.child == child
  {
    if |forest| > 0 {
      FindFinds(forest[..|forest| - 1], child);
      assert forest == forest[..|forest| - 1] + [forest[|forest| - 1]];
    }
  }

  lemma AdmittedBelowParent(forest: seq<Delegation>, q: Asked, a: Delegation)
    requires Ranked(forest) && a in forest && Admitted(forest, q).Some?
    ensures ChildOf(Admitted(forest, q).value, a)
  {
    FindFinds(forest, q.request.parent);
    if a.child == q.request.parent {
      SameChild(forest, a, Find(forest, q.request.parent).value);
    }
  }

  lemma NarrowingPush(forest: seq<Delegation>, q: Asked)
    requires Ranked(forest) && Narrowing(forest) && FreshChild(forest, q.request) && Admitted(forest, q).Some?
    ensures Narrowing(forest + [Admitted(forest, q).value])
  {
    var d := Admitted(forest, q).value;
    forall a, b | a in forest + [d] && b in forest + [d] ensures ChildOf(b, a) {
      if b in forest && a in forest {
      } else if a in forest {
        AdmittedBelowParent(forest, q, a);
      }
    }
  }

  lemma AdmitKeepsInv(forest: seq<Delegation>, q: Asked)
    requires ForestInv(forest)
    ensures ForestInv(Admit(forest, q))
  {
    var admitted := Admitted(forest, q);
    if FreshChild(forest, q.request) && admitted.Some? {
      NarrowingPush(forest, q);
      FindFinds(forest, q.request.parent);
      RankedPush(forest, admitted.value);
      LimitedPush(forest, admitted.value);
    }
  }

  lemma RankedPush(forest: seq<Delegation>, d: Delegation)
    requires Ranked(forest) && d.parent != d.child && 1 <= d.depth <= MAX_DEPTH
    requires forall e :: e in forest ==> e.child != d.child && e.parent != d.child
    ensures Ranked(forest + [d])
  {}

  lemma LimitedPush(forest: seq<Delegation>, d: Delegation)
    requires Limited(forest) && CountRoot(forest, d.root) < MAX_ROOT_SPAWNS
    ensures Limited(forest + [d])
  {
    forall root ensures CountRoot(forest + [d], root) <= MAX_ROOT_SPAWNS {
      assert CountRoot(forest, root) <= MAX_ROOT_SPAWNS;
      KeepPush(OfRoot(root), forest, d);
    }
  }

  lemma {:induction false} ForestAlways(requests: seq<Asked>)
    ensures ForestInv(AdmitAll(requests))
  {
    if |requests| > 0 {
      ForestAlways(requests[..|requests| - 1]);
      AdmitKeepsInv(AdmitAll(requests[..|requests| - 1]), requests[|requests| - 1]);
    }
  }

  /** The delegation that created the last run of a path. */
  lemma PathEnd(forest: seq<Delegation>, path: seq<RunId>, a: Delegation) returns (d: Delegation)
    requires IsPath(forest, path) && a in forest && a.child == path[0]
    ensures d in forest && d.child == path[|path| - 1]
  {
    if |path| == 1 {
      d := a;
    } else {
      assert Linked(forest, path[|path| - 2], path[|path| - 1]);
      d :| d in forest && d.parent == path[|path| - 2] && d.child == path[|path| - 1];
    }
  }

  lemma PathFront(forest: seq<Delegation>, path: seq<RunId>)
    requires IsPath(forest, path) && |path| > 1
    ensures IsPath(forest, path[..|path| - 1]) && Linked(forest, path[|path| - 2], path[|path| - 1])
  {
    var front := path[..|path| - 1];
    assert Linked(forest, path[|path| - 2], path[|path| - 1]);
    forall k | 0 <= k < |front| - 1 ensures Linked(forest, front[k], front[k + 1]) {
      assert Linked(forest, path[k], path[k + 1]);
    }
  }

  lemma SameChild(forest: seq<Delegation>, a: Delegation, b: Delegation)
    requires Ranked(forest) && a in forest && b in forest && a.child == b.child
    ensures a == b
  {
    var i :| 0 <= i < |forest| && forest[i] == a;
    var j :| 0 <= j < |forest| && forest[j] == b;
    assert i == j;
  }

  lemma {:induction false} PathNarrows(forest: seq<Delegation>, path: seq<RunId>, a: Delegation, b: Delegation)
    requires ForestInv(forest) && IsPath(forest, path)
    requires a in forest && a.child == path[0] && b in forest && b.child == path[|path| - 1]
    ensures Within(b, a) && b.root == a.root && b.depth == a.depth + |path| - 1
  {
    if |path| == 1 {
      SameChild(forest, a, b);
    } else {
      var front := path[..|path| - 1];
      PathFront(forest, path);
      var d :| d in forest && d.parent == path[|path| - 2] && d.child == path[|path| - 1];
      SameChild(forest, d, b);
      var parent := PathEnd(forest, front, a);
      PathNarrows(forest, front, a, parent);
      assert ChildOf(b, parent);
    }
  }

  /**
   In every forest admission can build, a delegation below another has no more tools, rounds,
   tokens or tool calls and no later deadline, and it is at most one level further down.
   */
  lemma BudgetsNeverGrow(requests: seq<Asked>, a: Delegation, b: Delegation)
    requires var forest := AdmitAll(requests); a in forest && b in forest && Below(forest, a.child, b.child)
    ensures Within(b, a) && b.root == a.root && a.depth <= b.depth <= a.depth + 1
  {
    var forest := AdmitAll(requests);
    ForestAlways(requests);
    var path :| IsPath(forest, path) && path[0] == a.child && path[|path| - 1] == b.child;
    PathNarrows(forest, path, a, b);
    var i :| 0 <= i < |forest| && forest[i] == a;
    var j :| 0 <= j < |forest| && forest[j] == b;
  }

  // ----- exactly which requests are admitted ----------------------------------------------------------

  /** The delegation is what this request asked for, within the limits every request has to keep. */
  ghost predicate Grants(q: Asked, d: Delegation) {
    && d.parent == q.request.parent && d.child == q.request.child && d.tools == q.request.tools == {"read_file"}
    && 1 <= d.maxRounds == q.request.maxRounds <= 15
    && 512 <= d.maxTokens == q.request.maxTokens <= 32_000 && d.maxTokens <= q.sessionTokens
    && 1 <= d.maxToolCalls == q.request.maxToolCalls <= 32
    && 1_000 <= q.request.timeout <= 600_000 && q.now < d.deadline <= q.now + q.request.timeout
    && q.parentRuns
  }

  lemma AdmittedIsGranted(forest: seq<Delegation>, q: Asked)
    requires Admitted(forest, q).Some?
    ensures Grants(q, Admitted(forest, q).value)
  {}

  /** Everything ever admitted was asked for, and asked for no more than a child may have. */
  lemma {:induction false} AdmittedWithinLimits(requests: seq<Asked>, d: Delegation)
    requires d in AdmitAll(requests)
    ensures exists i :: 0 <= i < |requests| && Grants(requests[i], d)
    ensures 1 <= d.depth <= 2 && d.parent != d.child
    ensures |set e | e in AdmitAll(requests) && e.root == d.root| <= 8
  {
    ForestAlways(requests);
    var k :| 0 <= k < |AdmitAll(requests)| && AdmitAll(requests)[k] == d;
    assert CountRoot(AdmitAll(requests), d.root) <= MAX_ROOT_SPAWNS;
    CountsAreSets(AdmitAll(requests), d.root, {});
    AdmittedWasAsked(requests, d);
  }

  /** The two counts are numbers of delegations, because no delegation stands in a forest twice. */
  lemma CountsAreSets(forest: seq<Delegation>, root: RunId, live: set<RunId>)
    requires Ranked(forest)
    ensures |Keep(OfRoot(root), forest)| == |set d | d in forest && d.root == root|
    ensures |Keep(LiveOf(root, live), forest)| == |set d | d in forest && d.root == root && d.child in live|
  {
    KeepIsASet(OfRoot(root), forest);
    KeepIsASet(LiveOf(root, live), forest);
    assert (set d | d in forest && OfRoot(root)(d)) == set d | d in forest && d.root == root;
    assert (set d | d in forest && LiveOf(root, live)(d)) == set d | d in forest && d.root == root && d.child in live;
  }

  lemma OneMoreKept(p: Delegation -> bool, forest: seq<Delegation>, last: Delegation)
    requires last !in forest
    ensures |set d | d in forest + [last] && p(d)| == |set d | d in forest && p(d)| + if p(last) then 1 else 0
  {
    var before, after := set d | d in forest && p(d), set d | d in forest + [last] && p(d);
    if p(last) {
      assert after == before + {last};
    } else {
      assert after == before;
    }
  }

  lemma {:induction false} KeepIsASet(p: Delegation -> bool, forest: seq<Delegation>)
    requires Ranked(forest)
    ensures |Keep(p, forest)| == |set d | d in forest && p(d)|
  {
    if |forest| > 0 {
      var front, last := forest[..|forest| - 1], forest[|forest| - 1];
      KeepIsASet(p, front);
      assert forest == front + [last];
      OneMoreKept(p, front, last);
    }
  }

  lemma {:induction false} AdmittedWasAsked(requests: seq<Asked>, d: Delegation)
    requires d in AdmitAll(requests)
    ensures exists i :: 0 <= i < |requests| && Grants(requests[i], d)
  {
    var n := |requests| - 1;
    if d in AdmitAll(requests[..n]) {
      AdmittedWasAsked(requests[..n], d);
      var i :| 0 <= i < n && Grants(requests[..n][i], d);
      assert Grants(requests[i], d);
    } else {
      AdmittedIsGranted(AdmitAll(requests[..n]), requests[n]);
      assert Grants(requests[n], d);
    }
  }

  /** A child of a run that nobody delegated starts a tree of its own. */
  ghost predicate IsRootless(forest: seq<Delegation>, run: RunId) {
    forall a :: a in forest ==> a.child != run
  }

  lemma AdmitLast(requests: seq<Asked>, q: Asked)
    ensures var (forest, longer) := (AdmitAll(requests), AdmitAll(requests + [q]));
            && (longer != forest <==> FreshChild(forest, q.request) && Admitted(forest, q).Some?)
            && (longer != forest ==> longer == forest + [Admitted(forest, q).value])
  {
    hide Admitted, FreshChild;
    assert (requests + [q])[..|requests|] == requests;
  }

  lemma AdmittedAtRoot(forest: seq<Delegation>, q: Asked)
    requires Find(forest, q.request.parent) == None
    ensures var r := q.request;
            && (Admitted(forest, q).Some? <==>
                  && r.tools == {"read_file"} && 1 <= r.maxRounds <= 15 && 512 <= r.maxTokens <= 32_000
                  && 1 <= r.maxToolCalls <= 32 && 1_000 <= r.timeout <= 600_000
                  && r.maxTokens <= q.sessionTokens && q.parentRuns
                  && |Keep(OfRoot(r.parent), forest)| < 8 && |Keep(LiveOf(r.parent, q.live), forest)| < 4)
            && (Admitted(forest, q).Some? ==>
                  Admitted(forest, q).value == Delegation(r.parent, r.parent, r.child, 1, r.tools, r.maxRounds,
                                                          r.maxTokens, r.maxToolCalls, q.now + r.timeout))
  {}

  /**
   A request of a run that was not delegated itself is admitted exactly when its child is new and it keeps
   the limits of every request, those of its session and those of its own tree.
   */
  lemma RootRequestIsAdmittedExactly(requests: seq<Asked>, q: Asked)
    requires IsRootless(AdmitAll(requests), q.request.parent)
    ensures var (forest, r) := (AdmitAll(requests), q.request);
            && (AdmitAll(requests + [q]) != forest <==>
                  && r.child != r.parent && (forall d :: d in forest ==> r.child !in {d.child, d.parent})
                  && r.tools == {"read_file"} && 1 <= r.maxRounds <= 15 && 512 <= r.maxTokens <= 32_000
                  && 1 <= r.maxToolCalls <= 32 && 1_000 <= r.timeout <= 600_000
                  && r.maxTokens <= q.sessionTokens && q.parentRuns
                  && |set d | d in forest && d.root == r.parent| < 8
                  && |set d | d in forest && d.root == r.parent && d.child in q.live| < 4)
            && (AdmitAll(requests + [q]) != forest ==>
                  AdmitAll(requests + [q]) == forest + [Delegation(r.parent, r.parent, r.child, 1, r.tools, r.maxRounds,
                                                                   r.maxTokens, r.maxToolCalls, q.now + r.timeout)])
  {
    hide Admitted, AdmitAll, Keep;
    AdmitLast(requests, q);
    FindFinds(AdmitAll(requests), q.request.parent);
    ForestAlways(requests);
    CountsAreSets(AdmitAll(requests), q.request.parent, q.live);
    AdmittedAtRoot(AdmitAll(requests), q);
  }

  lemma AdmittedShape(requests: seq<Asked>, a: Delegation)
    requires a in AdmitAll(requests)
    ensures a.tools == {"read_file"} && 1 <= a.depth <= 2
    ensures Find(AdmitAll(requests), a.child) == Some(a)
  {
    AdmittedWithinLimits(requests, a);
    ForestAlways(requests);
    FindFinds(AdmitAll(requests), a.child);
    SameChild(AdmitAll(requests), a, Find(AdmitAll(requests), a.child).value);
  }

  lemma AdmittedBelow(forest: seq<Delegation>, q: Asked, a: Delegation)
    requires Find(forest, q.request.parent) == Some(a) && a.tools == {"read_file"} && 1 <= a.depth <= 2
    ensures var r := q.request;
            && (Admitted(forest, q).Some? <==>
                  && r.tools == {"read_file"} && 1 <= r.maxRounds <= 15 && 512 <= r.maxTokens <= 32_000
                  && 1 <= r.maxToolCalls <= 32 && 1_000 <= r.timeout <= 600_000
                  && r.maxTokens <= q.sessionTokens && q.parentRuns
                  && r.maxRounds <= a.maxRounds && r.maxTokens <= a.maxTokens && r.maxToolCalls <= a.maxToolCalls
                  && q.now < a.deadline && a.depth == 1
                  && |Keep(OfRoot(a.root), forest)| < 8 && |Keep(LiveOf(a.root, q.live), forest)| < 4)
            && (Admitted(forest, q).Some? ==>
                  Admitted(forest, q).value ==
                  Delegation(a.root, r.parent, r.child, 2, r.tools, r.maxRounds, r.maxTokens, r.maxToolCalls,
                             Min(q.now + r.timeout, a.deadline)))
  {}

  /**
   A request of a delegated run is admitted exactly when, besides, it asks for no more than that run has,
   before its deadline and one level below it.
   */
  lemma ChildRequestIsAdmittedExactly(requests: seq<Asked>, q: Asked, a: Delegation)
    requires a in AdmitAll(requests) && a.child == q.request.parent
    ensures var (forest, r) := (AdmitAll(requests), q.request);
            && (AdmitAll(requests + [q]) != forest <==>
                  && r.child != r.parent && (forall d :: d in forest ==> r.child !in {d.child, d.parent})
                  && r.tools == {"read_file"} && 1 <= r.maxRounds <= 15 && 512 <= r.maxTokens <= 32_000
                  && 1 <= r.maxToolCalls <= 32 && 1_000 <= r.timeout <= 600_000
                  && r.maxTokens <= q.sessionTokens && q.parentRuns
                  && r.maxRounds <= a.maxRounds && r.maxTokens <= a.maxTokens && r.maxToolCalls <= a.maxToolCalls
                  && q.now < a.deadline && a.depth == 1
                  && |set d | d in forest && d.root == a.root| < 8
                  && |set d | d in forest && d.root == a.root && d.child in q.live| < 4)
            && (AdmitAll(requests + [q]) != forest ==>
                  AdmitAll(requests + [q]) == forest + [Delegation(a.root, r.parent, r.child, 2, r.tools, r.maxRounds,
                                                                   r.maxTokens, r.maxToolCalls,
                                                                   Min(q.now + r.timeout, a.deadline))])
  {
    hide Admitted, AdmitAll, Keep;
    AdmitLast(requests, q);
    AdmittedShape(requests, a);
    ForestAlways(requests);
    CountsAreSets(AdmitAll(requests), a.root, q.live);
    AdmittedBelow(AdmitAll(requests), q, a);
  }
}

/** `getExecutionOrder`: a depth-first topological sort of the steps by their
    dependencies. A recursive visit looks a step up by id (first match), visits
    its dependencies first, then marks it visited and appends its id.

    On a cyclic list `getExecutionOrder` recurses until the stack overflows; the
    model requires the dependency relation to be acyclic. */
module ExecutionOrder {
  import opened Wrappers
  import opened Workflow

  ghost predicate NoDuplicates(xs: seq<string>)
  {
    forall p, q :: 0 <= p < q < |xs| ==> xs[p] != xs[q]
  }

  /** Every id of `order` names a step, and every dependency of that step that
      names a step comes earlier in `order`. */
  ghost predicate DependenciesFirst(steps: seq<WorkflowStep>, order: seq<string>)
  {
    forall p :: 0 <= p < |order| ==>
      && FirstIndex(steps, order[p]).Some?
      && forall d :: d in steps[FirstIndex(steps, order[p]).value].dependencies && Resolves(steps, d) ==> d in order[..p]
  }

  /** The state shared by the visits: `visited` is the set of ids in `order`. */
  ghost predicate VisitState(steps: seq<WorkflowStep>, visited: set<string>, order: seq<string>)
  {
    && (forall x :: x in visited <==> x in order)
    && NoDuplicates(order)
    && DependenciesFirst(steps, order)
  }

  /** One more than the rank of the step an id names, 0 for an unknown id. */
  ghost function Height(steps: seq<WorkflowStep>, rank: seq<nat>, id: string): nat
    requires |rank| == |steps|
  {
    match FirstIndex(steps, id)
    case Some(j) => rank[j] + 1
    case None => 0
  }

  /** The order `visit(id)` leaves behind when started on `order`: nothing
      new for a visited or an unknown id, otherwise the dependencies' visits
      in list order and then the id itself. The rank only bounds the
      recursion; `VisitSpecAnyRank` shows that the result does not depend on it. */
  ghost function VisitSpec(steps: seq<WorkflowStep>, rank: seq<nat>, id: string, order: seq<string>): seq<string>
    requires Ranked(steps, rank)
    decreases Height(steps, rank, id), 1, 0
  {
    if id in order then order
    else match FirstIndex(steps, id)
      case None => order
      case Some(j) => VisitDeps(steps, rank, j, 0, order) + [id]
  }

  /** The visits of the dependencies of step `j` from the `k`-th on. */
  ghost function VisitDeps(steps: seq<WorkflowStep>, rank: seq<nat>, j: nat, k: nat, order: seq<string>): seq<string>
    requires Ranked(steps, rank) && j < |steps| && k <= |steps[j].dependencies|
    decreases rank[j] + 1, 0, |steps[j].dependencies| - k
  {
    if k == |steps[j].dependencies| then order
    else VisitDeps(steps, rank, j, k + 1, VisitSpec(steps, rank, steps[j].dependencies[k], order))
  }

  /** The outer loop from step `i` on. */
  ghost function VisitFrom(steps: seq<WorkflowStep>, rank: seq<nat>, i: nat, order: seq<string>): seq<string>
    requires Ranked(steps, rank) && i <= |steps|
    decreases |steps| - i
  {
    if i == |steps| then order else VisitFrom(steps, rank, i + 1, VisitSpec(steps, rank, steps[i].id, order))
  }

  /** The depth-first order of an acyclic step list. */
  ghost function DfsOrder(steps: seq<WorkflowStep>): seq<string>
    requires Acyclic(steps)
  {
    var rank :| Ranked(steps, rank);
    VisitFrom(steps, rank, 0, [])
  }

  lemma {:induction false} VisitSpecAnyRank(steps: seq<WorkflowStep>, r1: seq<nat>, r2: seq<nat>, id: string, order: seq<string>)
    requires Ranked(steps, r1) && Ranked(steps, r2)
    ensures VisitSpec(steps, r1, id, order) == VisitSpec(steps, r2, id, order)
    decreases Height(steps, r1, id), 1, 0
  {
    if id !in order && FirstIndex(steps, id).Some? {
      VisitDepsAnyRank(steps, r1, r2, FirstIndex(steps, id).value, 0, order);
    }
  }

  lemma {:induction false} VisitDepsAnyRank(steps: seq<WorkflowStep>, r1: seq<nat>, r2: seq<nat>, j: nat, k: nat, order: seq<string>)
    requires Ranked(steps, r1) && Ranked(steps, r2) && j < |steps| && k <= |steps[j].dependencies|
    ensures VisitDeps(steps, r1, j, k, order) == VisitDeps(steps, r2, j, k, order)
    decreases r1[j] + 1, 0, |steps[j].dependencies| - k
  {
    if k < |steps[j].dependencies| {
      var dep := steps[j].dependencies[k];
      VisitSpecAnyRank(steps, r1, r2, dep, order);
      VisitDepsAnyRank(steps, r1, r2, j, k + 1, VisitSpec(steps, r1, dep, order));
    }
  }

  lemma {:induction false} VisitFromAnyRank(steps: seq<WorkflowStep>, r1: seq<nat>, r2: seq<nat>, i: nat, order: seq<string>)
    requires Ranked(steps, r1) && Ranked(steps, r2) && i <= |steps|
    ensures VisitFrom(steps, r1, i, order) == VisitFrom(steps, r2, i, order)
    decreases |steps| - i
  {
    if i < |steps| {
      VisitSpecAnyRank(steps, r1, r2, steps[i].id, order);
      VisitFromAnyRank(steps, r1, r2, i + 1, VisitSpec(steps, r1, steps[i].id, order));
    }
  }

  /** Any rank computes the depth-first order. */
  lemma DfsOrderAnyRank(steps: seq<WorkflowStep>, rank: seq<nat>)
    requires Ranked(steps, rank)
    ensures DfsOrder(steps) == VisitFrom(steps, rank, 0, [])
  {
    var chosen :| Ranked(steps, chosen) && DfsOrder(steps) == VisitFrom(steps, chosen, 0, []);
    VisitFromAnyRank(steps, chosen, rank, 0, []);
  }

  ghost predicate DistinctIds(steps: seq<WorkflowStep>)
  {
    forall a, b :: 0 <= a < b < |steps| ==> steps[a].id != steps[b].id
  }

  /** Steps with distinct ids that depend only on earlier steps, as the
      planner builds them, run in the order they are listed. */
  lemma BackwardRunsInListOrder(steps: seq<WorkflowStep>)
    requires DependsOnlyBackward(steps) && DistinctIds(steps)
    ensures Acyclic(steps) && DfsOrder(steps) == Ids(steps)
  {
    var rank := seq(|steps|, i requires 0 <= i < |steps| => i as nat);
    assert Ranked(steps, rank);
    BackwardFrom(steps, rank, 0);
    assert Ids(steps)[..0] == [];
    DfsOrderAnyRank(steps, rank);
  }

  lemma {:induction false} BackwardFrom(steps: seq<WorkflowStep>, rank: seq<nat>, i: nat)
    requires DependsOnlyBackward(steps) && DistinctIds(steps) && Ranked(steps, rank) && i <= |steps|
    ensures VisitFrom(steps, rank, i, Ids(steps)[..i]) == Ids(steps)
    decreases |steps| - i
  {
    if i == |steps| {
      assert Ids(steps)[..i] == Ids(steps);
    } else {
      BackwardStep(steps, rank, i);
      assert Ids(steps)[..i + 1] == Ids(steps)[..i] + [steps[i].id];
      BackwardFrom(steps, rank, i + 1);
    }
  }

  /** Visiting the next listed step appends its id and nothing else. */
  lemma BackwardStep(steps: seq<WorkflowStep>, rank: seq<nat>, i: nat)
    requires DependsOnlyBackward(steps) && DistinctIds(steps) && Ranked(steps, rank) && i < |steps|
    ensures VisitSpec(steps, rank, steps[i].id, Ids(steps)[..i]) == Ids(steps)[..i] + [steps[i].id]
  {
    var id := steps[i].id;
    var done := Ids(steps)[..i];
    assert id !in done by {
      forall p | 0 <= p < i ensures done[p] != id {
        assert done[p] == steps[p].id;
      }
    }
    FirstIndexFirst(steps, id);
    assert FirstIndex(steps, id) == Some(i);
    DepsAlreadyDone(steps, rank, i, 0);
  }

  /** Every dependency of a step that names a step names an earlier one,
      already in the order, so visiting them adds nothing. */
  lemma {:induction false} DepsAlreadyDone(steps: seq<WorkflowStep>, rank: seq<nat>, i: nat, k: nat)
    requires DependsOnlyBackward(steps) && Ranked(steps, rank) && i < |steps| && k <= |steps[i].dependencies|
    ensures VisitDeps(steps, rank, i, k, Ids(steps)[..i]) == Ids(steps)[..i]
    decreases |steps[i].dependencies| - k
  {
    if k < |steps[i].dependencies| {
      var dep := steps[i].dependencies[k];
      var done := Ids(steps)[..i];
      if FirstIndex(steps, dep).Some? {
        var j := FirstIndex(steps, dep).value;
        assert j < i && done[j] == dep;
      }
      assert VisitSpec(steps, rank, dep, done) == done;
      DepsAlreadyDone(steps, rank, i, k + 1);
    }
  }

  /** The inner `visit(stepId)`. */
  method Visit(steps: seq<WorkflowStep>, ghost rank: seq<nat>, id: string, visited: set<string>, order: seq<string>)
    returns (visited': set<string>, order': seq<string>)
    requires Ranked(steps, rank)
    requires VisitState(steps, visited, order)
    ensures VisitState(steps, visited', order')
    ensures order <= order'
    ensures Resolves(steps, id) ==> id in visited'
    ensures !Resolves(steps, id) ==> order' == order
    ensures forall p :: |order| <= p < |order'| ==> Height(steps, rank, order'[p]) <= Height(steps, rank, id)
    ensures order' == VisitSpec(steps, rank, id, order)
    decreases Height(steps, rank, id)
  {
    if id in visited {
      return visited, order;
    }
    var found := FirstIndex(steps, id);
    if found.None? {
      return visited, order;
    }
    var step := steps[found.value];
    visited', order' := visited, order;
    for k := 0 to |step.dependencies|
      invariant VisitState(steps, visited', order')
      invariant order <= order'
      invariant forall j :: 0 <= j < k && Resolves(steps, step.dependencies[j]) ==> step.dependencies[j] in visited'
      invariant forall p :: |order| <= p < |order'| ==> Height(steps, rank, order'[p]) < Height(steps, rank, id)
      invariant VisitDeps(steps, rank, found.value, 0, order) == VisitDeps(steps, rank, found.value, k, order')
    {
      ghost var before := order';
      visited', order' := Visit(steps, rank, step.dependencies[k], visited', order');
      PrefixMembers(before, order');
    }
    assert id !in order' by {
      forall p | 0 <= p < |order'| ensures order'[p] != id {
        if p >= |order| {
          assert Height(steps, rank, order'[p]) < Height(steps, rank, id);
        } else {
          assert order'[p] == order[p];
        }
      }
    }
    AppendVisited(steps, visited', order', id);
    visited' := visited' + {id};
    order' := order' + [id];
  }

  /** Appending a step's id once all of its known dependencies are visited
      keeps the visit state. */
  lemma AppendVisited(steps: seq<WorkflowStep>, visited: set<string>, order: seq<string>, id: string)
    requires VisitState(steps, visited, order)
    requires FirstIndex(steps, id).Some? && id !in order
    requires forall d :: d in steps[FirstIndex(steps, id).value].dependencies && Resolves(steps, d) ==> d in visited
    ensures VisitState(steps, visited + {id}, order + [id])
  {
    var order' := order + [id];
    assert forall p :: 0 <= p < |order| ==> order'[..p] == order[..p];
    assert order'[..|order|] == order;
  }

  lemma PrefixMembers(before: seq<string>, after: seq<string>)
    requires before <= after
    ensures forall x :: x in before ==> x in after
  {
    assert forall p :: 0 <= p < |before| ==> after[p] == before[p];
  }

  /** `getExecutionOrder`: every step id exactly once, each after the
      dependencies of its step that name a step; unknown ids are ignored. */
  method GetExecutionOrder(steps: seq<WorkflowStep>) returns (order: seq<string>)
    requires Acyclic(steps)
    ensures NoDuplicates(order)
    ensures forall x :: x in order <==> x in Ids(steps)
    ensures DependenciesFirst(steps, order)
    ensures order == DfsOrder(steps)
  {
    ghost var rank :| Ranked(steps, rank);
    var visited: set<string> := {};
    order := [];
    for i := 0 to |steps|
      invariant VisitState(steps, visited, order)
      invariant forall j :: 0 <= j < i ==> steps[j].id in visited
      invariant VisitFrom(steps, rank, 0, []) == VisitFrom(steps, rank, i, order)
    {
      ghost var before := order;
      FirstIndexFirst(steps, steps[i].id);
      visited, order := Visit(steps, rank, steps[i].id, visited, order);
      PrefixMembers(before, order);
    }
    DfsOrderAnyRank(steps, rank);
    forall x | x in order ensures x in Ids(steps) {
      var p :| 0 <= p < |order| && order[p] == x;
      assert steps[FirstIndex(steps, x).value].id == x;
    }
  }
}

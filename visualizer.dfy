/** The grid layout of the workflow view: each step is placed at its level,
    the length of the longest chain of resolvable dependencies below it, and
    the steps of a level keep their input order. On a cyclic list
    `calculateLayout` recurses without end; the model asks for a rank that witnesses
    acyclicity. */
module Visualizer {
  import opened Wrappers
  import opened Workflow

  function Max(a: int, b: int): int
  {
    if a >= b then a else b
  }

  /** The level of the step at `j`. */
  ghost function Level(steps: seq<WorkflowStep>, rank: seq<nat>, j: nat): nat
    requires Ranked(steps, rank) && j < |steps|
    decreases rank[j], 1
  {
    DepLevel(steps, rank, j, |steps[j].dependencies|) + 1
  }

  /** The highest level among the first `n` dependencies of step `j` that
      resolve, -1 when none does. */
  ghost function DepLevel(steps: seq<WorkflowStep>, rank: seq<nat>, j: nat, n: nat): (m: int)
    requires Ranked(steps, rank) && j < |steps| && n <= |steps[j].dependencies|
    ensures m >= -1
    decreases rank[j], 0, n
  {
    if n == 0 then -1
    else
      var m := DepLevel(steps, rank, j, n - 1);
      match FirstIndex(steps, steps[j].dependencies[n - 1])
      case Some(k) => Max(m, Level(steps, rank, k))
      case None => m
  }

  lemma {:induction false} DepLevelBounds(steps: seq<WorkflowStep>, rank: seq<nat>, j: nat, n: nat)
    requires Ranked(steps, rank) && j < |steps| && n <= |steps[j].dependencies|
    ensures forall d :: 0 <= d < n && Resolves(steps, steps[j].dependencies[d]) ==>
      Level(steps, rank, FirstIndex(steps, steps[j].dependencies[d]).value) <= DepLevel(steps, rank, j, n)
    ensures DepLevel(steps, rank, j, n) == -1 <==>
      forall d :: 0 <= d < n ==> !Resolves(steps, steps[j].dependencies[d])
    ensures DepLevel(steps, rank, j, n) >= 0 ==>
      exists d :: 0 <= d < n && Resolves(steps, steps[j].dependencies[d])
        && Level(steps, rank, FirstIndex(steps, steps[j].dependencies[d]).value) == DepLevel(steps, rank, j, n)
  {
    if n > 0 {
      DepLevelBounds(steps, rank, j, n - 1);
    }
  }

  /** A step's level is 0 exactly when none of its dependencies names a
      step; otherwise it is one more than the highest level among them, so
      it lies strictly above each of them and directly above one. */
  lemma LevelEquation(steps: seq<WorkflowStep>, rank: seq<nat>, j: nat)
    requires Ranked(steps, rank) && j < |steps|
    ensures var deps := steps[j].dependencies;
      && (Level(steps, rank, j) == 0 <==> forall d :: 0 <= d < |deps| ==> !Resolves(steps, deps[d]))
      && (forall d :: 0 <= d < |deps| && Resolves(steps, deps[d]) ==>
            Level(steps, rank, FirstIndex(steps, deps[d]).value) < Level(steps, rank, j))
      && (Level(steps, rank, j) > 0 ==>
            exists d :: 0 <= d < |deps| && Resolves(steps, deps[d])
              && Level(steps, rank, FirstIndex(steps, deps[d]).value) + 1 == Level(steps, rank, j))
  {
    DepLevelBounds(steps, rank, j, |steps[j].dependencies|);
  }

  /** `getLevel`: the level of a step, by recursion on its dependencies. */
  method GetLevel(steps: seq<WorkflowStep>, ghost rank: seq<nat>, j: nat) returns (level: nat)
    requires Ranked(steps, rank) && j < |steps|
    ensures level == Level(steps, rank, j)
    decreases rank[j]
  {
    var step := steps[j];
    if |step.dependencies| == 0 {
      return 0;
    }
    var maxLevel := -1;
    for k := 0 to |step.dependencies|
      invariant maxLevel == DepLevel(steps, rank, j, k)
    {
      var depStep := FirstIndex(steps, step.dependencies[k]);
      if depStep.Some? {
        var depLevel := GetLevel(steps, rank, depStep.value);
        maxLevel := Max(maxLevel, depLevel);
      }
    }
    return maxLevel + 1;
  }

  /** The steps among the first `n` that have an id and sit at level `l`, in order. */
  ghost function AtLevel(steps: seq<WorkflowStep>, rank: seq<nat>, l: nat, n: nat): seq<WorkflowStep>
    requires Ranked(steps, rank) && n <= |steps|
  {
    if n == 0 then []
    else AtLevel(steps, rank, l, n - 1)
         + if steps[n - 1].id != "" && Level(steps, rank, n - 1) == l then [steps[n - 1]] else []
  }

  /** One more than the highest level among the first `n` steps with an id. */
  ghost function LevelCount(steps: seq<WorkflowStep>, rank: seq<nat>, n: nat): nat
    requires Ranked(steps, rank) && n <= |steps|
  {
    if n == 0 then 0
    else Max(LevelCount(steps, rank, n - 1), if steps[n - 1].id != "" then Level(steps, rank, n - 1) + 1 else 0)
  }

  lemma {:induction false} AtLevelBeyond(steps: seq<WorkflowStep>, rank: seq<nat>, l: nat, n: nat)
    requires Ranked(steps, rank) && n <= |steps| && l >= LevelCount(steps, rank, n)
    ensures AtLevel(steps, rank, l, n) == []
  {
    if n > 0 {
      AtLevelBeyond(steps, rank, l, n - 1);
    }
  }

  /** Every step with an id is in the group of its own level and in no
      other; a step without an id is in none. */
  lemma {:induction false} AtLevelMembers(steps: seq<WorkflowStep>, rank: seq<nat>, l: nat, n: nat)
    requires Ranked(steps, rank) && n <= |steps|
    ensures forall i :: 0 <= i < n && steps[i].id != "" && Level(steps, rank, i) == l ==> steps[i] in AtLevel(steps, rank, l, n)
    ensures forall x :: x in AtLevel(steps, rank, l, n) ==>
      x.id != "" && exists i :: 0 <= i < n && steps[i] == x && Level(steps, rank, i) == l
  {
    if n > 0 {
      AtLevelMembers(steps, rank, l, n - 1);
    }
  }

  /** A step that depends on another with an id is drawn in a later level. */
  lemma DependencyDrawnEarlier(steps: seq<WorkflowStep>, rank: seq<nat>, j: nat, d: nat)
    requires Ranked(steps, rank) && j < |steps| && d < |steps[j].dependencies|
    requires Resolves(steps, steps[j].dependencies[d]) && steps[j].id != ""
    ensures var k := FirstIndex(steps, steps[j].dependencies[d]).value;
      steps[j] in AtLevel(steps, rank, Level(steps, rank, j), |steps|)
      && (steps[k].id != "" ==> steps[k] in AtLevel(steps, rank, Level(steps, rank, k), |steps|))
      && Level(steps, rank, k) < Level(steps, rank, j)
  {
    LevelEquation(steps, rank, j);
    AtLevelMembers(steps, rank, Level(steps, rank, j), |steps|);
    var k := FirstIndex(steps, steps[j].dependencies[d]).value;
    AtLevelMembers(steps, rank, Level(steps, rank, k), |steps|);
  }

  /** `calculateLayout`: group the steps with an id by level. A level no
      such step reaches is an empty group here where `calculateLayout` leaves a
      hole in its array. */
  method CalculateLayout(steps: seq<WorkflowStep>, ghost rank: seq<nat>) returns (levels: seq<seq<WorkflowStep>>)
    requires Ranked(steps, rank)
    ensures |steps| == 0 ==> levels == []
    ensures |levels| == LevelCount(steps, rank, |steps|)
    ensures forall l :: 0 <= l < |levels| ==> levels[l] == AtLevel(steps, rank, l, |steps|)
  {
    if |steps| == 0 {
      return [];
    }
    levels := [];
    for i := 0 to |steps|
      invariant |levels| == LevelCount(steps, rank, i)
      invariant forall l :: 0 <= l < |levels| ==> levels[l] == AtLevel(steps, rank, l, i)
    {
      var step := steps[i];
      if step.id == "" {
        continue;
      }
      var level := GetLevel(steps, rank, i);
      if level >= |levels| {
        forall l | |levels| <= l <= level ensures AtLevel(steps, rank, l, i) == [] {
          AtLevelBeyond(steps, rank, l, i);
        }
        levels := levels + seq(level + 1 - |levels|, _ => []);
      }
      levels := levels[level := levels[level] + [step]];
    }
  }
}

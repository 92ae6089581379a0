/** `executeWorkflow`: runs the steps in execution order, moving each through
    pending -> in_progress -> completed, or -> failed and then either aborting
    the run (high priority) or -> skipped (other priorities).

    The copy the executor returns is shallow: it shares the steps array and
    the progress object with the plan it was given, so the steps and the
    counter of that plan change too, while its own status and timestamps do
    not. Running one step is an oracle `run(k, step)` (the k-th position of
    the execution order) that returns a value or throws; the clock is an
    oracle over the moments at which the code reads it. */
module Executor {
  import opened Wrappers
  import opened JsonValue
  import opened Workflow
  import opened ExecutionOrder

  /** The moments at which the executor reads the clock. */
  datatype Tick = Started | StepStart(k: nat) | StepEnd(k: nat) | Finished

  /** What running a step did: returned a value, threw an `Error` with a
      message, or threw something else. */
  datatype StepOutcome = Returned(value: Json) | ThrewError(message: string) | ThrewOther

  datatype Oracles = Oracles(run: (nat, WorkflowStep) -> StepOutcome, clock: Tick -> string)

  /** `error instanceof Error ? error.message : "Unknown error"`. */
  function ErrorText(o: StepOutcome): string
    requires !o.Returned?
  {
    if o.ThrewError? then o.message else "Unknown error"
  }

  /** The part of the run's state that the loop changes: the shared steps and
      counter, and whether a high-priority failure aborted the run. */
  datatype Progressed = Progressed(steps: seq<WorkflowStep>, completed: int, percentage: int, aborted: bool)

  /** One iteration of the loop, for the id at position `k` of the order;
      `AttemptSpec` states what it does. */
  function Attempt(s: Progressed, id: string, k: nat, total: int, env: Oracles): (r: Progressed)
    requires |s.steps| > 0 ==> total > 0
    ensures |r.steps| == |s.steps|
  {
    match FirstIndex(s.steps, id)
    case None => s
    case Some(i) =>
      var started := s.steps[i].(status := InProgress, startTime := Some(env.clock(StepStart(k))));
      var ended := Some(env.clock(StepEnd(k)));
      var o := env.run(k, started);
      var next :=
        if o.Returned? then
          var c := s.completed + 1;
          Progressed(s.steps[i := started.(status := Completed, result := o.value, endTime := ended)],
                     c, Percent(c, total), s.aborted)
        else
          var failed := started.(status := Failed, error := Some(ErrorText(o)), endTime := ended);
          if failed.priority == High then Progressed(s.steps[i := failed], s.completed, s.percentage, true)
          else Progressed(s.steps[i := failed.(status := Skipped)], s.completed, s.percentage, s.aborted);
      next
  }

  /** One iteration: an id that names no step changes nothing; otherwise
      only the first step with that id changes. It is stamped with its start
      and end time and ends `completed` when the runner returned, `failed`
      when it threw on a high-priority step (which aborts the run) and
      `skipped` when it threw on any other. Only a success advances the
      counter and recomputes the percentage. */
  lemma AttemptSpec(s: Progressed, id: string, k: nat, total: int, env: Oracles)
    requires |s.steps| > 0 ==> total > 0
    ensures var r := Attempt(s, id, k, total, env);
      FirstIndex(s.steps, id).None? ==> r == s
    ensures var r := Attempt(s, id, k, total, env);
      FirstIndex(s.steps, id).Some? ==>
      var i := FirstIndex(s.steps, id).value;
      var o := env.run(k, s.steps[i].(status := InProgress, startTime := Some(env.clock(StepStart(k)))));
      && (forall j :: 0 <= j < |s.steps| && j != i ==> r.steps[j] == s.steps[j])
      && r.steps[i].startTime == Some(env.clock(StepStart(k)))
      && r.steps[i].endTime == Some(env.clock(StepEnd(k)))
      && (r.steps[i].status == Completed <==> o.Returned?)
      && (r.steps[i].status == Failed <==> !o.Returned? && s.steps[i].priority == High)
      && (r.steps[i].status == Skipped <==> !o.Returned? && s.steps[i].priority != High)
      && (o.Returned? ==> r.steps[i].result == o.value && r.completed == s.completed + 1
                          && r.percentage == Percent(r.completed, total))
      && (!o.Returned? ==> r.steps[i].error == Some(ErrorText(o))
                           && r.completed == s.completed && r.percentage == s.percentage)
      && (r.aborted <==> s.aborted || (!o.Returned? && s.steps[i].priority == High))
  {
  }

  /** The state after the loop has handled the first `n` ids of the order; an
      aborted run handles nothing more. */
  function Run(init: Progressed, order: seq<string>, n: nat, total: int, env: Oracles): (r: Progressed)
    requires n <= |order|
    requires |init.steps| > 0 ==> total > 0
    ensures |r.steps| == |init.steps|
    ensures !r.aborted ==> !init.aborted
  {
    if n == 0 then init
    else
      var s := Run(init, order, n - 1, total, env);
      if s.aborted then s else Attempt(s, order[n - 1], n - 1, total, env)
  }

  /** One iteration keeps the ids of the steps, position by position. */
  lemma AttemptKeepsIds(s: Progressed, id: string, k: nat, total: int, env: Oracles)
    requires |s.steps| > 0 ==> total > 0
    ensures Ids(Attempt(s, id, k, total, env).steps) == Ids(s.steps)
  {
    var r := Attempt(s, id, k, total, env);
    assert forall j :: 0 <= j < |s.steps| ==> Ids(r.steps)[j] == Ids(s.steps)[j];
  }

  /** The loop keeps the ids of the steps, so every lookup by id finds the
      same position throughout the run. */
  lemma {:induction false} RunKeepsIds(init: Progressed, order: seq<string>, n: nat, total: int, env: Oracles)
    requires n <= |order|
    requires |init.steps| > 0 ==> total > 0
    ensures Ids(Run(init, order, n, total, env).steps) == Ids(init.steps)
  {
    if n > 0 {
      RunKeepsIds(init, order, n - 1, total, env);
      var s := Run(init, order, n - 1, total, env);
      if !s.aborted {
        AttemptKeepsIds(s, order[n - 1], n - 1, total, env);
      }
    }
  }

  /** Once a high-priority step has failed, the loop stops: nothing after it changes. */
  lemma {:induction false} AbortStops(init: Progressed, order: seq<string>, n: nat, m: nat, total: int, env: Oracles)
    requires n <= m <= |order|
    requires |init.steps| > 0 ==> total > 0
    requires Run(init, order, n, total, env).aborted
    ensures Run(init, order, m, total, env) == Run(init, order, n, total, env)
    decreases m - n
  {
    if n < m {
      AbortStops(init, order, n, m - 1, total, env);
    }
  }

  /** One iteration leaves every step but its target as it was. */
  lemma AttemptFrame(s: Progressed, id: string, k: nat, total: int, env: Oracles, i: nat)
    requires |s.steps| > 0 ==> total > 0
    requires i < |s.steps| && FirstIndex(s.steps, id) != Some(i)
    ensures Attempt(s, id, k, total, env).steps[i] == s.steps[i]
  {
    AttemptSpec(s, id, k, total, env);
  }

  /** One iteration that does not abort leaves its target completed or skipped. */
  lemma AttemptSettles(s: Progressed, id: string, k: nat, total: int, env: Oracles)
    requires |s.steps| > 0 ==> total > 0
    requires FirstIndex(s.steps, id).Some? && !Attempt(s, id, k, total, env).aborted
    ensures Attempt(s, id, k, total, env).steps[FirstIndex(s.steps, id).value].status in {Completed, Skipped}
  {
    AttemptSpec(s, id, k, total, env);
  }

  /** One iteration either keeps the percentage or sets it from the new counter. */
  lemma AttemptPercentage(s: Progressed, id: string, k: nat, total: int, env: Oracles)
    requires |s.steps| > 0 ==> total > 0
    ensures var r := Attempt(s, id, k, total, env);
      r.percentage == s.percentage || (total > 0 && r.percentage == Percent(r.completed, total))
  {
    AttemptSpec(s, id, k, total, env);
  }

  /** The step an id of the order is about (first match in the plan's steps). */
  predicate Targets(steps: seq<WorkflowStep>, order: seq<string>, n: nat, i: nat)
    requires n <= |order|
  {
    exists p :: 0 <= p < n && FirstIndex(steps, order[p]) == Some(i)
  }

  /** An id among the first `n` of the order does not target a step that
      none of them targets. */
  lemma NotTargetedAt(steps: seq<WorkflowStep>, order: seq<string>, n: nat, i: nat, p: nat)
    requires p < n <= |order| && !Targets(steps, order, n, i)
    ensures FirstIndex(steps, order[p]) != Some(i)
  {
  }

  /** A step that the first `n` ids target, but not the last of them, is
      targeted by the first `n - 1`. */
  lemma TargetedEarlier(steps: seq<WorkflowStep>, order: seq<string>, n: nat, i: nat)
    requires 0 < n <= |order| && Targets(steps, order, n, i)
    requires FirstIndex(steps, order[n - 1]) != Some(i)
    ensures Targets(steps, order, n - 1, i)
  {
    var p :| 0 <= p < n && FirstIndex(steps, order[p]) == Some(i);
    assert p < n - 1;
  }

  /** A step that the first `n` ids do not target is not targeted by fewer. */
  lemma NotTargetedEarlier(steps: seq<WorkflowStep>, order: seq<string>, n: nat, i: nat)
    requires 0 < n <= |order| && !Targets(steps, order, n, i)
    ensures !Targets(steps, order, n - 1, i)
  {
  }

  /** A step that no handled id targets is exactly as it was: in particular the
      steps after an abort keep their status. */
  lemma {:induction false} UntargetedUntouched(init: Progressed, order: seq<string>, n: nat, total: int, env: Oracles, i: nat)
    requires n <= |order| && i < |init.steps|
    requires |init.steps| > 0 ==> total > 0
    requires !Targets(init.steps, order, n, i)
    ensures Run(init, order, n, total, env).steps[i] == init.steps[i]
  {
    if n > 0 {
      var m := n - 1;
      NotTargetedEarlier(init.steps, order, n, i);
      UntargetedUntouched(init, order, m, total, env, i);
      var s := Run(init, order, m, total, env);
      assert s.steps[i] == init.steps[i];
      if s.aborted {
        assert Run(init, order, n, total, env) == s;
      } else {
        var id := order[m];
        var r := Attempt(s, id, m, total, env);
        assert Run(init, order, n, total, env) == r;
        RunKeepsIds(init, order, m, total, env);
        FirstIndexSameIds(s.steps, init.steps, id);
        NotTargetedAt(init.steps, order, n, i, m);
        AttemptFrame(s, id, m, total, env, i);
        assert r.steps[i] == s.steps[i];
      }
    }
  }

  /** Without an abort, the step each handled id targets ends `completed` or
      `skipped`. */
  lemma {:induction false} HandledSettle(init: Progressed, order: seq<string>, n: nat, total: int, env: Oracles, i: nat)
    requires n <= |order| && i < |init.steps|
    requires |init.steps| > 0 ==> total > 0
    requires Targets(init.steps, order, n, i)
    requires !Run(init, order, n, total, env).aborted
    ensures Run(init, order, n, total, env).steps[i].status in {Completed, Skipped}
  {
    var p :| 0 <= p < n && FirstIndex(init.steps, order[p]) == Some(i);
    var m := n - 1;
    var s := Run(init, order, m, total, env);
    var id := order[m];
    assert !s.aborted;
    var r := Attempt(s, id, m, total, env);
    assert Run(init, order, n, total, env) == r;
    RunKeepsIds(init, order, m, total, env);
    FirstIndexSameIds(s.steps, init.steps, id);
    if p == m {
      AttemptSettles(s, id, m, total, env);
    } else {
      assert Targets(init.steps, order, m, i);
      HandledSettle(init, order, m, total, env, i);
      assert s.steps[i].status in {Completed, Skipped};
      if FirstIndex(s.steps, id) == Some(i) {
        AttemptSettles(s, id, m, total, env);
      } else {
        AttemptFrame(s, id, m, total, env, i);
      }
    }
  }

  /** Replacing one step changes the count of completed steps by the change at that position. */
  lemma {:induction false} CountCompletedUpdate(steps: seq<WorkflowStep>, i: nat, x: WorkflowStep)
    requires i < |steps|
    ensures CountCompleted(steps[i := x]) + (if steps[i].status == Completed then 1 else 0)
         == CountCompleted(steps) + (if x.status == Completed then 1 else 0)
  {
    var last := |steps| - 1;
    if i < last {
      assert steps[i := x][..last] == steps[..last][i := x];
      CountCompletedUpdate(steps[..last], i, x);
    } else {
      assert steps[i := x][..last] == steps[..last];
    }
  }

  /** The progress counter counts the completed steps, when it did so at the
      start and no step the order targets was already completed. */
  lemma {:induction false} CounterCountsCompleted(init: Progressed, order: seq<string>, n: nat, total: int, env: Oracles)
    requires n <= |order|
    requires |init.steps| > 0 ==> total > 0
    requires NoDuplicates(order)
    requires init.completed == CountCompleted(init.steps)
    requires forall i :: 0 <= i < |init.steps| && Targets(init.steps, order, |order|, i) ==> init.steps[i].status != Completed
    ensures Run(init, order, n, total, env).completed == CountCompleted(Run(init, order, n, total, env).steps)
  {
    if n > 0 {
      CounterCountsCompleted(init, order, n - 1, total, env);
      var s := Run(init, order, n - 1, total, env);
      if !s.aborted {
        RunKeepsIds(init, order, n - 1, total, env);
        FirstIndexSameIds(s.steps, init.steps, order[n - 1]);
        match FirstIndex(s.steps, order[n - 1])
        case None =>
        case Some(i) =>
          assert !Targets(init.steps, order, n - 1, i);
          UntargetedUntouched(init, order, n - 1, total, env, i);
          assert Targets(init.steps, order, |order|, i);
          var r := Attempt(s, order[n - 1], n - 1, total, env);
          AttemptSpec(s, order[n - 1], n - 1, total, env);
          assert r.steps == s.steps[i := r.steps[i]];
          CountCompletedUpdate(s.steps, i, r.steps[i]);
      }
    }
  }

  /** With one progress slot per step, the percentage stays between 0 and
      100 throughout the run. */
  lemma {:induction false} PercentageInRange(init: Progressed, order: seq<string>, n: nat, env: Oracles)
    requires n <= |order| && |init.steps| > 0
    requires NoDuplicates(order)
    requires init.completed == CountCompleted(init.steps) && 0 <= init.percentage <= 100
    requires forall i :: 0 <= i < |init.steps| && Targets(init.steps, order, |order|, i) ==> init.steps[i].status != Completed
    ensures 0 <= Run(init, order, n, |init.steps|, env).percentage <= 100
  {
    if n > 0 {
      var total := |init.steps|;
      PercentageInRange(init, order, n - 1, env);
      var s := Run(init, order, n - 1, total, env);
      if !s.aborted {
        var r := Attempt(s, order[n - 1], n - 1, total, env);
        assert Run(init, order, n, total, env) == r;
        CounterCountsCompleted(init, order, n, total, env);
        AttemptPercentage(s, order[n - 1], n - 1, total, env);
        if r.percentage != s.percentage {
          assert r.completed == CountCompleted(r.steps) <= |r.steps| == total;
          PercentRange(r.completed, total);
        }
      }
    }
  }

  /** The body of the loop for the id at position `k` of the order: returns
      whether the run aborts. */
  method RunOne(steps: array<WorkflowStep>, progress: Progress, total: int, stepId: string, k: nat, env: Oracles)
    returns (aborted: bool)
    requires steps.Length > 0 ==> total > 0
    modifies steps, progress
    ensures progress.total == old(progress.total)
    ensures Attempt(Progressed(old(steps[..]), old(progress.completed), old(progress.percentage), false), stepId, k, total, env)
         == Progressed(steps[..], progress.completed, progress.percentage, aborted)
  {
    aborted := false;
    var found := FirstIndex(steps[..], stepId);
    if found.None? {
      return;
    }
    var i := found.value;
    var step := steps[i].(status := InProgress, startTime := Some(env.clock(StepStart(k))));
    steps[i] := step;
    var outcome := env.run(k, step);
    if outcome.Returned? {
      steps[i] := step.(status := Completed, result := outcome.value, endTime := Some(env.clock(StepEnd(k))));
      progress.completed := progress.completed + 1;
      progress.percentage := Percent(progress.completed, total);
    } else {
      step := step.(status := Failed, error := Some(ErrorText(outcome)), endTime := Some(env.clock(StepEnd(k))));
      steps[i] := step;
      if step.priority == High {
        aborted := true;
      } else {
        steps[i] := step.(status := Skipped);
      }
    }
  }

  /** The loop of `executeWorkflow` over the execution order, up to its
      `break`: returns whether a high-priority failure aborted it. */
  method RunLoop(steps: array<WorkflowStep>, progress: Progress, order: seq<string>, env: Oracles)
    returns (aborted: bool)
    requires steps.Length > 0 ==> progress.total > 0
    modifies steps, progress
    ensures progress.total == old(progress.total)
    ensures Run(Progressed(old(steps[..]), old(progress.completed), old(progress.percentage), false),
                order, |order|, old(progress.total), env)
         == Progressed(steps[..], progress.completed, progress.percentage, aborted)
  {
    var total := progress.total;
    ghost var init := Progressed(steps[..], progress.completed, progress.percentage, false);
    aborted := false;
    var k := 0;
    while k < |order|
      invariant k <= |order| && progress.total == total
      invariant Run(init, order, k, total, env) == Progressed(steps[..], progress.completed, progress.percentage, false)
    {
      aborted := RunOne(steps, progress, total, order[k], k, env);
      if aborted {
        AbortStops(init, order, k + 1, |order|, total, env);
        break;
      }
      k := k + 1;
    }
  }

  /** `executeWorkflow`. The returned plan is a new object sharing the steps
      array and the progress object with `workflow`; `order` is the execution
      order the loop followed. */
  method ExecuteWorkflow(workflow: WorkflowPlan, env: Oracles) returns (updated: WorkflowPlan, ghost order: seq<string>)
    requires Acyclic(workflow.steps[..])
    requires workflow.steps.Length > 0 ==> workflow.progress.total > 0
    modifies workflow.steps, workflow.progress
    ensures fresh(updated) && unchanged(workflow)
    ensures updated.steps == workflow.steps && updated.progress == workflow.progress
    ensures updated.id == workflow.id && updated.title == workflow.title
    ensures updated.createdAt == workflow.createdAt && updated.progress.total == old(workflow.progress.total)
    ensures NoDuplicates(order) && (forall x :: x in order <==> x in Ids(old(workflow.steps[..])))
    ensures DependenciesFirst(old(workflow.steps[..]), order)
    ensures order == DfsOrder(old(workflow.steps[..]))
    ensures var r := Run(Progressed(old(workflow.steps[..]), old(workflow.progress.completed), old(workflow.progress.percentage), false),
                         order, |order|, old(workflow.progress.total), env);
      && updated.steps[..] == r.steps
      && updated.progress.completed == r.completed && updated.progress.percentage == r.percentage
      && updated.status == (if r.aborted then PlanFailed else PlanCompleted)
    ensures updated.startedAt == Some(env.clock(Started)) && updated.completedAt == Some(env.clock(Finished))
  {
    updated := new WorkflowPlan.ShallowCopy(workflow);
    updated.status := Executing;
    updated.startedAt := Some(env.clock(Started));
    var executionOrder := GetExecutionOrder(workflow.steps[..]);
    order := executionOrder;
    var aborted := RunLoop(updated.steps, updated.progress, executionOrder, env);
    if aborted {
      updated.status := PlanFailed;
    }
    if updated.status == Executing {
      updated.status := PlanCompleted;
    }
    updated.completedAt := Some(env.clock(Finished));
  }
}

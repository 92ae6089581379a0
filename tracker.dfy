/** The status reconciler: folds a list of status updates into a copy of a
    plan and recomputes its progress, and the two sanitising functions for
    untyped input (a workflow object and a webhook payload).

    Each update either targets a step (it has a non-empty `stepId`) and
    overwrites some of that step's fields, or targets the plan and overwrites
    its status and a timestamp. Every assignment overwrites, which is why
    applying the same list twice changes nothing more; the model makes that
    precise with patches: a patch lists the fields an update writes. */
module Tracker {
  import opened Wrappers
  import opened Text
  import opened JsonValue
  import opened Workflow

  /** A status update. A missing element of the update list (`null`) is `None`. */
  datatype WorkflowUpdate = WorkflowUpdate(
    workflowId: string,
    stepId: Option<string>,
    status: string,
    progress: Option<int>,
    message: Option<string>,
    timestamp: string,
    data: Json)

  /** `update?.stepId` is truthy. */
  predicate IsStepUpdate(u: WorkflowUpdate)
  {
    u.stepId.Some? && u.stepId.value != ""
  }

  // ---------------------------------------------------------------- steps

  /** The `switch` on a step update's status, applied to a copy of the step. */
  function ApplyToStep(step: WorkflowStep, u: WorkflowUpdate): (r: WorkflowStep)
    ensures r.id == step.id && r.kind == step.kind && r.dependencies == step.dependencies
    ensures r.priority == step.priority && r.parameters == step.parameters
    ensures u.status !in {"step_in_progress", "step_completed", "step_failed"} ==> r == step
  {
    if u.status == "step_in_progress" then step.(status := InProgress, startTime := Some(u.timestamp))
    else if u.status == "step_completed" then step.(status := Completed, endTime := Some(u.timestamp), result := u.data)
    else if u.status == "step_failed" then step.(status := Failed, error := u.message, endTime := Some(u.timestamp))
    else step
  }

  /** One update applied to the step list: the first step with the update's
      `stepId` is replaced by its updated copy; anything else leaves the list alone. */
  function ApplyUpdate(steps: seq<WorkflowStep>, update: Option<WorkflowUpdate>): (r: seq<WorkflowStep>)
    ensures |r| == |steps| && Ids(r) == Ids(steps)
    ensures update.None? || !IsStepUpdate(update.value) ==> r == steps
    ensures update.Some? && IsStepUpdate(update.value) && !Resolves(steps, update.value.stepId.value) ==> r == steps
  {
    match update
    case None => steps
    case Some(u) =>
      if IsStepUpdate(u) then
        match FirstIndex(steps, u.stepId.value)
        case Some(i) =>
          var r := steps[i := ApplyToStep(steps[i], u)];
          assert forall j :: 0 <= j < |steps| ==> Ids(r)[j] == Ids(steps)[j];
          r
        case None => steps
      else steps
  }

  /** The step list after the updates, in order. */
  function StepsAfter(steps: seq<WorkflowStep>, updates: seq<Option<WorkflowUpdate>>): (r: seq<WorkflowStep>)
    ensures |r| == |steps| && Ids(r) == Ids(steps)
  {
    if |updates| == 0 then steps
    else ApplyUpdate(StepsAfter(steps, updates[..|updates| - 1]), updates[|updates| - 1])
  }

  /** The fields a step update writes, with the values it writes. */
  datatype StepPatch = StepPatch(
    status: Option<StepStatus>,
    startTime: Option<string>,
    endTime: Option<string>,
    result: Option<Json>,
    error: Option<Option<string>>)

  const NoStepPatch := StepPatch(None, None, None, None, None)

  function StepPatchOf(u: WorkflowUpdate): StepPatch
  {
    if u.status == "step_in_progress" then StepPatch(Some(InProgress), Some(u.timestamp), None, None, None)
    else if u.status == "step_completed" then StepPatch(Some(Completed), None, Some(u.timestamp), Some(u.data), None)
    else if u.status == "step_failed" then StepPatch(Some(Failed), None, Some(u.timestamp), None, Some(u.message))
    else NoStepPatch
  }

  /** Write the fields a patch lists. */
  function Overwrite(s: WorkflowStep, p: StepPatch): WorkflowStep
  {
    s.(status := p.status.GetOr(s.status),
       startTime := if p.startTime.Some? then p.startTime else s.startTime,
       endTime := if p.endTime.Some? then p.endTime else s.endTime,
       result := p.result.GetOr(s.result),
       error := p.error.GetOr(s.error))
  }

  /** Patch `p`, then patch `q`: `q` wins wherever it writes. */
  function Then(p: StepPatch, q: StepPatch): StepPatch
  {
    StepPatch(if q.status.Some? then q.status else p.status,
              if q.startTime.Some? then q.startTime else p.startTime,
              if q.endTime.Some? then q.endTime else p.endTime,
              if q.result.Some? then q.result else p.result,
              if q.error.Some? then q.error else p.error)
  }

  /** The step `switch` is the patch of its update. */
  lemma ApplyIsOverwrite(step: WorkflowStep, u: WorkflowUpdate)
    ensures ApplyToStep(step, u) == Overwrite(step, StepPatchOf(u))
  {
  }

  /** Two patches in a row are their composition. */
  lemma OverwriteThen(s: WorkflowStep, p: StepPatch, q: StepPatch)
    ensures Overwrite(Overwrite(s, p), q) == Overwrite(s, Then(p, q))
  {
  }

  /** Patching twice with the same patch is patching once. */
  lemma ThenSame(p: StepPatch)
    ensures Then(p, p) == p
  {
  }

  /** Whether an update is about the step at index `i` of `steps`. */
  predicate UpdatesStep(steps: seq<WorkflowStep>, update: Option<WorkflowUpdate>, i: nat)
  {
    update.Some? && IsStepUpdate(update.value) && FirstIndex(steps, update.value.stepId.value) == Some(i)
  }

  /** The composition of the patches of the updates about step `i`. */
  function PatchFor(steps: seq<WorkflowStep>, updates: seq<Option<WorkflowUpdate>>, i: nat): StepPatch
  {
    if |updates| == 0 then NoStepPatch
    else
      var u := updates[|updates| - 1];
      Then(PatchFor(steps, updates[..|updates| - 1], i),
           if UpdatesStep(steps, u, i) then StepPatchOf(u.value) else NoStepPatch)
  }

  lemma {:induction false} PatchForSameIds(a: seq<WorkflowStep>, b: seq<WorkflowStep>, updates: seq<Option<WorkflowUpdate>>, i: nat)
    requires Ids(a) == Ids(b)
    ensures PatchFor(a, updates, i) == PatchFor(b, updates, i)
  {
    if |updates| > 0 {
      PatchForSameIds(a, b, updates[..|updates| - 1], i);
      var u := updates[|updates| - 1];
      if u.Some? && IsStepUpdate(u.value) {
        FirstIndexSameIds(a, b, u.value.stepId.value);
      }
    }
  }

  /** Each step ends as its original overwritten by the composed patch of
      the updates about it. */
  lemma {:induction false} StepsAfterPointwise(steps: seq<WorkflowStep>, updates: seq<Option<WorkflowUpdate>>, i: nat)
    requires i < |steps|
    ensures StepsAfter(steps, updates)[i] == Overwrite(steps[i], PatchFor(steps, updates, i))
  {
    if |updates| == 0 {
      assert Overwrite(steps[i], NoStepPatch) == steps[i];
    } else {
      var front := updates[..|updates| - 1];
      var u := updates[|updates| - 1];
      var s := StepsAfter(steps, front);
      StepsAfterPointwise(steps, front, i);
      FirstIndexSameIds(s, steps, if u.Some? && IsStepUpdate(u.value) then u.value.stepId.value else "");
      var p := if UpdatesStep(steps, u, i) then StepPatchOf(u.value) else NoStepPatch;
      OverwriteThen(steps[i], PatchFor(steps, front, i), p);
      if UpdatesStep(steps, u, i) {
        ApplyIsOverwrite(s[i], u.value);
      } else {
        assert Overwrite(s[i], NoStepPatch) == s[i];
      }
    }
  }

  // ---------------------------------------------------------------- plan

  /** The plan fields a plan-level update writes. */
  datatype PlanMeta = PlanMeta(status: PlanStatus, startedAt: Option<string>, completedAt: Option<string>)

  /** The `switch` on a plan-level update's status. A step update, and a
      missing element (its status cannot be read), leave the plan alone. */
  function ApplyToPlan(m: PlanMeta, update: Option<WorkflowUpdate>): (r: PlanMeta)
    ensures update.None? || IsStepUpdate(update.value) ==> r == m
    ensures update.Some? && update.value.status !in {"workflow_executing", "workflow_completed", "workflow_failed"} ==> r == m
    ensures r.status != m.status ==> r.status in {Executing, PlanCompleted, PlanFailed}
  {
    match update
    case None => m
    case Some(u) =>
      if IsStepUpdate(u) then m
      else if u.status == "workflow_executing" then m.(status := Executing, startedAt := Some(u.timestamp))
      else if u.status == "workflow_completed" then m.(status := PlanCompleted, completedAt := Some(u.timestamp))
      else if u.status == "workflow_failed" then m.(status := PlanFailed, completedAt := Some(u.timestamp))
      else m
  }

  function PlanAfter(m: PlanMeta, updates: seq<Option<WorkflowUpdate>>): PlanMeta
  {
    if |updates| == 0 then m
    else ApplyToPlan(PlanAfter(m, updates[..|updates| - 1]), updates[|updates| - 1])
  }

  /** A second pass over the same update list ends where the first did: the
      last writer of each plan field is the same both times. */
  lemma PlanAfterTwice(m: PlanMeta, updates: seq<Option<WorkflowUpdate>>)
    ensures PlanAfter(PlanAfter(m, updates), updates) == PlanAfter(m, updates)
  {
    var p := PlanPatchAll(updates);
    PlanAfterIsPatch(m, updates);
    PlanAfterIsPatch(PlanAfter(m, updates), updates);
    PlanOverwriteThen(m, p, p);
    PlanThenSame(p);
  }

  /** The plan fields an update writes. */
  datatype PlanPatch = PlanPatch(status: Option<PlanStatus>, startedAt: Option<string>, completedAt: Option<string>)

  function PlanPatchOf(update: Option<WorkflowUpdate>): PlanPatch
  {
    match update
    case None => PlanPatch(None, None, None)
    case Some(u) =>
      if IsStepUpdate(u) then PlanPatch(None, None, None)
      else if u.status == "workflow_executing" then PlanPatch(Some(Executing), Some(u.timestamp), None)
      else if u.status == "workflow_completed" then PlanPatch(Some(PlanCompleted), None, Some(u.timestamp))
      else if u.status == "workflow_failed" then PlanPatch(Some(PlanFailed), None, Some(u.timestamp))
      else PlanPatch(None, None, None)
  }

  function PlanOverwrite(m: PlanMeta, p: PlanPatch): PlanMeta
  {
    PlanMeta(p.status.GetOr(m.status),
             if p.startedAt.Some? then p.startedAt else m.startedAt,
             if p.completedAt.Some? then p.completedAt else m.completedAt)
  }

  function PlanThen(p: PlanPatch, q: PlanPatch): PlanPatch
  {
    PlanPatch(if q.status.Some? then q.status else p.status,
              if q.startedAt.Some? then q.startedAt else p.startedAt,
              if q.completedAt.Some? then q.completedAt else p.completedAt)
  }

  function PlanPatchAll(updates: seq<Option<WorkflowUpdate>>): PlanPatch
  {
    if |updates| == 0 then PlanPatch(None, None, None)
    else PlanThen(PlanPatchAll(updates[..|updates| - 1]), PlanPatchOf(updates[|updates| - 1]))
  }

  lemma PlanThenSame(p: PlanPatch)
    ensures PlanThen(p, p) == p
  {
  }

  lemma PlanOverwriteThen(m: PlanMeta, p: PlanPatch, q: PlanPatch)
    ensures PlanOverwrite(PlanOverwrite(m, p), q) == PlanOverwrite(m, PlanThen(p, q))
  {
  }

  lemma {:induction false} PlanAfterIsPatch(m: PlanMeta, updates: seq<Option<WorkflowUpdate>>)
    ensures PlanAfter(m, updates) == PlanOverwrite(m, PlanPatchAll(updates))
  {
    if |updates| == 0 {
      assert PlanOverwrite(m, PlanPatch(None, None, None)) == m;
    } else {
      var front := updates[..|updates| - 1];
      PlanAfterIsPatch(m, front);
      PlanOverwriteThen(m, PlanPatchAll(front), PlanPatchOf(updates[|updates| - 1]));
    }
  }

  // ---------------------------------------------------------------- progress

  datatype Counts = Counts(completed: int, total: int, percentage: int)

  /** The recomputed progress: completed steps over the step count, or over 1
      when there are no steps. */
  function ProgressOf(steps: seq<WorkflowStep>): (c: Counts)
    ensures c.completed == CountCompleted(steps)
    ensures c.total == if |steps| == 0 then 1 else |steps|
    ensures c.completed <= c.total
    ensures 0 <= c.percentage <= 100
    ensures c.percentage == 100 <== c.completed == |steps| > 0
    ensures c.completed == 0 ==> c.percentage == 0
  {
    var completed := CountCompleted(steps);
    var total := if |steps| == 0 then 1 else |steps|;
    PercentRange(completed, total);
    Counts(completed, total, Percent(completed, total))
  }

  /** Applying the same update list twice gives the same steps, plan fields
      and progress as applying it once. */
  lemma ReconcileTwice(steps: seq<WorkflowStep>, m: PlanMeta, updates: seq<Option<WorkflowUpdate>>)
    ensures StepsAfter(StepsAfter(steps, updates), updates) == StepsAfter(steps, updates)
    ensures PlanAfter(PlanAfter(m, updates), updates) == PlanAfter(m, updates)
    ensures ProgressOf(StepsAfter(StepsAfter(steps, updates), updates)) == ProgressOf(StepsAfter(steps, updates))
  {
    var once := StepsAfter(steps, updates);
    var twice := StepsAfter(once, updates);
    forall i | 0 <= i < |steps| ensures twice[i] == once[i] {
      StepsAfterPointwise(once, updates, i);
      StepsAfterPointwise(steps, updates, i);
      PatchForSameIds(once, steps, updates, i);
      var p := PatchFor(steps, updates, i);
      OverwriteThen(steps[i], p, p);
      ThenSame(p);
    }
    PlanAfterTwice(m, updates);
  }

  /** Updates that name no step of the list leave every step as it was. */
  lemma {:induction false} UnknownStepIdsChangeNothing(steps: seq<WorkflowStep>, updates: seq<Option<WorkflowUpdate>>)
    requires forall k :: 0 <= k < |updates| && updates[k].Some? && IsStepUpdate(updates[k].value)
               ==> !Resolves(steps, updates[k].value.stepId.value)
    ensures StepsAfter(steps, updates) == steps
  {
    if |updates| > 0 {
      UnknownStepIdsChangeNothing(steps, updates[..|updates| - 1]);
    }
  }

  /** Plan-level updates never touch a step, and step updates never touch
      the plan fields. */
  lemma {:induction false} UpdatesStayInTheirLane(steps: seq<WorkflowStep>, m: PlanMeta, updates: seq<Option<WorkflowUpdate>>)
    ensures (forall k :: 0 <= k < |updates| ==> updates[k].None? || !IsStepUpdate(updates[k].value))
              ==> StepsAfter(steps, updates) == steps
    ensures (forall k :: 0 <= k < |updates| ==> updates[k].None? || IsStepUpdate(updates[k].value))
              ==> PlanAfter(m, updates) == m
  {
    if |updates| > 0 {
      UpdatesStayInTheirLane(steps, m, updates[..|updates| - 1]);
    }
  }

  // ---------------------------------------------------------------- the operation

  /** `updateWorkflowWithTracking`. A missing plan gives a placeholder; a
      missing (non-array) update list gives the same plan object back;
      otherwise the result is a new plan with a new steps array and a new
      progress object, and the input plan and its steps are not modified. */
  method UpdateWorkflowWithTracking(workflow: WorkflowPlan?, updates: Option<seq<Option<WorkflowUpdate>>>)
    returns (updated: WorkflowPlan)
    ensures workflow == null ==>
      && fresh(updated) && updated.id == "unknown" && updated.title == "Unknown Workflow"
      && updated.description == "Workflow data not available" && updated.steps.Length == 0
      && updated.status == PlanPending
      && updated.progress.completed == 0 && updated.progress.total == 0 && updated.progress.percentage == 0
    ensures workflow != null && updates.None? ==> updated == workflow
    ensures workflow != null && updates.Some? ==>
      && fresh(updated) && fresh(updated.steps) && fresh(updated.progress)
      && updated.id == workflow.id && updated.title == workflow.title && updated.description == workflow.description
      && updated.totalEstimatedDuration == workflow.totalEstimatedDuration && updated.createdAt == workflow.createdAt
      && updated.steps[..] == StepsAfter(workflow.steps[..], updates.value)
      && PlanMeta(updated.status, updated.startedAt, updated.completedAt)
         == PlanAfter(PlanMeta(workflow.status, workflow.startedAt, workflow.completedAt), updates.value)
      && Counts(updated.progress.completed, updated.progress.total, updated.progress.percentage)
         == ProgressOf(updated.steps[..])
  {
    if workflow == null {
      var none := new WorkflowStep[0];
      var progress := new Progress(0, 0, 0);
      updated := new WorkflowPlan("unknown", "Unknown Workflow", "Workflow data not available", none,
                                  0, PlanPending, None, None, None, progress);
      return;
    }
    if updates.None? {
      return workflow;
    }
    var list := updates.value;
    var original := workflow.steps[..];
    var steps := new WorkflowStep[|original|](i requires 0 <= i < |original| => original[i]);
    updated := new WorkflowPlan(workflow.id, workflow.title, workflow.description, steps,
                                workflow.totalEstimatedDuration, workflow.status, workflow.createdAt,
                                workflow.startedAt, workflow.completedAt, workflow.progress);
    ghost var meta0 := PlanMeta(workflow.status, workflow.startedAt, workflow.completedAt);
    for k := 0 to |list|
      invariant updated.steps == steps && fresh(steps)
      invariant updated.id == workflow.id && updated.title == workflow.title && updated.description == workflow.description
      invariant updated.totalEstimatedDuration == workflow.totalEstimatedDuration && updated.createdAt == workflow.createdAt
      invariant steps[..] == StepsAfter(original, list[..k])
      invariant PlanMeta(updated.status, updated.startedAt, updated.completedAt) == PlanAfter(meta0, list[..k])
    {
      assert list[..k + 1][..k] == list[..k];
      var update := list[k];
      if update.Some? && IsStepUpdate(update.value) {
        UpdateStep(steps, update.value);
      } else if update.Some? {
        UpdatePlan(updated, update.value);
      }
    }
    assert list[..|list|] == list;
    var completedSteps := CountCompleted(steps[..]);
    var totalSteps := if steps.Length == 0 then 1 else steps.Length;
    updated.progress := new Progress(completedSteps, totalSteps, Percent(completedSteps, totalSteps));
  }

  /** The loop body for a step update: the first step with the update's
      `stepId`, when there is one, is replaced in place by its updated copy. */
  method UpdateStep(steps: array<WorkflowStep>, u: WorkflowUpdate)
    requires IsStepUpdate(u)
    modifies steps
    ensures steps[..] == ApplyUpdate(old(steps[..]), Some(u))
  {
    var stepIndex := FirstIndex(steps[..], u.stepId.value);
    if stepIndex.Some? {
      var step := steps[stepIndex.value];
      if u.status == "step_in_progress" {
        step := step.(status := InProgress, startTime := Some(u.timestamp));
      } else if u.status == "step_completed" {
        step := step.(status := Completed, endTime := Some(u.timestamp), result := u.data);
      } else if u.status == "step_failed" {
        step := step.(status := Failed, error := u.message, endTime := Some(u.timestamp));
      }
      steps[stepIndex.value] := step;
    }
  }

  /** The loop body for a plan-level update: the status and one timestamp of
      the plan are overwritten, and nothing else changes. */
  method UpdatePlan(plan: WorkflowPlan, u: WorkflowUpdate)
    requires !IsStepUpdate(u)
    modifies plan
    ensures PlanMeta(plan.status, plan.startedAt, plan.completedAt)
         == ApplyToPlan(old(PlanMeta(plan.status, plan.startedAt, plan.completedAt)), Some(u))
    ensures plan.id == old(plan.id) && plan.title == old(plan.title) && plan.description == old(plan.description)
    ensures plan.steps == old(plan.steps) && plan.totalEstimatedDuration == old(plan.totalEstimatedDuration)
    ensures plan.createdAt == old(plan.createdAt) && plan.progress == old(plan.progress)
  {
    if u.status == "workflow_executing" {
      plan.status := Executing;
      plan.startedAt := Some(u.timestamp);
    } else if u.status == "workflow_completed" {
      plan.status := PlanCompleted;
      plan.completedAt := Some(u.timestamp);
    } else if u.status == "workflow_failed" {
      plan.status := PlanFailed;
      plan.completedAt := Some(u.timestamp);
    }
  }

  // ---------------------------------------------------------------- sanitising

  /** The object literal `validateWorkflow` builds. */
  function PlanObject(id: Json, title: Json, description: Json, steps: Json, status: Json, priority: Json,
                      estimatedDuration: Json, progress: Json, startedAt: Json, completedAt: Json): (r: Json)
    ensures r.JsObject?
    ensures Get(r, "id") == id && Get(r, "title") == title && Get(r, "description") == description
    ensures Get(r, "steps") == steps && Get(r, "status") == status && Get(r, "priority") == priority
    ensures Get(r, "estimatedDuration") == estimatedDuration && Get(r, "progress") == progress
    ensures Get(r, "startedAt") == startedAt && Get(r, "completedAt") == completedAt
  {
    JsObject(map["id" := id, "title" := title, "description" := description, "steps" := steps,
                 "status" := status, "priority" := priority, "estimatedDuration" := estimatedDuration,
                 "progress" := progress, "startedAt" := startedAt, "completedAt" := completedAt])
  }

  const EmptyProgress := JsObject(map["completed" := JsNumber(0), "total" := JsNumber(0), "percentage" := JsNumber(0)])

  /** `validateWorkflow`: `None` (null) unless the input is an object or an
      array; otherwise a plan-shaped object with defaults for missing fields. */
  function ValidateWorkflow(w: Json): (r: Option<Json>)
    ensures r.None? <==> !(w.JsObject? || w.JsArray?)
    ensures r.Some? ==> r.value.JsObject?
    ensures r.Some? && Truthy(Get(w, "id")) ==> Get(r.value, "id") == Get(w, "id")
    ensures r.Some? && !Truthy(Get(w, "id")) ==> Get(r.value, "id") == JsString("unknown")
    ensures r.Some? && Truthy(Get(w, "status")) ==> Get(r.value, "status") == Get(w, "status")
    ensures r.Some? && !Truthy(Get(w, "status")) ==> Get(r.value, "status") == JsString("pending")
    ensures r.Some? ==> Get(r.value, "steps") == if Get(w, "steps").JsArray? then Get(w, "steps") else JsArray([])
    ensures r.Some? ==> Truthy(Get(r.value, "title")) && Truthy(Get(r.value, "progress"))
  {
    if !Truthy(w) || !IsObjectType(w) then None
    else
      Some(PlanObject(
        Or(Get(w, "id"), JsString("unknown")),
        Or(Get(w, "title"), JsString("Untitled Workflow")),
        Or(Get(w, "description"), JsString("")),
        if Get(w, "steps").JsArray? then Get(w, "steps") else JsArray([]),
        Or(Get(w, "status"), JsString("pending")),
        Or(Get(w, "priority"), JsString("medium")),
        Or(Get(w, "estimatedDuration"), JsNumber(0)),
        Or(Get(w, "progress"), EmptyProgress),
        Get(w, "startedAt"),
        Get(w, "completedAt")))
  }

  /** Field `f` of `r` is the input's field when that is truthy, else `d`. */
  predicate KeptOr(r: Json, w: Json, f: string, d: Json)
  {
    Get(r, f) == if Truthy(Get(w, f)) then Get(w, f) else d
  }

  /** The defaults `validateWorkflow` fills in for each falsy field, and the
      two timestamps it copies as they are. */
  lemma ValidateDefaults(w: Json)
    requires ValidateWorkflow(w).Some?
    ensures var r := ValidateWorkflow(w).value;
      && KeptOr(r, w, "title", JsString("Untitled Workflow"))
      && KeptOr(r, w, "description", JsString(""))
      && KeptOr(r, w, "priority", JsString("medium"))
      && KeptOr(r, w, "estimatedDuration", JsNumber(0))
      && KeptOr(r, w, "progress", JsObject(map["completed" := JsNumber(0), "total" := JsNumber(0), "percentage" := JsNumber(0)]))
      && Get(r, "startedAt") == Get(w, "startedAt")
      && Get(r, "completedAt") == Get(w, "completedAt")
  {
  }

  /** Validation is a projection: validating a validated workflow changes nothing. */
  lemma ValidateIdempotent(w: Json)
    requires ValidateWorkflow(w).Some?
    ensures ValidateWorkflow(ValidateWorkflow(w).value) == ValidateWorkflow(w)
  {
  }

  /** The object literal `parsePowerAutomateWebhook` builds. */
  function UpdateObject(workflowId: Json, stepId: Json, status: Json, progress: Json, message: Json,
                        timestamp: Json, data: Json): (r: Json)
    ensures r.JsObject?
    ensures Get(r, "workflowId") == workflowId && Get(r, "stepId") == stepId && Get(r, "status") == status
    ensures Get(r, "progress") == progress && Get(r, "message") == message
    ensures Get(r, "timestamp") == timestamp && Get(r, "data") == data
  {
    JsObject(map["workflowId" := workflowId, "stepId" := stepId, "status" := status, "progress" := progress,
                 "message" := message, "timestamp" := timestamp, "data" := data])
  }

  /** `parsePowerAutomateWebhook`: `None` (null) unless both `status` and
      `workflowId` are truthy; the timestamp defaults to `now`. */
  function ParseWebhook(data: Json, now: string): (r: Option<Json>)
    ensures r.Some? <==> Truthy(Get(data, "status")) && Truthy(Get(data, "workflowId"))
    ensures r.Some? ==>
      && r.value.JsObject?
      && Get(r.value, "status") == Get(data, "status") && Get(r.value, "workflowId") == Get(data, "workflowId")
      && Get(r.value, "stepId") == Get(data, "stepId")
      && Get(r.value, "timestamp") == (if Truthy(Get(data, "timestamp")) then Get(data, "timestamp") else JsString(now))
  {
    if Truthy(Get(data, "status")) && Truthy(Get(data, "workflowId")) then
      Some(UpdateObject(Get(data, "workflowId"), Get(data, "stepId"), Get(data, "status"), Get(data, "progress"),
                        Get(data, "message"), Or(Get(data, "timestamp"), JsString(now)), Get(data, "data")))
    else None
  }

  /** A parsed payload parses to itself, whatever the clock says then, as long
      as the first clock reading was not empty. */
  lemma ParseWebhookFixpoint(data: Json, now: string, later: string)
    requires ParseWebhook(data, now).Some? && now != ""
    ensures ParseWebhook(ParseWebhook(data, now).value, later) == ParseWebhook(data, now)
  {
  }
}

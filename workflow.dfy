/** The workflow data model shared by the planner, the executor, the status
    reconciler and the layout: steps, plans, their progress counter, the
    lookup of a step by id, and what it means for the dependency relation to
    be acyclic.

    A step is a value. A plan's `steps` is an array: the executor writes
    updated steps into it in place, and every plan object that holds the same
    array sees the change, as every holder of the same step objects does in
    the TypeScript code. `Progress` is an object for the same reason: the executor
    increments a progress object that its input plan still references. */
module Workflow {
  import opened Wrappers
  import opened JsonValue

  datatype StepType = Meeting | Email | Post | Reminder | Task | Analysis

  datatype Priority = High | Medium | Low

  datatype StepStatus = Pending | InProgress | Completed | Failed | Skipped

  /** `PlanPending` is the status of the placeholder plan the reconciler
      returns for a missing plan; no other code produces it. */
  datatype PlanStatus = Planning | Executing | PlanCompleted | PlanFailed | Paused | PlanPending

  /** The parameter bag of a step, one variant per shape the code builds. */
  datatype StepParameters =
    | MeetingParams(time: string, title: string, description: string, attendees: seq<string>)
    | EmailParams(recipients: seq<string>, subject: string, body: string, includeCalendarInvite: bool)
    | PostParams(platform: string, message: string, scheduledTime: Option<string>)
    | ReminderParams(reminderTime: string, message: string)
    | ChatMeetingParams(time: string, title: string)
    | ChatEmailParams(recipients: seq<string>)
    | ChatPostParams(platform: string, time: string)
    | NoParams

  /** `result` holds whatever the step produced (`undefined` before). */
  datatype WorkflowStep = WorkflowStep(
    id: string,
    kind: StepType,
    title: string,
    description: string,
    dependencies: seq<string>,
    estimatedDuration: nat,
    priority: Priority,
    parameters: StepParameters,
    status: StepStatus,
    result: Json,
    startTime: Option<string>,
    endTime: Option<string>,
    error: Option<string>)

  class Progress {
    var completed: int
    var total: int
    var percentage: int

    constructor (completed: int, total: int, percentage: int)
      ensures this.completed == completed && this.total == total && this.percentage == percentage
    {
      this.completed := completed;
      this.total := total;
      this.percentage := percentage;
    }
  }

  class WorkflowPlan {
    var id: string
    var title: string
    var description: string
    var steps: array<WorkflowStep>
    var totalEstimatedDuration: int
    var status: PlanStatus
    var createdAt: Option<string>
    var startedAt: Option<string>
    var completedAt: Option<string>
    var progress: Progress

    constructor (id: string, title: string, description: string, steps: array<WorkflowStep>,
                 totalEstimatedDuration: int, status: PlanStatus, createdAt: Option<string>,
                 startedAt: Option<string>, completedAt: Option<string>, progress: Progress)
      ensures this.id == id && this.title == title && this.description == description
      ensures this.steps == steps && this.totalEstimatedDuration == totalEstimatedDuration
      ensures this.status == status && this.createdAt == createdAt
      ensures this.startedAt == startedAt && this.completedAt == completedAt
      ensures this.progress == progress
    {
      this.id := id;
      this.title := title;
      this.description := description;
      this.steps := steps;
      this.totalEstimatedDuration := totalEstimatedDuration;
      this.status := status;
      this.createdAt := createdAt;
      this.startedAt := startedAt;
      this.completedAt := completedAt;
      this.progress := progress;
    }

    /** `{ ...plan }`: a new plan object that shares the steps array and
        the progress object with `plan`. */
    constructor ShallowCopy(plan: WorkflowPlan)
      ensures id == plan.id && title == plan.title && description == plan.description
      ensures steps == plan.steps && totalEstimatedDuration == plan.totalEstimatedDuration
      ensures status == plan.status && createdAt == plan.createdAt
      ensures startedAt == plan.startedAt && completedAt == plan.completedAt
      ensures progress == plan.progress
    {
      id := plan.id;
      title := plan.title;
      description := plan.description;
      steps := plan.steps;
      totalEstimatedDuration := plan.totalEstimatedDuration;
      status := plan.status;
      createdAt := plan.createdAt;
      startedAt := plan.startedAt;
      completedAt := plan.completedAt;
      progress := plan.progress;
    }
  }

  /** `Math.round(completed / total * 100)` for a positive `total`, computed
      exactly: rounding half up is `floor(x + 1/2)`. */
  function Percent(completed: int, total: int): int
    requires total > 0
  {
    (200 * completed + total) / (2 * total)
  }

  /** `Percent` rounds the share to the nearest integer, halves upwards: it is
      the r with r - 1/2 <= 100 * completed / total < r + 1/2. */
  lemma PercentRounds(completed: int, total: int)
    requires total > 0
    ensures var r := Percent(completed, total);
      2 * total * r <= 200 * completed + total < 2 * total * (r + 1)
  {
  }

  /** A share of a total is a percentage between 0 and 100; all of it is 100
      and none of it is 0. */
  lemma PercentRange(completed: int, total: int)
    requires total > 0 && 0 <= completed <= total
    ensures 0 <= Percent(completed, total) <= 100
    ensures completed == total ==> Percent(completed, total) == 100
    ensures completed == 0 ==> Percent(completed, total) == 0
  {
    var r := Percent(completed, total);
    var d := 2 * total;
    PercentRounds(completed, total);
    if r > 100 {
      MulMono(d, 101, r);
      assert false;
    }
    if r < 0 {
      MulMono(d, r + 1, 0);
      assert false;
    }
    if completed == total && r < 100 {
      MulMono(d, r + 1, 100);
      assert false;
    }
    if completed == 0 && r > 0 {
      MulMono(d, 1, r);
      assert false;
    }
  }

  lemma MulMono(d: int, a: int, b: int)
    requires d > 0 && a <= b
    ensures d * a <= d * b
  {
  }

  /** `steps.find((s) => s.id === id)`: the index of the first step with
      that id; `FirstIndexFirst` says that no earlier step has it. */
  function FirstIndex(steps: seq<WorkflowStep>, id: string): (r: Option<nat>)
    ensures r.Some? ==> r.value < |steps| && steps[r.value].id == id
  {
    if |steps| == 0 then None
    else if steps[0].id == id then Some(0)
    else
      match FirstIndex(steps[1..], id)
      case None => None
      case Some(j) => Some(j + 1)
  }

  /** The lookup finds the first step with the id, and finds none exactly
      when no step has it. */
  lemma {:induction false} FirstIndexFirst(steps: seq<WorkflowStep>, id: string)
    ensures FirstIndex(steps, id).Some? ==> forall k :: 0 <= k < FirstIndex(steps, id).value ==> steps[k].id != id
    ensures FirstIndex(steps, id).None? <==> forall k :: 0 <= k < |steps| ==> steps[k].id != id
  {
    if |steps| > 0 && steps[0].id != id {
      FirstIndexFirst(steps[1..], id);
      assert forall k :: 1 <= k < |steps| ==> steps[k] == steps[1..][k - 1];
    }
  }

  /** Whether a dependency id names a step of the list. */
  predicate Resolves(steps: seq<WorkflowStep>, id: string)
  {
    FirstIndex(steps, id).Some?
  }

  /** The ids of the steps, in order. */
  function Ids(steps: seq<WorkflowStep>): (r: seq<string>)
    ensures |r| == |steps|
    ensures forall i :: 0 <= i < |steps| ==> r[i] == steps[i].id
  {
    seq(|steps|, i requires 0 <= i < |steps| => steps[i].id)
  }

  /** Steps with the same ids, position by position, answer every lookup the same way. */
  lemma {:induction false} FirstIndexSameIds(a: seq<WorkflowStep>, b: seq<WorkflowStep>, id: string)
    requires Ids(a) == Ids(b)
    ensures FirstIndex(a, id) == FirstIndex(b, id)
  {
    if |a| > 0 && a[0].id != id {
      assert Ids(a[1..]) == Ids(b[1..]) by {
        assert forall i :: 0 <= i < |a| - 1 ==> Ids(a[1..])[i] == Ids(a)[i + 1];
        assert forall i :: 0 <= i < |b| - 1 ==> Ids(b[1..])[i] == Ids(b)[i + 1];
      }
      FirstIndexSameIds(a[1..], b[1..], id);
    } else if |a| > 0 {
      assert Ids(a)[0] == Ids(b)[0];
    }
  }

  /** `rank` orders the steps so that every dependency that resolves has a
      smaller rank than the step that depends on it. */
  ghost predicate Ranked(steps: seq<WorkflowStep>, rank: seq<nat>)
  {
    && |rank| == |steps|
    && forall i, k :: 0 <= i < |steps| && 0 <= k < |steps[i].dependencies|
         && FirstIndex(steps, steps[i].dependencies[k]).Some?
         ==> rank[FirstIndex(steps, steps[i].dependencies[k]).value] < rank[i]
  }

  /** The dependency relation, resolved by first match on id, has no cycle. */
  ghost predicate Acyclic(steps: seq<WorkflowStep>)
  {
    exists rank :: Ranked(steps, rank)
  }

  /** Every resolvable dependency names an earlier step. */
  ghost predicate DependsOnlyBackward(steps: seq<WorkflowStep>)
  {
    forall i, k :: 0 <= i < |steps| && 0 <= k < |steps[i].dependencies|
      && FirstIndex(steps, steps[i].dependencies[k]).Some?
      ==> FirstIndex(steps, steps[i].dependencies[k]).value < i
  }

  /** Steps that only depend on earlier steps form an acyclic graph; the
      position of a step is a rank. */
  lemma BackwardIsAcyclic(steps: seq<WorkflowStep>)
    requires DependsOnlyBackward(steps)
    ensures Acyclic(steps)
  {
    var rank := seq(|steps|, i requires 0 <= i < |steps| => i as nat);
    assert Ranked(steps, rank);
  }

  /** The number of steps whose status is `completed`. */
  function CountCompleted(steps: seq<WorkflowStep>): (n: nat)
    ensures n <= |steps|
  {
    if |steps| == 0 then 0
    else CountCompleted(steps[..|steps| - 1]) + (if steps[|steps| - 1].status == Completed then 1 else 0)
  }

  /** The sum of the steps' estimated durations. */
  function TotalDuration(steps: seq<WorkflowStep>): nat
  {
    if |steps| == 0 then 0
    else TotalDuration(steps[..|steps| - 1]) + steps[|steps| - 1].estimatedDuration
  }
}

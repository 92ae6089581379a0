/** `planWorkflow`: the steps the planner creates from an analysed request,
    with the dependency edges the code fixes, and the plan around them.

    `uuid(k)` is the value of the k-th call of the UUID generator during one
    planning run: call 0 names the plan, call k + 1 names the k-th step. */
module Planner {
  import opened Wrappers
  import opened Text
  import opened JsonValue
  import opened Workflow
  import opened Analyzer

  /** `steps.find((s) => s.type === kind)`: the index of the first step of that kind. */
  function FindKind(steps: seq<WorkflowStep>, kind: StepType): (r: Option<nat>)
    ensures r.Some? ==> r.value < |steps| && steps[r.value].kind == kind
    ensures r.Some? ==> forall j :: 0 <= j < r.value ==> steps[j].kind != kind
    ensures r.None? ==> forall j :: 0 <= j < |steps| ==> steps[j].kind != kind
  {
    if |steps| == 0 then None
    else if steps[0].kind == kind then Some(0)
    else
      match FindKind(steps[1..], kind)
      case None => None
      case Some(j) => Some(j + 1)
  }

  /** `stepId ? [stepId] : []` for the id of the first step of `kind`. */
  function DependencyOn(steps: seq<WorkflowStep>, kind: StepType): (deps: seq<string>)
    ensures |deps| <= 1
    ensures |deps| == 1 <==> FindKind(steps, kind).Some? && steps[FindKind(steps, kind).value].id != ""
    ensures |deps| == 1 ==> deps[0] == steps[FindKind(steps, kind).value].id
  {
    match FindKind(steps, kind)
    case Some(j) => if steps[j].id != "" then [steps[j].id] else []
    case None => []
  }

  /** Which kinds of steps the planner creates, in order. */
  function PlannedKinds(a: Analysis): seq<StepType>
  {
    (if a.hasMeeting then [Meeting] else []) + (if a.hasEmail then [Email] else [])
    + (if a.hasPost then [Post] else []) + (if a.hasMeeting || a.hasEmail then [Reminder] else [])
  }

  /** The kinds of the steps, in order. */
  function KindsOf(steps: seq<WorkflowStep>): (r: seq<StepType>)
    ensures |r| == |steps| && forall i :: 0 <= i < |steps| ==> r[i] == steps[i].kind
  {
    seq(|steps|, i requires 0 <= i < |steps| => steps[i].kind)
  }

  /** What the planner promises about step `s`, given the steps `before` it. */
  ghost predicate StepRule(a: Analysis, uuid: nat -> string, before: seq<WorkflowStep>, s: WorkflowStep)
  {
    && s.id == uuid(|before| + 1)
    && s.status == Pending && s.result == JsUndefined
    && s.startTime.None? && s.endTime.None? && s.error.None?
    && match s.kind
       // the meeting step: first, high priority, no dependencies, the analysed time and attendees
       case Meeting =>
         && before == [] && s.dependencies == [] && s.priority == High && s.estimatedDuration == 2
         && s.parameters.MeetingParams?
         && s.parameters.time == a.meetingDetails.time
         && s.parameters.attendees == a.meetingDetails.attendees
       // the e-mail step depends on the meeting step, when there is one with an id
       case Email =>
         && s.dependencies == DependencyOn(before, Meeting)
         && s.priority == High && s.estimatedDuration == 1
         && s.parameters.EmailParams?
         && s.parameters.recipients == a.emailDetails.recipients
         && s.parameters.includeCalendarInvite == a.hasMeeting
       // the post step depends on the e-mail step only
       case Post =>
         && s.dependencies == DependencyOn(before, Email)
         && s.priority == Medium && s.estimatedDuration == 1
         && s.parameters.PostParams?
         && s.parameters.scheduledTime == a.postDetails.scheduledTime
       // the reminder depends on every earlier step
       case Reminder =>
         && s.dependencies == Ids(before)
         && s.priority == Low && s.estimatedDuration == 1
       case _ => false
  }

  ghost predicate AllStepRules(a: Analysis, uuid: nat -> string, steps: seq<WorkflowStep>)
  {
    forall i :: 0 <= i < |steps| ==> StepRule(a, uuid, steps[..i], steps[i])
  }

  /** What the planner promises about the steps of a plan for analysis `a`. */
  ghost predicate PlannedSteps(a: Analysis, uuid: nat -> string, steps: seq<WorkflowStep>)
  {
    KindsOf(steps) == PlannedKinds(a) && AllStepRules(a, uuid, steps)
  }

  lemma AppendStep(a: Analysis, uuid: nat -> string, steps: seq<WorkflowStep>, s: WorkflowStep)
    requires AllStepRules(a, uuid, steps) && StepRule(a, uuid, steps, s)
    ensures AllStepRules(a, uuid, steps + [s])
    ensures KindsOf(steps + [s]) == KindsOf(steps) + [s.kind]
  {
    var t := steps + [s];
    forall i | 0 <= i < |t| ensures StepRule(a, uuid, t[..i], t[i]) {
      if i < |steps| {
        assert t[..i] == steps[..i];
      } else {
        assert t[..i] == steps;
      }
    }
  }

  /** The step-building part of `planWorkflow`. */
  method PlanSteps(a: Analysis, uuid: nat -> string) returns (steps: seq<WorkflowStep>)
    ensures PlannedSteps(a, uuid, steps)
    ensures DependsOnlyBackward(steps)
  {
    steps := [];
    if a.hasMeeting {
      var m := a.meetingDetails;
      var s := WorkflowStep(uuid(|steps| + 1), Meeting, "สร้างการประชุม",
        "สร้างการประชุม: " + m.title, [], 2, High,
        MeetingParams(m.time, m.title, m.description, m.attendees),
        Pending, JsUndefined, None, None, None);
      AppendStep(a, uuid, steps, s);
      steps := steps + [s];
    }
    if a.hasEmail {
      var e := a.emailDetails;
      var meetingStepId := DependencyOn(steps, Meeting);
      var s := WorkflowStep(uuid(|steps| + 1), Email, "ส่ง Email แจ้งเตือน",
        "ส่ง email ถึง " + NatText(|e.recipients|) + " คน", meetingStepId, 1, High,
        EmailParams(e.recipients, e.subject, e.body, a.hasMeeting),
        Pending, JsUndefined, None, None, None);
      AppendStep(a, uuid, steps, s);
      steps := steps + [s];
    }
    if a.hasPost {
      var p := a.postDetails;
      var emailStepId := DependencyOn(steps, Email);
      var s := WorkflowStep(uuid(|steps| + 1), Post, "โพสข้อความใน Team",
        "โพสข้อความเกี่ยวกับ " + p.topic, emailStepId, 1, Medium,
        PostParams(p.platform, p.message, p.scheduledTime),
        Pending, JsUndefined, None, None, None);
      AppendStep(a, uuid, steps, s);
      steps := steps + [s];
    }
    if a.hasMeeting || a.hasEmail {
      var s := WorkflowStep(uuid(|steps| + 1), Reminder, "ตั้งการแจ้งเตือน",
        "ตั้งการแจ้งเตือนสำหรับติดตามผล", Ids(steps), 1, Low,
        ReminderParams("1 hour before", "ติดตามผลการประชุมและ feedback"),
        Pending, JsUndefined, None, None, None);
      AppendStep(a, uuid, steps, s);
      steps := steps + [s];
    }
    PlannedBackward(a, uuid, steps);
  }

  /** Every dependency the planner writes names an earlier step. */
  lemma PlannedBackward(a: Analysis, uuid: nat -> string, steps: seq<WorkflowStep>)
    requires PlannedSteps(a, uuid, steps)
    ensures DependsOnlyBackward(steps)
  {
    forall i, k | 0 <= i < |steps| && 0 <= k < |steps[i].dependencies|
      && FirstIndex(steps, steps[i].dependencies[k]).Some?
      ensures FirstIndex(steps, steps[i].dependencies[k]).value < i
    {
      var d := steps[i].dependencies[k];
      var before := steps[..i];
      assert StepRule(a, uuid, before, steps[i]);
      var j: nat;
      if steps[i].kind == Reminder {
        j := k;
      } else {
        j := FindKind(before, if steps[i].kind == Email then Meeting else Email).value;
      }
      assert j < i && d == steps[j].id;
      FirstIndexFirst(steps, d);
    }
  }

  /** The e-mail step waits for the meeting step (call 1 of the generator)
      when a meeting was detected and its id is non-empty, and for nothing
      otherwise. */
  lemma PlannedEmailDependency(a: Analysis, uuid: nat -> string, steps: seq<WorkflowStep>, i: nat)
    requires PlannedSteps(a, uuid, steps)
    requires i < |steps| && steps[i].kind == Email
    ensures steps[i].dependencies == (if a.hasMeeting && uuid(1) != "" then [uuid(1)] else [])
  {
    var kinds := PlannedKinds(a);
    assert StepRule(a, uuid, steps[..i], steps[i]);
    if a.hasMeeting {
      assert KindsOf(steps)[0] == kinds[0] == Meeting;
      assert 0 < i;
      var before := steps[..i];
      assert before[0] == steps[0];
      assert StepRule(a, uuid, steps[..0], steps[0]);
    } else {
      assert KindsOf(steps)[i] == kinds[i] == Email;
      assert i == 0;
      assert steps[..i] == [];
    }
  }

  /** The post step waits for the step just before it when that is the e-mail
      step, and for nothing when no e-mail was detected, even after a meeting. */
  lemma PlannedPostDependency(a: Analysis, uuid: nat -> string, steps: seq<WorkflowStep>, i: nat)
    requires PlannedSteps(a, uuid, steps)
    requires i < |steps| && steps[i].kind == Post
    ensures steps[i].dependencies == (if a.hasEmail && uuid(i) != "" then [uuid(i)] else [])
    ensures !a.hasEmail ==> steps[i].dependencies == []
  {
    var kinds := PlannedKinds(a);
    assert StepRule(a, uuid, steps[..i], steps[i]);
    if a.hasEmail {
      var e := if a.hasMeeting then 1 else 0;
      assert i == e + 1 && steps[e].kind == kinds[e] == Email;
      assert forall j :: 0 <= j < e ==> steps[..i][j].kind == kinds[j] != Email;
      assert StepRule(a, uuid, steps[..e], steps[e]);
    } else {
      assert forall j :: 0 <= j < i ==> steps[..i][j].kind == kinds[j] != Email;
    }
  }

  /** A reminder exists exactly when a meeting or an e-mail was detected; it
      comes last, has low priority and waits for every earlier step. */
  lemma PlannedReminder(a: Analysis, uuid: nat -> string, steps: seq<WorkflowStep>)
    requires PlannedSteps(a, uuid, steps)
    ensures (exists i :: 0 <= i < |steps| && steps[i].kind == Reminder) <==> a.hasMeeting || a.hasEmail
    ensures forall i :: 0 <= i < |steps| && steps[i].kind == Reminder ==>
      i == |steps| - 1 && steps[i].dependencies == Ids(steps[..i]) && steps[i].priority == Low
  {
    var kinds := PlannedKinds(a);
    if a.hasMeeting || a.hasEmail {
      assert steps[|steps| - 1].kind == kinds[|kinds| - 1] == Reminder;
    }
    forall i | 0 <= i < |steps| && steps[i].kind == Reminder
      ensures i == |steps| - 1 && steps[i].dependencies == Ids(steps[..i]) && steps[i].priority == Low
    {
      assert kinds[i] == Reminder;
      assert StepRule(a, uuid, steps[..i], steps[i]);
    }
  }

  /** The planned steps always form an acyclic dependency graph. */
  lemma PlannedAcyclic(a: Analysis, uuid: nat -> string, steps: seq<WorkflowStep>)
    requires PlannedSteps(a, uuid, steps)
    ensures Acyclic(steps)
  {
    PlannedBackward(a, uuid, steps);
    BackwardIsAcyclic(steps);
  }

  /** The estimated duration of a plan: two minutes for a meeting, one for each other step. */
  lemma PlannedDuration(a: Analysis, uuid: nat -> string, steps: seq<WorkflowStep>)
    requires PlannedSteps(a, uuid, steps)
    ensures TotalDuration(steps) == (if a.hasMeeting then 2 else 0) + (if a.hasEmail then 1 else 0)
      + (if a.hasPost then 1 else 0) + (if a.hasMeeting || a.hasEmail then 1 else 0)
  {
    DurationOfPrefix(a, uuid, steps, |steps|);
    assert steps[..|steps|] == steps;
    assert |steps| == |KindsOf(steps)| == |PlannedKinds(a)|;
  }

  lemma {:induction false} DurationOfPrefix(a: Analysis, uuid: nat -> string, steps: seq<WorkflowStep>, n: nat)
    requires PlannedSteps(a, uuid, steps) && n <= |steps|
    ensures TotalDuration(steps[..n]) == n + (if a.hasMeeting && n > 0 then 1 else 0)
  {
    if n > 0 {
      assert steps[..n][..n - 1] == steps[..n - 1];
      DurationOfPrefix(a, uuid, steps, n - 1);
      assert steps[..n][n - 1] == steps[n - 1];
      assert steps[n - 1].kind == PlannedKinds(a)[n - 1];
    }
  }

  /** `planWorkflow`: a fresh plan in status `planning` over the planned steps. */
  method PlanWorkflow(request: string, addresses: seq<string>, uuid: nat -> string, now: string)
    returns (plan: WorkflowPlan)
    ensures fresh(plan) && fresh(plan.steps) && fresh(plan.progress)
    ensures var a := AnalyzeUserRequest(request, addresses);
      && plan.id == uuid(0) && plan.title == WorkflowTitle(a) && plan.description == request
      && PlannedSteps(a, uuid, plan.steps[..])
      && Acyclic(plan.steps[..])
      && plan.totalEstimatedDuration == TotalDuration(plan.steps[..])
    ensures plan.status == Planning && plan.createdAt == Some(now)
    ensures plan.startedAt.None? && plan.completedAt.None?
    ensures plan.progress.completed == 0 && plan.progress.total == plan.steps.Length
      && plan.progress.percentage == 0
  {
    var a := AnalyzeUserRequest(request, addresses);
    plan := BuildPlan(a, request, uuid, now);
  }

  /** The plan object of `planWorkflow`, for the analysis of its request. */
  method BuildPlan(a: Analysis, request: string, uuid: nat -> string, now: string) returns (plan: WorkflowPlan)
    ensures fresh(plan) && fresh(plan.steps) && fresh(plan.progress)
    ensures plan.id == uuid(0) && plan.title == WorkflowTitle(a) && plan.description == request
    ensures PlannedSteps(a, uuid, plan.steps[..]) && Acyclic(plan.steps[..])
    ensures plan.totalEstimatedDuration == TotalDuration(plan.steps[..])
    ensures plan.status == Planning && plan.createdAt == Some(now)
    ensures plan.startedAt.None? && plan.completedAt.None?
    ensures plan.progress.completed == 0 && plan.progress.total == plan.steps.Length
      && plan.progress.percentage == 0
  {
    var steps := PlanSteps(a, uuid);
    PlannedAcyclic(a, uuid, steps);
    var arr := new WorkflowStep[|steps|](i requires 0 <= i < |steps| => steps[i]);
    assert arr[..] == steps;
    var progress := new Progress(0, |steps|, 0);
    plan := new WorkflowPlan(uuid(0), WorkflowTitle(a), request, arr, TotalDuration(steps),
      Planning, Some(now), None, None, progress);
  }
}

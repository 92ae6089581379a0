/** The chat screen's own plan builder: after one automation call it makes a
    plan whose steps all carry that call's outcome. Keyword tests here are
    case-sensitive substring tests on the raw input. */
module RoleChat {
  import opened Wrappers
  import opened Text
  import opened JsonValue
  import opened Workflow
  import opened Planner
  import opened Trigger

  predicate IsProcessing(result: TriggerResponse)
  {
    result.isProcessing == Some(true)
  }

  /** The status every step gets from the call's outcome. */
  function ChatStatus(result: TriggerResponse): (s: StepStatus)
    ensures s == Completed <==> result.success && !IsProcessing(result)
    ensures s == InProgress <==> IsProcessing(result)
    ensures s in {InProgress, Completed, Failed}
  {
    if IsProcessing(result) then InProgress else if result.success then Completed else Failed
  }

  function ChatEndTime(result: TriggerResponse, now: string): Option<string>
  {
    if result.success && !IsProcessing(result) then Some(now) else None
  }

  predicate HasChatMeeting(input: string)
  {
    Contains(input, "ประชุม") || Contains(input, "meeting")
  }

  predicate HasChatEmail(input: string)
  {
    Contains(input, "email") || Contains(input, "ส่ง")
  }

  predicate HasChatPost(input: string)
  {
    Contains(input, "โพส") || Contains(input, "post") || Contains(input, "team")
  }

  function ChatStep(id: string, kind: StepType, title: string, description: string, dependencies: seq<string>,
                    duration: nat, priority: Priority, parameters: StepParameters,
                    result: TriggerResponse, now: string, error: Option<string>): WorkflowStep
  {
    WorkflowStep(id, kind, title, description, dependencies, duration, priority, parameters,
                 ChatStatus(result), JsUndefined, Some(now), ChatEndTime(result, now), error)
  }

  // The fixed texts of the chat screen's steps.
  const MeetingStepTitle := "สร้างการประชุมทีม"
  const MeetingStepDescription := "สร้างการประชุมเวลา 8:00 น."
  const MeetingStepSubject := "ประชุมทีม"
  const EmailStepTitle := "ส่ง Email แจ้งเตือน"
  const EmailStepLead := "ส่ง email ไปยัง "
  const EmailStepTail := " ที่อยู่"
  const PostStepTitle := "โพสข้อความใน Teams"
  const PostStepDescription := "โพสข้อความเกี่ยวกับการประชุม"
  const TaskStepTitle := "ดำเนินการตามคำขอ"

  function MeetingStep(id: string, result: TriggerResponse, now: string): WorkflowStep
  {
    ChatStep(id, Meeting, MeetingStepTitle, MeetingStepDescription, [], 2, High,
             ChatMeetingParams("08:00", MeetingStepSubject), result, now, None)
  }

  function EmailStep(id: string, dependencies: seq<string>, addresses: seq<string>, result: TriggerResponse, now: string): WorkflowStep
  {
    ChatStep(id, Email, EmailStepTitle, EmailStepLead + NatText(|addresses|) + EmailStepTail, dependencies, 1, High,
             ChatEmailParams(addresses), result, now, None)
  }

  function PostStep(id: string, dependencies: seq<string>, result: TriggerResponse, now: string): WorkflowStep
  {
    ChatStep(id, Post, PostStepTitle, PostStepDescription, dependencies, 1, Medium,
             ChatPostParams("Microsoft Teams", "13:00"), result, now, None)
  }

  function TaskStep(id: string, input: string, result: TriggerResponse, now: string): WorkflowStep
  {
    ChatStep(id, Task, TaskStepTitle, input, [], 2, High, NoParams, result, now,
             if !result.success then result.error else None)
  }

  /** The kinds of step the input asks for, in order; a lone task when none. */
  function ChatKinds(input: string): seq<StepType>
  {
    var kinds := (if HasChatMeeting(input) then [Meeting] else [])
               + (if HasChatEmail(input) then [Email] else [])
               + (if HasChatPost(input) then [Post] else []);
    if kinds == [] then [Task] else kinds
  }

  /** The step of kind `kinds[i]` at position `i`; the k-th id drawn in the
      call (the plan's own id is draw 0) is `uuid(k)`. An e-mail step depends
      on the meeting when there is one, a post step on the step before it. */
  function StepAt(input: string, kinds: seq<StepType>, i: nat, result: TriggerResponse, addresses: seq<string>,
                  uuid: nat -> string, now: string): WorkflowStep
    requires i < |kinds|
  {
    match kinds[i]
    case Meeting => MeetingStep(uuid(i + 1), result, now)
    case Email => EmailStep(uuid(i + 1), if HasChatMeeting(input) then [uuid(1)] else [], addresses, result, now)
    case Post => PostStep(uuid(i + 1), if i > 0 then [uuid(i)] else [], result, now)
    case _ => TaskStep(uuid(i + 1), input, result, now)
  }

  /** The steps the chat screen builds, one per requested kind. */
  function ChatSteps(input: string, result: TriggerResponse, addresses: seq<string>, uuid: nat -> string, now: string)
    : (steps: seq<WorkflowStep>)
    ensures |steps| == |ChatKinds(input)|
  {
    var kinds := ChatKinds(input);
    seq(|kinds|, i requires 0 <= i < |kinds| => StepAt(input, kinds, i, result, addresses, uuid, now))
  }

  /** The kinds are a non-empty list without repeats in the fixed order
      meeting, e-mail, post; the lone task appears exactly when no keyword
      group matched. */
  lemma ChatKindsShape(input: string)
    ensures var kinds := ChatKinds(input);
      && 1 <= |kinds| <= 3
      && (Task in kinds <==> !HasChatMeeting(input) && !HasChatEmail(input) && !HasChatPost(input))
      && (Task in kinds ==> kinds == [Task])
      && (Meeting in kinds <==> HasChatMeeting(input)) && (Meeting in kinds ==> kinds[0] == Meeting)
      && (Email in kinds <==> HasChatEmail(input))
      && (Post in kinds <==> HasChatPost(input)) && (Post in kinds ==> kinds[|kinds| - 1] == Post)
  {
  }

  /** Every step has id `uuid(i + 1)`, the call's status, and an end time
      only on a plain success; the steps follow the requested kinds. */
  lemma ChatStepsUniform(input: string, result: TriggerResponse, addresses: seq<string>, uuid: nat -> string, now: string)
    ensures var steps := ChatSteps(input, result, addresses, uuid, now);
      && KindsOf(steps) == ChatKinds(input)
      && forall i :: 0 <= i < |steps| ==>
            && steps[i].id == uuid(i + 1)
            && steps[i].status == ChatStatus(result)
            && steps[i].startTime == Some(now)
            && steps[i].endTime == (if result.success && !IsProcessing(result) then Some(now) else None)
  {
    var steps := ChatSteps(input, result, addresses, uuid, now);
    var kinds := ChatKinds(input);
    forall i | 0 <= i < |steps| ensures steps[i].kind == kinds[i] {
    }
  }

  /** An e-mail step depends on the meeting when there is one, a post step
      on the step just before it, and nothing else has dependencies. */
  lemma ChatStepsDependencies(input: string, result: TriggerResponse, addresses: seq<string>, uuid: nat -> string, now: string)
    ensures var steps := ChatSteps(input, result, addresses, uuid, now);
      forall i :: 0 <= i < |steps| ==>
        && (steps[i].kind == Email ==> steps[i].dependencies == if HasChatMeeting(input) then [steps[0].id] else [])
        && (steps[i].kind == Post ==> steps[i].dependencies == if i > 0 then [steps[i - 1].id] else [])
        && (steps[i].kind in {Meeting, Task} ==> steps[i].dependencies == [])
  {
    var steps := ChatSteps(input, result, addresses, uuid, now);
    var kinds := ChatKinds(input);
    forall i | 0 <= i < |steps| && steps[i].kind == Email && HasChatMeeting(input)
      ensures steps[i].dependencies == [steps[0].id]
    {
      assert kinds[0] == Meeting;
    }
  }

  /** When no keyword matches, the single step is the task carrying the
      request and, on failure, the call's error. */
  lemma ChatFallbackTask(input: string, result: TriggerResponse, addresses: seq<string>, uuid: nat -> string, now: string)
    requires !HasChatMeeting(input) && !HasChatEmail(input) && !HasChatPost(input)
    ensures var steps := ChatSteps(input, result, addresses, uuid, now);
      && |steps| == 1 && steps[0].kind == Task && steps[0].description == input
      && steps[0].error == (if result.success then None else result.error)
  {
  }

  /** `analyzeUserRequestAndCreateSteps`: push a step per detected keyword
      group, then the fallback task step when none was pushed. */
  method AnalyzeUserRequestAndCreateSteps(input: string, result: TriggerResponse, addresses: seq<string>,
                                          uuid: nat -> string, now: string)
    returns (steps: seq<WorkflowStep>)
    ensures steps == ChatSteps(input, result, addresses, uuid, now)
  {
    ghost var kinds := ChatKinds(input);
    ghost var spec := ChatSteps(input, result, addresses, uuid, now);
    steps := [];
    if HasChatMeeting(input) {
      steps := steps + [MeetingStep(uuid(|steps| + 1), result, now)];
    }
    assert steps == spec[..|steps|];
    if HasChatEmail(input) {
      var dependencies := if |steps| > 0 then [steps[0].id] else [];
      steps := steps + [EmailStep(uuid(|steps| + 1), dependencies, addresses, result, now)];
    }
    assert steps == spec[..|steps|];
    if HasChatPost(input) {
      var dependencies := if |steps| > 0 then [steps[|steps| - 1].id] else [];
      steps := steps + [PostStep(uuid(|steps| + 1), dependencies, result, now)];
    }
    if |steps| == 0 {
      steps := steps + [TaskStep(uuid(|steps| + 1), input, result, now)];
    }
  }

  /** `generateWorkflowTitle` of the chat screen: the first matching group. */
  function ChatWorkflowTitle(input: string): (title: string)
    ensures title == "🗓️ การประชุม" <==> HasChatMeeting(input)
    ensures title in {"🗓️ การประชุม", "📧 ส่ง Email", "💬 โพสข้อความ", "🔔 การแจ้งเตือน", "⚡ Power Automate"}
  {
    if HasChatMeeting(input) then "🗓️ การประชุม"
    else if Contains(input, "email") || Contains(input, "อีเมล") then "📧 ส่ง Email"
    else if Contains(input, "โพส") || Contains(input, "post") then "💬 โพสข้อความ"
    else if Contains(input, "แจ้ง") || Contains(input, "notify") then "🔔 การแจ้งเตือน"
    else "⚡ Power Automate"
  }

  /** The title ladder in full: the first matching topic names the plan, in
      the order meeting, e-mail, post, notification, and a message matching
      none is titled after the automation itself. */
  lemma ChatWorkflowTitleLadder(input: string)
    ensures var title := ChatWorkflowTitle(input);
      var email := Contains(input, "email") || Contains(input, "อีเมล");
      var post := Contains(input, "โพส") || Contains(input, "post");
      var notify := Contains(input, "แจ้ง") || Contains(input, "notify");
      && (title == "📧 ส่ง Email" <==> !HasChatMeeting(input) && email)
      && (title == "💬 โพสข้อความ" <==> !HasChatMeeting(input) && !email && post)
      && (title == "🔔 การแจ้งเตือน" <==> !HasChatMeeting(input) && !email && !post && notify)
      && (title == "⚡ Power Automate" <==> !HasChatMeeting(input) && !email && !post && !notify)
  {
  }

  /** The title names a meeting exactly when the plan starts with a meeting
      step, and a post title without a post step cannot happen. */
  lemma ChatTitleFollowsSteps(input: string, result: TriggerResponse, addresses: seq<string>, uuid: nat -> string, now: string)
    ensures var steps := ChatSteps(input, result, addresses, uuid, now);
      && (ChatWorkflowTitle(input) == "🗓️ การประชุม" <==> steps[0].kind == Meeting)
      && (ChatWorkflowTitle(input) == "💬 โพสข้อความ" ==> Post in KindsOf(steps))
  {
    ChatStepsUniform(input, result, addresses, uuid, now);
    ChatKindsShape(input);
    var steps := ChatSteps(input, result, addresses, uuid, now);
    if ChatWorkflowTitle(input) == "💬 โพสข้อความ" {
      assert HasChatPost(input);
      assert KindsOf(steps)[|steps| - 1] == Post;
    }
  }

  /** The plan status from the call's outcome. */
  function ChatPlanStatus(result: TriggerResponse): (s: PlanStatus)
    ensures s == PlanCompleted <==> ChatStatus(result) == Completed
    ensures s == Executing <==> ChatStatus(result) == InProgress
    ensures s == PlanFailed <==> ChatStatus(result) == Failed
  {
    if IsProcessing(result) then Executing else if !result.success then PlanFailed else PlanCompleted
  }

  lemma {:induction false} CountUniform(steps: seq<WorkflowStep>, s: StepStatus)
    requires forall i :: 0 <= i < |steps| ==> steps[i].status == s
    ensures CountCompleted(steps) == if s == Completed then |steps| else 0
  {
    if |steps| > 0 {
      CountUniform(steps[..|steps| - 1], s);
    }
  }

  /** The plan's progress is all or nothing: every step completed and 100%
      when the plan is completed, no step and 0% otherwise. */
  lemma ChatProgress(input: string, result: TriggerResponse, addresses: seq<string>, uuid: nat -> string, now: string)
    ensures var steps := ChatSteps(input, result, addresses, uuid, now);
      && |steps| > 0
      && CountCompleted(steps) == (if ChatPlanStatus(result) == PlanCompleted then |steps| else 0)
      && Percent(CountCompleted(steps), |steps|) == (if ChatPlanStatus(result) == PlanCompleted then 100 else 0)
  {
    ChatStepsUniform(input, result, addresses, uuid, now);
    ChatKindsShape(input);
    var steps := ChatSteps(input, result, addresses, uuid, now);
    CountUniform(steps, ChatStatus(result));
    PercentRange(CountCompleted(steps), |steps|);
  }

  /** `createWorkflowFromPowerAutomate`. */
  method CreateWorkflowFromPowerAutomate(input: string, result: TriggerResponse, addresses: seq<string>,
                                         uuid: nat -> string, now: string)
    returns (plan: WorkflowPlan)
    ensures fresh(plan) && fresh(plan.steps) && fresh(plan.progress)
    ensures plan.id == uuid(0) && plan.title == ChatWorkflowTitle(input) && plan.description == input
    ensures plan.steps[..] == ChatSteps(input, result, addresses, uuid, now)
    ensures plan.totalEstimatedDuration == 2 * plan.steps.Length
    ensures plan.status == ChatPlanStatus(result)
    ensures plan.createdAt == Some(now) && plan.startedAt == Some(now)
    ensures plan.completedAt == if plan.status == PlanCompleted then Some(now) else None
    ensures plan.steps.Length > 0
    ensures plan.progress.completed == CountCompleted(plan.steps[..]) && plan.progress.total == plan.steps.Length
    ensures plan.progress.percentage == Percent(CountCompleted(plan.steps[..]), plan.steps.Length)
  {
    var workflowId := uuid(0);
    var steps := AnalyzeUserRequestAndCreateSteps(input, result, addresses, uuid, now);
    ChatKindsShape(input);
    var completedSteps := CountCompleted(steps);
    var workflowStatus := PlanCompleted;
    if IsProcessing(result) {
      workflowStatus := Executing;
    } else if !result.success {
      workflowStatus := PlanFailed;
    }
    var arr := new WorkflowStep[|steps|](i requires 0 <= i < |steps| => steps[i]);
    assert arr[..] == steps;
    var progress := new Progress(completedSteps, |steps|, Percent(completedSteps, |steps|));
    plan := new WorkflowPlan(workflowId, ChatWorkflowTitle(input), input, arr, |steps| * 2, workflowStatus,
      Some(now), Some(now), if workflowStatus == PlanCompleted then Some(now) else None, progress);
  }
}

# Workflow engine of the role chat, in Dafny

This project models the workflow engine behind the role chat application and
proves properties of the model. The engine is made of these parts:

- **Planner** (`lib/workflow-planner.ts`): turns a request into steps linked by dependencies, using keywords.
- **Executor**: runs the steps in dependency order. A failed high-priority step aborts the run.
- **Status reconciler** (`lib/workflow-tracker.ts`): folds status updates into a plan.
- **Automation client** (`lib/power-automate.ts`): error classification, retry loop, task summary, trigger keywords and health verdict.
- **In-memory store** (`lib/memory-storage.ts`): conversations and messages.
- **Chat screen plan builder** (`role-chat-interface.tsx`).
- **Layout** of the workflow view (`components/workflow-visualizer.tsx`).
- **Chat server actions** (`app/actions/chat.ts`): fallback reply, result fields, connection test.

Clock readings, generated ids, the network, the step runner and the task
describer are parameters. They are functions of an index or of the request.
Everything else follows the source's branches; the places where a
contract is weaker than the source, or where the model corrects the
source, are listed under "## Left out" and "## Findings".

Modules, one concept each:

- `wrappers.dfy` (module Wrappers): `Option`
- `text.dfy` (module Text): `includes`, `toLowerCase`, `trim`, `substring`, `repeat`, and the rendering of numbers
- `json.dfy` (module JsonValue): untyped JavaScript values, truthiness, `?.`, `||` and template rendering
- `workflow.dfy` (module Workflow): the step and plan types (a plan is a class whose `steps` array and `progress` object are shared), the rounded percentage, lookup by id, and acyclicity
- `analyzer.dfy` (module Analyzer): `analyzeUserRequest` and its extractors
- `planner.dfy` (module Planner): `planWorkflow`
- `execution_order.dfy` (module ExecutionOrder): `getExecutionOrder`
- `executor.dfy` (module Executor): `executeWorkflow` over arrays, as a loop proved against a step-by-step specification
- `display.dfy` (module Display): the progress bar of `formatWorkflowDisplay`
- `tracker.dfy` (module Tracker): `updateWorkflowWithTracking`, `validateWorkflow` and `parsePowerAutomateWebhook`
- `automation.dfy` (module Automation): `parseLogicAppsError`, `Number.parseInt`, truncation, `parseTaskResults`, `shouldTriggerPowerAutomate` and the health verdict
- `trigger.dfy` (module Trigger): `triggerPowerAutomate`: a loop of attempts proved equal to a recursive specification
- `memory_storage.dfy` (module MemoryStorage): the store, as a class with `conversations` and `messages` sequences
- `role_chat.dfy` (module RoleChat): `createWorkflowFromPowerAutomate`, `analyzeUserRequestAndCreateSteps` and `generateWorkflowTitle`
- `visualizer.dfy` (module Visualizer): `calculateLayout` and `getLevel`
- `chat_actions.dfy` (module ChatActions): `generateFallbackResponse`, the workflow fields of `sendMessage`'s result, and `testPowerAutomateConnectionAction`

## Model

| member | source | states |
|---|---|---|
| Text.Lower | lib/power-automate.ts:488 | `toLowerCase` keeps the length and lowers each ASCII capital in place |
| Text.Take | lib/memory-storage.ts:58 | `substring(0, n)` is a prefix of the text, of length `min(n, length)` |
| Text.Repeat | lib/workflow-planner.ts:360-361 | `repeat` gives `n` copies of the character |
| Text.NatText | role-chat-interface.tsx:107 | a count renders as a non-empty string of decimal digits |
| JsonValue.Get | lib/workflow-tracker.ts:213-225 | `v?.key` is the field of an object and `undefined` for every other value |
| JsonValue.Or | lib/workflow-tracker.ts:218-225 | `a \|\| b` is `a` when `a` is truthy and `b` otherwise |
| Workflow.Progress.constructor | lib/workflow-planner.ts:29-33 | the progress object holds the given counts |
| Workflow.WorkflowPlan.constructor | lib/workflow-planner.ts:19-34 | the plan object holds the given fields |
| Workflow.WorkflowPlan.ShallowCopy | lib/workflow-planner.ts:229 | `{ ...workflow }` is a new object that shares the steps array and the progress object with its source |
| Workflow.PercentRounds | lib/workflow-planner.ts:252-254 | `Math.round(100 * completed / total)` is the integer r with `r - 1/2 <= 100 * completed / total < r + 1/2` |
| Workflow.PercentRange | lib/workflow-tracker.ts:200 | a share of a total is between 0 and 100; all of it is 100 and none of it is 0 |
| Workflow.Percent | lib/workflow-planner.ts:252-254 | the share `completed / total` as a whole percentage rounded half up, computed exactly; `PercentRounds` and `PercentRange` state its properties |
| Workflow.FirstIndex | lib/workflow-planner.ts:237 | `steps.find` by id, when it finds something, finds a step with that id |
| Workflow.FirstIndexFirst | lib/workflow-planner.ts:237 | `steps.find` gives the first step with the id, and finds nothing exactly when no step has it |
| Workflow.Ids | lib/workflow-planner.ts:112 | `steps.map((s) => s.id)` lists the ids position by position |
| Workflow.FirstIndexSameIds | lib/workflow-tracker.ts:146 | lookups by id depend only on the list of ids |
| Workflow.BackwardIsAcyclic | lib/workflow-planner.ts:67-121 | steps that depend only on earlier steps have no dependency cycle |
| Workflow.CountCompleted | lib/workflow-tracker.ts:194 | the number of completed steps is at most the number of steps |
| Display.ProgressBar | lib/workflow-planner.ts:359-361 | the bar has 10 cells: `floor(pct/10)` filled ones first, then empty ones; `repeat` rejects a negative count, so the bar is undefined below 0 and from 110 upwards |
| Display.ProgressBarOfPercentage | lib/workflow-planner.ts:359-361 | every percentage from 0 to 100 renders; 0 is all empty and 100 is all filled |
| Analyzer.SkipSpaces | lib/workflow-planner.ts:150 | `\s*` takes every white space character up to the first other one |
| Analyzer.DigitRun | lib/workflow-planner.ts:150 | `\d{1,2}` takes one or two digits, all of them digits, inside the text |
| Analyzer.FirstHourMatch | lib/workflow-planner.ts:150 | the leftmost position where the hour pattern matches, or none when it matches nowhere |
| Analyzer.MeetingTime | lib/workflow-planner.ts:150-151 | the meeting time is the digits of the leftmost hour match plus ":00", and "09:00" when there is no match |
| Analyzer.MeetingTitle | lib/workflow-planner.ts:186-191 | the title ladder in both directions: ประชุมทีม, then ประชุมงาน, then Team Meeting, then การประชุม |
| Analyzer.MainTopic | lib/workflow-planner.ts:193-198 | the topic ladder in both directions: การประชุม, then โครงการ, then งาน, then หัวข้อทั่วไป |
| Analyzer.Framed | lib/workflow-planner.ts:200-214 | the e-mail body and the post text are a fixed head, the request and a fixed tail: the text starts with the head, ends with the tail and quotes the request right after the head |
| Analyzer.EmailBody | lib/workflow-planner.ts:200-208 | the e-mail body quotes the request |
| Analyzer.PostMessage | lib/workflow-planner.ts:210-214 | the post text quotes the request |
| Analyzer.AnalyzeUserRequest | lib/workflow-planner.ts:145-184 | the three flags are the keyword tests on the lowered request; the meeting time and title come from the extractors; attendees and recipients are the extracted addresses; the post time is 13:00 exactly when an afternoon marker occurs |
| Analyzer.WorkflowTitle | lib/workflow-planner.ts:216-223 | "Workflow: " followed by one part per detected kind, joined by " + "; only "Workflow: " when nothing is detected |
| Analyzer.TitleParts | lib/workflow-planner.ts:217-220 | the parts are exactly the labels of the set flags ("การประชุม" for a meeting, "Email", "Team Post"), in that order, none twice |
| Analyzer.JoinPlusSnoc | lib/workflow-planner.ts:222 | `join(" + ")` of no parts is empty, of one part is that part, and one more part adds " + " and the part |
| Analyzer.JoinPlusLength | lib/workflow-planner.ts:222 | the joined text is as long as all parts together plus three characters per separator |
| Analyzer.WorkflowTitleTable | lib/workflow-planner.ts:216-223 | the title for each of the eight combinations of detected intents, spelled out |
| Planner.FindKind | lib/workflow-planner.ts:67 | `steps.find` by kind gives the first step of that kind, or none |
| Planner.DependencyOn | lib/workflow-planner.ts:67-73 | `id ? [id] : []`: the id of the first step of that kind when there is one and it is non-empty |
| Planner.KindsOf | lib/workflow-planner.ts:47-121 | the kinds of the steps, position by position |
| Planner.AppendStep | lib/workflow-planner.ts:48-120 | a push that follows the step rules keeps every step rule true |
| Planner.PlanSteps | lib/workflow-planner.ts:44-121 | the pushes build steps that satisfy every step rule and depend only on earlier steps |
| Planner.PlannedBackward | lib/workflow-planner.ts:67-121 | every dependency the planner writes names an earlier step |
| Planner.PlannedEmailDependency | lib/workflow-planner.ts:67-73 | the e-mail step depends on the meeting step when there is one, and on nothing otherwise |
| Planner.PlannedPostDependency | lib/workflow-planner.ts:87-93 | the post step depends on the e-mail step only, and on nothing when there is no e-mail step, even if a meeting exists |
| Planner.PlannedReminder | lib/workflow-planner.ts:106-121 | a reminder exists exactly when a meeting or an e-mail was detected; it is last, depends on every earlier step in order, and has low priority |
| Planner.PlannedAcyclic | lib/workflow-planner.ts:44-121 | the planned steps have no dependency cycle |
| Planner.PlannedDuration | lib/workflow-planner.ts:123 | the total duration is 2 for a meeting plus 1 for each other step |
| Planner.DurationOfPrefix | lib/workflow-planner.ts:123 | the running sum of durations over the first n steps |
| Planner.PlanWorkflow | lib/workflow-planner.ts:37-142 | a new plan in status `planning`, with the planned steps, the analysed title and the request as description; the total duration is the sum of the step durations, no start or end time is set, progress is `{0, steps.length, 0}`, and the steps are acyclic |
| Planner.BuildPlan | lib/workflow-planner.ts:123-141 | for a given analysis, the plan object holds the planned steps, which are acyclic, the analysed title, the request, the summed duration, status `planning`, no start or end time, and progress `{0, steps.length, 0}` |
| ExecutionOrder.Visit | lib/workflow-planner.ts:293-306 | one visit leaves exactly the order of the depth-first specification; it keeps the visited set equal to the ids in the order with no repeats, only extends the order, adds a known id, and ignores an unknown one |
| ExecutionOrder.AppendVisited | lib/workflow-planner.ts:299-305 | marking a step visited and pushing its id, once its known dependencies are visited, keeps the ids unique and every dependency ahead of its dependent |
| ExecutionOrder.GetExecutionOrder | lib/workflow-planner.ts:289-314 | on acyclic steps the order is exactly the depth-first order (each listed step's unvisited dependencies in list order, then the step); it holds every step id exactly once and nothing else, and every dependency that names a step comes before its dependent |
| ExecutionOrder.VisitSpecAnyRank | lib/workflow-planner.ts:293-306 | the depth-first visit does not depend on the rank that witnesses acyclicity, so the order is determined by the steps alone |
| ExecutionOrder.DfsOrderAnyRank | lib/workflow-planner.ts:289-314 | the outer loop over the steps from any witnessing rank computes the one depth-first order |
| ExecutionOrder.BackwardRunsInListOrder | lib/workflow-planner.ts:289-314 | steps with distinct ids whose dependencies name only earlier steps, as the planner builds them, are ordered exactly as listed |
| Executor.Attempt | lib/workflow-planner.ts:236-272 | one iteration keeps the number of steps |
| Executor.AttemptSpec | lib/workflow-planner.ts:236-272 | one iteration: an unknown id changes nothing; otherwise only the target step changes. It gets its start and end time. It is `completed` exactly when the runner returned, `failed` exactly when the runner threw on a high-priority step, and `skipped` exactly when the runner threw on another step. The counter and percentage advance only on success. An abort happens exactly on a high-priority failure |
| Executor.AttemptKeepsIds | lib/workflow-planner.ts:237-267 | one iteration rewrites a step's status and times but never its id |
| Executor.AttemptFrame | lib/workflow-planner.ts:237-267 | one iteration leaves every step other than the first one with the handled id exactly as it was |
| Executor.AttemptSettles | lib/workflow-planner.ts:245-267 | an iteration that does not abort leaves its step `completed` or `skipped` |
| Executor.AttemptPercentage | lib/workflow-planner.ts:251-254 | one iteration leaves the percentage alone or sets it to the rounded share of the new counter |
| Executor.Run | lib/workflow-planner.ts:236-276 | the loop keeps the number of steps, and an abort present at the start is never undone |
| Executor.RunKeepsIds | lib/workflow-planner.ts:236-276 | the loop keeps the ids of the steps, in order |
| Executor.AbortStops | lib/workflow-planner.ts:265-267 | after a high-priority failure nothing changes any more (`break`) |
| Executor.UntargetedUntouched | lib/workflow-planner.ts:236-238 | a step that no handled id names is left exactly as it was |
| Executor.HandledSettle | lib/workflow-planner.ts:245-271 | without an abort, every handled step ends `completed` or `skipped` |
| Executor.CountCompletedUpdate | lib/workflow-planner.ts:251 | replacing one step changes the completed count by that step's change |
| Executor.CounterCountsCompleted | lib/workflow-planner.ts:251 | the progress counter equals the number of completed steps throughout the run |
| Executor.PercentageInRange | lib/workflow-planner.ts:252-254 | with one progress slot per step, the percentage stays between 0 and 100 |
| Executor.RunOne | lib/workflow-planner.ts:237-272 | the loop body on the shared steps array and progress object does exactly what `Attempt` specifies |
| Executor.RunLoop | lib/workflow-planner.ts:236-276 | the loop on the shared array and progress object does exactly what `Run` specifies |
| Executor.ExecuteWorkflow | lib/workflow-planner.ts:226-286 | the result is a shallow copy that shares and mutates the input's steps and progress. It runs the ids of the depth-first order `getExecutionOrder` computes over them. The status is `failed` exactly when an abort happened and `completed` otherwise. Start and completion times are always set |
| Tracker.ApplyToStep | lib/workflow-tracker.ts:148-165 | a step update keeps the step's id, kind, dependencies, priority and parameters; any status other than the three step statuses leaves the step as it was |
| Tracker.ApplyUpdate | lib/workflow-tracker.ts:142-168 | one update keeps the ids; a missing update, a plan-level update, or a step id that names no step changes no step |
| Tracker.StepsAfter | lib/workflow-tracker.ts:137-189 | folding the updates keeps the ids of the steps |
| Tracker.ApplyIsOverwrite | lib/workflow-tracker.ts:150-165 | each status case writes fixed fields with the update's values |
| Tracker.OverwriteThen | lib/workflow-tracker.ts:150-165 | two writes in a row are one combined write in which the later one wins |
| Tracker.ThenSame | lib/workflow-tracker.ts:150-165 | a write repeated is the same write |
| Tracker.PatchForSameIds | lib/workflow-tracker.ts:146 | which updates reach a step depends only on the ids |
| Tracker.StepsAfterPointwise | lib/workflow-tracker.ts:142-168 | each step ends as itself overwritten by the combined writes of the updates that name it |
| Tracker.ApplyToPlan | lib/workflow-tracker.ts:169-184 | step updates, missing updates and unknown statuses leave the plan fields alone; the only statuses a plan-level update sets are executing, completed and failed |
| Tracker.PlanAfterTwice | lib/workflow-tracker.ts:169-184 | a second pass of the same updates leaves the plan fields as the first pass did |
| Tracker.PlanThenSame | lib/workflow-tracker.ts:171-183 | a plan-level write repeated is the same write |
| Tracker.PlanOverwriteThen | lib/workflow-tracker.ts:171-183 | two plan-level writes are one combined write |
| Tracker.PlanAfterIsPatch | lib/workflow-tracker.ts:169-184 | the plan fields after the updates are the original overwritten by their combined write |
| Tracker.ProgressOf | lib/workflow-tracker.ts:191-201 | the completed count is the number of completed steps; the total is the step count, or 1 with no steps; the percentage is between 0 and 100, is 100 when every step is completed, and is 0 when none is |
| Tracker.ReconcileTwice | lib/workflow-tracker.ts:150-200 | applying the same update list twice gives the same steps, plan fields and progress as applying it once |
| Tracker.UnknownStepIdsChangeNothing | lib/workflow-tracker.ts:144-147 | updates whose step ids name no step change no step |
| Tracker.UpdatesStayInTheirLane | lib/workflow-tracker.ts:144-185 | plan-level updates never touch a step, and step updates never touch the plan fields |
| Tracker.UpdateWorkflowWithTracking | lib/workflow-tracker.ts:109-208 | a missing plan gives the fixed placeholder, and a missing update list gives back the same plan object. Otherwise the result is a new plan with a new steps array: identity fields are copied, the steps and plan fields are the fold of the updates, and progress is recomputed from the new steps. The input's steps are not modified |
| Tracker.UpdateStep | lib/workflow-tracker.ts:144-168 | a step update replaces, in place, the first step with its `stepId` by the copy its status writes, and leaves the array alone when no step has that id |
| Tracker.UpdatePlan | lib/workflow-tracker.ts:169-185 | a plan-level update overwrites the plan's status and one timestamp as its status says, and no other field |
| Tracker.PlanObject | lib/workflow-tracker.ts:217-228 | the object literal holds each given field |
| Tracker.ValidateWorkflow | lib/workflow-tracker.ts:211-233 | null exactly for an input that is neither an object nor an array. Otherwise an object: id and status are kept when truthy and defaulted otherwise, steps are kept when an array and `[]` otherwise, and title and progress are always truthy |
| Tracker.ValidateDefaults | lib/workflow-tracker.ts:217-228 | a falsy title, description, priority, estimated duration or progress becomes "Untitled Workflow", "", "medium", 0 or zero progress, a truthy one is kept, and `startedAt` and `completedAt` are copied as they are |
| Tracker.ValidateIdempotent | lib/workflow-tracker.ts:211-228 | validating a validated workflow changes nothing |
| Tracker.UpdateObject | lib/workflow-tracker.ts:91-99 | the object literal holds each given field |
| Tracker.ParseWebhook | lib/workflow-tracker.ts:87-106 | an update exactly when both `status` and `workflowId` are truthy; it copies status, workflowId and stepId, and the timestamp defaults to the clock |
| Tracker.ParseWebhookFixpoint | lib/workflow-tracker.ts:87-101 | a parsed payload parses to itself, whenever it is parsed again |
| Automation.Includes | lib/power-automate.ts:217 | `code.includes` is a substring test on a string, an element test on an array, and a TypeError on anything else |
| Automation.ParseLogicAppsError | lib/power-automate.ts:172-227 | a missing error gives the temporary "Unknown Logic Apps error"; the tracking id defaults to "Unknown"; a code that is neither a string nor an array throws a TypeError |
| Automation.ClassifyStringCode | lib/power-automate.ts:180-221 | for a string code: temporary exactly for WorkflowRunInProgress and for codes other than NoResponse, TriggerNotFound and Forbidden that contain "Timeout" or "NoResponse"; processing exactly for NoResponse |
| Automation.DigitsFrom | lib/power-automate.ts:353 | the digit run that `parseInt` reads is maximal |
| Automation.SkipWhiteSpace | lib/power-automate.ts:353 | `parseInt` skips every leading white-space character and stops at the first other one |
| Automation.DigitsValueOfNatText | lib/power-automate.ts:353 | the digits of a rendered number read back as that number |
| Automation.DigitsFromAll | lib/power-automate.ts:353 | an all-digit tail is read entirely |
| Automation.ParseIntNatText | lib/power-automate.ts:353 | `Number.parseInt` of a rendered natural number gives that number back |
| Automation.ParseInt | lib/power-automate.ts:353 | `Number.parseInt` with no radix; a number comes out only when the text holds a digit |
| Automation.MinNum | lib/power-automate.ts:357 | `Math.min` is NaN when either side is, and otherwise the smaller side |
| Automation.Truncate | lib/power-automate.ts:241 | up to 1500 characters are sent unchanged; a longer text is sent as its first 1500 characters plus "...", 1503 in all |
| Automation.SuccessCount | lib/power-automate.ts:163 | the success count is at most the task count, and equal to it exactly when every task succeeded |
| Automation.TaskSummary | lib/power-automate.ts:59-169 | no tasks give the fixed text; a null task throws; otherwise the text starts with the header and ends with the `successCount/total` footer |
| Automation.ParseTaskResults | lib/power-automate.ts:59-169 | the `+=` loop builds exactly `TaskSummary` |
| Automation.TaskSummaryOfNonNull | lib/power-automate.ts:66-168 | without a null task the summary is the header, one entry per task, then the footer |
| Automation.ShouldTriggerCoversMeetingAndEmail | lib/power-automate.ts:487-509 | each meeting, appointment, e-mail, send and notify keyword in the lowered message triggers a workflow |
| Automation.ShouldTrigger | lib/power-automate.ts:487-509 | a message triggers the automation exactly when one of the sixteen trigger words occurs in it after lower-casing |
| Automation.HealthVerdict | lib/power-automate.ts:518-555 | healthy exactly below status 500; temporary exactly when unhealthy; a status reply carries its status and no error; a thrown request carries an error and no status |
| Trigger.MaxRetries | lib/power-automate.ts:248 | a test connection tries once and a real trigger twice, the default |
| Trigger.OkResponse | lib/power-automate.ts:287-336 | any 2xx reply is a success with its status and no error. The tasks are absent only when the body cannot be read. An array body fills the tasks. A blank or unparsable body gives no tasks and the generic summary |
| Trigger.Caught | lib/power-automate.ts:458-473 | a network error is remembered and waits only before a further attempt |
| Trigger.OkResponseTasksMember | lib/power-automate.ts:296-310 | a 2xx body that parses to an object takes its `tasks` member when that is an array, and otherwise reports no tasks and the generic summary |
| Trigger.RateLimitRules | lib/power-automate.ts:351-366 | a 429 reads `Retry-After`, "60" when missing or empty, with `parseInt`; with attempts left it sleeps `min(retryAfter * 1000, 10000)` ms, otherwise it ends rate limited and temporary, reporting the parsed value |
| Trigger.RateLimitDefaultWait | lib/power-automate.ts:351-366 | without a `Retry-After` header the sleep is the ten-second cap, and the last attempt reports 60 |
| Trigger.RetryWaits | lib/power-automate.ts:399-473 | every sleep other than a 429's lasts `RetryDelay * attempt` ms |
| Trigger.AttemptFacts | lib/power-automate.ts:251-473 | one attempt. A 2xx reply ends in success, and success means a 2xx reply or a 502. A reply leads to another round only on 429, on 5xx, or when classifying its error throws a TypeError. It waits only when an attempt remains, and a numeric wait is at most 10 s. The last attempt falls through only after a network error or a TypeError. The exact 429 and back-off waits are stated by `RateLimitRules` and `RetryWaits` |
| Trigger.Attempt | lib/power-automate.ts:252-473 | one pass of the retry loop, ending the call or going on with a sleep and the remembered error, status and tracking id; `AttemptFacts`, `RateLimitRules` and `RetryWaits` state its properties |
| Trigger.Exhausted | lib/power-automate.ts:476-483 | when the attempts run out, the result is a temporary failure with an error and the last tracking id |
| Trigger.From | lib/power-automate.ts:251-483 | the retry loop from a given attempt on, with the exhausted response when no attempt is left; `FromStep` and `FromBounds` state its properties |
| Trigger.TriggerSpec | lib/power-automate.ts:229-483 | the whole call: a blank description is refused, otherwise the truncated one goes through the loop from the first attempt; `TriggerBounds` states its properties |
| Trigger.HandleOk | lib/power-automate.ts:287-336 | the 2xx handler computes `OkResponse` |
| Trigger.AttemptOnce | lib/power-automate.ts:252-473 | the loop body computes `Attempt` |
| Trigger.TriggerPowerAutomate | lib/power-automate.ts:229-240 | the validation and truncation, followed by the retry loop, compute exactly the recursive specification |
| Trigger.RetryLoop | lib/power-automate.ts:242-483 | the attempt loop, with its `continue`s and early returns and the final exhausted response, computes exactly the recursive specification from the first attempt |
| Trigger.BlankDescriptionSendsNothing | lib/power-automate.ts:232-238 | a blank description fails, not temporary, with "Description is required", before any attempt |
| Trigger.FromBounds | lib/power-automate.ts:251-483 | from any attempt on, the count of attempts and waits is bounded, every wait is at most 10 s, and success means 2xx or 502 |
| Trigger.TriggerBounds | lib/power-automate.ts:248-483 | between 1 and `maxRetries` attempts, one wait fewer than attempts, each wait at most 10 s, and success only on 2xx or 502 |
| Trigger.FirstReplyOk | lib/power-automate.ts:287-336 | a 2xx first reply succeeds after one attempt with no wait |
| Trigger.ClientErrorNotRetried | lib/power-automate.ts:439-457 | any first reply below 500 other than a 2xx and 429 fails at once, not temporary, with no retry, unless its error code makes the classifier throw |
| Trigger.NoResponseInfo | lib/power-automate.ts:183-188 | the NoResponse code is processing and not temporary |
| Trigger.NoResponseOutside502Fails | lib/power-automate.ts:412-438 | NoResponse on a 5xx other than 502 is a failure: the success special case belongs to the 502 branch only |
| Trigger.NoResponse502Succeeds | lib/power-automate.ts:368-397 | a 502 with code NoResponse is a success, processing and not temporary, after one attempt |
| Trigger.AlwaysRateLimited | lib/power-automate.ts:248-366 | a real trigger answered 429 without `Retry-After` every time makes two attempts, sleeps ten seconds once, and reports the rate limit with 60 |
| Trigger.FromAllNetworkErrors | lib/power-automate.ts:458-483 | network errors on every remaining attempt use them all and end exhausted with the last error |
| Trigger.AllNetworkErrors | lib/power-automate.ts:458-483 | network errors throughout give a temporary failure with the last error message, and no status, after `maxRetries` attempts |
| Trigger.TestConnection | lib/power-automate.ts:512-516 | the connection test makes exactly one attempt |
| MemoryStorage.Filter | lib/memory-storage.ts:43-44 | `filter` keeps exactly the elements that pass, in order, and invents none |
| MemoryStorage.FilterCount | lib/memory-storage.ts:43-44 | `filter` keeps every copy of a passing element and none of a failing one |
| MemoryStorage.FilterAll | lib/memory-storage.ts:43-44 | filtering with a test every element passes changes nothing |
| MemoryStorage.FilterAppend | lib/memory-storage.ts:43-44 | filtering distributes over concatenation |
| MemoryStorage.Insert | lib/memory-storage.ts:25 | an insertion adds exactly one element |
| MemoryStorage.InsertSorted | lib/memory-storage.ts:25 | insertion into a sorted list keeps it sorted |
| MemoryStorage.SortByCorrect | lib/memory-storage.ts:25 | the sort yields a sorted permutation of its input |
| MemoryStorage.SortByMembers | lib/memory-storage.ts:25 | the sort keeps exactly the same elements |
| MemoryStorage.InsertStable | lib/memory-storage.ts:25 | one insertion step puts the new element after every element of its own key |
| MemoryStorage.SortByStable | lib/memory-storage.ts:25 | the sort is stable: for every key, the elements of that key come out in their input order |
| MemoryStorage.SortBySortedIsIdentity | lib/memory-storage.ts:68 | a list already in order by the key is left exactly as it is |
| MemoryStorage.Merge | lib/memory-storage.ts:34-38 | `{ ...old, ...updates, updatedAt }`: each field given in the patch wins, and `updatedAt` is always overwritten |
| MemoryStorage.IndexOf | lib/memory-storage.ts:32 | `findIndex` gives the first match, or none |
| MemoryStorage.Updated | lib/memory-storage.ts:28-40 | an unknown id changes nothing; otherwise only the first matching entry is merged and every other entry is unchanged |
| MemoryStorage.UpdatedTwice | lib/memory-storage.ts:28-40 | repeating an update that does not rename the conversation changes nothing more |
| MemoryStorage.MemoryStore.constructor | lib/memory-storage.ts:6-7 | the store starts with no conversations and no messages |
| MemoryStorage.MemoryStore.CreateConversation | lib/memory-storage.ts:9-20 | the new conversation goes in front, the others keep their order, and messages are unchanged |
| MemoryStorage.MemoryStore.GetConversations | lib/memory-storage.ts:22-26 | exactly the user's conversations, each as often as stored, newest update first |
| MemoryStorage.MemoryStore.UpdateConversation | lib/memory-storage.ts:28-40 | the conversations become `Updated`, and messages are unchanged |
| MemoryStorage.MemoryStore.DeleteConversation | lib/memory-storage.ts:42-45 | the conversation and all of its messages are removed, everything else stays in order, and nothing with that id remains |
| MemoryStorage.MemoryStore.SaveMessage | lib/memory-storage.ts:47-63 | exactly one message is appended, and the owning conversation's last message becomes the first 100 characters of the content |
| MemoryStorage.MemoryStore.GetMessages | lib/memory-storage.ts:65-69 | exactly the conversation's messages, each as often as stored, oldest first |
| MemoryStorage.LastMessagePatch | lib/memory-storage.ts:57-60 | the patch sets only the last message, to at most 100 characters of the content |
| MemoryStorage.SavedMessageIsListed | lib/memory-storage.ts:54-67 | a saved message is listed last among its conversation's messages in storage order |
| RoleChat.ChatStatus | role-chat-interface.tsx:90-94 | a step is `in_progress` exactly when the call is processing, `completed` exactly on a plain success, and `failed` otherwise |
| RoleChat.ChatSteps | role-chat-interface.tsx:76-166 | one step per requested kind |
| RoleChat.ChatKindsShape | role-chat-interface.tsx:80-163 | one to three kinds, in the order meeting, e-mail, post; the lone task appears exactly when no keyword group matched |
| RoleChat.ChatStepsUniform | role-chat-interface.tsx:81-162 | every step has a fresh id, the call's status and start time, and an end time only on a plain success |
| RoleChat.ChatStepsDependencies | role-chat-interface.tsx:108-129 | the e-mail step depends on the first step when there is a meeting, the post step on the step just before it, and nothing else has dependencies |
| RoleChat.ChatFallbackTask | role-chat-interface.tsx:143-163 | with no keyword, the single step is the task that carries the request and, on failure, the call's error |
| RoleChat.AnalyzeUserRequestAndCreateSteps | role-chat-interface.tsx:76-166 | the pushes build exactly `ChatSteps` |
| RoleChat.ChatWorkflowTitle | role-chat-interface.tsx:181-187 | one of the five titles of the ladder; the meeting title exactly when a meeting keyword occurs |
| RoleChat.ChatWorkflowTitleLadder | role-chat-interface.tsx:181-187 | each of the other four titles exactly when its test is the first of the ladder to pass: e-mail, then post, then notification, and "⚡ Power Automate" when none does |
| RoleChat.ChatTitleFollowsSteps | role-chat-interface.tsx:80-184 | the title names a meeting exactly when the plan starts with a meeting step, and a post title comes with a post step |
| RoleChat.ChatPlanStatus | role-chat-interface.tsx:50-55 | the plan is executing, completed or failed exactly as its steps are in progress, completed or failed |
| RoleChat.CountUniform | role-chat-interface.tsx:46 | steps that share one status are all completed or none is |
| RoleChat.ChatProgress | role-chat-interface.tsx:46-71 | the plan is never empty; progress is all steps and 100% for a completed plan, and 0 and 0% otherwise |
| RoleChat.CreateWorkflowFromPowerAutomate | role-chat-interface.tsx:40-73 | a new plan with the built steps and the title ladder. The duration is twice the step count. Status follows the call. It is started now, and completed now only when its status is completed. Progress is the completed count over a non-zero total |
| Visualizer.DepLevel | components/workflow-visualizer.tsx:173-179 | the running maximum starts at -1 |
| Visualizer.DepLevelBounds | components/workflow-visualizer.tsx:173-180 | the running maximum bounds every resolvable dependency's level and is reached by one of them; it stays -1 exactly when none resolves |
| Visualizer.LevelEquation | components/workflow-visualizer.tsx:170-181 | a level is 0 exactly when no dependency resolves; otherwise it is one more than the highest level among them, so strictly above each of them |
| Visualizer.GetLevel | components/workflow-visualizer.tsx:170-181 | the recursive `getLevel` with its `maxLevel` loop computes `Level` |
| Visualizer.AtLevelBeyond | components/workflow-visualizer.tsx:184-190 | no step sits beyond the highest level reached |
| Visualizer.AtLevelMembers | components/workflow-visualizer.tsx:184-190 | every step with an id is in the group of its own level and in no other; a step without an id is in none |
| Visualizer.DependencyDrawnEarlier | components/workflow-visualizer.tsx:173-190 | a step is drawn in a later level than each step it depends on |
| Visualizer.CalculateLayout | components/workflow-visualizer.tsx:161-193 | empty input gives no levels; otherwise one group per level up to the highest, each holding exactly the steps with an id at that level in input order |
| ChatActions.Phrases | app/actions/chat.ts:46-79 | each language has one acknowledgement and four topic sentences |
| ChatActions.Fallback | app/actions/chat.ts:43-83 | the reply starts with the acknowledgement in the message's language |
| ChatActions.GenerateFallbackResponse | app/actions/chat.ts:43-83 | the `+=` branches compute exactly `Fallback`: the acknowledgement, then one sentence per mentioned topic in the order meeting, e-mail, team post, scheduling; Thai messages are matched as written, others after lower-casing |
| ChatActions.ThaiReply | app/actions/chat.ts:48-63 | for a Thai message, the four `includes` tests on the message as written append exactly the sentences of the mentioned topics, in topic order |
| ChatActions.EnglishReply | app/actions/chat.ts:64-80 | for any other message, the four `includes` tests on the lower-cased message append exactly the sentences of the mentioned topics, in topic order |
| ChatActions.ReplyGrows | app/actions/chat.ts:52-79 | each topic test only appends |
| ChatActions.ReplyLength | app/actions/chat.ts:46-82 | the reply is the bare acknowledgement exactly when no topic is mentioned |
| ChatActions.MentionedTopicAnswered | app/actions/chat.ts:52-79 | every mentioned topic's sentence is in the reply |
| ChatActions.MentionsCases | app/actions/chat.ts:52-79 | the keyword groups of each language, spelled out |
| ChatActions.GreetingPlansAsWritten | app/actions/chat.ts:99-106 | as written, a greeting without any trigger word still plans and runs a workflow |
| ChatActions.ShouldPlanIsKeywordTest | app/actions/chat.ts:99-106 | with the keyword test of `shouldTriggerPowerAutomate` awaited, a greeting plans nothing and meeting or e-mail messages still plan |
| ChatActions.Report | app/actions/chat.ts:222-234 | as written, `powerAutomateTriggered` holds the pending test and is always truthy; success exactly for a completed execution; status code 200 exactly on success and 500 otherwise; the failure text exactly for a failed execution; the tracking id exactly when a plan exists |
| ChatActions.ReportIntended | app/actions/chat.ts:222-234 | with the keyword test awaited, the result says triggered exactly when a trigger word occurs, an untriggered message reports no success, no error, status 500 and no tracking id, and every other field is as written |
| ChatActions.ExecutedRunReportsOneOutcome | app/actions/chat.ts:222-230 | an executed run reports either success or the failure text, and its plan's id |
| ChatActions.ConnectionTestSaysUndefined | app/actions/chat.ts:316-323 | as written, every failing health status gives the error "Health check failed: undefined" |
| ChatActions.ConnectionTestAsWritten | app/actions/chat.ts:308-338 | as written: a health status of 500 or more stops the test with a temporary failure carrying the status and the text "Health check failed: undefined"; anything else runs the connection test |
| ChatActions.ConnectionTest | app/actions/chat.ts:308-338 | a health status of 500 or more stops the test with a temporary failure that carries the status; anything else runs the connection test |
| ChatActions.ConnectionTestNamesStatus | app/actions/chat.ts:316-323 | the corrected error text names the status the health check returned |
| ChatActions.ConnectionTestAgreesOtherwise | app/actions/chat.ts:316-329 | the as-written and corrected tests agree on success, status and temporariness, and differ in error text only on the short cut |
| ChatActions.HealthNetworkFailureStillTests | app/actions/chat.ts:316-326 | a health check that threw has no status, so the full test still runs |

## Left out

- Strings are sequences of code points, not UTF-16 units. Lengths such as the 1500-character cut and the 100-character last message differ from JavaScript only outside the Basic Multilingual Plane.
- `toLowerCase` lowers ASCII letters only. Every keyword is ASCII or Thai, and Thai has no case.
- Workflow.Percent: uses exact rational rounding, where JavaScript rounds a floating-point quotient. The two can differ when the quotient lands on a binary rounding edge.
- Automation.ParseInt: reads digits with unbounded precision. JavaScript loses precision above 2^53, which no `Retry-After` value reaches.
- Regular expressions are modelled as substring tests over fixed keyword sets, plus an exact model of the meeting-hour pattern. E-mail address tokens are an input list.
- The keyword test of `analyzeUserRequest` includes "แชร์"/"share" for posts. `shouldTriggerPowerAutomate` has no such words, so a share-only message does not trigger.
- Clock readings, `crypto.randomUUID`, `fetch`, the step runner `executeStep` and the locale time text are parameters. Waits are recorded, not slept. The request timeout and `AbortController` are not modelled: a timed-out request is a network error.
- RoleChat.CreateWorkflowFromPowerAutomate: one clock reading stands for the several `new Date()` calls of one build.
- Timestamps in the memory store are integers ordered like the ISO strings. `Partial<Conversation>` updates are an option per field; an explicit `undefined` in the patch is not modelled.
- The text of each task entry in `parseTaskResults` comes from a describer parameter. The per-type summary rules (create_meeting, send_email, post_message) are not part of this model; only the structure and the success count are.
- Executor.ExecuteWorkflow: asks for a positive `progress.total` when there are steps, and for an acyclic step list. On a cyclic list the source recurses without end.
- Visualizer: `calculateLayout` asks for a rank that witnesses acyclicity, for the same reason. A level that no step reaches is an empty group where the source leaves a hole in its array. Null and non-array inputs are not modelled: the input is a list.
- Tracker.UpdateWorkflowWithTracking: the in-place `workflow.steps = []` for a non-array steps field is not modelled, because steps are always an array here. Non-string update fields and the placeholder's `priority` and `estimatedDuration` fields are not modelled.
- The `catch` blocks of `updateWorkflowWithTracking`, `validateWorkflow`, `parsePowerAutomateWebhook` and `testPowerAutomateConnectionAction` are not modelled: nothing in the modelled code paths throws there.
- The OpenAI call, the message saving and the display text of `sendMessage` are not modelled. Its workflow fields are, as a function of how the run went.
- `formatWorkflowDisplay` is modelled only through its progress bar. The rest is display text.
- `trackWorkflowProgress`, `getWorkflowStatus`, `subscribeToWorkflowUpdates` and `createDefaultWorkflow` are not part of this model. They are random, stub, timer or constant code.
- The status word `hasEmail` of the chat screen is a keyword test only. The address list it reports is an input.

## Findings

| source | as written | input that shows it | evidently intended | confidence | as-written member | corrected member |
|---|---|---|---|---|---|---|
| app/actions/chat.ts:319 | the short-cut error interpolates `healthCheck.error`, which a status reply never sets | a health check that answers 503 gives "Health check failed: undefined" | the health result's message, "Health check returned 503" | not executed | ChatActions.ConnectionTestSaysUndefined | ChatActions.ConnectionTestNamesStatus |
| app/actions/chat.ts:99 | `shouldTriggerPowerAutomate` is async and is not awaited, so the tested value is a Promise, which is always truthy | the message "hi" plans and runs a workflow | plan only when a trigger word occurs | not executed | ChatActions.GreetingPlansAsWritten | ChatActions.ShouldPlanIsKeywordTest |

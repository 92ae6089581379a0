/** The decision logic of the automation client around the HTTP trigger:
    classification of Logic Apps error bodies, `Number.parseInt` for the
    `Retry-After` header, truncation of the description, the task summary of
    a successful run, the keyword test that decides whether to trigger at
    all, and the health-check verdict. */
module Automation {
  import opened Wrappers
  import opened Text
  import opened JsonValue

  /** A JavaScript number as far as the client uses it: an integer or `NaN`. */
  datatype Num = Num(n: int) | NaN

  /** What the error-body classifier returns. */
  datatype ErrorInfo = ErrorInfo(message: string, isTemporary: bool, trackingId: Json, isProcessing: Option<bool>)

  /** The classifier either returns, or throws a `TypeError` when the error
      code is neither a string nor an array (it calls `code.includes`). */
  datatype Classified = Info(info: ErrorInfo) | ThrowsTypeError

  /** `code.includes(needle)`: substring test on a string, element test on an array. */
  function Includes(code: Json, needle: string): (r: Option<bool>)
    ensures r.Some? <==> code.JsString? || code.JsArray?
    ensures code.JsString? ==> r == Some(Contains(code.s, needle))
    ensures code.JsArray? ==> r == Some(JsString(needle) in code.items)
  {
    match code
    case JsString(s) => Some(Contains(s, needle))
    case JsArray(items) => Some(JsString(needle) in items)
    case _ => None
  }

  /** `parseLogicAppsError`: a table from the Logic Apps error code to a
      message and a classification. */
  function ParseLogicAppsError(errorData: Json): (r: Classified)
    ensures !Truthy(Get(errorData, "error")) ==> r == Info(ErrorInfo("Unknown Logic Apps error", true, JsUndefined, None))
    ensures r.Info? && Truthy(Get(errorData, "error")) ==>
      r.info.trackingId == Or(Get(Get(errorData, "error"), "trackingId"), JsString("Unknown"))
    ensures r.ThrowsTypeError? <==>
      Truthy(Get(errorData, "error")) && !(Get(Get(errorData, "error"), "code").JsString? || Get(Get(errorData, "error"), "code").JsArray?)
  {
    var error := Get(errorData, "error");
    if !Truthy(error) then Info(ErrorInfo("Unknown Logic Apps error", true, JsUndefined, None))
    else
      var code := Get(error, "code");
      var message := Get(error, "message");
      var trackingId := Or(Get(error, "trackingId"), JsString("Unknown"));
      if code == JsString("NoResponse") then
        Info(ErrorInfo("Workflow triggered but no immediate response (likely processing in background)", false, trackingId, Some(true)))
      else if code == JsString("WorkflowRunInProgress") then
        Info(ErrorInfo("Another workflow run is in progress", true, trackingId, None))
      else if code == JsString("WorkflowRunTimeout") then
        Info(ErrorInfo("Workflow execution timed out", true, trackingId, None))
      else if code == JsString("TriggerNotFound") then
        Info(ErrorInfo("Workflow trigger not found or disabled", false, trackingId, None))
      else if code == JsString("Forbidden") then
        Info(ErrorInfo("Access denied to workflow", false, trackingId, None))
      else
        match (Includes(code, "Timeout"), Includes(code, "NoResponse"))
        case (Some(timeout), Some(noResponse)) =>
          Info(ErrorInfo("Logic Apps error: " + TextOf(code) + " - " + TextOf(message), timeout || noResponse, trackingId, None))
        case _ => ThrowsTypeError
  }

  /** The classification of a string error code, stated without the table:
      a code is temporary when it is `WorkflowRunInProgress`, or when it is not
      one of the three permanent codes and mentions a timeout or a missing
      response; only `NoResponse` means the run is still processing. */
  lemma ClassifyStringCode(errorData: Json, code: string)
    requires Truthy(Get(errorData, "error")) && Get(Get(errorData, "error"), "code") == JsString(code)
    ensures ParseLogicAppsError(errorData).Info?
    ensures ParseLogicAppsError(errorData).info.isTemporary <==>
      || code == "WorkflowRunInProgress"
      || (code !in {"NoResponse", "TriggerNotFound", "Forbidden"} && (Contains(code, "Timeout") || Contains(code, "NoResponse")))
    ensures ParseLogicAppsError(errorData).info.isProcessing == Some(true) <==> code == "NoResponse"
  {
    if code == "WorkflowRunTimeout" {
      assert OccursAt(code, "Timeout", 11);
    }
    if code == "NoResponse" {
      assert OccursAt(code, "NoResponse", 0);
    }
  }

  // ---------------------------------------------------------------- numbers

  predicate IsHexDigit(c: char)
  {
    IsDigit(c) || 'a' <= c <= 'f' || 'A' <= c <= 'F'
  }

  function HexDigitValue(c: char): nat
    requires IsHexDigit(c)
  {
    if IsDigit(c) then c as nat - '0' as nat
    else if 'a' <= c <= 'f' then c as nat - 'a' as nat + 10
    else c as nat - 'A' as nat + 10
  }

  /** The number of consecutive characters satisfying the digit test from `j`. */
  function DigitsFrom(s: string, j: nat, hex: bool): (n: nat)
    requires j <= |s|
    ensures j + n <= |s|
    ensures forall m :: j <= m < j + n ==> if hex then IsHexDigit(s[m]) else IsDigit(s[m])
    ensures j + n < |s| ==> !(if hex then IsHexDigit(s[j + n]) else IsDigit(s[j + n]))
    decreases |s| - j
  {
    if j < |s| && (if hex then IsHexDigit(s[j]) else IsDigit(s[j])) then 1 + DigitsFrom(s, j + 1, hex) else 0
  }

  function DigitValue(c: char, hex: bool): nat
    requires if hex then IsHexDigit(c) else IsDigit(c)
  {
    if hex then HexDigitValue(c) else c as nat - '0' as nat
  }

  /** The value of a string of digits in base 10 or 16. */
  function DigitsValue(digits: string, hex: bool): nat
    requires forall m :: 0 <= m < |digits| ==> if hex then IsHexDigit(digits[m]) else IsDigit(digits[m])
  {
    if |digits| == 0 then 0
    else
      var last := digits[|digits| - 1];
      DigitsValue(digits[..|digits| - 1], hex) * (if hex then 16 else 10) + DigitValue(last, hex)
  }

  /** The index of the first non-space character at or after `j`. */
  function SkipWhiteSpace(s: string, j: nat): (k: nat)
    requires j <= |s|
    ensures j <= k <= |s|
    ensures forall m :: j <= m < k ==> IsSpace(s[m])
    ensures k < |s| ==> !IsSpace(s[k])
    decreases |s| - j
  {
    if j < |s| && IsSpace(s[j]) then SkipWhiteSpace(s, j + 1) else j
  }

  /** `Number.parseInt(s)` with no radix: leading white space, an optional
      sign, then a hexadecimal number after `0x`/`0X` or a decimal one;
      `NaN` when no digit follows. */
  function ParseInt(s: string): (r: Num)
    ensures r.Num? ==> exists i :: 0 <= i < |s| && IsDigit(s[i])
  {
    var i := SkipWhiteSpace(s, 0);
    var negative := i < |s| && s[i] == '-';
    var j := if i < |s| && (s[i] == '-' || s[i] == '+') then i + 1 else i;
    var hex := j + 1 < |s| && s[j] == '0' && (s[j + 1] == 'x' || s[j + 1] == 'X');
    var start := if hex then j + 2 else j;
    var n := DigitsFrom(s, start, hex);
    if n == 0 then NaN
    else
      var v := DigitsValue(s[start..start + n], hex);
      Num(if negative then 0 - v as int else v)
  }

  lemma {:induction false} DigitsValueOfNatText(n: nat)
    ensures forall m :: 0 <= m < |NatText(n)| ==> IsDigit(NatText(n)[m])
    ensures DigitsValue(NatText(n), false) == n
  {
    if n >= 10 {
      DigitsValueOfNatText(n / 10);
      var t := NatText(n);
      assert t[..|t| - 1] == NatText(n / 10);
    }
  }

  lemma {:induction false} DigitsFromAll(s: string, j: nat)
    requires j <= |s| && forall m :: j <= m < |s| ==> IsDigit(s[m])
    ensures DigitsFrom(s, j, false) == |s| - j
    decreases |s| - j
  {
    if j < |s| {
      DigitsFromAll(s, j + 1);
    }
  }

  /** `parseInt` reads back the decimal rendering of every natural number;
      in particular the default `Retry-After` of "60" is 60. */
  lemma ParseIntNatText(n: nat)
    ensures ParseInt(NatText(n)) == Num(n)
  {
    var s := NatText(n);
    DigitsValueOfNatText(n);
    DigitsFromAll(s, 0);
    assert !IsSpace(s[0]);
    assert s[0 .. |s|] == s;
    if |s| >= 2 {
      assert s[1] != 'x' && s[1] != 'X';
    }
  }

  /** `Math.min(x, y)` on numbers, `NaN` if either is. */
  function MinNum(x: Num, y: Num): (r: Num)
    ensures r.Num? <==> x.Num? && y.Num?
    ensures r.Num? ==> r.n <= x.n && r.n <= y.n && (r.n == x.n || r.n == y.n)
  {
    if x.NaN? || y.NaN? then NaN else if x.n <= y.n then x else y
  }

  /** `n * k` on numbers. */
  function Times(x: Num, k: int): Num
  {
    if x.NaN? then NaN else Num(x.n * k)
  }

  // ---------------------------------------------------------------- description

  /** The description actually sent: at most 1500 characters, and "..." appended when cut. */
  function Truncate(description: string): (sent: string)
    ensures |description| <= 1500 ==> sent == description
    ensures |description| > 1500 ==> sent == description[..1500] + "..." && |sent| == 1503
    ensures description[..if |description| <= 1500 then |description| else 1500] <= sent
  {
    if |description| > 1500 then Take(description, 1500) + "..." else description
  }

  // ---------------------------------------------------------------- task summary

  /** The text one task contributes, as its `task_type` and `action_details`
      describe it: a description, and a result line that may be empty. */
  datatype TaskText = TaskText(description: string, result: string)

  predicate IsSuccess(task: Json)
  {
    Get(task, "status") == JsString("success")
  }

  /** `tasks.filter((t) => t.status === "success").length`. */
  function SuccessCount(tasks: seq<Json>): (n: nat)
    ensures n <= |tasks|
    ensures n == |tasks| <==> forall i :: 0 <= i < |tasks| ==> IsSuccess(tasks[i])
  {
    if |tasks| == 0 then 0
    else SuccessCount(tasks[..|tasks| - 1]) + (if IsSuccess(tasks[|tasks| - 1]) then 1 else 0)
  }

  const NoTasksText := "ไม่มีงานที่ดำเนินการ"
  const SummaryHeader := "🔄 **การดำเนินงาน Power Automate:**\n\n"

  function SummaryFooter(successCount: nat, total: nat): string
  {
    "📊 **สรุป**: สำเร็จ " + NatText(successCount) + "/" + NatText(total) + " งาน"
  }

  /** The lines of the task at position `index`. */
  function TaskEntry(index: nat, task: Json, describe: Json -> TaskText): string
  {
    var text := describe(task);
    "**" + NatText(index + 1) + ".** " + (if IsSuccess(task) then "✅" else "❌") + " " + text.description + "\n"
    + (if text.result != "" then text.result + "\n" else "")
    + (if !IsSuccess(task) then "   ❌ เกิดข้อผิดพลาด\n" else "")
    + "\n"
  }

  /** The entries of the first `n` tasks. */
  function TaskEntries(tasks: seq<Json>, n: nat, describe: Json -> TaskText): string
    requires n <= |tasks|
  {
    if n == 0 then "" else TaskEntries(tasks, n - 1, describe) + TaskEntry(n - 1, tasks[n - 1], describe)
  }

  /** What `parseTaskResults` returns; `None` when it throws, which it does
      exactly when an element is `null` (reading its `status` fails). */
  function TaskSummary(tasks: seq<Json>, describe: Json -> TaskText): (r: Option<string>)
    ensures |tasks| == 0 ==> r == Some(NoTasksText)
    ensures r.None? <==> |tasks| > 0 && exists i :: 0 <= i < |tasks| && tasks[i].JsNull?
    ensures r.Some? && |tasks| > 0 ==>
      SummaryHeader <= r.value
      && |SummaryFooter(SuccessCount(tasks), |tasks|)| <= |r.value|
      && r.value[|r.value| - |SummaryFooter(SuccessCount(tasks), |tasks|)|..] == SummaryFooter(SuccessCount(tasks), |tasks|)
  {
    if |tasks| == 0 then Some(NoTasksText)
    else if exists i :: 0 <= i < |tasks| && tasks[i].JsNull? then None
    else
      var footer := SummaryFooter(SuccessCount(tasks), |tasks|);
      var body := SummaryHeader + TaskEntries(tasks, |tasks|, describe);
      assert (body + footer)[|body + footer| - |footer|..] == footer;
      assert (body + footer)[..|SummaryHeader|] == SummaryHeader;
      Some(body + footer)
  }

  /** `parseTaskResults`: the summary is built entry by entry. */
  method ParseTaskResults(tasks: seq<Json>, describe: Json -> TaskText) returns (r: Option<string>)
    ensures r == TaskSummary(tasks, describe)
  {
    if |tasks| == 0 {
      return Some(NoTasksText);
    }
    var summary := SummaryHeader;
    for index := 0 to |tasks|
      invariant summary == SummaryHeader + TaskEntries(tasks, index, describe)
      invariant forall i :: 0 <= i < index ==> !tasks[i].JsNull?
    {
      var task := tasks[index];
      if task.JsNull? {
        assert TaskSummary(tasks, describe).None? by {
          assert tasks[index].JsNull?;
        }
        return None;
      }
      assert forall i :: 0 <= i < index + 1 ==> !tasks[i].JsNull? by {
        assert !tasks[index].JsNull?;
      }
      var entry := TaskEntry(index, task, describe);
      TaskEntriesNext(tasks, index, describe);
      summary := summary + entry;
    }
    TaskSummaryOfNonNull(tasks, describe);
    summary := summary + SummaryFooter(SuccessCount(tasks), |tasks|);
    return Some(summary);
  }

  lemma TaskEntriesNext(tasks: seq<Json>, n: nat, describe: Json -> TaskText)
    requires n < |tasks|
    ensures SummaryHeader + TaskEntries(tasks, n + 1, describe)
         == SummaryHeader + TaskEntries(tasks, n, describe) + TaskEntry(n, tasks[n], describe)
  {
  }

  lemma TaskSummaryOfNonNull(tasks: seq<Json>, describe: Json -> TaskText)
    requires |tasks| > 0 && forall i :: 0 <= i < |tasks| ==> !tasks[i].JsNull?
    ensures TaskSummary(tasks, describe)
         == Some(SummaryHeader + TaskEntries(tasks, |tasks|, describe) + SummaryFooter(SuccessCount(tasks), |tasks|))
  {
  }

  // ---------------------------------------------------------------- trigger keywords

  const Triggers: seq<string> := [
    "ประชุม", "meeting", "email", "โพส", "post", "team", "ส่ง", "send",
    "แจ้ง", "notify", "reminder", "เตือน", "schedule", "กำหนด", "นัดหมาย", "appointment"]

  /** `shouldTriggerPowerAutomate`: some trigger word occurs in the lowered
      message (the trigger words are already lower case). */
  predicate ShouldTrigger(message: string)
  {
    exists t :: t in Triggers && Contains(Lower(message), Lower(t))
  }

  lemma LowerOfLower(t: string)
    requires forall i :: 0 <= i < |t| ==> !('A' <= t[i] <= 'Z')
    ensures Lower(t) == t
  {
  }

  /** Every request in which the planner detects a meeting or an e-mail also
      triggers the automation; a post alone ("แชร์", "share") need not. */
  lemma ShouldTriggerCoversMeetingAndEmail(message: string)
    ensures Contains(Lower(message), "ประชุม") || Contains(Lower(message), "meeting")
         || Contains(Lower(message), "นัดหมาย") || Contains(Lower(message), "appointment")
         || Contains(Lower(message), "email") || Contains(Lower(message), "ส่ง")
         || Contains(Lower(message), "แจ้ง")
         ==> ShouldTrigger(message)
  {
    var lower := Lower(message);
    forall t | t in ["ประชุม", "meeting", "นัดหมาย", "appointment", "email", "ส่ง", "แจ้ง"] && Contains(lower, t)
      ensures ShouldTrigger(message)
    {
      LowerOfLower(t);
      assert t in Triggers;
    }
  }

  // ---------------------------------------------------------------- health

  /** What the HEAD request of the health check did. */
  datatype HeadOutcome = HeadStatus(status: int) | HeadThrewError(message: string) | HeadThrewOther

  datatype HealthResult = HealthResult(success: bool, message: Option<string>, error: Option<string>,
                                       statusCode: Option<int>, isTemporary: bool)

  /** `checkPowerAutomateHealth`: healthy below 500; a failed request is a
      temporary failure whose `error` is the thrown message. */
  function HealthVerdict(outcome: HeadOutcome): (r: HealthResult)
    ensures r.success <==> outcome.HeadStatus? && outcome.status < 500
    ensures r.isTemporary <==> !r.success
    ensures outcome.HeadStatus? ==> r.statusCode == Some(outcome.status) && r.error.None?
    ensures !outcome.HeadStatus? ==> r.statusCode.None? && r.error.Some?
  {
    match outcome
    case HeadStatus(status) =>
      HealthResult(status < 500, Some("Health check returned " + IntText(status)), None, Some(status), status >= 500)
    case HeadThrewError(message) => HealthResult(false, None, Some(message), None, true)
    case HeadThrewOther => HealthResult(false, None, Some("Health check failed"), None, true)
  }
}

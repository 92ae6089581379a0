/** `triggerPowerAutomate`: post the (truncated) description to the Logic
    Apps endpoint, retrying temporary failures, and turn the reply into a
    response. The network, the wall clock and the sleeps are outside the
    model: the k-th request's outcome is an oracle of the description sent
    and of k, and the sleeps are returned as the list of their durations. */
module Trigger {
  import opened Wrappers
  import opened Text
  import opened JsonValue
  import opened Automation

  const MaxRetriesDefault := 2
  const RetryDelay := 2000

  /** A test connection tries once, a real trigger `MaxRetriesDefault` times. */
  function MaxRetries(isTest: bool): (n: nat)
    ensures 1 <= n <= MaxRetriesDefault
    ensures isTest ==> n == 1
    ensures !isTest ==> n == 2
  {
    if isTest then 1 else MaxRetriesDefault
  }

  /** A reply body: unreadable (`response.text()` rejects), or its text
      together with what `JSON.parse` makes of it (`None` when it throws). */
  datatype Body = Unreadable | Text(text: string, parsed: Option<Json>)

  /** What one request produced: a reply, or a thrown error with its message
      (a failed connection, or the abort after the timeout). */
  datatype RequestOutcome =
    | Reply(status: int, retryAfterHeader: Option<string>, body: Body)
    | NetworkError(message: string)

  datatype Environment = Environment(
    network: (string, nat) -> RequestOutcome,
    describe: Json -> TaskText,
    timeText: nat -> string,
    typeErrorMessage: string)

  datatype TriggerResponse = TriggerResponse(
    success: bool,
    message: Option<string>,
    error: Option<string>,
    statusCode: Option<int>,
    retryAfter: Option<Num>,
    trackingId: Json,
    isTemporary: Option<bool>,
    isProcessing: Option<bool>,
    tasks: Option<seq<Json>>,
    flowSummary: Option<string>)

  function Failure(error: string, statusCode: Option<int>, trackingId: Json, isTemporary: bool, isProcessing: Option<bool>): TriggerResponse
  {
    TriggerResponse(false, None, Some(error), statusCode, None, trackingId, Some(isTemporary), isProcessing, None, None)
  }

  const DescriptionRequired := Failure("Description is required", None, JsUndefined, false, None)

  const GenericSummary := "✅ Power Automate workflow ดำเนินการสำเร็จ"

  /** What survives from one attempt to the next. */
  datatype Carry = Carry(lastError: Option<string>, lastStatusCode: Option<int>, lastTrackingId: Json)

  const NoCarry := Carry(None, None, JsUndefined)

  /** One attempt either ends the call or goes on to the next one, after a
      sleep of `wait` when there is one. */
  datatype AttemptResult = Done(response: TriggerResponse) | Next(wait: Option<Num>, carry: Carry)

  /** The response, the number of requests sent, and the sleeps in order. */
  datatype Outcome = Outcome(response: TriggerResponse, attempts: nat, waits: seq<Num>)

  /** The error body as parsed: `null` when unreadable, empty or not JSON. */
  function ErrorData(body: Body): Json
  {
    match body
    case Unreadable => JsNull
    case Text(text, parsed) => if text == "" then JsNull else parsed.GetOr(JsNull)
  }

  /** The task list of a parsed 2xx body: the body itself when it is an
      array, its `tasks` member when that is an array, otherwise none. */
  function TaskList(parsed: Json): Option<seq<Json>>
  {
    if parsed.JsArray? then Some(parsed.items)
    else if Truthy(Get(parsed, "tasks")) && Get(parsed, "tasks").JsArray? then Some(Get(parsed, "tasks").items)
    else None
  }

  /** The response to a 2xx reply. */
  function OkResponse(status: int, body: Body, isTest: bool, describe: Json -> TaskText): (r: TriggerResponse)
    ensures r.success && r.statusCode == Some(status) && r.error.None?
    ensures r.flowSummary.Some?
    ensures r.tasks.None? <==> body.Unreadable?
    ensures body.Text? && !IsBlank(body.text) && body.parsed.Some? && body.parsed.value.JsArray? ==>
      r.tasks == Some(body.parsed.value.items)
    ensures body.Text? && (IsBlank(body.text) || body.parsed.None?) ==>
      r.tasks == Some([]) && r.flowSummary == Some(GenericSummary)
    ensures (body.Text? && !IsBlank(body.text) && body.parsed.Some? && TaskList(body.parsed.value).Some?) ==>
      var tasks := TaskList(body.parsed.value).value;
      r.tasks == Some(tasks) && r.flowSummary == Some(TaskSummary(tasks, describe).GetOr(GenericSummary))
  {
    match body
    case Unreadable =>
      TriggerResponse(true,
        Some(if isTest then "Test connection successful (response parsing failed but request succeeded)"
             else "Power Automate workflow triggered (response parsing failed but request succeeded)"),
        None, Some(status), None, JsUndefined, None, None, None, Some(GenericSummary))
    case Text(text, parsed) =>
      var tasks := if !IsBlank(text) && parsed.Some? then TaskList(parsed.value) else None;
      var summary := if tasks.Some? then TaskSummary(tasks.value, describe).GetOr(GenericSummary) else GenericSummary;
      TriggerResponse(true,
        Some(if isTest then "Test connection successful" else "Power Automate workflow triggered successfully"),
        None, Some(status), None, JsUndefined, None, None, Some(tasks.GetOr([])), Some(summary))
  }

  /** A 2xx body that parses to something other than an array: its `tasks`
      member is the task list when that is an array, and otherwise the list
      is empty and the summary is the generic one. */
  lemma OkResponseTasksMember(status: int, body: Body, isTest: bool, describe: Json -> TaskText)
    requires body.Text? && !IsBlank(body.text) && body.parsed.Some? && !body.parsed.value.JsArray?
    ensures var r := OkResponse(status, body, isTest, describe);
      var member := Get(body.parsed.value, "tasks");
      && (member.JsArray? ==> r.tasks == Some(member.items))
      && (!member.JsArray? ==> r.tasks == Some([]) && r.flowSummary == Some(GenericSummary))
  {
  }

  /** The text of the `Retry-After` header, "60" when it is missing or empty. */
  function RetryAfterText(header: Option<string>): string
  {
    if header.Some? && header.value != "" then header.value else "60"
  }

  /** The classification used when the error body is falsy. */
  function DefaultInfo(status: int): ErrorInfo
  {
    if status == 502 then ErrorInfo("Bad Gateway", true, JsUndefined, Some(false))
    else if status >= 500 then ErrorInfo("Server error", true, JsUndefined, Some(false))
    else ErrorInfo("Client error", false, JsUndefined, Some(false))
  }

  function Classify(status: int, errorData: Json): Classified
  {
    if Truthy(errorData) then ParseLogicAppsError(errorData) else Info(DefaultInfo(status))
  }

  /** The success reported when a 502 says the run has no immediate response. */
  function Processing(status: int, trackingId: Json, description: string, time: string): TriggerResponse
  {
    TriggerResponse(true, Some("Power Automate workflow triggered successfully (processing in background)"),
      None, Some(status), None, trackingId, Some(false), Some(true), None,
      Some(ProcessingHead + description + ProcessingTimeLabel + time + ProcessingNote))
  }

  const ProcessingHead := "✅ Power Automate workflow กำลังประมวลผลในเบื้องหลัง\n\n🔄 **สถานะ**: กำลังดำเนินการ\n📋 **คำขอ**: "
  const ProcessingTimeLabel := "\n⏱️ **เวลา**: "
  const ProcessingNote := "\n\n💡 **หมายเหตุ**: Logic App กำลังประมวลผลคำขอของคุณ ผลลัพธ์จะปรากฏเมื่อเสร็จสิ้น"

  function RateLimited(status: int, retryAfter: Num): TriggerResponse
  {
    TriggerResponse(false, None, Some("Rate limited by Power Automate"), Some(status), Some(retryAfter),
      JsUndefined, Some(true), None, None, None)
  }

  /** A 502 whose error code is `NoResponse`, or whose message says so. */
  predicate SaysNoResponse(errorData: Json, info: ErrorInfo)
  {
    Get(Get(errorData, "error"), "code") == JsString("NoResponse") || Contains(info.message, "no immediate response")
  }

  /** The `catch` block: remember the error and retry while attempts remain. */
  function Caught(message: string, attempt: nat, maxRetries: nat, carry: Carry): (r: AttemptResult)
    ensures r.Next? && r.carry.lastError == Some(message)
    ensures r.wait.Some? <==> attempt < maxRetries
  {
    var carry := carry.(lastError := Some(message));
    if attempt < maxRetries then Next(Some(Num(RetryDelay * attempt)), carry) else Next(None, carry)
  }

  /** One pass of the retry loop. */
  function Attempt(sent: string, description: string, isTest: bool, attempt: nat, carry: Carry, env: Environment): AttemptResult
  {
    var maxRetries := MaxRetries(isTest);
    match env.network(sent, attempt)
    case NetworkError(message) => Caught(message, attempt, maxRetries, carry)
    case Reply(status, retryAfterHeader, body) =>
      var carry := carry.(lastStatusCode := Some(status));
      if 200 <= status <= 299 then Done(OkResponse(status, body, isTest, env.describe))
      else
        var errorData := ErrorData(body);
        if status == 429 then
          var retryAfter := ParseInt(RetryAfterText(retryAfterHeader));
          if attempt < maxRetries then Next(Some(MinNum(Times(retryAfter, 1000), Num(10000))), carry)
          else Done(RateLimited(status, retryAfter))
        else
          match Classify(status, errorData)
          case ThrowsTypeError => Caught(env.typeErrorMessage, attempt, maxRetries, carry)
          case Info(info) =>
            if status == 502 then
              var carry := carry.(lastTrackingId := info.trackingId);
              if SaysNoResponse(errorData, info) then
                Done(Processing(status, info.trackingId, description, env.timeText(attempt)))
              else if attempt < maxRetries && info.isTemporary then Next(Some(Num(RetryDelay * attempt)), carry)
              else Done(Failure(info.message, Some(status), info.trackingId, info.isTemporary, info.isProcessing))
            else if status >= 500 then
              var carry := carry.(lastError := Some(info.message), lastTrackingId := info.trackingId);
              if attempt < maxRetries && info.isTemporary then Next(Some(Num(RetryDelay * attempt)), carry)
              else Done(Failure(info.message, Some(status), info.trackingId, info.isTemporary, info.isProcessing))
            else
              Done(Failure(info.message, Some(status), info.trackingId, false, info.isProcessing))
  }

  /** What one pass of the retry loop may end in: only a 2xx reply or a 502
      succeeds, only a 429, a 5xx or a throwing classifier goes on, a sleep
      follows exactly when attempts remain and never exceeds ten seconds, and
      without one the pass threw on the last attempt. */
  lemma AttemptFacts(sent: string, description: string, isTest: bool, attempt: nat, carry: Carry, env: Environment)
    ensures var r, o := Attempt(sent, description, isTest, attempt, carry, env), env.network(sent, attempt);
      && (o.Reply? && 200 <= o.status <= 299 ==> r.Done? && r.response.success && r.response.statusCode == Some(o.status))
      && (r.Done? && r.response.success ==>
            o.Reply? && r.response.statusCode == Some(o.status) && (200 <= o.status <= 299 || o.status == 502))
      && (r.Next? ==> (r.wait.Some? <==> attempt < MaxRetries(isTest)))
      && (r.Next? && r.wait.Some? && r.wait.value.Num? ==> r.wait.value.n <= 10000)
      && (r.Next? && o.Reply? ==> o.status == 429 || o.status >= 500 || Classify(o.status, ErrorData(o.body)).ThrowsTypeError?)
      && (r.Next? && r.wait.None? ==>
            attempt >= MaxRetries(isTest) && (o.NetworkError? || r.carry.lastError == Some(env.typeErrorMessage)))
  {
  }

  /** A 429 reply: `parseInt` of the `Retry-After` header, or of "60" when it
      is missing or empty. With attempts left the pass sleeps that many
      seconds, at most ten, and goes on; on the last attempt it ends rate
      limited, temporary, reporting the parsed value. */
  lemma RateLimitRules(sent: string, description: string, isTest: bool, attempt: nat, carry: Carry, env: Environment)
    requires env.network(sent, attempt).Reply? && env.network(sent, attempt).status == 429
    ensures var o := env.network(sent, attempt);
      var retryAfter := ParseInt(if o.retryAfterHeader.Some? && o.retryAfterHeader.value != "" then o.retryAfterHeader.value else "60");
      var r := Attempt(sent, description, isTest, attempt, carry, env);
      && (attempt < MaxRetries(isTest) ==>
            r == Next(Some(MinNum(Times(retryAfter, 1000), Num(10000))), carry.(lastStatusCode := Some(429))))
      && (attempt >= MaxRetries(isTest) ==>
            r.Done? && !r.response.success && r.response.retryAfter == Some(retryAfter)
            && r.response.statusCode == Some(429) && r.response.isTemporary == Some(true)
            && r.response.error == Some("Rate limited by Power Automate"))
  {
  }

  /** Without a `Retry-After` header a 429 means sixty seconds: the sleep is
      capped to ten seconds, and the last attempt reports 60. */
  lemma RateLimitDefaultWait(sent: string, description: string, isTest: bool, attempt: nat, carry: Carry, env: Environment)
    requires var o := env.network(sent, attempt);
      o.Reply? && o.status == 429 && (o.retryAfterHeader.None? || o.retryAfterHeader == Some(""))
    ensures var r := Attempt(sent, description, isTest, attempt, carry, env);
      && (attempt < MaxRetries(isTest) ==> r.Next? && r.wait == Some(Num(10000)))
      && (attempt >= MaxRetries(isTest) ==> r.Done? && r.response.retryAfter == Some(Num(60)))
  {
    assert NatText(60) == "60";
    ParseIntNatText(60);
  }

  /** Every other sleep, after a thrown error or a temporary 5xx failure, is
      `RetryDelay` milliseconds times the attempt number. */
  lemma RetryWaits(sent: string, description: string, isTest: bool, attempt: nat, carry: Carry, env: Environment)
    requires !(env.network(sent, attempt).Reply? && env.network(sent, attempt).status == 429)
    ensures var r := Attempt(sent, description, isTest, attempt, carry, env);
      r.Next? && r.wait.Some? ==> r.wait == Some(Num(RetryDelay * attempt))
  {
  }

  /** The response after the last attempt threw. */
  function Exhausted(carry: Carry): (r: TriggerResponse)
    ensures !r.success && r.isTemporary == Some(true) && r.error.Some?
    ensures r.trackingId == carry.lastTrackingId
  {
    Failure(if carry.lastError.Some? && carry.lastError.value != "" then carry.lastError.value else "All retry attempts failed",
      if carry.lastStatusCode.Some? && carry.lastStatusCode.value != 0 then carry.lastStatusCode else None,
      carry.lastTrackingId, true, None)
  }

  function Prepend(waits: seq<Num>, o: Outcome): Outcome
  {
    Outcome(o.response, o.attempts, waits + o.waits)
  }

  /** The loop from `attempt` on. */
  function From(sent: string, description: string, isTest: bool, attempt: nat, carry: Carry, env: Environment): Outcome
    requires 1 <= attempt
    decreases MaxRetries(isTest) + 1 - attempt
  {
    if attempt > MaxRetries(isTest) then Outcome(Exhausted(carry), attempt - 1, [])
    else
      match Attempt(sent, description, isTest, attempt, carry, env)
      case Done(response) => Outcome(response, attempt, [])
      case Next(wait, next) =>
        Prepend(if wait.Some? then [wait.value] else [], From(sent, description, isTest, attempt + 1, next, env))
  }

  /** One step of the loop: the attempt decides between stopping and going on. */
  lemma FromStep(sent: string, description: string, isTest: bool, attempt: nat, carry: Carry, env: Environment)
    requires 1 <= attempt <= MaxRetries(isTest)
    ensures var a := Attempt(sent, description, isTest, attempt, carry, env);
      From(sent, description, isTest, attempt, carry, env)
        == if a.Done? then Outcome(a.response, attempt, [])
           else Prepend(if a.wait.Some? then [a.wait.value] else [], From(sent, description, isTest, attempt + 1, a.carry, env))
  {
  }

  /** `triggerPowerAutomate(description, isTest)` as a function of the oracles. */
  function TriggerSpec(description: string, isTest: bool, env: Environment): Outcome
  {
    if IsBlank(description) then Outcome(DescriptionRequired, 0, [])
    else From(Truncate(description), description, isTest, 1, NoCarry, env)
  }

  /** The 2xx branch, summarising the task list with the summary loop. */
  method HandleOk(status: int, body: Body, isTest: bool, describe: Json -> TaskText) returns (r: TriggerResponse)
    ensures r == OkResponse(status, body, isTest, describe)
  {
    match body {
      case Unreadable =>
        r := TriggerResponse(true,
          Some(if isTest then "Test connection successful (response parsing failed but request succeeded)"
               else "Power Automate workflow triggered (response parsing failed but request succeeded)"),
          None, Some(status), None, JsUndefined, None, None, None, Some(GenericSummary));
      case Text(text, parsed) =>
        var tasks: seq<Json> := [];
        var flowSummary := GenericSummary;
        if !IsBlank(text) && parsed.Some? {
          var list := TaskList(parsed.value);
          if list.Some? {
            tasks := list.value;
            var summary := ParseTaskResults(tasks, describe);
            flowSummary := summary.GetOr(GenericSummary);
          }
        }
        r := TriggerResponse(true,
          Some(if isTest then "Test connection successful" else "Power Automate workflow triggered successfully"),
          None, Some(status), None, JsUndefined, None, None, Some(tasks), Some(flowSummary));
    }
  }

  /** The body of the retry loop for attempt `attempt`: the request, then
      the branch on its outcome. `Done` is a `return`, `Next` with a wait a
      `continue` after the sleep, and `Next` without one the end of the loop. */
  method AttemptOnce(sent: string, description: string, isTest: bool, attempt: nat, carry: Carry, env: Environment)
    returns (result: AttemptResult)
    ensures result == Attempt(sent, description, isTest, attempt, carry, env)
  {
    var maxRetries := MaxRetries(isTest);
    var lastError, lastStatusCode, lastTrackingId := carry.lastError, carry.lastStatusCode, carry.lastTrackingId;
    var caught: string;
    match env.network(sent, attempt) {
      case NetworkError(message) =>
        caught := message;
      case Reply(status, retryAfterHeader, body) =>
        lastStatusCode := Some(status);
        if 200 <= status <= 299 {
          var response := HandleOk(status, body, isTest, env.describe);
          return Done(response);
        }
        var errorData := ErrorData(body);
        if status == 429 {
          var retryAfter := ParseInt(RetryAfterText(retryAfterHeader));
          if attempt < maxRetries {
            return Next(Some(MinNum(Times(retryAfter, 1000), Num(10000))), Carry(lastError, lastStatusCode, lastTrackingId));
          }
          return Done(RateLimited(status, retryAfter));
        }
        var classified := Classify(status, errorData);
        if classified.ThrowsTypeError? {
          caught := env.typeErrorMessage;
        } else {
          var info := classified.info;
          if status == 502 {
            lastTrackingId := info.trackingId;
            if SaysNoResponse(errorData, info) {
              return Done(Processing(status, lastTrackingId, description, env.timeText(attempt)));
            }
            if attempt < maxRetries && info.isTemporary {
              return Next(Some(Num(RetryDelay * attempt)), Carry(lastError, lastStatusCode, lastTrackingId));
            }
            return Done(Failure(info.message, Some(status), lastTrackingId, info.isTemporary, info.isProcessing));
          } else if status >= 500 {
            lastError := Some(info.message);
            lastTrackingId := info.trackingId;
            if attempt < maxRetries && info.isTemporary {
              return Next(Some(Num(RetryDelay * attempt)), Carry(lastError, lastStatusCode, lastTrackingId));
            }
            return Done(Failure(info.message, Some(status), lastTrackingId, info.isTemporary, info.isProcessing));
          } else {
            return Done(Failure(info.message, Some(status), info.trackingId, false, info.isProcessing));
          }
        }
    }
    // the catch block
    lastError := Some(caught);
    if attempt < maxRetries {
      return Next(Some(Num(RetryDelay * attempt)), Carry(lastError, lastStatusCode, lastTrackingId));
    }
    return Next(None, Carry(lastError, lastStatusCode, lastTrackingId));
  }

  /** `triggerPowerAutomate`: validation, truncation, then up to
      `MaxRetries(isTest)` attempts. */
  method TriggerPowerAutomate(description: string, isTest: bool, env: Environment)
    returns (r: TriggerResponse, attempts: nat, waits: seq<Num>)
    ensures Outcome(r, attempts, waits) == TriggerSpec(description, isTest, env)
  {
    if IsBlank(description) {
      return DescriptionRequired, 0, [];
    }
    r, attempts, waits := RetryLoop(Truncate(description), description, isTest, env);
  }

  /** The retry loop of `triggerPowerAutomate` on the truncated text `sent`. */
  method RetryLoop(sent: string, description: string, isTest: bool, env: Environment)
    returns (r: TriggerResponse, attempts: nat, waits: seq<Num>)
    ensures Outcome(r, attempts, waits) == From(sent, description, isTest, 1, NoCarry, env)
  {
    var carry := NoCarry;
    var maxRetries := MaxRetries(isTest);
    attempts, waits := 0, [];
    for attempt := 1 to maxRetries + 1
      invariant attempts == attempt - 1
      invariant From(sent, description, isTest, 1, NoCarry, env) == Prepend(waits, From(sent, description, isTest, attempt, carry, env))
    {
      attempts := attempt;
      var result := AttemptOnce(sent, description, isTest, attempt, carry, env);
      FromStep(sent, description, isTest, attempt, carry, env);
      match result {
        case Done(response) =>
          return response, attempts, waits;
        case Next(wait, next) =>
          var slept := if wait.Some? then [wait.value] else [];
          PrependPrepend(waits, slept, From(sent, description, isTest, attempt + 1, next, env));
          waits := waits + slept;
          carry := next;
      }
    }
    r := Exhausted(carry);
  }

  lemma PrependPrepend(first: seq<Num>, second: seq<Num>, o: Outcome)
    ensures Prepend(first, Prepend(second, o)) == Prepend(first + second, o)
  {
    assert first + (second + o.waits) == (first + second) + o.waits;
  }

  /** A blank description is refused before any request is sent. */
  lemma BlankDescriptionSendsNothing(description: string, isTest: bool, env: Environment)
    requires IsBlank(description)
    ensures var o := TriggerSpec(description, isTest, env);
      && o.attempts == 0 && o.waits == []
      && !o.response.success && o.response.error == Some("Description is required")
      && o.response.isTemporary == Some(false)
  {
  }

  lemma {:induction false} FromBounds(sent: string, description: string, isTest: bool, attempt: nat, carry: Carry, env: Environment)
    requires 1 <= attempt <= MaxRetries(isTest) + 1
    ensures var o := From(sent, description, isTest, attempt, carry, env);
      && (attempt <= MaxRetries(isTest) ==> attempt <= o.attempts <= MaxRetries(isTest) && |o.waits| == o.attempts - attempt)
      && (attempt > MaxRetries(isTest) ==> o.attempts == attempt - 1 && o.waits == [])
      && (forall i :: 0 <= i < |o.waits| ==> o.waits[i].NaN? || o.waits[i].n <= 10000)
      && (o.response.success ==>
            o.response.statusCode.Some? && (200 <= o.response.statusCode.value <= 299 || o.response.statusCode.value == 502))
    decreases MaxRetries(isTest) + 1 - attempt
  {
    if attempt <= MaxRetries(isTest) {
      AttemptFacts(sent, description, isTest, attempt, carry, env);
      match Attempt(sent, description, isTest, attempt, carry, env)
      case Done(response) =>
      case Next(wait, next) =>
        FromBounds(sent, description, isTest, attempt + 1, next, env);
    }
  }

  /** A call sends between one and `MaxRetries(isTest)` requests, sleeps
      between consecutive ones and never after the last, never sleeps more
      than ten seconds at a time, and reports success only for a 2xx reply or
      a 502 that says the run is processing. */
  lemma TriggerBounds(description: string, isTest: bool, env: Environment)
    requires !IsBlank(description)
    ensures var o := TriggerSpec(description, isTest, env);
      && 1 <= o.attempts <= MaxRetries(isTest)
      && |o.waits| == o.attempts - 1
      && (forall i :: 0 <= i < |o.waits| ==> o.waits[i].NaN? || o.waits[i].n <= 10000)
      && (o.response.success ==>
            o.response.statusCode.Some? && (200 <= o.response.statusCode.value <= 299 || o.response.statusCode.value == 502))
  {
    FromBounds(Truncate(description), description, isTest, 1, NoCarry, env);
  }

  /** A 2xx reply to the first request is a success after one request. */
  lemma FirstReplyOk(description: string, isTest: bool, env: Environment)
    requires !IsBlank(description)
    requires var o := env.network(Truncate(description), 1); o.Reply? && 200 <= o.status <= 299
    ensures var o := TriggerSpec(description, isTest, env);
      o.response.success && o.attempts == 1 && o.waits == []
      && o.response.statusCode == Some(env.network(Truncate(description), 1).status)
  {
  }

  /** Any other reply below 500, except 429, is a permanent failure at once,
      unless the error body makes the classifier throw. */
  lemma ClientErrorNotRetried(description: string, isTest: bool, env: Environment)
    requires !IsBlank(description)
    requires var o := env.network(Truncate(description), 1);
      o.Reply? && !(200 <= o.status <= 299) && o.status != 429 && o.status < 500
      && Classify(o.status, ErrorData(o.body)).Info?
    ensures var o := TriggerSpec(description, isTest, env);
      !o.response.success && o.attempts == 1 && o.response.isTemporary == Some(false)
      && o.response.statusCode == Some(env.network(Truncate(description), 1).status)
  {
  }

  /** What the classifier makes of an error body whose code is `NoResponse`. */
  lemma NoResponseInfo(status: int, data: Json)
    requires Truthy(data) && Get(Get(data, "error"), "code") == JsString("NoResponse")
    ensures Classify(status, data).Info?
    ensures Classify(status, data).info.isTemporary == false
    ensures Classify(status, data).info.isProcessing == Some(true)
    ensures SaysNoResponse(data, Classify(status, data).info)
  {
    ClassifyStringCode(data, "NoResponse");
  }

  /** The `NoResponse` success applies to 502 only: any other 5xx reply with
      that code fails at once, flagged as still processing. */
  lemma NoResponseOutside502Fails(description: string, isTest: bool, env: Environment)
    requires !IsBlank(description)
    requires var o := env.network(Truncate(description), 1);
      o.Reply? && o.status >= 500 && o.status != 502
      && Truthy(ErrorData(o.body)) && Get(Get(ErrorData(o.body), "error"), "code") == JsString("NoResponse")
    ensures var o := TriggerSpec(description, isTest, env);
      !o.response.success && o.attempts == 1 && o.waits == []
      && o.response.isTemporary == Some(false) && o.response.isProcessing == Some(true)
  {
    var sent := Truncate(description);
    var reply := env.network(sent, 1);
    NoResponseInfo(reply.status, ErrorData(reply.body));
    var a := Attempt(sent, description, isTest, 1, NoCarry, env);
    var info := Classify(reply.status, ErrorData(reply.body)).info;
    assert a == Done(Failure(info.message, Some(reply.status), info.trackingId, info.isTemporary, info.isProcessing));
    assert From(sent, description, isTest, 1, NoCarry, env) == Outcome(a.response, 1, []);
    assert TriggerSpec(description, isTest, env) == From(sent, description, isTest, 1, NoCarry, env);
  }

  /** A 502 carrying `NoResponse` is a success that reports the run as
      processing in the background. */
  lemma NoResponse502Succeeds(description: string, isTest: bool, env: Environment)
    requires !IsBlank(description)
    requires var o := env.network(Truncate(description), 1);
      o.Reply? && o.status == 502
      && Truthy(ErrorData(o.body)) && Get(Get(ErrorData(o.body), "error"), "code") == JsString("NoResponse")
    ensures var o := TriggerSpec(description, isTest, env);
      o.response.success && o.attempts == 1
      && o.response.isProcessing == Some(true) && o.response.isTemporary == Some(false)
      && o.response.statusCode == Some(502)
  {
    var sent := Truncate(description);
    var reply := env.network(sent, 1);
    NoResponseInfo(reply.status, ErrorData(reply.body));
    var a := Attempt(sent, description, isTest, 1, NoCarry, env);
    assert a.Done? && a.response.success && a.response.isProcessing == Some(true);
    assert From(sent, description, isTest, 1, NoCarry, env) == Outcome(a.response, 1, []);
    assert TriggerSpec(description, isTest, env) == From(sent, description, isTest, 1, NoCarry, env);
  }

  /** A real trigger answered 429 without `Retry-After` every time sends two
      requests, sleeps the ten-second cap once between them, and reports
      the rate limit with the default of 60 seconds. */
  lemma AlwaysRateLimited(description: string, env: Environment)
    requires !IsBlank(description)
    requires forall k :: 1 <= k <= 2 ==>
      var o := env.network(Truncate(description), k); o.Reply? && o.status == 429 && o.retryAfterHeader.None?
    ensures var o := TriggerSpec(description, false, env);
      o.attempts == 2 && o.waits == [Num(10000)] && o.response == RateLimited(429, Num(60))
  {
    var sent := Truncate(description);
    RateLimitDefaultWait(sent, description, false, 1, NoCarry, env);
    var first := Attempt(sent, description, false, 1, NoCarry, env);
    RateLimitDefaultWait(sent, description, false, 2, first.carry, env);
    RateLimitRules(sent, description, false, 2, first.carry, env);
    FromStep(sent, description, false, 1, NoCarry, env);
    FromStep(sent, description, false, 2, first.carry, env);
    assert NatText(60) == "60";
    ParseIntNatText(60);
  }

  lemma {:induction false} FromAllNetworkErrors(sent: string, description: string, isTest: bool, attempt: nat, carry: Carry, env: Environment)
    requires 1 <= attempt <= MaxRetries(isTest)
    requires forall k :: attempt <= k <= MaxRetries(isTest) ==> env.network(sent, k).NetworkError?
    ensures var o := From(sent, description, isTest, attempt, carry, env);
      var last := env.network(sent, MaxRetries(isTest)).message;
      && o.attempts == MaxRetries(isTest)
      && o.response == Exhausted(Carry(Some(last), carry.lastStatusCode, carry.lastTrackingId))
    decreases MaxRetries(isTest) + 1 - attempt
  {
    var next := Attempt(sent, description, isTest, attempt, carry, env);
    if attempt < MaxRetries(isTest) {
      FromAllNetworkErrors(sent, description, isTest, attempt + 1, next.carry, env);
    }
  }

  /** When every request fails to connect, all of them are sent and the
      answer is a temporary failure carrying the last error's message. */
  lemma AllNetworkErrors(description: string, isTest: bool, env: Environment)
    requires !IsBlank(description)
    requires forall k :: 1 <= k <= MaxRetries(isTest) ==> env.network(Truncate(description), k).NetworkError?
    ensures var o := TriggerSpec(description, isTest, env);
      var last := env.network(Truncate(description), MaxRetries(isTest)).message;
      && o.attempts == MaxRetries(isTest)
      && !o.response.success && o.response.isTemporary == Some(true)
      && o.response.error == Some(if last != "" then last else "All retry attempts failed")
      && o.response.statusCode.None?
  {
    FromAllNetworkErrors(Truncate(description), description, isTest, 1, NoCarry, env);
  }

  /** `testPowerAutomateConnection`: a single-attempt trigger with a fixed
      description stamped with the current time. */
  function TestConnection(now: string, env: Environment): (o: Outcome)
    ensures o.attempts == 1
  {
    var description := "Connection test from Role Chat Interface - " + now;
    assert !IsSpace(description[0]);
    TriggerBounds(description, true, env);
    TriggerSpec(description, true, env)
  }
}

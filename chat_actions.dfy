/** The server actions of the chat: the canned reply used when no language
    model is configured, the fields of a send result that report the
    workflow run, the decision whether to run a workflow at all, and the
    connection test that a failing health check cuts short. */
module ChatActions {
  import opened Wrappers
  import opened Text
  import opened Workflow
  import opened Automation
  import opened Trigger

  // ---------------------------------------------------------------- fallback reply

  /** `/[฀-๿]/.test(content)`: some character is in the Thai block. */
  predicate IsThai(content: string)
  {
    exists i :: 0 <= i < |content| && '฀' <= content[i] <= '๿'
  }

  /** The texts of a reply in one language: the acknowledgement, then the
      sentence of each topic (meeting, e-mail, team post, scheduling). */
  datatype Phrasebook = Phrasebook(acknowledgement: string, sentences: seq<string>)

  function Phrases(thai: bool): (book: Phrasebook)
    ensures |book.sentences| == 4
  {
    if thai then
      Phrasebook("ขอบคุณสำหรับข้อความของคุณ ฉันได้รับข้อมูลแล้ว",
        ["เกี่ยวกับการประชุมที่คุณกล่าวถึง ระบบได้บันทึกข้อมูลไว้แล้ว",
         "ข้อมูลการส่ง email ได้ถูกส่งไปประมวลผลแล้ว",
         "ข้อมูลการโพสใน Team ได้ถูกบันทึกไว้แล้ว",
         "ข้อมูลการกำหนดตารางงานได้ถูกบันทึกไว้แล้ว"])
    else
      Phrasebook("Thank you for your message. I have received your information.",
        ["Regarding the meeting you mentioned, the information has been recorded.",
         "The email information has been sent for processing.",
         "The Team posting information has been recorded.",
         "The scheduling information has been recorded."])
  }

  /** The keywords of topic `g`. */
  function Keywords(thai: bool, g: nat): seq<string>
    requires g < 4
  {
    if thai then
      [["ประชุม", "meeting"], ["email"], ["team", "โพส"], ["กำหนด", "schedule", "นัดหมาย"]][g]
    else
      [["meeting"], ["email"], ["team", "post"], ["schedule", "appointment"]][g]
  }

  /** The text the keywords are looked for in: the message itself for a Thai
      message, its lower-cased form otherwise. */
  function Subject(content: string): string
  {
    if IsThai(content) then content else Lower(content)
  }

  predicate Mentions(content: string, g: nat)
    requires g < 4
  {
    exists k :: k in Keywords(IsThai(content), g) && Contains(Subject(content), k)
  }

  /** The acknowledgement followed by the sentences of those of the first
      `n` topics the message mentions, in topic order. */
  function Reply(content: string, book: Phrasebook, n: nat): string
    requires n <= 4 == |book.sentences|
  {
    if n == 0 then book.acknowledgement
    else if Mentions(content, n - 1) then Reply(content, book, n - 1) + "\n\n" + book.sentences[n - 1]
    else Reply(content, book, n - 1)
  }

  /** The reply to a message when no language model answers: the texts of
      the message's language. */
  function Fallback(content: string): (reply: string)
    ensures Phrases(IsThai(content)).acknowledgement <= reply
  {
    ReplyGrows(content, Phrases(IsThai(content)), 0, 4);
    Reply(content, Phrases(IsThai(content)), 4)
  }

  /** `generateFallbackResponse`: the reply is grown one topic at a time. */
  method GenerateFallbackResponse(content: string) returns (response: string)
    ensures response == Fallback(content)
  {
    var isThaiMessage := IsThai(content);
    var book := Phrases(isThaiMessage);
    if isThaiMessage {
      response := ThaiReply(content, book);
    } else {
      response := EnglishReply(content, book);
    }
  }

  /** The `+=` branches for a Thai message, matched against the message as written. */
  method ThaiReply(content: string, book: Phrasebook) returns (response: string)
    requires IsThai(content) && |book.sentences| == 4
    ensures response == Reply(content, book, 4)
  {
    MentionsCases(content);
    response := book.acknowledgement;
    if Contains(content, "ประชุม") || Contains(content, "meeting") {
      response := response + "\n\n" + book.sentences[0];
    }
    assert response == Reply(content, book, 1);
    if Contains(content, "email") {
      response := response + "\n\n" + book.sentences[1];
    }
    assert response == Reply(content, book, 2);
    if Contains(content, "team") || Contains(content, "โพส") {
      response := response + "\n\n" + book.sentences[2];
    }
    assert response == Reply(content, book, 3);
    if Contains(content, "กำหนด") || Contains(content, "schedule") || Contains(content, "นัดหมาย") {
      response := response + "\n\n" + book.sentences[3];
    }
  }

  /** The `+=` branches for any other message, matched against its lower-cased form. */
  method EnglishReply(content: string, book: Phrasebook) returns (response: string)
    requires !IsThai(content) && |book.sentences| == 4
    ensures response == Reply(content, book, 4)
  {
    MentionsCases(content);
    response := book.acknowledgement;
    var lower := Lower(content);
    if Contains(lower, "meeting") {
      response := response + "\n\n" + book.sentences[0];
    }
    assert response == Reply(content, book, 1);
    if Contains(lower, "email") {
      response := response + "\n\n" + book.sentences[1];
    }
    assert response == Reply(content, book, 2);
    if Contains(lower, "team") || Contains(lower, "post") {
      response := response + "\n\n" + book.sentences[2];
    }
    assert response == Reply(content, book, 3);
    if Contains(lower, "schedule") || Contains(lower, "appointment") {
      response := response + "\n\n" + book.sentences[3];
    }
  }

  lemma {:induction false} ReplyGrows(content: string, book: Phrasebook, m: nat, n: nat)
    requires m <= n <= 4 == |book.sentences|
    ensures Reply(content, book, m) <= Reply(content, book, n)
    decreases n
  {
    if m < n {
      ReplyGrows(content, book, m, n - 1);
    }
  }

  /** The reply is the bare acknowledgement exactly when the message
      mentions none of the topics. */
  lemma {:induction false} ReplyLength(content: string, book: Phrasebook, n: nat)
    requires n <= 4 == |book.sentences|
    ensures Reply(content, book, n) == book.acknowledgement <==> forall g :: 0 <= g < n ==> !Mentions(content, g)
  {
    if n > 0 {
      ReplyLength(content, book, n - 1);
      ReplyGrows(content, book, 0, n - 1);
    }
  }

  /** Every topic the message mentions has its sentence in the reply. */
  lemma MentionedTopicAnswered(content: string, book: Phrasebook, g: nat)
    requires g < 4 == |book.sentences| && Mentions(content, g)
    ensures Contains(Reply(content, book, 4), book.sentences[g])
  {
    var sentence := book.sentences[g];
    ReplyGrows(content, book, g + 1, 4);
    var rest := Reply(content, book, 4)[|Reply(content, book, g + 1)|..];
    assert Reply(content, book, 4) == Reply(content, book, g + 1) + rest;
    ContainsWitness(sentence, sentence, 0);
    ContainsInSuffix(Reply(content, book, g) + "\n\n", sentence, sentence);
    ContainsInPrefix(Reply(content, book, g + 1), rest, sentence);
  }

  /** The topic tests the reply performs, written out keyword by keyword. */
  lemma MentionsCases(content: string)
    ensures var subject := Subject(content);
      && (Mentions(content, 0) <==> Contains(subject, "meeting") || (IsThai(content) && Contains(subject, "ประชุม")))
      && (Mentions(content, 1) <==> Contains(subject, "email"))
      && (Mentions(content, 2) <==> (|| Contains(subject, "team")
                                    || (IsThai(content) && Contains(subject, "โพส"))
                                    || (!IsThai(content) && Contains(subject, "post"))))
      && (Mentions(content, 3) <==> (|| Contains(subject, "schedule")
                                    || (IsThai(content) && (Contains(subject, "กำหนด") || Contains(subject, "นัดหมาย")))
                                    || (!IsThai(content) && Contains(subject, "appointment"))))
  {
    var thai := IsThai(content);
    if thai {
      assert Keywords(thai, 0) == ["ประชุม", "meeting"];
      assert Keywords(thai, 2) == ["team", "โพส"];
      assert Keywords(thai, 3) == ["กำหนด", "schedule", "นัดหมาย"];
    } else {
      assert Keywords(thai, 0) == ["meeting"];
      assert Keywords(thai, 2) == ["team", "post"];
      assert Keywords(thai, 3) == ["schedule", "appointment"];
    }
    assert Keywords(thai, 1) == ["email"];
  }

  // ---------------------------------------------------------------- sending

  /** The action calls `shouldTriggerPowerAutomate` without awaiting it, so
      the value it tests is a pending promise, an object. */
  datatype Promise<T> = Promise(eventual: T)

  /** Any object, a promise included, is truthy. */
  predicate PromiseTruthy<T>(p: Promise<T>)
  {
    p.Promise?
  }

  /** Whether `sendMessage` plans and runs a workflow, as written. */
  predicate ShouldPlanAsWritten(content: string)
  {
    PromiseTruthy(Promise(ShouldTrigger(content)))
  }

  /** Whether `sendMessage` plans and runs a workflow once the keyword test
      is awaited: exactly when some trigger word occurs. */
  predicate ShouldPlan(content: string)
  {
    ShouldTrigger(content)
  }

  /** As written, even a plain greeting plans and runs a workflow, although
      no trigger word occurs in it. */
  lemma GreetingPlansAsWritten()
    ensures ShouldPlanAsWritten("hi") && !ShouldTrigger("hi")
  {
    forall t | t in Triggers ensures !Contains(Lower("hi"), Lower(t)) {
      NotContainsLonger(Lower("hi"), Lower(t));
    }
  }

  /** With the test awaited, a greeting plans nothing, and any message
      mentioning a meeting, an appointment or an e-mail still does. */
  lemma ShouldPlanIsKeywordTest(content: string)
    ensures !ShouldPlan("hi")
    ensures (|| Contains(Lower(content), "meeting") || Contains(Lower(content), "ประชุม")
             || Contains(Lower(content), "appointment") || Contains(Lower(content), "email"))
            ==> ShouldPlan(content)
  {
    GreetingPlansAsWritten();
    ShouldTriggerCoversMeetingAndEmail(content);
  }

  /** How the workflow part of `sendMessage` went. */
  datatype WorkflowRun =
    | NotRun
    | PlanningThrew
    | ExecutionThrew(planId: string)
    | Executed(planId: string, status: PlanStatus)

  /** The workflow fields of the send result. */
  datatype WorkflowReport = WorkflowReport(triggered: bool, success: bool, error: Option<string>,
                                           statusCode: int, trackingId: Option<string>)

  /** `sendMessage`'s result fields from the run, as written: the test that
      decides whether to plan is the pending promise, so `triggered` (which
      holds that promise) is always truthy. Success only for a completed
      execution, status 200 exactly then and 500 otherwise, an error only for
      a failed execution, and the plan's id when a plan exists. */
  function Report(content: string, run: WorkflowRun): (r: WorkflowReport)
    ensures r.triggered
    ensures r.statusCode == 200 <==> r.success
    ensures r.statusCode in {200, 500}
    ensures r.success <==> run.Executed? && run.status == PlanCompleted
    ensures r.error.Some? <==> run.Executed? && run.status == PlanFailed
    ensures r.trackingId.Some? <==> run.Executed? || run.ExecutionThrew?
  {
    var success := run.Executed? && run.status == PlanCompleted;
    WorkflowReport(ShouldPlanAsWritten(content), success,
      if run.Executed? && run.status == PlanFailed then Some("Workflow execution failed") else None,
      if success then 200 else 500,
      if run.Executed? || run.ExecutionThrew? then Some(run.planId) else None)
  }

  /** The same fields once the keyword test is awaited: a message without a
      trigger word runs nothing and reports it was not triggered. */
  function ReportIntended(content: string, run: WorkflowRun): (r: WorkflowReport)
    requires !ShouldPlan(content) ==> run.NotRun?
    ensures r.triggered <==> ShouldPlan(content)
    ensures !r.triggered ==> !r.success && r.error.None? && r.statusCode == 500 && r.trackingId.None?
    ensures r.success == Report(content, run).success && r.error == Report(content, run).error
    ensures r.statusCode == Report(content, run).statusCode && r.trackingId == Report(content, run).trackingId
  {
    Report(content, run).(triggered := ShouldPlan(content))
  }

  /** An execution ends completed or failed, so an executed run reports
      either success or the failure message, never both and never neither. */
  lemma ExecutedRunReportsOneOutcome(content: string, planId: string, status: PlanStatus)
    requires status in {PlanCompleted, PlanFailed}
    ensures var r := Report(content, Executed(planId, status));
      r.success != r.error.Some? && r.trackingId == Some(planId)
  {
  }

  // ---------------------------------------------------------------- connection test

  /** `testPowerAutomateConnectionAction` as written: a health check that
      failed with a status of 500 or more ends the test, and the error text
      interpolates the health result's `error`, which a status verdict does
      not set (it prints as "undefined"). */
  function ConnectionTestAsWritten(health: HeadOutcome, now: string, env: Environment): (r: TriggerResponse)
    ensures health.HeadStatus? && health.status >= 500 ==>
      && !r.success && r.isTemporary == Some(true) && r.statusCode == Some(health.status)
      && r.error == Some("Health check failed: undefined")
    ensures !(health.HeadStatus? && health.status >= 500) ==> r == TestConnection(now, env).response
  {
    var h := HealthVerdict(health);
    if !h.success && h.statusCode.Some? && h.statusCode.value != 0 && h.statusCode.value >= 500 then
      assert "Health check failed: " + "undefined" == "Health check failed: undefined";
      Failure("Health check failed: " + h.error.GetOr("undefined"), h.statusCode, JsonValue.JsUndefined, true, None)
    else TestConnection(now, env).response
  }

  /** For every unhealthy status the text as written reads "Health check
      failed: undefined". */
  lemma ConnectionTestSaysUndefined(status: int, now: string, env: Environment)
    requires status >= 500
    ensures ConnectionTestAsWritten(HeadStatus(status), now, env).error == Some("Health check failed: undefined")
  {
    assert "Health check failed: " + "undefined" == "Health check failed: undefined";
  }

  /** The connection test with the health result's message in the error text. */
  function ConnectionTest(health: HeadOutcome, now: string, env: Environment): (r: TriggerResponse)
    ensures health.HeadStatus? && health.status >= 500 ==>
      && !r.success && r.isTemporary == Some(true) && r.statusCode == Some(health.status)
      && r.error == Some("Health check failed: " + ("Health check returned " + IntText(health.status)))
    ensures !(health.HeadStatus? && health.status >= 500) ==> r == TestConnection(now, env).response
  {
    var h := HealthVerdict(health);
    if !h.success && h.statusCode.Some? && h.statusCode.value != 0 && h.statusCode.value >= 500 then
      Failure("Health check failed: " + h.error.GetOr(h.message.GetOr("")), h.statusCode, JsonValue.JsUndefined, true, None)
    else TestConnection(now, env).response
  }

  /** The corrected error text names the status the health check returned. */
  lemma ConnectionTestNamesStatus(status: int, now: string, env: Environment)
    requires status >= 500
    ensures ConnectionTest(HeadStatus(status), now, env).error
         == Some("Health check failed: Health check returned " + IntText(status))
    ensures Contains(ConnectionTest(HeadStatus(status), now, env).error.value, IntText(status))
  {
    var text := "Health check failed: Health check returned ";
    assert "Health check failed: " + ("Health check returned " + IntText(status)) == text + IntText(status);
    ContainsWitness(IntText(status), IntText(status), 0);
    ContainsInSuffix(text, IntText(status), IntText(status));
  }

  /** The two differ only in the error text of the short cut: same outcome,
      same status, same classification. */
  lemma ConnectionTestAgreesOtherwise(health: HeadOutcome, now: string, env: Environment)
    ensures var a := ConnectionTestAsWritten(health, now, env);
      var c := ConnectionTest(health, now, env);
      a.success == c.success && a.statusCode == c.statusCode && a.isTemporary == c.isTemporary
      && (a.error != c.error ==> health.HeadStatus? && health.status >= 500)
  {
  }

  /** A network failure of the health check does not stop the test. */
  lemma HealthNetworkFailureStillTests(message: string, now: string, env: Environment)
    ensures ConnectionTest(HeadThrewError(message), now, env) == TestConnection(now, env).response
    ensures ConnectionTest(HeadThrewError(message), now, env).statusCode.None? ==>
      TestConnection(now, env).response.statusCode.None?
  {
  }
}

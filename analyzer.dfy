/** The request analyzer of the workflow planner: keyword detection of the
    three intents (meeting, e-mail, team post), the meeting hour, the
    afternoon marker for posts, and the title/topic ladders.

    Keyword tests are substring tests on the ASCII-lowered request; the
    e-mail-address tokens found by the address pattern are an input. */
module Analyzer {
  import opened Text
  import opened Wrappers

  predicate HasMeetingKeyword(lower: string)
  {
    Contains(lower, "ประชุม") || Contains(lower, "meeting") || Contains(lower, "นัดหมาย") || Contains(lower, "appointment")
  }

  predicate HasEmailKeyword(lower: string)
  {
    Contains(lower, "email") || Contains(lower, "ส่ง") || Contains(lower, "แจ้ง")
  }

  predicate HasPostKeyword(lower: string)
  {
    Contains(lower, "โพส") || Contains(lower, "post") || Contains(lower, "team") || Contains(lower, "แชร์") || Contains(lower, "share")
  }

  /** The index of the first non-space character at or after `j` (`\s*` is greedy). */
  function SkipSpaces(s: string, j: nat): (k: nat)
    requires j <= |s|
    ensures j <= k <= |s|
    ensures forall m :: j <= m < k ==> IsSpace(s[m])
    ensures k < |s| ==> !IsSpace(s[k])
    decreases |s| - j
  {
    if j < |s| && IsSpace(s[j]) then SkipSpaces(s, j + 1) else j
  }

  /** How many digits `\d{1,2}` takes at a digit position: two when it can. */
  function DigitRun(s: string, i: nat): (n: nat)
    requires i < |s| && IsDigit(s[i])
    ensures n == 1 || n == 2
    ensures i + n <= |s| && forall m :: i <= m < i + n ==> IsDigit(s[m])
  {
    if i + 1 < |s| && IsDigit(s[i + 1]) then 2 else 1
  }

  /** One of the hour markers `โมง`, `:00`, `am`, `pm` (the last two in any case) at `j`. */
  predicate HourMarkerAt(s: string, j: nat)
  {
    OccursAt(s, "โมง", j) || OccursAt(s, ":00", j) || OccursAt(Lower(s), "am", j) || OccursAt(Lower(s), "pm", j)
  }

  /** `/(\d{1,2})\s*(?:โมง|:00|am|pm)/i` matches at position `i`. A marker never
      starts with a digit or a space, so the greedy choices are the only ones
      that can succeed. */
  predicate HourMatchAt(s: string, i: nat)
  {
    i < |s| && IsDigit(s[i]) && HourMarkerAt(s, SkipSpaces(s, i + DigitRun(s, i)))
  }

  /** The leftmost position at or after `from` where the hour pattern matches. */
  function FirstHourMatch(s: string, from: nat): (r: Option<nat>)
    ensures r.Some? ==> from <= r.value < |s| && HourMatchAt(s, r.value)
    ensures r.Some? ==> forall i :: from <= i < r.value ==> !HourMatchAt(s, i)
    ensures r.None? ==> forall i :: from <= i ==> !HourMatchAt(s, i)
    decreases |s| - from
  {
    if from >= |s| then None
    else if HourMatchAt(s, from) then Some(from)
    else FirstHourMatch(s, from + 1)
  }

  /** The meeting time: the first one- or two-digit hour followed by a marker,
      as "H:00", or "09:00" when there is none. */
  function MeetingTime(request: string): (t: string)
    ensures t == "09:00" || (exists i :: 0 <= i < |request| && HourMatchAt(request, i))
    ensures (exists i :: 0 <= i < |request| && HourMatchAt(request, i)) ==>
      var i := FirstHourMatch(request, 0).value;
      t == request[i..i + DigitRun(request, i)] + ":00"
      && (forall j :: 0 <= j < i ==> !HourMatchAt(request, j))
  {
    match FirstHourMatch(request, 0)
    case Some(i) => request[i..i + DigitRun(request, i)] + ":00"
    case None => "09:00"
  }

  /** `/บ่าย|afternoon|(\d{1,2})\s*โมงเย็น/i` matches somewhere. */
  predicate AfternoonMarker(request: string)
  {
    || Contains(request, "บ่าย")
    || Contains(Lower(request), "afternoon")
    || exists i | 0 <= i < |request| ::
         IsDigit(request[i]) && OccursAt(request, "โมงเย็น", SkipSpaces(request, i + DigitRun(request, i)))
  }

  /** `extractMeetingTitle`: the first rule that applies wins. */
  function MeetingTitle(request: string): (t: string)
    ensures Contains(request, "ประชุมทีม") <==> t == "ประชุมทีม"
    ensures t == "ประชุมงาน" <==> Contains(request, "ประชุม") && !Contains(request, "ประชุมทีม")
    ensures t == "Team Meeting" <==> !Contains(request, "ประชุม") && Contains(request, "meeting")
    ensures t == "การประชุม" <==> !Contains(request, "ประชุม") && !Contains(request, "meeting")
  {
    if Contains(request, "ประชุมทีม") then
      ContainsNeedlePrefix(request, "ประชุมทีม", |"ประชุม"|);
      assert "ประชุมทีม"[..|"ประชุม"|] == "ประชุม";
      "ประชุมทีม"
    else if Contains(request, "ประชุม") then "ประชุมงาน"
    else if Contains(request, "meeting") then "Team Meeting"
    else "การประชุม"
  }

  /** `extractMainTopic`: the first rule that applies wins. */
  function MainTopic(request: string): (t: string)
    ensures t == "การประชุม" <==> Contains(request, "ประชุม")
    ensures t == "โครงการ" <==> !Contains(request, "ประชุม") && Contains(request, "โครงการ")
    ensures t == "งาน" <==> !Contains(request, "ประชุม") && !Contains(request, "โครงการ") && Contains(request, "งาน")
    ensures t == "หัวข้อทั่วไป" <==> !Contains(request, "ประชุม") && !Contains(request, "โครงการ") && !Contains(request, "งาน")
  {
    if Contains(request, "ประชุม") then "การประชุม"
    else if Contains(request, "โครงการ") then "โครงการ"
    else if Contains(request, "งาน") then "งาน"
    else "หัวข้อทั่วไป"
  }

  /** `request` between a fixed head and tail: the text starts with the head,
      ends with the tail and quotes the request in between. */
  function Framed(head: string, request: string, tail: string): (t: string)
    ensures |t| == |head| + |request| + |tail|
    ensures t[..|head|] == head && t[|head| + |request|..] == tail
    ensures OccursAt(t, request, |head|) && Contains(t, request)
  {
    var t := head + request + tail;
    assert t[|head|..|head| + |request|] == request;
    t
  }

  /** The notification e-mail body; it quotes the request. */
  function EmailBody(request: string): (b: string)
    ensures Contains(b, request)
  {
    Framed("สวัสดีครับ/ค่ะ\n\nขอแจ้งให้ทราบเกี่ยวกับ: ", request, "\n\nรายละเอียดเพิ่มเติมจะแจ้งให้ทราบอีกครั้ง\n\nขอบคุณครับ/ค่ะ")
  }

  /** The team post text; it quotes the request. It has the shape of
      `EmailBody` with other fixed texts, as the planner builds the two
      separately. */
  function PostMessage(request: string): (m: string)
    ensures Contains(m, request)
  {
    Framed("📢 อัพเดท: ", request, "\n\n#TeamUpdate #Meeting")
  }

  datatype MeetingDetails = MeetingDetails(time: string, title: string, description: string, attendees: seq<string>)
  datatype EmailDetails = EmailDetails(recipients: seq<string>, subject: string, body: string)
  datatype PostDetails = PostDetails(platform: string, message: string, topic: string, scheduledTime: Option<string>)

  datatype Analysis = Analysis(
    hasMeeting: bool, meetingDetails: MeetingDetails,
    hasEmail: bool, emailDetails: EmailDetails,
    hasPost: bool, postDetails: PostDetails)

  /** `analyzeUserRequest`. `addresses` are the address-shaped tokens of the
      request, in order; they are the attendees and the recipients. */
  function AnalyzeUserRequest(request: string, addresses: seq<string>): (a: Analysis)
    ensures a.hasMeeting == HasMeetingKeyword(Lower(request))
    ensures a.hasEmail == HasEmailKeyword(Lower(request))
    ensures a.hasPost == HasPostKeyword(Lower(request))
    ensures a.meetingDetails.time == MeetingTime(request)
    ensures a.meetingDetails.title == (if a.hasMeeting then MeetingTitle(request) else "")
    ensures a.meetingDetails.attendees == addresses && a.emailDetails.recipients == addresses
    ensures a.postDetails.scheduledTime == (if AfternoonMarker(request) then Some("13:00") else None)
    ensures Contains(a.emailDetails.body, request) && Contains(a.postDetails.message, request)
  {
    var lower := Lower(request);
    var hasMeeting := HasMeetingKeyword(lower);
    Analysis(
      hasMeeting,
      MeetingDetails(MeetingTime(request), if hasMeeting then MeetingTitle(request) else "",
                     if hasMeeting then request else "", addresses),
      HasEmailKeyword(lower),
      EmailDetails(addresses,
                   if hasMeeting then "การประชุม: " + MeetingTitle(request) else "แจ้งเตือนจากระบบ",
                   EmailBody(request)),
      HasPostKeyword(lower),
      PostDetails("Microsoft Teams", PostMessage(request), MainTopic(request),
                  if AfternoonMarker(request) then Some("13:00") else None))
  }

  /** `generateWorkflowTitle` of the planner: "Workflow: " followed by the
      detected intents joined by " + ". */
  function WorkflowTitle(a: Analysis): (t: string)
    ensures t == "Workflow: " + JoinPlus(TitleParts(a))
    ensures |TitleParts(a)| == (if a.hasMeeting then 1 else 0) + (if a.hasEmail then 1 else 0) + (if a.hasPost then 1 else 0)
    ensures !a.hasMeeting && !a.hasEmail && !a.hasPost ==> t == "Workflow: "
  {
    "Workflow: " + JoinPlus(TitleParts(a))
  }

  const MeetingLabel := "การประชุม"

  /** Where a title label stands in the fixed order meeting, e-mail, post. */
  function LabelRank(part: string): nat
  {
    if part == MeetingLabel then 0 else if part == "Email" then 1 else 2
  }

  /** The labels of the detected intents: each exactly when its flag is set,
      in the order meeting, e-mail, post, none twice. */
  function TitleParts(a: Analysis): (parts: seq<string>)
    ensures MeetingLabel in parts <==> a.hasMeeting
    ensures "Email" in parts <==> a.hasEmail
    ensures "Team Post" in parts <==> a.hasPost
    ensures forall part :: part in parts ==> part in {MeetingLabel, "Email", "Team Post"}
    ensures forall i, j :: 0 <= i < j < |parts| ==> LabelRank(parts[i]) < LabelRank(parts[j])
  {
    (if a.hasMeeting then [MeetingLabel] else []) + (if a.hasEmail then ["Email"] else []) + (if a.hasPost then ["Team Post"] else [])
  }

  /** `parts.join(" + ")`. */
  function JoinPlus(parts: seq<string>): string
  {
    if |parts| == 0 then ""
    else if |parts| == 1 then parts[0]
    else JoinPlus(parts[..|parts| - 1]) + " + " + parts[|parts| - 1]
  }

  /** Joining one more part appends the separator and that part; a single
      part is itself and no parts join to the empty text. */
  lemma JoinPlusSnoc(parts: seq<string>, last: string)
    ensures JoinPlus([]) == "" && JoinPlus([last]) == last
    ensures |parts| > 0 ==> JoinPlus(parts + [last]) == JoinPlus(parts) + " + " + last
  {
    var u := parts + [last];
    assert u[..|u| - 1] == parts && u[|u| - 1] == last;
  }

  /** The joined text holds every part and one three-character separator
      between each two neighbours. */
  lemma {:induction false} JoinPlusLength(parts: seq<string>)
    ensures |JoinPlus(parts)| == TotalLength(parts) + (if |parts| == 0 then 0 else 3 * (|parts| - 1))
  {
    if |parts| > 1 {
      var init := parts[..|parts| - 1];
      JoinPlusLength(init);
      assert init + [parts[|parts| - 1]] == parts;
      TotalLengthSnoc(init, parts[|parts| - 1]);
    }
  }

  function TotalLength(parts: seq<string>): nat
  {
    if |parts| == 0 then 0 else |parts[0]| + TotalLength(parts[1..])
  }

  lemma {:induction false} TotalLengthSnoc(parts: seq<string>, last: string)
    ensures TotalLength(parts + [last]) == TotalLength(parts) + |last|
  {
    if |parts| > 0 {
      assert (parts + [last])[1..] == parts[1..] + [last];
      TotalLengthSnoc(parts[1..], last);
    }
  }

  /** The title for every combination of detected intents, spelled out. */
  lemma WorkflowTitleTable(a: Analysis)
    ensures a.hasMeeting && a.hasEmail && a.hasPost ==> WorkflowTitle(a) == "Workflow: การประชุม + Email + Team Post"
    ensures a.hasMeeting && a.hasEmail && !a.hasPost ==> WorkflowTitle(a) == "Workflow: การประชุม + Email"
    ensures a.hasMeeting && !a.hasEmail && a.hasPost ==> WorkflowTitle(a) == "Workflow: การประชุม + Team Post"
    ensures !a.hasMeeting && a.hasEmail && a.hasPost ==> WorkflowTitle(a) == "Workflow: Email + Team Post"
    ensures a.hasMeeting && !a.hasEmail && !a.hasPost ==> WorkflowTitle(a) == "Workflow: การประชุม"
    ensures !a.hasMeeting && a.hasEmail && !a.hasPost ==> WorkflowTitle(a) == "Workflow: Email"
    ensures !a.hasMeeting && !a.hasEmail && a.hasPost ==> WorkflowTitle(a) == "Workflow: Team Post"
    ensures !a.hasMeeting && !a.hasEmail && !a.hasPost ==> WorkflowTitle(a) == "Workflow: "
  {
    var parts := TitleParts(a);
    if a.hasMeeting && a.hasEmail && a.hasPost {
      assert parts == [MeetingLabel, "Email", "Team Post"];
      TitleOfThree(MeetingLabel, "Email", "Team Post");
      AllIntentsText();
    } else if a.hasMeeting && a.hasEmail {
      assert parts == [MeetingLabel, "Email"];
      TitleOfTwo(MeetingLabel, "Email");
      TwoIntentsText();
    } else if a.hasMeeting && a.hasPost {
      assert parts == [MeetingLabel, "Team Post"];
      TitleOfTwo(MeetingLabel, "Team Post");
      TwoIntentsText();
    } else if a.hasEmail && a.hasPost {
      assert parts == ["Email", "Team Post"];
      TitleOfTwo("Email", "Team Post");
      TwoIntentsText();
    }
  }

  lemma AllIntentsText()
    ensures "Workflow: " + (MeetingLabel + " + " + "Email" + " + " + "Team Post") == "Workflow: การประชุม + Email + Team Post"
  {
  }

  lemma TwoIntentsText()
    ensures "Workflow: " + (MeetingLabel + " + " + "Email") == "Workflow: การประชุม + Email"
    ensures "Workflow: " + (MeetingLabel + " + " + "Team Post") == "Workflow: การประชุม + Team Post"
    ensures "Workflow: " + ("Email" + " + " + "Team Post") == "Workflow: Email + Team Post"
  {
  }

  lemma TitleOfTwo(x: string, y: string)
    ensures JoinPlus([x, y]) == x + " + " + y
  {
    JoinPlusSnoc([x], y);
    assert [x] + [y] == [x, y];
  }

  lemma TitleOfThree(x: string, y: string, z: string)
    ensures JoinPlus([x, y, z]) == x + " + " + y + " + " + z
  {
    TitleOfTwo(x, y);
    JoinPlusSnoc([x, y], z);
    assert [x, y] + [z] == [x, y, z];
  }
}

/** The rule-based parts of the mentoring report assistant: turning the language
    model's follow-up tasks into scheduled tasks, the keyword fallbacks for strengths,
    improvements and follow-up tasks, the Thai labels of visit types and focus areas,
    and the Thai date of a visit. */
module MentoringAi {
  import opened Common
  import ThaiCalendar

  datatype FollowUpTask = FollowUpTask(task: string, deadline: string, priority: string,
                                       relatedIndicator: Option<string>)

  // ---------------------------------------------------------------
  // The follow-up mapping in analyzeVisitWithAI
  // ---------------------------------------------------------------

  /** `aiResult.followUpTasks.map((task, index) => ...)`: the first task within a week and
      HIGH, every later one within two weeks and MEDIUM. */
  function ScheduleTasks(tasks: seq<string>): (r: seq<FollowUpTask>)
    ensures |r| == |tasks|
    ensures forall i :: 0 <= i < |r| ==> r[i].task == tasks[i] && r[i].relatedIndicator == None
    ensures forall i :: 0 <= i < |r| ==> (r[i].priority == "HIGH" <==> i == 0)
    ensures forall i :: 0 <= i < |r| ==> r[i].deadline == (if i == 0 then "1 สัปดาห์" else "2 สัปดาห์")
  {
    seq(|tasks|, i requires 0 <= i < |tasks| =>
      FollowUpTask(tasks[i], if i == 0 then "1 สัปดาห์" else "2 สัปดาห์",
                   if i == 0 then "HIGH" else "MEDIUM", None))
  }

  // ---------------------------------------------------------------
  // extractStrengths / extractImprovements
  // ---------------------------------------------------------------

  const PlanStrength: string := "มีการเตรียมแผนการสอนที่ชัดเจนและครบถ้วน"
  const ParticipationStrength: string := "จัดกิจกรรมให้นักเรียนมีส่วนร่วมอย่างเหมาะสม"
  const MediaStrength: string := "เตรียมสื่อและอุปกรณ์การสอนได้ดี"
  const QuestionStrength: string := "ใช้คำถามกระตุ้นการคิดของนักเรียนได้ดี"
  const DefaultStrength: string := "มีความตั้งใจในการจัดการเรียนการสอน"

  const TimeImprovement: string := "การบริหารจัดการเวลาในชั้นเรียน"
  const BehaviourImprovement: string := "การจัดการพฤติกรรมนักเรียนในชั้นเรียน"
  const MediaImprovement: string := "การเตรียมและใช้สื่อการสอนให้หลากหลาย"
  const AssessmentImprovement: string := "การวัดและประเมินผลการเรียนรู้"

  lemma PhraseShapes()
    ensures |PlanStrength| == 39 && |ParticipationStrength| == 43 && |MediaStrength| == 31
    ensures |QuestionStrength| == 37 && |DefaultStrength| == 34
    ensures |TimeImprovement| == 30 && |BehaviourImprovement| == 36 && |MediaImprovement| == 36
    ensures |AssessmentImprovement| == 29 && BehaviourImprovement[3] != MediaImprovement[3]
  {
  }

  function If(c: bool, x: string): seq<string> {
    if c then [x] else []
  }

  /** Either of two keywords occurs. */
  predicate Either(text: string, a: string, b: string) {
    Contains(text, a) || Contains(text, b)
  }

  /** The strengths found in a non-empty text, before the default is considered. */
  function StrengthHits(text: string): seq<string> {
    If(Contains(text, "แผนการสอน"), PlanStrength) +
    If(Either(text, "นักเรียนมีส่วนร่วม", "active learning"), ParticipationStrength) +
    If(Either(text, "สื่อ", "วัสดุ"), MediaStrength) +
    If(Either(text, "ถาม", "คำถาม"), QuestionStrength)
  }

  /** `extractStrengths`: nothing for an absent or empty text, else the keyword strengths or,
      when none matched, the default sentence. */
  function ExtractStrengths(text: Option<string>): seq<string> {
    if text == None || text.value == "" then []
    else if StrengthHits(text.value) == [] then [DefaultStrength]
    else StrengthHits(text.value)
  }

  /** No strengths exactly for an absent or empty text; each keyword strength appears exactly
      when its keyword does, and the default exactly when none does. */
  lemma StrengthsProperties(text: Option<string>)
    ensures ExtractStrengths(text) == [] <==> text == None || text.value == ""
    ensures text != None && text.value != "" ==>
      var t := text.value;
      var r := ExtractStrengths(text);
      (PlanStrength in r <==> Contains(t, "แผนการสอน")) &&
      (ParticipationStrength in r <==> Either(t, "นักเรียนมีส่วนร่วม", "active learning")) &&
      (MediaStrength in r <==> Either(t, "สื่อ", "วัสดุ")) &&
      (QuestionStrength in r <==> Either(t, "ถาม", "คำถาม")) &&
      (DefaultStrength in r <==> StrengthHits(t) == [])
  {
    PhraseShapes();
  }

  /** `extractImprovements`: nothing for an absent or empty text, else the keyword improvements. */
  function ExtractImprovements(text: Option<string>): seq<string> {
    if text == None || text.value == "" then []
    else
      var t := text.value;
      If(Contains(t, "เวลา"), TimeImprovement) +
      If(Either(t, "วินัย", "พฤติกรรม"), BehaviourImprovement) +
      If(Either(t, "สื่อ", "ขาด"), MediaImprovement) +
      If(Either(t, "ประเมิน", "วัดผล"), AssessmentImprovement)
  }

  /** Each improvement appears exactly when its keyword does; unlike the strengths there is no
      default, so a non-empty text can give none at all. */
  lemma ImprovementsProperties(t: string)
    requires t != ""
    ensures TimeImprovement in ExtractImprovements(Some(t)) <==> Contains(t, "เวลา")
    ensures BehaviourImprovement in ExtractImprovements(Some(t)) <==> Either(t, "วินัย", "พฤติกรรม")
    ensures MediaImprovement in ExtractImprovements(Some(t)) <==> Either(t, "สื่อ", "ขาด")
    ensures AssessmentImprovement in ExtractImprovements(Some(t)) <==> Either(t, "ประเมิน", "วัดผล")
  {
    PhraseShapes();
  }

  /** An absent or empty text gives no improvement, and so can a non-empty one. */
  lemma ImprovementsMayBeEmpty(text: Option<string>)
    ensures text == None || text.value == "" ==> ExtractImprovements(text) == []
    ensures ExtractImprovements(Some("x")) == []
  {
  }

  // ---------------------------------------------------------------
  // generateFollowUpTasks
  // ---------------------------------------------------------------

  const NextMeeting: FollowUpTask := FollowUpTask("นัดหมายการติดตามผลครั้งถัดไป", "1 เดือน", "HIGH", None)

  /** The tasks of the `switch` on the focus area. */
  function AreaTasks(focusArea: string): seq<FollowUpTask> {
    match focusArea
    case "CLASSROOM" => [
      FollowUpTask("ปรับปรุงแผนการสอนตามข้อเสนอแนะ", "1 สัปดาห์", "HIGH", Some("WP.1")),
      FollowUpTask("จัดทำสื่อการสอนเพิ่มเติม", "2 สัปดาห์", "MEDIUM", Some("WP.2"))]
    case "MANAGEMENT" => [
      FollowUpTask("จัดทำกฎกติกาชั้นเรียนร่วมกับนักเรียน", "1 สัปดาห์", "HIGH", Some("ET.2"))]
    case "PEDAGOGY" => [
      FollowUpTask("ศึกษาเทคนิคการสอนแบบ Active Learning", "2 สัปดาห์", "MEDIUM", Some("WP.2"))]
    case _ => []
  }

  /** `generateFollowUpTasks`: the focus area's tasks, then the next meeting when a follow-up is
      required. */
  function GenerateFollowUpTasks(focusArea: string, followUpRequired: bool): seq<FollowUpTask> {
    AreaTasks(focusArea) + (if followUpRequired then [NextMeeting] else [])
  }

  /** CLASSROOM gives two tasks, MANAGEMENT and PEDAGOGY one, any other area none; the next
      meeting, the only task without an indicator, is added exactly when a follow-up is required. */
  lemma FollowUpTaskCounts(focusArea: string, followUpRequired: bool)
    ensures var n := |GenerateFollowUpTasks(focusArea, followUpRequired)| - (if followUpRequired then 1 else 0);
      n == (if focusArea == "CLASSROOM" then 2
            else if focusArea == "MANAGEMENT" || focusArea == "PEDAGOGY" then 1 else 0)
    ensures NextMeeting in GenerateFollowUpTasks(focusArea, followUpRequired) <==> followUpRequired
    ensures followUpRequired ==>
      GenerateFollowUpTasks(focusArea, followUpRequired)[|GenerateFollowUpTasks(focusArea, followUpRequired)| - 1]
        == NextMeeting
    ensures forall t :: t in GenerateFollowUpTasks(focusArea, followUpRequired) ==>
      (t.relatedIndicator == None <==> t == NextMeeting)
  {
  }

  // ---------------------------------------------------------------
  // mapVisitType / mapFocusArea
  // ---------------------------------------------------------------

  const VisitTypeNames: map<string, string> := map[
    "LESSON_STUDY" := "Lesson Study",
    "COACHING" := "การโค้ช",
    "OBSERVATION" := "การสังเกตการสอน",
    "FOLLOW_UP" := "การติดตามผล"
  ]

  const FocusAreaNames: map<string, string> := map[
    "CLASSROOM" := "การจัดการเรียนการสอนในชั้นเรียน",
    "MANAGEMENT" := "การบริหารจัดการชั้นเรียน",
    "STUDENT_CARE" := "การดูแลนักเรียน",
    "COMMUNITY" := "การสร้างความสัมพันธ์กับชุมชน",
    "PEDAGOGY" := "หลักการและวิธีการสอน"
  ]

  /** `map[key] || key`: the label of a known code, any other code as it is. */
  function Label(names: map<string, string>, code: string): (r: string)
    ensures code in names && names[code] != "" ==> r == names[code]
    ensures code !in names ==> r == code
  {
    if code in names && names[code] != "" then names[code] else code
  }

  function MapVisitType(visitType: string): string {
    Label(VisitTypeNames, visitType)
  }

  function MapFocusArea(area: string): string {
    Label(FocusAreaNames, area)
  }

  /** A code is left as it is exactly when it is not one of the known codes. */
  lemma LabelsProperties(code: string)
    ensures MapVisitType(code) == code <==> code !in VisitTypeNames
    ensures MapFocusArea(code) == code <==> code !in FocusAreaNames
    ensures code in VisitTypeNames ==> MapVisitType(code) == VisitTypeNames[code]
    ensures code in FocusAreaNames ==> MapFocusArea(code) == FocusAreaNames[code]
  {
  }

  // ---------------------------------------------------------------
  // formatThaiDate
  // ---------------------------------------------------------------

  /** `formatThaiDate`: day of the month, Thai month name and Buddhist-era year, separated by
      spaces.  `month` is JavaScript's zero-based `getMonth()`. */
  function FormatThaiDate(day: nat, month: nat, year: nat): string
    requires month < 12
  {
    DateText(day, ThaiCalendar.MonthNames[month], year)
  }

  function DateText(day: nat, monthName: string, year: nat): string {
    NatToString(day) + " " + (monthName + " " + NatToString(ThaiCalendar.BuddhistYear(year)))
  }

  predicate NoSpace(s: string) {
    forall i :: 0 <= i < |s| ==> s[i] != ' '
  }

  /** Two texts made of a word without spaces, a space and a rest, that are equal, have the same
      word and the same rest. */
  lemma SplitAtSpace(a1: string, r1: string, a2: string, r2: string)
    requires NoSpace(a1) && NoSpace(a2) && a1 + " " + r1 == a2 + " " + r2
    ensures a1 == a2 && r1 == r2
  {
    var s := a1 + " " + r1;
    var k := Min(|a1|, |a2|);
    assert s[k] == ' ' <==> k == |a1|;
    assert (a2 + " " + r2)[k] == ' ' <==> k == |a2|;
    assert a1 == s[..|a1|];
    assert a2 == (a2 + " " + r2)[..|a2|];
    assert r1 == s[|a1| + 1..];
    assert r2 == (a2 + " " + r2)[|a2| + 1..];
  }

  /** The month number of a Thai month name, reading `formatThaiDate`'s output back. */
  function MonthNumber(name: string): int {
    match name
    case "มกราคม" => 0 case "กุมภาพันธ์" => 1 case "มีนาคม" => 2 case "เมษายน" => 3
    case "พฤษภาคม" => 4 case "มิถุนายน" => 5 case "กรกฎาคม" => 6 case "สิงหาคม" => 7
    case "กันยายน" => 8 case "ตุลาคม" => 9 case "พฤศจิกายน" => 10 case "ธันวาคม" => 11
    case _ => -1
  }

  lemma MonthNameShape(m: nat)
    requires m < 12
    ensures NoSpace(ThaiCalendar.MonthNames[m]) && MonthNumber(ThaiCalendar.MonthNames[m]) == m
  {
  }

  lemma DigitsNoSpace(n: nat)
    ensures NoSpace(NatToString(n))
  {
  }

  /** "day month year" splits back into its three words. */
  lemma ThreeWords(a1: string, n1: string, b1: string, a2: string, n2: string, b2: string)
    requires NoSpace(a1) && NoSpace(n1) && NoSpace(a2) && NoSpace(n2)
    requires a1 + " " + (n1 + " " + b1) == a2 + " " + (n2 + " " + b2)
    ensures a1 == a2 && n1 == n2 && b1 == b2
  {
    SplitAtSpace(a1, n1 + " " + b1, a2, n2 + " " + b2);
    SplitAtSpace(n1, b1, n2, b2);
  }

  /** The day, the month name and the year can be read back from the date text. */
  lemma {:induction false} DateTextInjective(d1: nat, n1: string, y1: nat, d2: nat, n2: string, y2: nat)
    requires NoSpace(n1) && NoSpace(n2)
    requires DateText(d1, n1, y1) == DateText(d2, n2, y2)
    ensures d1 == d2 && n1 == n2 && y1 == y2
  {
    DigitsNoSpace(d1);
    DigitsNoSpace(d2);
    ThreeWords(NatToString(d1), n1, NatToString(ThaiCalendar.BuddhistYear(y1)),
               NatToString(d2), n2, NatToString(ThaiCalendar.BuddhistYear(y2)));
    assert d1 == d2 by {
      NatToStringValue(d1);
      NatToStringValue(d2);
    }
    assert y1 + 543 == y2 + 543 by {
      NatToStringValue(y1 + 543);
      NatToStringValue(y2 + 543);
    }
  }

  /** Distinct dates are printed differently. */
  lemma {:induction false} FormatThaiDateInjective(d1: nat, m1: nat, y1: nat, d2: nat, m2: nat, y2: nat)
    requires m1 < 12 && m2 < 12
    requires FormatThaiDate(d1, m1, y1) == FormatThaiDate(d2, m2, y2)
    ensures d1 == d2 && m1 == m2 && y1 == y2
  {
    MonthNameShape(m1);
    MonthNameShape(m2);
    DateTextInjective(d1, ThaiCalendar.MonthNames[m1], y1, d2, ThaiCalendar.MonthNames[m2], y2);
  }
}

/** The readiness explainer: from a teacher's latest competency assessment and
    the number of journals, mentoring visits, PLC activities and portfolio
    items, it derives the average score and its level, the strengths and the
    areas to improve, up to five tasks for the week and the recommendations.
    The explanation paragraph itself is a text template and is not modelled. */
module Readiness {
  import opened Common

  /** The four competency scores of an assessment. */
  datatype Scores = Scores(pedagogy: int, classroom: int, community: int, professionalism: int)

  /** How many records of each kind the teacher has. */
  datatype Counts = Counts(journals: nat, mentoring: nat, plc: nat, evidence: nat)

  datatype Analysis = Analysis(
    avgScore: real, latest: Option<Scores>, counts: Counts, strengths: seq<string>, improvements: seq<string>)

  datatype WeeklyTask = WeeklyTask(task: string, indicator: string, priority: nat, estimatedTime: string)

  datatype Explanation = Explanation(
    overallScore: real, level: string, strengths: seq<string>, improvements: seq<string>,
    recommendations: seq<string>, weeklyTasks: seq<WeeklyTask>)

  datatype Area = Pedagogy | Classroom | Community | Professionalism

  // The names of the four areas, as pushed onto the strength and improvement lists.
  const PedagogyLabel: string := "หลักการและวิธีการสอน (Pedagogy)"
  const ClassroomLabel: string := "การจัดการชั้นเรียน"
  const CommunityLabel: string := "การสร้างความสัมพันธ์กับชุมชน"
  const ProfessionalismLabel: string := "ความเป็นมืออาชีพ"

  // The improvements added for too few records.
  const JournalsGap: string := "บันทึกสะท้อนคิด (ควรมีอย่างน้อย 3 เดือน)"
  const MentoringGap: string := "การรับการนิเทศ/โค้ช (ควรมีอย่างน้อย 2 ครั้ง)"
  const PlcGap: string := "การเข้าร่วม PLC (ควรมีอย่างน้อย 2 ครั้ง)"
  const EvidenceGap: string := "หลักฐานพอร์ตโฟลิโอ (ควรมีอย่างน้อย 5 ชิ้น)"

  /** What the weekly-task rule looks for to add the pedagogy task. */
  const PedagogyQuery: string := "หลักการและวิธีการสอน"

  function AreaLabel(a: Area): string {
    match a
    case Pedagogy => PedagogyLabel
    case Classroom => ClassroomLabel
    case Community => CommunityLabel
    case Professionalism => ProfessionalismLabel
  }

  function ScoreOf(s: Scores, a: Area): int {
    match a
    case Pedagogy => s.pedagogy
    case Classroom => s.classroom
    case Community => s.community
    case Professionalism => s.professionalism
  }

  function Total(s: Scores): int {
    s.pedagogy + s.classroom + s.community + s.professionalism
  }

  /** The mean of the four scores, or 0 without an assessment. */
  function AverageScore(latest: Option<Scores>): (avg: real)
    ensures latest.None? ==> avg == 0.0
    ensures latest.Some? ==> 4.0 * avg == Total(latest.value) as real
  {
    if latest.Some? then (Total(latest.value) as real) / 4.0 else 0.0
  }

  /** A one-element list when the condition holds, else nothing. */
  function If<T>(b: bool, x: T): seq<T> {
    if b then [x] else []
  }

  function StrengthsOf(s: Scores): seq<string> {
    If(s.pedagogy >= 4, PedagogyLabel) + If(s.classroom >= 4, ClassroomLabel) +
    If(s.community >= 4, CommunityLabel) + If(s.professionalism >= 4, ProfessionalismLabel)
  }

  function WeakAreasOf(s: Scores): seq<string> {
    If(s.pedagogy < 3, PedagogyLabel) + If(s.classroom < 3, ClassroomLabel) +
    If(s.community < 3, CommunityLabel) + If(s.professionalism < 3, ProfessionalismLabel)
  }

  function Shortfalls(c: Counts): seq<string> {
    If(c.journals < 3, JournalsGap) + If(c.mentoring < 2, MentoringGap) +
    If(c.plc < 2, PlcGap) + If(c.evidence < 5, EvidenceGap)
  }

  function Strengths(latest: Option<Scores>): seq<string> {
    if latest.Some? then StrengthsOf(latest.value) else []
  }

  function Improvements(latest: Option<Scores>, c: Counts): seq<string> {
    (if latest.Some? then WeakAreasOf(latest.value) else []) + Shortfalls(c)
  }

  /** `analyzeReadiness`: the score and the strength and improvement lists, pushed in order. */
  method AnalyzeReadiness(latest: Option<Scores>, counts: Counts) returns (a: Analysis)
    ensures a.avgScore == AverageScore(latest)
    ensures a.latest == latest && a.counts == counts
    ensures a.strengths == Strengths(latest)
    ensures a.improvements == Improvements(latest, counts)
  {
    var totalScore := 0;
    var assessmentCount := 0;
    if latest.Some? {
      totalScore := Total(latest.value);
      assessmentCount := 4;
    }
    var avgScore := if assessmentCount > 0 then (totalScore as real) / (assessmentCount as real) else 0.0;
    var strengths: seq<string> := [];
    var improvements: seq<string> := [];
    if latest.Some? {
      strengths, improvements := RateAreas(latest.value);
    }
    var shortfalls := AddShortfalls(counts);
    improvements := improvements + shortfalls;
    a := Analysis(avgScore, latest, counts, strengths, improvements);
  }

  /** One area of `analyzeReadiness`: a strength at 4 or more, an improvement below 3. */
  method RateArea(score: int, name: string, strengths: seq<string>, improvements: seq<string>)
    returns (strengths': seq<string>, improvements': seq<string>)
    ensures strengths' == strengths + If(score >= 4, name)
    ensures improvements' == improvements + If(score < 3, name)
  {
    strengths', improvements' := strengths, improvements;
    if score >= 4 {
      strengths' := strengths' + [name];
    } else if score < 3 {
      improvements' := improvements' + [name];
    }
  }

  /** The four area checks of `analyzeReadiness`, in order. */
  method RateAreas(s: Scores) returns (strengths: seq<string>, improvements: seq<string>)
    ensures strengths == StrengthsOf(s) && improvements == WeakAreasOf(s)
  {
    strengths, improvements := RateArea(s.pedagogy, PedagogyLabel, [], []);
    assert strengths == If(s.pedagogy >= 4, PedagogyLabel);
    assert improvements == If(s.pedagogy < 3, PedagogyLabel);
    strengths, improvements := RateArea(s.classroom, ClassroomLabel, strengths, improvements);
    strengths, improvements := RateArea(s.community, CommunityLabel, strengths, improvements);
    strengths, improvements := RateArea(s.professionalism, ProfessionalismLabel, strengths, improvements);
  }

  /** `list.push(x)` when the condition holds. */
  method PushIf<T>(b: bool, x: T, list: seq<T>) returns (r: seq<T>)
    ensures r == list + If(b, x)
  {
    r := list;
    if b {
      r := r + [x];
    }
  }

  /** The four record-count checks of `analyzeReadiness`, in order. */
  method AddShortfalls(c: Counts) returns (r: seq<string>)
    ensures r == Shortfalls(c)
  {
    r := If(c.journals < 3, JournalsGap);
    r := PushIf(c.mentoring < 2, MentoringGap, r);
    r := PushIf(c.plc < 2, PlcGap, r);
    r := PushIf(c.evidence < 5, EvidenceGap, r);
  }

  /** The labels have different lengths, apart from two that differ in their first letter; the
      pedagogy query is shorter than the pedagogy label it is meant to find. */
  lemma LabelShapes()
    ensures |PedagogyLabel| == 31 && |ClassroomLabel| == 18 && |CommunityLabel| == 28
    ensures |ProfessionalismLabel| == 16 && |JournalsGap| == 40 && |MentoringGap| == 44
    ensures |PlcGap| == 40 && |EvidenceGap| == 42 && |PedagogyQuery| == 20
    ensures JournalsGap[0] != PlcGap[0]
  {
  }

  /** Membership in four optional pushes. */
  lemma InFour<T>(p: bool, a: T, q: bool, b: T, r: bool, c: T, t: bool, d: T, y: T)
    ensures y in If(p, a) + If(q, b) + If(r, c) + If(t, d)
      <==> (p && y == a) || (q && y == b) || (r && y == c) || (t && y == d)
  {
  }

  /** An area is a strength exactly when its score is at least 4 and needs improvement exactly
      when it is below 3, so a score of 3 is neither. */
  lemma AreaClassification(s: Scores, a: Area)
    ensures AreaLabel(a) in StrengthsOf(s) <==> ScoreOf(s, a) >= 4
    ensures AreaLabel(a) in WeakAreasOf(s) <==> ScoreOf(s, a) < 3
    ensures ScoreOf(s, a) == 3 ==> AreaLabel(a) !in StrengthsOf(s) && AreaLabel(a) !in WeakAreasOf(s)
  {
    LabelShapes();
    var y := AreaLabel(a);
    InFour(s.pedagogy >= 4, PedagogyLabel, s.classroom >= 4, ClassroomLabel,
           s.community >= 4, CommunityLabel, s.professionalism >= 4, ProfessionalismLabel, y);
    InFour(s.pedagogy < 3, PedagogyLabel, s.classroom < 3, ClassroomLabel,
           s.community < 3, CommunityLabel, s.professionalism < 3, ProfessionalismLabel, y);
  }

  /** The improvements are area names or shortfall notes, and only those. */
  lemma ImprovementsMembers(latest: Option<Scores>, c: Counts, y: string)
    ensures y in Improvements(latest, c) <==>
      (latest.Some? && y in WeakAreasOf(latest.value)) ||
      (c.journals < 3 && y == JournalsGap) || (c.mentoring < 2 && y == MentoringGap) ||
      (c.plc < 2 && y == PlcGap) || (c.evidence < 5 && y == EvidenceGap)
    ensures latest.Some? && y in WeakAreasOf(latest.value) ==>
      y == PedagogyLabel || y == ClassroomLabel || y == CommunityLabel || y == ProfessionalismLabel
  {
    InFour(c.journals < 3, JournalsGap, c.mentoring < 2, MentoringGap, c.plc < 2, PlcGap, c.evidence < 5, EvidenceGap, y);
    if latest.Some? {
      var s := latest.value;
      InFour(s.pedagogy < 3, PedagogyLabel, s.classroom < 3, ClassroomLabel,
             s.community < 3, CommunityLabel, s.professionalism < 3, ProfessionalismLabel, y);
    }
  }

  /** Each shortfall adds its improvement exactly when the count is under its minimum. */
  lemma ShortfallClassification(latest: Option<Scores>, c: Counts)
    ensures JournalsGap in Improvements(latest, c) <==> c.journals < 3
    ensures MentoringGap in Improvements(latest, c) <==> c.mentoring < 2
    ensures PlcGap in Improvements(latest, c) <==> c.plc < 2
    ensures EvidenceGap in Improvements(latest, c) <==> c.evidence < 5
  {
    LabelShapes();
    ImprovementsMembers(latest, c, JournalsGap);
    ImprovementsMembers(latest, c, MentoringGap);
    ImprovementsMembers(latest, c, PlcGap);
    ImprovementsMembers(latest, c, EvidenceGap);
  }

  // ---------------------------------------------------------------
  // Level and recommendations
  // ---------------------------------------------------------------

  /** The level chosen in `generateExplanation`. */
  function LevelOf(avg: real): string {
    if avg >= 4.0 then "ดีมาก"
    else if avg >= 3.5 then "ดี"
    else if avg >= 3.0 then "พอใช้"
    else "ต้องพัฒนา"
  }

  /** The level thresholds on the mean, read on the total of the four scores. */
  lemma LevelByTotal(s: Scores)
    ensures LevelOf(AverageScore(Some(s))) == "ดีมาก" <==> Total(s) >= 16
    ensures LevelOf(AverageScore(Some(s))) == "ดี" <==> 14 <= Total(s) < 16
    ensures LevelOf(AverageScore(Some(s))) == "พอใช้" <==> 12 <= Total(s) < 14
    ensures LevelOf(AverageScore(Some(s))) == "ต้องพัฒนา" <==> Total(s) < 12
  {
    var avg := AverageScore(Some(s));
    assert avg >= 4.0 <==> Total(s) >= 16;
    assert avg >= 3.5 <==> Total(s) >= 14;
    assert avg >= 3.0 <==> Total(s) >= 12;
  }

  /** Scores on the 1–5 scale give a mean on the same scale; no assessment gives the lowest level. */
  lemma AverageInRange(latest: Option<Scores>)
    ensures latest.None? ==> LevelOf(AverageScore(latest)) == "ต้องพัฒนา"
    ensures latest.Some? && (forall a: Area :: 1 <= ScoreOf(latest.value, a) <= 5)
      ==> 1.0 <= AverageScore(latest) <= 5.0
  {
    if latest.Some? && (forall a: Area :: 1 <= ScoreOf(latest.value, a) <= 5) {
      var s := latest.value;
      assert 1 <= ScoreOf(s, Pedagogy) <= 5 && 1 <= ScoreOf(s, Classroom) <= 5;
      assert 1 <= ScoreOf(s, Community) <= 5 && 1 <= ScoreOf(s, Professionalism) <= 5;
    }
  }

  /** The two band-based recommendations. */
  function BandAdvice(avg: real): (r: seq<string>)
    ensures |r| == 2
  {
    if avg >= 4.0 then
      ["คุณมีความพร้อมในระดับดีมาก ควรแบ่งปันความรู้ให้เพื่อนครู", "พิจารณาเป็นพี่เลี้ยงให้กับครูผู้ช่วยรุ่นน้อง"]
    else if avg >= 3.0 then
      ["ควรพัฒนาตนเองอย่างต่อเนื่องในด้านที่ยังขาด", "ขอคำแนะนำจากพี่เลี้ยงหรือเพื่อนครูที่มีประสบการณ์"]
    else
      ["ควรรับการสนับสนุนอย่างใกล้ชิดจากพี่เลี้ยง", "มุ่งเน้นพัฒนาในด้านที่ยังอ่อนก่อน"]
  }

  const JournalAdvice: string := "เขียนบันทึกสะท้อนคิดอย่างสม่ำเสมอ เดือนละ 1 ครั้ง"
  const PlcAdvice: string := "เข้าร่วมกิจกรรม PLC เพื่อแลกเปลี่ยนเรียนรู้กับเพื่อนครู"

  /** `generateRecommendations`: the band advice, then one item per journal or PLC shortfall. */
  function Recommendations(a: Analysis): (r: seq<string>)
    ensures |r| == 2 + (if a.counts.journals < 3 then 1 else 0) + (if a.counts.plc < 2 then 1 else 0)
    ensures r[..2] == BandAdvice(a.avgScore)
    ensures JournalAdvice in r[2..] <==> a.counts.journals < 3
    ensures PlcAdvice in r[2..] <==> a.counts.plc < 2
  {
    var band := BandAdvice(a.avgScore);
    var rest := If(a.counts.journals < 3, JournalAdvice) + If(a.counts.plc < 2, PlcAdvice);
    assert (band + rest)[2..] == rest;
    band + rest
  }

  // ---------------------------------------------------------------
  // Weekly tasks
  // ---------------------------------------------------------------

  const JournalTask := WeeklyTask("เขียนบันทึกสะท้อนคิดรายเดือน", "ET.4", 1, "30-45 นาที")
  const EvidenceTask := WeeklyTask("อัปโหลดหลักฐานพอร์ตโฟลิโอ (เช่น แผนการสอน, สื่อการสอน)", "WP.1", 2, "1-2 ชั่วโมง")
  const MentoringTask := WeeklyTask("นัดหมายการรับการนิเทศ/โค้ชกับพี่เลี้ยง", "ET.4", 1, "15 นาที (นัดหมาย)")
  const PedagogyTask := WeeklyTask("ศึกษาเทคนิคการสอนใหม่ๆ หรือเข้าร่วมการอบรม", "WP.2", 2, "2-3 ชั่วโมง")
  const ClassroomTask := WeeklyTask("จัดทำกฎกติกาชั้นเรียนร่วมกับนักเรียน", "ET.2", 2, "1 ชั่วโมง")

  /** The tasks pushed before sorting, in push order. */
  function Candidates(a: Analysis): (r: seq<WeeklyTask>)
    ensures |r| <= 5
  {
    If(a.counts.journals < 3, JournalTask) + If(a.counts.evidence < 5, EvidenceTask) +
    If(a.counts.mentoring < 2, MentoringTask) + If(PedagogyQuery in a.improvements, PedagogyTask) +
    If(ClassroomLabel in a.improvements, ClassroomTask)
  }

  predicate ByPriority(ts: seq<WeeklyTask>) {
    forall i, j :: 0 <= i < j < |ts| ==> ts[i].priority <= ts[j].priority
  }

  /** Every task in `ts` has priority at most `p`. */
  predicate PrioritiesAtMost(ts: seq<WeeklyTask>, p: nat) {
    forall t :: t in ts ==> t.priority <= p
  }

  lemma ByPrioritySnoc(ts: seq<WeeklyTask>, t: WeeklyTask)
    requires ByPriority(ts) && PrioritiesAtMost(ts, t.priority)
    ensures ByPriority(ts + [t])
  {
    forall i, j | 0 <= i < j < |ts| + 1
      ensures (ts + [t])[i].priority <= (ts + [t])[j].priority
    {
      if j == |ts| {
        assert (ts + [t])[i] == ts[i] && ts[i] in ts;
      }
    }
  }

  lemma ByPriorityLast(ts: seq<WeeklyTask>)
    requires ByPriority(ts) && ts != []
    ensures PrioritiesAtMost(ts, ts[|ts| - 1].priority)
  {
    forall t | t in ts
      ensures t.priority <= ts[|ts| - 1].priority
    {
      var i :| 0 <= i < |ts| && ts[i] == t;
    }
  }

  /** Insertion after every task of lower or equal priority, which keeps equal priorities in order. */
  function InsertByPriority(t: WeeklyTask, sorted: seq<WeeklyTask>): (r: seq<WeeklyTask>)
    requires ByPriority(sorted)
    ensures ByPriority(r)
    ensures forall x :: x in r ==> x == t || x in sorted
    ensures multiset(r) == multiset(sorted) + multiset{t}
  {
    if sorted == [] then [t]
    else if sorted[|sorted| - 1].priority <= t.priority then
      ByPriorityLast(sorted);
      ByPrioritySnoc(sorted, t);
      sorted + [t]
    else
      var n := |sorted| - 1;
      var init := sorted[..n];
      var last := sorted[n];
      assert multiset(sorted) == multiset(init) + multiset{last} by {
        assert init + [last] == sorted;
      }
      assert ByPriority(init);
      var r := InsertByPriority(t, init);
      assert PrioritiesAtMost(r, last.priority) by {
        ByPriorityLast(sorted);
      }
      ByPrioritySnoc(r, last);
      r + [last]
  }

  /** `tasks.sort((a, b) => a.priority - b.priority)`, a stable sort. */
  function SortByPriority(ts: seq<WeeklyTask>): (r: seq<WeeklyTask>)
    ensures ByPriority(r) && multiset(r) == multiset(ts)
  {
    if ts == [] then []
    else
      var n := |ts| - 1;
      assert ts[..n] + [ts[n]] == ts;
      InsertByPriority(ts[n], SortByPriority(ts[..n]))
  }

  /** The tasks of priority `p`, in their order in `ts`. */
  function OfPriority(ts: seq<WeeklyTask>, p: nat): seq<WeeklyTask> {
    if ts == [] then []
    else
      var last := ts[|ts| - 1];
      OfPriority(ts[..|ts| - 1], p) + (if last.priority == p then [last] else [])
  }

  /** Inserting `t` puts it after every task of its own priority. */
  lemma {:induction false} InsertByPriorityStable(t: WeeklyTask, sorted: seq<WeeklyTask>, p: nat)
    requires ByPriority(sorted)
    ensures OfPriority(InsertByPriority(t, sorted), p)
      == OfPriority(sorted, p) + (if t.priority == p then [t] else [])
    decreases |sorted|
  {
    if sorted == [] {
    } else if sorted[|sorted| - 1].priority <= t.priority {
      var r := InsertByPriority(t, sorted);
      assert r[..|r| - 1] == sorted;
    } else {
      var n := |sorted| - 1;
      var init, last := sorted[..n], sorted[n];
      assert ByPriority(init);
      var q := InsertByPriority(t, init);
      assert InsertByPriority(t, sorted) == q + [last];
      assert init + [last] == sorted;
      InsertByPriorityStable(t, init, p);
      PassLastStable(init, last, t, q, p);
    }
  }

  /** Moving `t` in front of a task that outranks it keeps each priority's order: at most one of
      the two has priority `p`. */
  lemma PassLastStable(init: seq<WeeklyTask>, last: WeeklyTask, t: WeeklyTask, q: seq<WeeklyTask>, p: nat)
    requires t.priority < last.priority
    requires OfPriority(q, p) == OfPriority(init, p) + (if t.priority == p then [t] else [])
    ensures OfPriority(q + [last], p) == OfPriority(init + [last], p) + (if t.priority == p then [t] else [])
  {
    OfPrioritySnoc(q, last, p);
    OfPrioritySnoc(init, last, p);
    if t.priority == p {
      assert OfPriority(q + [last], p) == OfPriority(q, p);
      assert OfPriority(init + [last], p) == OfPriority(init, p);
    } else {
      var l := if last.priority == p then [last] else [];
      assert OfPriority(q + [last], p) == OfPriority(init, p) + l;
      assert OfPriority(init + [last], p) + [] == OfPriority(init + [last], p);
    }
  }

  lemma OfPrioritySnoc(ts: seq<WeeklyTask>, x: WeeklyTask, p: nat)
    ensures OfPriority(ts + [x], p) == OfPriority(ts, p) + (if x.priority == p then [x] else [])
  {
    assert (ts + [x])[..|ts|] == ts;
  }

  /** The sort is stable: the tasks of each priority come out in the order they were pushed. */
  lemma {:induction false} SortByPriorityStable(ts: seq<WeeklyTask>, p: nat)
    ensures OfPriority(SortByPriority(ts), p) == OfPriority(ts, p)
  {
    if ts != [] {
      var n := |ts| - 1;
      SortByPriorityStable(ts[..n], p);
      InsertByPriorityStable(ts[n], SortByPriority(ts[..n]), p);
    }
  }

  /** `generateWeeklyTasks`: push the tasks for each shortfall, sort by priority, keep five. */
  method GenerateWeeklyTasks(a: Analysis) returns (tasks: seq<WeeklyTask>)
    ensures tasks == Take(SortByPriority(Candidates(a)), 5)
  {
    tasks := If(a.counts.journals < 3, JournalTask);
    tasks := PushIf(a.counts.evidence < 5, EvidenceTask, tasks);
    tasks := PushIf(a.counts.mentoring < 2, MentoringTask, tasks);
    tasks := PushIf(PedagogyQuery in a.improvements, PedagogyTask, tasks);
    tasks := PushIf(ClassroomLabel in a.improvements, ClassroomTask, tasks);
    tasks := SortByPriority(tasks);
    tasks := Take(tasks, 5);
  }

  /** At most five tasks come back, in non-decreasing priority, and as there are never more than
      five candidates none is cut: the result holds exactly the candidates. */
  lemma WeeklyTasksSorted(a: Analysis)
    ensures |Take(SortByPriority(Candidates(a)), 5)| <= 5
    ensures ByPriority(Take(SortByPriority(Candidates(a)), 5))
    ensures multiset(Take(SortByPriority(Candidates(a)), 5)) == multiset(Candidates(a))
  {
    var sorted := SortByPriority(Candidates(a));
    assert |sorted| == |Candidates(a)| by {
      assert |multiset(sorted)| == |multiset(Candidates(a))|;
    }
  }

  /** For an analysis as `analyzeReadiness` builds it, the pedagogy task is never a candidate
      (the improvement carries " (Pedagogy)" while the rule looks for the bare name), and the
      classroom task is one exactly when there is an assessment with a classroom score below 3. */
  lemma WeeklyTaskTriggers(latest: Option<Scores>, counts: Counts, a: Analysis)
    requires a.latest == latest && a.counts == counts && a.improvements == Improvements(latest, counts)
    ensures PedagogyTask !in Candidates(a)
    ensures ClassroomTask in Candidates(a) <==> latest.Some? && latest.value.classroom < 3
    ensures JournalTask in Candidates(a) <==> counts.journals < 3
  {
    LabelShapes();
    ImprovementsMembers(latest, counts, PedagogyQuery);
    ImprovementsMembers(latest, counts, ClassroomLabel);
    if latest.Some? {
      AreaClassification(latest.value, Classroom);
    }
    assert |JournalTask.estimatedTime| != |MentoringTask.estimatedTime|;
    InFourTasks(a, PedagogyTask);
    InFourTasks(a, ClassroomTask);
    InFourTasks(a, JournalTask);
  }

  lemma InFourTasks(a: Analysis, y: WeeklyTask)
    ensures y in Candidates(a) <==>
      (a.counts.journals < 3 && y == JournalTask) || (a.counts.evidence < 5 && y == EvidenceTask) ||
      (a.counts.mentoring < 2 && y == MentoringTask) || (PedagogyQuery in a.improvements && y == PedagogyTask) ||
      (ClassroomLabel in a.improvements && y == ClassroomTask)
  {
    InFour(a.counts.journals < 3, JournalTask, a.counts.evidence < 5, EvidenceTask,
           a.counts.mentoring < 2, MentoringTask, PedagogyQuery in a.improvements, PedagogyTask, y);
  }

  // ---------------------------------------------------------------
  // explainReadiness
  // ---------------------------------------------------------------

  /** `explainReadiness` without the database read and the activity log: analysis, level,
      tasks and recommendations. */
  method ExplainReadiness(latest: Option<Scores>, counts: Counts) returns (e: Explanation)
    ensures e.overallScore == AverageScore(latest)
    ensures e.level == LevelOf(AverageScore(latest))
    ensures e.strengths == Strengths(latest) && e.improvements == Improvements(latest, counts)
    ensures e.weeklyTasks == Take(SortByPriority(Candidates(Analysis(AverageScore(latest), latest, counts,
      Strengths(latest), Improvements(latest, counts)))), 5)
    ensures e.recommendations == Recommendations(Analysis(AverageScore(latest), latest, counts,
      Strengths(latest), Improvements(latest, counts)))
  {
    var a := AnalyzeReadiness(latest, counts);
    var tasks := GenerateWeeklyTasks(a);
    e := Explanation(a.avgScore, LevelOf(a.avgScore), a.strengths, a.improvements, Recommendations(a), tasks);
  }
}

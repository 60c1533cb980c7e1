/** The evidence assistant's rule-based parts: the filename analysis (type,
    summary, keywords and indicators from words found in the name), the
    standard filename built from an analysis, the short type names, the
    quality check and the suggestions shown with a summary. The analysis of a
    summary itself comes from the language-model provider and is an input. */
module EvidenceAi {
  import opened Common

  datatype FileAnalysis = FileAnalysis(summary: string, keywords: seq<string>, indicators: seq<string>, evidenceType: string)

  /** One block of `analyzeFromFilename`: any of the needles in the lower-cased name sets the
      type and summary and adds the keywords and indicators. */
  datatype Rule = Rule(needles: seq<string>, evidenceType: string, keywords: seq<string>, indicators: seq<string>, summary: string)

  const Rules: seq<Rule> := [
    Rule(["แผนการสอน", "lesson plan"], "LESSON_PLAN", ["แผนการสอน", "การออกแบบการเรียนรู้"], ["WP.1"],
         "แผนการสอนที่แสดงการออกแบบกิจกรรมการเรียนรู้"),
    Rule(["สื่อ", "media"], "TEACHING_MEDIA", ["สื่อการสอน", "นวัตกรรม"], ["WP.1", "WP.2"],
         "สื่อการสอนที่ใช้ในการจัดการเรียนการสอน"),
    Rule(["แบบทดสอบ", "test", "assessment"], "ASSESSMENT", ["การวัดผล", "การประเมินผล"], ["WP.3"],
         "เครื่องมือวัดและประเมินผลการเรียนรู้"),
    Rule(["ผลงานนักเรียน", "student work"], "STUDENT_WORK", ["ผลงานนักเรียน", "ชิ้นงาน"], ["WP.2", "WP.3"],
         "ผลงานของนักเรียนที่แสดงการเรียนรู้"),
    Rule(["ภาพ", "photo", ".jpg", ".png"], "CLASSROOM_PHOTO", ["ภาพกิจกรรม", "บรรยากาศชั้นเรียน"], ["WP.2"],
         "ภาพกิจกรรมการเรียนการสอนในชั้นเรียน"),
    Rule(["วิจัย", "research"], "ACTION_RESEARCH", ["การวิจัยในชั้นเรียน", "การพัฒนา"], ["ET.3", "ET.4"],
         "งานวิจัยในชั้นเรียนเพื่อพัฒนาการเรียนการสอน")
  ]

  const Subjects: seq<string> := ["คณิตศาสตร์", "วิทยาศาสตร์", "ภาษาไทย", "ภาษาอังกฤษ", "สังคม"]
  const Grades: seq<string> := ["ป.1", "ป.2", "ป.3", "ป.4", "ป.5", "ป.6", "ม.1", "ม.2", "ม.3"]
  const DefaultSummary: string := "เอกสารหลักฐานเกี่ยวกับการจัดการเรียนการสอน"

  // ---------------------------------------------------------------
  // analyzeFromFilename
  // ---------------------------------------------------------------

  /** Some needle occurs in the text (the `||` of `includes` tests). */
  predicate AnyIn(text: string, needles: seq<string>) {
    exists k :: 0 <= k < |needles| && Contains(text, needles[k])
  }

  /** The last rule that fires, if any. */
  function LastMatch(rules: seq<Rule>, text: string): (r: Option<nat>)
    ensures r.None? <==> forall k :: 0 <= k < |rules| ==> !AnyIn(text, rules[k].needles)
    ensures r.Some? ==> r.value < |rules| && AnyIn(text, rules[r.value].needles)
    ensures r.Some? ==> forall k :: r.value < k < |rules| ==> !AnyIn(text, rules[k].needles)
  {
    if rules == [] then None
    else if AnyIn(text, rules[|rules| - 1].needles) then Some(|rules| - 1)
    else LastMatch(rules[..|rules| - 1], text)
  }

  /** The keywords the firing rules add, in rule order. */
  function RuleKeywords(rules: seq<Rule>, text: string): seq<string> {
    if rules == [] then []
    else
      var n := |rules| - 1;
      RuleKeywords(rules[..n], text) + (if AnyIn(text, rules[n].needles) then rules[n].keywords else [])
  }

  /** The indicators the firing rules add, in rule order (repeats included). */
  function RuleIndicators(rules: seq<Rule>, text: string): seq<string> {
    if rules == [] then []
    else
      var n := |rules| - 1;
      RuleIndicators(rules[..n], text) + (if AnyIn(text, rules[n].needles) then rules[n].indicators else [])
  }

  /** The words that occur in the text, in list order. */
  function Found(text: string, words: seq<string>): seq<string> {
    if words == [] then []
    else
      var n := |words| - 1;
      Found(text, words[..n]) + (if Contains(text, words[n]) then [words[n]] else [])
  }

  /** The analysis `analyzeFromFilename` returns for a name, given the rule table and word lists. */
  function AnalysisOf(rules: seq<Rule>, subjects: seq<string>, grades: seq<string>, filename: string): FileAnalysis {
    var lower := ToLower(filename);
    var last := LastMatch(rules, lower);
    FileAnalysis(
      if last.Some? then rules[last.value].summary else DefaultSummary,
      RuleKeywords(rules, lower) + Found(lower, subjects) + Found(lower, grades),
      RuleIndicators(rules, lower),
      if last.Some? then rules[last.value].evidenceType else "OTHER")
  }

  /** The rule blocks in order: each firing rule overwrites type and summary and appends. */
  method ApplyRules(rules: seq<Rule>, lower: string)
    returns (summary: string, evidenceType: string, keywords: seq<string>, indicators: seq<string>)
    requires forall k :: 0 <= k < |rules| ==> rules[k].summary != ""
    ensures keywords == RuleKeywords(rules, lower) && indicators == RuleIndicators(rules, lower)
    ensures LastMatch(rules, lower).None? ==> summary == "" && evidenceType == ""
    ensures LastMatch(rules, lower).Some? ==>
      summary == rules[LastMatch(rules, lower).value].summary &&
      evidenceType == rules[LastMatch(rules, lower).value].evidenceType
  {
    summary, evidenceType, keywords, indicators := "", "", [], [];
    var i := 0;
    while i < |rules|
      invariant 0 <= i <= |rules|
      invariant keywords == RuleKeywords(rules[..i], lower) && indicators == RuleIndicators(rules[..i], lower)
      invariant LastMatch(rules[..i], lower).None? ==> summary == "" && evidenceType == ""
      invariant LastMatch(rules[..i], lower).Some? ==>
        summary == rules[LastMatch(rules[..i], lower).value].summary &&
        evidenceType == rules[LastMatch(rules[..i], lower).value].evidenceType
    {
      PrefixSnoc(rules, i);
      assert rules[..i + 1][..i] == rules[..i];
      var r := rules[i];
      if AnyIn(lower, r.needles) {
        evidenceType := r.evidenceType;
        keywords := keywords + r.keywords;
        indicators := indicators + r.indicators;
        summary := r.summary;
      }
      i := i + 1;
    }
    TakeWhole(rules);
  }

  /** One word-list loop: every word found in the name is pushed. */
  method PushFound(lower: string, words: seq<string>, keywords: seq<string>) returns (r: seq<string>)
    ensures r == keywords + Found(lower, words)
  {
    r := keywords;
    var j := 0;
    while j < |words|
      invariant 0 <= j <= |words|
      invariant r == keywords + Found(lower, words[..j])
    {
      PrefixSnoc(words, j);
      assert words[..j + 1][..j] == words[..j];
      if Contains(lower, words[j]) {
        r := r + [words[j]];
      }
      j := j + 1;
    }
    TakeWhole(words);
  }

  /** `analyzeFromFilename` over a rule table and word lists. */
  method AnalyzeWith(rules: seq<Rule>, subjects: seq<string>, grades: seq<string>, filename: string)
    returns (a: FileAnalysis)
    requires forall k :: 0 <= k < |rules| ==> rules[k].summary != ""
    ensures a == AnalysisOf(rules, subjects, grades, filename)
  {
    var lower := ToLower(filename);
    var summary, evidenceType, keywords, indicators := ApplyRules(rules, lower);
    keywords := PushFound(lower, subjects, keywords);
    keywords := PushFound(lower, grades, keywords);
    if summary == "" {
      summary := DefaultSummary;
      evidenceType := "OTHER";
    }
    a := FileAnalysis(summary, keywords, indicators, evidenceType);
  }

  /** `analyzeFromFilename`. */
  method AnalyzeFromFilename(filename: string) returns (a: FileAnalysis)
    ensures a == AnalysisOf(Rules, Subjects, Grades, filename)
  {
    a := AnalyzeWith(Rules, Subjects, Grades, filename);
  }

  /** Rule `i` fires and no later rule does. */
  predicate LastFiring(rules: seq<Rule>, text: string, i: int) {
    0 <= i < |rules| && AnyIn(text, rules[i].needles) &&
    forall k :: i < k < |rules| ==> !AnyIn(text, rules[k].needles)
  }

  /** Type and summary come from the last rule that fires; with none the result is OTHER with
      the default summary. */
  lemma LastRuleWins(rules: seq<Rule>, subjects: seq<string>, grades: seq<string>, filename: string)
    ensures (forall k :: 0 <= k < |rules| ==> !AnyIn(ToLower(filename), rules[k].needles)) ==>
      AnalysisOf(rules, subjects, grades, filename).evidenceType == "OTHER"
    ensures (forall k :: 0 <= k < |rules| ==> !AnyIn(ToLower(filename), rules[k].needles)) ==>
      AnalysisOf(rules, subjects, grades, filename).summary == DefaultSummary
    ensures forall i :: LastFiring(rules, ToLower(filename), i) ==>
      AnalysisOf(rules, subjects, grades, filename).evidenceType == rules[i].evidenceType
    ensures forall i :: LastFiring(rules, ToLower(filename), i) ==>
      AnalysisOf(rules, subjects, grades, filename).summary == rules[i].summary
  {
    var lower := ToLower(filename);
    forall i | LastFiring(rules, lower, i)
      ensures LastMatch(rules, lower) == Some(i)
    {
      var last := LastMatch(rules, lower);
      assert last.Some?;
    }
  }

  /** The indicators accumulate over every firing rule: each one's indicators are all there, and
      every indicator comes from a firing rule. */
  lemma {:induction false} IndicatorsAccumulate(rules: seq<Rule>, text: string)
    ensures forall i, x :: (0 <= i < |rules| && AnyIn(text, rules[i].needles) && x in rules[i].indicators) ==>
      x in RuleIndicators(rules, text)
    ensures forall x :: x in RuleIndicators(rules, text) ==>
      exists i :: 0 <= i < |rules| && AnyIn(text, rules[i].needles) && x in rules[i].indicators
  {
    if rules != [] {
      var n := |rules| - 1;
      IndicatorsAccumulate(rules[..n], text);
      forall i, x | 0 <= i < |rules| && AnyIn(text, rules[i].needles) && x in rules[i].indicators
        ensures x in RuleIndicators(rules, text)
      {
        if i < n {
          assert rules[..n][i] == rules[i];
        }
      }
      forall x | x in RuleIndicators(rules, text)
        ensures exists i :: 0 <= i < |rules| && AnyIn(text, rules[i].needles) && x in rules[i].indicators
      {
        if x in RuleIndicators(rules[..n], text) {
          var i :| 0 <= i < n && AnyIn(text, rules[..n][i].needles) && x in rules[..n][i].indicators;
          assert rules[..n][i] == rules[i];
        }
      }
    }
  }

  // ---------------------------------------------------------------
  // Standard filename, short names, quality check, suggestions
  // ---------------------------------------------------------------

  /** `getTypeShortName`: the Thai short name of a type, "เอกสาร" for anything unknown. */
  function TypeShortName(t: string): (r: string)
    ensures r != ""
    ensures t !in {"LESSON_PLAN", "TEACHING_MEDIA", "ASSESSMENT", "STUDENT_WORK", "CLASSROOM_PHOTO", "ACTION_RESEARCH"}
      ==> r == "เอกสาร"
  {
    match t
    case "LESSON_PLAN" => "แผนการสอน"
    case "TEACHING_MEDIA" => "สื่อ"
    case "ASSESSMENT" => "แบบทดสอบ"
    case "STUDENT_WORK" => "ผลงานนร"
    case "CLASSROOM_PHOTO" => "ภาพกิจกรรม"
    case "ACTION_RESEARCH" => "วิจัย"
    case _ => "เอกสาร"
  }

  /** `s.replace('.', '')`: the first dot removed. */
  function RemoveFirstDot(s: string): (r: string)
    ensures '.' !in s ==> r == s
    ensures '.' in s ==> |r| == |s| - 1 && r == s[..IndexOf(s, '.')] + s[IndexOf(s, '.') + 1..]
  {
    var i := IndexOf(s, '.');
    if i < 0 then s else s[..i] + s[i + 1..]
  }

  /** `/^[ปม]\.\d$/`. */
  predicate IsGradeCode(k: string) {
    |k| == 3 && (k[0] == 'ป' || k[0] == 'ม') && k[1] == '.' && '0' <= k[2] <= '9'
  }

  /** The first element satisfying `p` (`Array.find`). */
  function Find(xs: seq<string>, p: string -> bool): (r: Option<string>)
    ensures r.Some? ==> r.value in xs && p(r.value)
    ensures r.None? ==> forall x :: x in xs ==> !p(x)
  {
    if xs == [] then None else if p(xs[0]) then Some(xs[0]) else Find(xs[1..], p)
  }

  /** The non-empty strings, in order (`filter(Boolean)`). */
  function NonEmpty(parts: seq<string>): (r: seq<string>)
    ensures forall x :: x in r ==> x != "" && x in parts
    ensures forall x :: x in parts && x != "" ==> x in r
  {
    if parts == [] then []
    else (if parts[0] != "" then [parts[0]] else []) + NonEmpty(parts[1..])
  }

  /** The indicator part: the first indicator without its first dot, or WP1 when the first
      indicator is missing or empty. */
  function IndicatorPart(a: FileAnalysis): string {
    RemoveFirstDot(if |a.indicators| > 0 && a.indicators[0] != "" then a.indicators[0] else "WP1")
  }

  /** `generateStandardFilename`, with today's date as a parameter. */
  function StandardFilename(a: FileAnalysis, date: string): string {
    var subject := Find(a.keywords, k => k in Subjects);
    var grade := Find(a.keywords, IsGradeCode);
    var parts := [IndicatorPart(a), TypeShortName(a.evidenceType),
                  subject.GetOr(""), grade.GetOr(""), date];
    Join(NonEmpty(parts), "_") + ".pdf"
  }

  lemma JoinFirst(parts: seq<string>, sep: string)
    requires parts != []
    ensures StartsWith(Join(parts, sep), parts[0])
  {
  }

  /** The name ends in ".pdf", starts with the indicator part when that is not empty, and
      has an underscore after it when more parts follow. */
  lemma StandardFilenameShape(a: FileAnalysis, date: string)
    ensures EndsWith(StandardFilename(a, date), ".pdf")
    ensures IndicatorPart(a) != "" ==> StartsWith(StandardFilename(a, date), IndicatorPart(a) + "_")
  {
    var subject := Find(a.keywords, k => k in Subjects);
    var grade := Find(a.keywords, IsGradeCode);
    var parts := [IndicatorPart(a), TypeShortName(a.evidenceType), subject.GetOr(""), grade.GetOr(""), date];
    var ne := NonEmpty(parts);
    var body := Join(ne, "_");
    assert StandardFilename(a, date) == body + ".pdf";
    if IndicatorPart(a) != "" {
      assert parts[1..] == [TypeShortName(a.evidenceType), subject.GetOr(""), grade.GetOr(""), date];
      var rest := NonEmpty(parts[1..]);
      assert ne == [IndicatorPart(a)] + rest;
      assert TypeShortName(a.evidenceType) in rest;
      assert |rest| >= 1;
      assert body == IndicatorPart(a) + "_" + Join(rest, "_");
    }
  }

  /** The first indicator loses exactly its first dot: "WP.1" gives "WP1"; no indicators give WP1. */
  lemma IndicatorPartExamples(a: FileAnalysis)
    ensures a.indicators == [] ==> IndicatorPart(a) == "WP1"
    ensures |a.indicators| > 0 && a.indicators[0] == "WP.1" ==> IndicatorPart(a) == "WP1"
  {
    if a.indicators == [] {
      assert "WP1"[0] != '.' && "WP1"[1] != '.' && "WP1"[2] != '.';
    }
    if |a.indicators| > 0 && a.indicators[0] == "WP.1" {
      assert "WP.1"[0] != '.' && "WP.1"[1] != '.' && "WP.1"[2] == '.';
      assert IndexOf("WP.1", '.') == 2;
    }
  }

  datatype QualityCheck = QualityCheck(completeness: nat, issues: seq<string>, recommendations: seq<string>)

  /** `performQualityCheck`: a base of 60, 20 more for three or more keywords and 20 more for any
      indicator; one type-specific recommendation for the three types that have one. */
  function PerformQualityCheck(a: FileAnalysis): (q: QualityCheck)
    ensures q.completeness in {60, 80, 100}
    ensures q.completeness == 60 + (if |a.keywords| >= 3 then 20 else 0) + (if |a.indicators| > 0 then 20 else 0)
    ensures q.issues == []
    ensures |q.recommendations| <= 1
    ensures |q.recommendations| == 1 <==> a.evidenceType in {"LESSON_PLAN", "TEACHING_MEDIA", "ASSESSMENT"}
  {
    var rec :=
      if a.evidenceType == "LESSON_PLAN" then ["ตรวจสอบว่ามี: วัตถุประสงค์, ขั้นตอนการสอน, การวัดผล"]
      else if a.evidenceType == "TEACHING_MEDIA" then ["สื่อควรเหมาะสมกับวัยและระดับนักเรียน"]
      else if a.evidenceType == "ASSESSMENT" then ["แบบทดสอบควรครอบคลุมจุดประสงค์การเรียนรู้"]
      else [];
    var c := 60 + (if |a.keywords| >= 3 then 20 else 0) + (if |a.indicators| > 0 then 20 else 0);
    QualityCheck(c, [], rec)
  }

  const IndicatorHint: string := "ควรระบุ Indicator ที่เกี่ยวข้อง (เช่น WP.1, ET.2)"
  const DetailHint: string := "ควรเพิ่มรายละเอียด เช่น วิชา ระดับชั้น หรือหัวข้อเรื่อง"
  const PdpaReminder: string := "ตรวจสอบว่าไฟล์ไม่มีข้อมูลส่วนบุคคลของนักเรียน"

  /** `generateSuggestions`: the two hints when they apply, every recommendation, then the
      personal-data reminder last. */
  function Suggestions(a: FileAnalysis, q: QualityCheck): (r: seq<string>)
    ensures |r| > 0 && r[|r| - 1] == PdpaReminder
    ensures forall x :: x in q.recommendations ==> x in r
    ensures |a.indicators| == 0 ==> r[0] == IndicatorHint
    ensures |r| == (if |a.indicators| == 0 then 1 else 0) + (if |a.keywords| < 3 then 1 else 0) + |q.recommendations| + 1
  {
    (if |a.indicators| == 0 then [IndicatorHint] else []) +
    (if |a.keywords| < 3 then [DetailHint] else []) +
    q.recommendations + [PdpaReminder]
  }

  datatype EvidenceSummary = EvidenceSummary(
    summary: string, keywords: seq<string>, suggestedIndicators: seq<string>, suggestedFilename: string,
    qualityCheck: QualityCheck, suggestions: seq<string>)

  datatype SummaryError = AiNotEnabled

  /** `summarizeEvidence`: with the provider enabled, the provider's analysis is completed with
      the standard filename, the quality check and the suggestions. */
  function SummarizeEvidence(aiEnabled: bool, analysis: FileAnalysis, date: string)
    : (r: Result<EvidenceSummary, SummaryError>)
    ensures !aiEnabled <==> r == Err(AiNotEnabled)
    ensures r.Ok? ==> r.value.suggestedFilename == StandardFilename(analysis, date)
    ensures r.Ok? ==> r.value.qualityCheck == PerformQualityCheck(analysis)
    ensures r.Ok? ==> |r.value.suggestions| > 0 && r.value.suggestions[|r.value.suggestions| - 1] == PdpaReminder
    ensures r.Ok? ==> r.value.summary == analysis.summary && r.value.suggestedIndicators == analysis.indicators
  {
    if !aiEnabled then Err(AiNotEnabled)
    else
      var q := PerformQualityCheck(analysis);
      Ok(EvidenceSummary(analysis.summary, analysis.keywords, analysis.indicators,
                         StandardFilename(analysis, date), q, Suggestions(analysis, q)))
  }
}

/** The rule-based parts of the journal assistant: the demonstration rewrite of a
    journal draft, the suggestions shown beside an improved draft, and the reflection
    prompts kept per indicator code. */
module JournalAi {
  import opened Common

  // ---------------------------------------------------------------
  // mockImprove
  // ---------------------------------------------------------------

  /** `text.replace(/pat/g, rep)`: every non-overlapping occurrence, scanning left to right. */
  function ReplaceAll(s: string, pat: string, rep: string): string
    requires |pat| > 0
    decreases |s|
  {
    if s == [] then []
    else if StartsWith(s, pat) then rep + ReplaceAll(s[|pat|..], pat, rep)
    else [s[0]] + ReplaceAll(s[1..], pat, rep)
  }

  /** A text without the pattern is left as it is. */
  lemma {:induction false} ReplaceAbsent(s: string, pat: string, rep: string)
    requires |pat| > 0 && !Contains(s, pat)
    ensures ReplaceAll(s, pat, rep) == s
    decreases |s|
  {
    if s != [] {
      assert !Contains(s[1..], pat);
      ReplaceAbsent(s[1..], pat, rep);
    }
  }

  lemma {:induction false} ContainsWitness(s: string, sub: string) returns (i: nat)
    requires Contains(s, sub)
    ensures i + |sub| <= |s| && s[i..i + |sub|] == sub
    decreases |s|
  {
    if StartsWith(s, sub) {
      i := 0;
    } else {
      var j := ContainsWitness(s[1..], sub);
      i := j + 1;
      assert s[1..][j..j + |sub|] == s[i..i + |sub|];
    }
  }

  const Today: string := "ในวันนี้"
  const Good: string := "ดี"
  const NotGood: string := "ไม่ดี"
  const WentWell: string := "เป็นไปด้วยดี"
  const Closing: string := " โดยภาพรวมการจัดการเรียนรู้เป็นไปตามวัตถุประสงค์ที่กำหนดไว้"

  /** The five rewrites before "ไม่ดี", in the source's order. */
  function RewriteWords(input: string): string {
    var a := ReplaceAll(input, "วันนี้", Today);
    var b := ReplaceAll(a, "เด็กๆ", "นักเรียน");
    var c := ReplaceAll(b, "เด็ก", "นักเรียน");
    var d := ReplaceAll(c, "สอน", "จัดการเรียนรู้");
    ReplaceAll(d, Good, WentWell)
  }

  /** `mockImprove`: the word rewrites, a formal opening unless already present, and the fixed
      closing sentence. */
  function MockImprove(input: string): (r: string)
    ensures StartsWith(r, Today)
    ensures EndsWith(r, Closing)
  {
    var improved := ReplaceAll(RewriteWords(input), NotGood, "ยังต้องพัฒนา");
    var withOpening := if !StartsWith(improved, Today) then Today + " " + improved else improved;
    assert (withOpening + Closing)[..|Today|] == withOpening[..|Today|];
    assert (withOpening + Closing)[|withOpening|..] == Closing;
    withOpening + Closing
  }

  /** Every "ดี" in the text is the end of "ด้วยดี": it is preceded by "ย". */
  predicate GoodOnlyAfterYo(t: string) {
    forall i :: 0 <= i < |t| - 1 && t[i] == 'ด' && t[i + 1] == 'ี' ==> 1 <= i && t[i - 1] == 'ย'
  }

  /** The first character of a rewritten text. */
  lemma {:induction false} FirstAfterRewrite(s: string)
    requires s != []
    ensures ReplaceAll(s, Good, WentWell) != []
    ensures ReplaceAll(s, Good, WentWell)[0] == if StartsWith(s, Good) then 'เ' else s[0]
  {
  }

  lemma {:induction false} RewriteKeepsGoodAfterYo(s: string)
    ensures GoodOnlyAfterYo(ReplaceAll(s, Good, WentWell))
    decreases |s|
  {
    if s != [] {
      var out := ReplaceAll(s, Good, WentWell);
      if StartsWith(s, Good) {
        var rest := ReplaceAll(s[2..], Good, WentWell);
        RewriteKeepsGoodAfterYo(s[2..]);
        assert out == WentWell + rest;
        forall i | 0 <= i < |out| - 1 && out[i] == 'ด' && out[i + 1] == 'ี'
          ensures 1 <= i && out[i - 1] == 'ย'
        {
          if i >= 12 {
            assert rest[i - 12] == 'ด' && rest[i - 11] == 'ี';
          }
        }
      } else {
        var rest := ReplaceAll(s[1..], Good, WentWell);
        RewriteKeepsGoodAfterYo(s[1..]);
        assert out == [s[0]] + rest;
        forall i | 0 <= i < |out| - 1 && out[i] == 'ด' && out[i + 1] == 'ี'
          ensures 1 <= i && out[i - 1] == 'ย'
        {
          if i == 0 {
            FirstAfterRewrite(s[1..]);
            assert false;
          } else {
            assert rest[i - 1] == 'ด' && rest[i] == 'ี';
          }
        }
      }
    }
  }

  lemma NotGoodNowhere(t: string, i: nat)
    requires GoodOnlyAfterYo(t) && i + 5 <= |t|
    ensures t[i..i + 5] != NotGood
  {
    assert t[i + 3] == 'ด' && t[i + 4] == 'ี' ==> t[i + 2] == 'ย';
  }

  /** Once every "ดี" has become "เป็นไปด้วยดี", no "ไม่ดี" is left: the source's last rewrite,
      "ไม่ดี" to "ยังต้องพัฒนา", never applies. */
  lemma NotGoodRuleNeverApplies(input: string)
    ensures !Contains(RewriteWords(input), NotGood)
    ensures MockImprove(input) == (if StartsWith(RewriteWords(input), Today) then "" else Today + " ") +
      RewriteWords(input) + Closing
  {
    var d := RewriteWords(input);
    RewriteKeepsGoodAfterYo(ReplaceAll(ReplaceAll(ReplaceAll(ReplaceAll(input, "วันนี้", Today),
      "เด็กๆ", "นักเรียน"), "เด็ก", "นักเรียน"), "สอน", "จัดการเรียนรู้"));
    if Contains(d, NotGood) {
      var i := ContainsWitness(d, NotGood);
      NotGoodNowhere(d, i);
      assert false;
    }
    ReplaceAbsent(d, NotGood, "ยังต้องพัฒนา");
  }

  // ---------------------------------------------------------------
  // generateImprovementSuggestions
  // ---------------------------------------------------------------

  const MoreFormal: string := "ปรับปรุงภาษาให้เป็นทางการมากขึ้น"
  const ChildToStudent: string := "เปลี่ยนจาก \"เด็ก\" เป็น \"นักเรียน\" เพื่อความเป็นทางการ"
  const AddDetail: string := "ควรเพิ่มรายละเอียดเพื่อให้บันทึกมีความสมบูรณ์"
  const CheckFacts: string := "ตรวจสอบความถูกต้องของข้อมูลก่อนบันทึก"
  const AddExamples: string := "พิจารณาเพิ่มตัวอย่างเฉพาะจากการเรียนการสอนจริง"

  lemma SuggestionLengths()
    ensures |MoreFormal| == 32 && |ChildToStudent| == 53 && |AddDetail| == 45
    ensures |CheckFacts| == 37 && |AddExamples| == 46
  {
  }

  function If(c: bool, x: string): seq<string> {
    if c then [x] else []
  }

  /** `generateImprovementSuggestions`: the three conditional hints, then the two reminders. */
  function ImprovementSuggestions(original: string, improved: string): seq<string> {
    If(original != improved, MoreFormal) +
    If(Contains(original, "เด็ก") || Contains(original, "เด็กๆ"), ChildToStudent) +
    If(|original| < 50, AddDetail) +
    [CheckFacts, AddExamples]
  }

  /** A text containing "เด็กๆ" contains "เด็ก", so the second test of the child hint adds nothing. */
  lemma {:induction false} ChildrenContainsChild(s: string)
    requires Contains(s, "เด็กๆ")
    ensures Contains(s, "เด็ก")
  {
    var i := ContainsWitness(s, "เด็กๆ");
    assert s[i..i + 4] == s[i..i + 5][..4] == "เด็ก";
    ContainsAt(s, "เด็ก", i);
  }

  /** Each hint appears exactly when its condition holds, and the list always ends with the two
      reminders. */
  lemma SuggestionsProperties(original: string, improved: string)
    ensures var r := ImprovementSuggestions(original, improved);
      2 <= |r| <= 5 && r[|r| - 2..] == [CheckFacts, AddExamples]
    ensures MoreFormal in ImprovementSuggestions(original, improved) <==> original != improved
    ensures ChildToStudent in ImprovementSuggestions(original, improved) <==> Contains(original, "เด็ก")
    ensures AddDetail in ImprovementSuggestions(original, improved) <==> |original| < 50
  {
    SuggestionLengths();
    if Contains(original, "เด็กๆ") {
      ChildrenContainsChild(original);
    }
  }

  // ---------------------------------------------------------------
  // getPromptsForIndicator / suggestReflectionPrompts / improveLanguage
  // ---------------------------------------------------------------

  datatype ReflectionPrompts = ReflectionPrompts(
    prompts: seq<string>, relatedIndicators: seq<string>, focusAreas: seq<string>)

  /** The knowledge base, keyed by codes written with an underscore. */
  const PromptsMap: map<string, ReflectionPrompts> := map[
    "WP_1" := ReflectionPrompts([
        "วันนี้ฉันออกแบบกิจกรรมการเรียนรู้อย่างไรให้สอดคล้องกับจุดประสงค์การเรียนรู้?",
        "สื่อและแหล่งเรียนรู้ที่ใช้วันนี้เหมาะสมกับนักเรียนหรือไม่? เพราะเหตุใด?",
        "นักเรียนมีส่วนร่วมในการออกแบบกิจกรรมการเรียนรู้ในระดับใด?",
        "หากต้องสอนบทเรียนนี้อีกครั้ง ฉันจะปรับแผนการสอนอย่างไร?"],
      ["WP.2", "WP.3"], ["การออกแบบการเรียนรู้", "สื่อการสอน", "กิจกรรมการเรียนรู้"]),
    "WP_2" := ReflectionPrompts([
        "นักเรียนได้แสดงความคิดเห็นและตั้งคำถามมากน้อยเพียงใด?",
        "ฉันใช้วิธีการใดเพื่อกระตุ้นให้นักเรียนคิดวิเคราะห์?",
        "นักเรียนที่มีความสามารถแตกต่างกันได้รับการดูแลอย่างเหมาะสมหรือไม่?",
        "บรรยากาศในชั้นเรียนเอื้อต่อการเรียนรู้หรือไม่? อย่างไร?"],
      ["WP.1", "ET.2"], ["การจัดการเรียนรู้", "การมีส่วนร่วม", "บรรยากาศชั้นเรียน"]),
    "WP_3" := ReflectionPrompts([
        "วิธีการวัดและประเมินผลที่ใช้วันนี้สอดคล้องกับจุดประสงค์การเรียนรู้หรือไม่?",
        "ผลการประเมินสะท้อนให้เห็นความก้าวหน้าของนักเรียนอย่างไร?",
        "ฉันให้ข้อมูลย้อนกลับ (feedback) แก่นักเรียนอย่างไรบ้าง?",
        "นักเรียนได้ประเมินตนเองหรือประเมินเพื่อนหรือไม่? เป็นอย่างไร?"],
      ["WP.1", "WP.2"], ["การวัดผล", "การประเมินผล", "การให้ข้อมูลย้อนกลับ"]),
    "ET_1" := ReflectionPrompts([
        "วันนี้ฉันแสดงออกถึงความเป็นครูที่ดีอย่างไร?",
        "ฉันสร้างความสัมพันธ์ที่ดีกับนักเรียนอย่างไร?",
        "ฉันเป็นแบบอย่างที่ดีให้กับนักเรียนในเรื่องใด?",
        "ฉันจัดการกับสถานการณ์ที่ท้าทายอย่างไร?"],
      ["ET.2", "ET.4"], ["ความเป็นครู", "จรรยาบรรณ", "การเป็นแบบอย่าง"]),
    "ET_2" := ReflectionPrompts([
        "ฉันจัดการชั้นเรียนอย่างไรเพื่อให้เกิดบรรยากาศที่เอื้อต่อการเรียนรู้?",
        "เมื่อมีปัญหาเกิดขึ้นในชั้นเรียน ฉันจัดการอย่างไร?",
        "นักเรียนมีส่วนร่วมในการกำหนดกฎกติกาของชั้นเรียนหรือไม่?",
        "การจัดการเวลาและทรัพยากรในชั้นเรียนเป็นอย่างไร?"],
      ["WP.2", "ET.1"], ["การจัดการชั้นเรียน", "วินัย", "บรรยากาศ"]),
    "ET_3" := ReflectionPrompts([
        "ฉันแบ่งปันความรู้และประสบการณ์กับเพื่อนครูอย่างไร?",
        "ฉันมีส่วนร่วมในการพัฒนาวิชาการของโรงเรียนอย่างไร?",
        "ฉันนำความรู้ใหม่ๆ มาใช้ในการเรียนการสอนอย่างไร?",
        "ฉันช่วยเหลือเพื่อนครูหรือรับคำแนะนำจากผู้อื่นอย่างไร?"],
      ["ET.4", "WP.1"], ["ภาวะผู้นำ", "การแบ่งปัน", "ชุมชนการเรียนรู้"]),
    "ET_4" := ReflectionPrompts([
        "วันนี้ฉันได้เรียนรู้สิ่งใหม่อะไรบ้าง?",
        "ฉันพัฒนาตนเองในด้านใดบ้างในสัปดาห์นี้?",
        "ฉันมีแผนในการพัฒนาตนเองอย่างไรในเดือนหน้า?",
        "ฉันขอคำแนะนำหรือข้อมูลย้อนกลับจากใครบ้าง?"],
      ["ET.1", "ET.3"], ["การพัฒนาตนเอง", "การเรียนรู้", "การไตร่ตรอง"])
  ]

  const GenericPrompts: ReflectionPrompts :=
    ReflectionPrompts(["วันนี้การสอนเป็นอย่างไร?", "มีอะไรที่น่าประทับใจ?", "มีอะไรที่ต้องปรับปรุง?"],
      [], ["ทั่วไป"])

  /** `getPromptsForIndicator`: the entry for the code, or the generic prompts. */
  function PromptsForIndicator(code: string): ReflectionPrompts {
    if code in PromptsMap then PromptsMap[code] else GenericPrompts
  }

  /** The seven underscore codes get four prompts with two related indicators; every other code,
      the dotted "WP.1" included, gets the three generic prompts and no related indicator. */
  lemma PromptsShape(code: string)
    ensures code in {"WP_1", "WP_2", "WP_3", "ET_1", "ET_2", "ET_3", "ET_4"} <==>
      |PromptsForIndicator(code).prompts| == 4
    ensures code in {"WP_1", "WP_2", "WP_3", "ET_1", "ET_2", "ET_3", "ET_4"} ==>
      |PromptsForIndicator(code).relatedIndicators| == 2 && |PromptsForIndicator(code).focusAreas| == 3
    ensures code !in {"WP_1", "WP_2", "WP_3", "ET_1", "ET_2", "ET_3", "ET_4"} ==>
      PromptsForIndicator(code) == GenericPrompts
    ensures PromptsForIndicator("WP.1") == GenericPrompts
  {
    assert PromptsMap.Keys == {"WP_1", "WP_2", "WP_3", "ET_1", "ET_2", "ET_3", "ET_4"};
  }

  /** An activity-log entry written by the assistant. */
  datatype Activity = Activity(userId: string, actionType: string, modelUsed: string)

  /** `suggestReflectionPrompts`: the prompts for the code, logged as a rule-based suggestion. */
  function SuggestReflectionPrompts(code: string, userId: string): (r: (ReflectionPrompts, Activity))
    ensures r.0 == PromptsForIndicator(code)
    ensures r.1.userId == userId && r.1.actionType == "JOURNAL_SUGGEST" && r.1.modelUsed == "rule-based"
  {
    (PromptsForIndicator(code), Activity(userId, "JOURNAL_SUGGEST", "rule-based"))
  }

  datatype JournalImproveResult = JournalImproveResult(
    improvedText: string, suggestions: seq<string>, confidencePercent: nat, model: string)

  /** `improveLanguage`, with the language model's rewrite and its name as inputs: the rewrite is
      returned as it is, with the suggestions comparing it to the draft, and the call is logged. */
  function ImproveLanguage(input: string, userId: string, improvedText: string, modelName: string)
    : (r: (JournalImproveResult, Activity))
    ensures r.0.improvedText == improvedText && r.0.model == modelName && r.0.confidencePercent == 85
    ensures r.0.suggestions == ImprovementSuggestions(input, improvedText)
    ensures r.1 == Activity(userId, "JOURNAL_IMPROVE", modelName)
  {
    (JournalImproveResult(improvedText, ImprovementSuggestions(input, improvedText), 85, modelName),
     Activity(userId, "JOURNAL_IMPROVE", modelName))
  }
}

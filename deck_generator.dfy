// The presentation deck generated from a completeness report: a cover, an
// overview with the pass criteria, the professional table and one detail
// slide per professional indicator, the social and self-development slides
// of the later rounds, the discipline slide and a closing summary of what is
// still missing. A slide is the data it shows; `Lines` renders its data
// lines, and the Markdown boilerplate around them is not modelled.

module DeckGenerator {
  import opened Common
  import opened IndicatorChecks
  import opened Completeness

  // ---------------------------------------------------------------
  // Status helpers
  // ---------------------------------------------------------------

  /** The Thai label of a status column value; anything unlisted is "not enough". */
  function StatusLabel(status: string): string {
    if status == "READY" then "พร้อมนำเสนอ"
    else if status == "DRAFT" then "ฉบับร่าง"
    else "ยังไม่เพียงพอ"
  }

  function StatusEmoji(status: string): string {
    if status == "READY" then "🟢"
    else if status == "DRAFT" then "🟡"
    else "🔴"
  }

  /** Distinct statuses get distinct labels and emoji; unknown strings read as INSUFFICIENT. */
  lemma StatusDisplayFaithful(a: CompletenessStatus, b: CompletenessStatus, other: string)
    ensures StatusLabel(a.Name()) == StatusLabel(b.Name()) <==> a == b
    ensures StatusEmoji(a.Name()) == StatusEmoji(b.Name()) <==> a == b
    ensures other != "READY" && other != "DRAFT" ==>
      StatusLabel(other) == StatusLabel(Insufficient.Name()) && StatusEmoji(other) == StatusEmoji(Insufficient.Name())
  {
    assert StatusLabel("READY") != StatusLabel("DRAFT");
    assert StatusLabel("READY")[0] != StatusLabel("INSUFFICIENT")[0];
    assert StatusLabel("DRAFT")[0] != StatusLabel("INSUFFICIENT")[0];
    assert StatusEmoji("READY") != StatusEmoji("DRAFT");
    assert StatusEmoji("READY") != StatusEmoji("INSUFFICIENT");
    assert StatusEmoji("DRAFT") != StatusEmoji("INSUFFICIENT");
  }

  // ---------------------------------------------------------------
  // Ordering professional items by id
  // ---------------------------------------------------------------

  predicate SortedById(s: seq<IndicatorCompleteness>) {
    forall i :: 0 < i < |s| ==> LexLe(s[i - 1].id, s[i].id)
  }

  function Insert(x: IndicatorCompleteness, s: seq<IndicatorCompleteness>): (r: seq<IndicatorCompleteness>)
    requires SortedById(s)
    ensures SortedById(r)
    ensures multiset(r) == multiset(s) + multiset{x}
    ensures |r| == |s| + 1 && (r[0] == x || (s != [] && r[0] == s[0]))
  {
    if s == [] then [x]
    else if LexLe(x.id, s[0].id) then [x] + s
    else
      LexTotal(x.id, s[0].id);
      var rest := Insert(x, s[1..]);
      assert s == [s[0]] + s[1..];
      [s[0]] + rest
  }

  /** `sort(([a], [b]) => a.localeCompare(b))`, as an insertion sort. */
  function SortById(s: seq<IndicatorCompleteness>): (r: seq<IndicatorCompleteness>)
    ensures SortedById(r)
    ensures multiset(r) == multiset(s)
    ensures |r| == |s|
  {
    if s == [] then []
    else
      assert s == [s[0]] + s[1..];
      Insert(s[0], SortById(s[1..]))
  }

  /** The items whose id starts with `prefix`, in report order. */
  function WithPrefix(items: seq<IndicatorCompleteness>, prefix: string): (r: seq<IndicatorCompleteness>)
    ensures forall x :: x in r <==> x in items && StartsWith(x.id, prefix)
    ensures |r| <= |items|
  {
    if items == [] then []
    else
      var x := items[|items| - 1];
      WithPrefix(items[..|items| - 1], prefix) + (if StartsWith(x.id, prefix) then [x] else [])
  }

  /** The professional-domain items, ordered by id. */
  function ProItems(items: seq<IndicatorCompleteness>): (r: seq<IndicatorCompleteness>)
    ensures SortedById(r)
    ensures multiset(r) == multiset(WithPrefix(items, "PRO_"))
    ensures forall x :: x in r <==> x in items && StartsWith(x.id, "PRO_")
  {
    var r := SortById(WithPrefix(items, "PRO_"));
    assert forall x :: x in r <==> x in multiset(r);
    r
  }

  // ---------------------------------------------------------------
  // Slides
  // ---------------------------------------------------------------

  /** The slides in the order `buildSlidesMarkdown` pushes them, each with the data it shows. */
  datatype DeckSlide =
    | CoverPage(round: int, teacherName: string, academicYear: string)
    | OverviewPage(deckScore: nat, deckStatus: CompletenessStatus, pro: Option<DomainCompleteness>,
                   soc: Option<DomainCompleteness>, per: Option<DomainCompleteness>, criteria: PassCriteria)
    | ProfessionalTable(proScore: nat, items: seq<IndicatorCompleteness>)
    | DetailPage(item: IndicatorCompleteness)
    | SocialPage(socScore: nat, items: seq<IndicatorCompleteness>)
    | DisciplinePage(items: seq<IndicatorCompleteness>)
    | DevelopmentPage(items: seq<IndicatorCompleteness>)
    | SummaryPage(items: seq<IndicatorCompleteness>, deckScore: nat)

  /** The first domain with the given id (`c.domains.X`). */
  function DomainById(domains: seq<DomainCompleteness>, id: string): (r: Option<DomainCompleteness>)
    ensures r.Some? ==> r.value in domains && r.value.id == id
    ensures r.None? <==> forall k :: 0 <= k < |domains| ==> domains[k].id != id
  {
    if domains == [] then None
    else if domains[0].id == id then Some(domains[0])
    else DomainById(domains[1..], id)
  }

  /** `d?.score || 0`. */
  function ScoreOrZero(d: Option<DomainCompleteness>): nat {
    if d.Some? then d.value.score else 0
  }

  /** The items with something missing (`filter(... missing.length > 0)`), in report order. */
  function WithMissing(items: seq<IndicatorCompleteness>): (r: seq<IndicatorCompleteness>)
    ensures forall x :: x in r <==> x in items && |x.missing| > 0
  {
    if items == [] then []
    else (if |items[0].missing| > 0 then [items[0]] else []) + WithMissing(items[1..])
  }

  function Details(pro: seq<IndicatorCompleteness>): (r: seq<DeckSlide>)
    ensures |r| == |pro|
    ensures forall k :: 0 <= k < |pro| ==> r[k] == DetailPage(pro[k])
  {
    if pro == [] then [] else Details(pro[..|pro| - 1]) + [DetailPage(pro[|pro| - 1])]
  }

  function Opening(c: DeckCompleteness, round: int, year: string): seq<DeckSlide> {
    var pro := DomainById(c.domains, "PROFESSIONAL");
    [CoverPage(round, c.teacherName, year),
     OverviewPage(c.deckScore, c.deckStatus, pro, DomainById(c.domains, "SOCIAL"),
                  DomainById(c.domains, "PERSONAL"), c.passCriteria),
     ProfessionalTable(ScoreOrZero(pro), ProItems(c.items))]
  }

  function SocialSlides(c: DeckCompleteness, round: int): seq<DeckSlide> {
    var soc := DomainById(c.domains, "SOCIAL");
    if round >= 3 && soc.Some? then [SocialPage(soc.value.score, WithPrefix(c.items, "SOC_"))] else []
  }

  function DevelopmentSlides(c: DeckCompleteness, round: int): seq<DeckSlide> {
    if round >= 3 then [DevelopmentPage(WithPrefix(c.items, "PER_2"))] else []
  }

  function Ending(c: DeckCompleteness, round: int): seq<DeckSlide> {
    SocialSlides(c, round) + [DisciplinePage(WithPrefix(c.items, "PER_1"))]
    + DevelopmentSlides(c, round) + [SummaryPage(Take(WithMissing(c.items), 8), c.deckScore)]
  }

  /** The whole deck, slide by slide. */
  function DeckSlides(c: DeckCompleteness, round: int, year: string): seq<DeckSlide> {
    Opening(c, round, year) + Details(ProItems(c.items)) + Ending(c, round)
  }

  /** The slides pushed in order, one detail slide per professional item. */
  method BuildSlides(c: DeckCompleteness, round: int, year: string) returns (slides: seq<DeckSlide>)
    ensures slides == DeckSlides(c, round, year)
  {
    var head := Opening(c, round, year);
    slides := head;
    var pro := ProItems(c.items);
    var i := 0;
    while i < |pro|
      invariant 0 <= i <= |pro|
      invariant slides == head + Details(pro[..i])
    {
      DetailsSnoc(pro, i);
      slides := slides + [DetailPage(pro[i])];
      i := i + 1;
    }
    TakeWhole(pro);
    var rest := PushEnding(c, round);
    slides := slides + rest;
  }

  lemma DetailsSnoc(pro: seq<IndicatorCompleteness>, i: nat)
    requires i < |pro|
    ensures Details(pro[..i + 1]) == Details(pro[..i]) + [DetailPage(pro[i])]
  {
    assert pro[..i + 1][..i] == pro[..i];
  }

  /** The slides after the professional details. */
  method PushEnding(c: DeckCompleteness, round: int) returns (rest: seq<DeckSlide>)
    ensures rest == Ending(c, round)
  {
    rest := [];
    var soc := DomainById(c.domains, "SOCIAL");
    if round >= 3 && soc.Some? {
      rest := rest + [SocialPage(soc.value.score, WithPrefix(c.items, "SOC_"))];
    }
    rest := rest + [DisciplinePage(WithPrefix(c.items, "PER_1"))];
    if round >= 3 {
      rest := rest + [DevelopmentPage(WithPrefix(c.items, "PER_2"))];
    }
    rest := rest + [SummaryPage(Take(WithMissing(c.items), 8), c.deckScore)];
  }

  // ---------------------------------------------------------------
  // Rendering
  // ---------------------------------------------------------------

  function Mark(passed: bool): string {
    if passed then "✅" else "⬜"
  }

  function Percent(n: nat): string {
    NatToString(n) + "%"
  }

  /** The social score cell, `${socScore}${typeof socScore === 'number' ? '%' : ''}` with `socScore = SOCIAL?.score || '-'`. */
  function SocialScoreCell(d: Option<DomainCompleteness>): string {
    if d.Some? && d.value.score != 0 then Percent(d.value.score) else "-"
  }

  function EmojiCell(d: Option<DomainCompleteness>, absent: string): string {
    if d.Some? then StatusEmoji(d.value.status.Name()) else absent
  }

  function CriterionLine(name: string, c: Criterion): string {
    (if c.passed then "✅" else "❌") + " " + name + ": " + NatToString(c.actual) + "/" + NatToString(c.required)
  }

  /** One table row per professional item, numbered from `first`. */
  function TableRows(pro: seq<IndicatorCompleteness>, first: nat): (r: seq<string>)
    ensures |r| == |pro|
  {
    if pro == [] then []
    else
      ["| " + NatToString(first) + " | " + pro[0].name + " | " + Percent(pro[0].score)
       + " | " + StatusEmoji(pro[0].status.Name()) + " |"]
      + TableRows(pro[1..], first + 1)
  }

  function CheckLine(ch: CheckResult): string {
    ("- " + Mark(ch.passed)) + (" " + ch.checkLabel + " (" + Percent(ch.weight) + ")")
  }

  function CheckLines(checks: seq<CheckResult>): (r: seq<string>)
    ensures |r| == |checks|
    ensures forall k :: 0 <= k < |checks| ==> r[k] == CheckLine(checks[k])
  {
    if checks == [] then [] else [CheckLine(checks[0])] + CheckLines(checks[1..])
  }

  function MissingBullets(missing: seq<string>): (r: seq<string>)
    ensures |r| == |missing|
    ensures forall k :: 0 <= k < |missing| ==> r[k] == "- ❗ " + missing[k]
  {
    if missing == [] then [] else ["- ❗ " + missing[0]] + MissingBullets(missing[1..])
  }

  const CompleteLine := "### ✅ ครบทุกรายการ"
  const MissingHeading := "### สิ่งที่ยังขาด"

  function MissingBlock(missing: seq<string>): seq<string> {
    if |missing| > 0 then [MissingHeading] + MissingBullets(missing) else [CompleteLine]
  }

  /** `- ✅ label` lines with the given indent, joined into one block under the item's heading. */
  function CheckBlock(item: IndicatorCompleteness, indent: string): string {
    "### " + item.name + " (" + Percent(item.score) + ")\n"
    + Join(BareCheckLines(item.checks, indent), "\n")
  }

  function BareCheckLines(checks: seq<CheckResult>, indent: string): (r: seq<string>)
    ensures |r| == |checks|
  {
    if checks == [] then []
    else [indent + "- " + Mark(checks[0].passed) + " " + checks[0].checkLabel] + BareCheckLines(checks[1..], indent)
  }

  function CheckBlocks(items: seq<IndicatorCompleteness>, indent: string): (r: seq<string>)
    ensures |r| == |items|
  {
    if items == [] then [] else [CheckBlock(items[0], indent)] + CheckBlocks(items[1..], indent)
  }

  function DisciplineLine(item: IndicatorCompleteness): string {
    ("- " + Mark(item.score >= 60)) + (" " + item.name + " (" + Percent(item.score) + ")")
  }

  function DisciplineLines(items: seq<IndicatorCompleteness>): (r: seq<string>)
    ensures |r| == |items|
    ensures forall k :: 0 <= k < |items| ==> r[k] == DisciplineLine(items[k])
  {
    if items == [] then [] else [DisciplineLine(items[0])] + DisciplineLines(items[1..])
  }

  /** `- **name**: first two missing labels`. */
  function MissingEntry(item: IndicatorCompleteness): string {
    "- **" + item.name + "**: " + Join(Take(item.missing, 2), ", ")
  }

  function MissingEntries(items: seq<IndicatorCompleteness>): (r: seq<string>)
    ensures |r| == |items|
    ensures forall k :: 0 <= k < |items| ==> r[k] == MissingEntry(items[k])
  {
    if items == [] then [] else [MissingEntry(items[0])] + MissingEntries(items[1..])
  }

  const NothingMissing := "✅ ไม่มีรายการที่ขาด - พร้อมนำเสนอ!"

  function SummaryBody(entries: seq<string>): string {
    if |entries| > 0 then Join(entries, "\n") else NothingMissing
  }

  function ClosingLine(deckScore: nat): string {
    if deckScore >= 80 then "### 🎉 ความสมบูรณ์ ≥ 80% — พร้อมนำเสนอ!"
    else "### ⚠️ ความสมบูรณ์ " + Percent(deckScore) + " — กรุณาเติมหลักฐานให้ครบ"
  }

  function OverviewLines(score: nat, status: CompletenessStatus, pro: Option<DomainCompleteness>,
                         soc: Option<DomainCompleteness>, per: Option<DomainCompleteness>,
                         p: PassCriteria): seq<string> {
    ["### ความสมบูรณ์รวม: **" + Percent(score) + "** (" + StatusLabel(status.Name()) + ")",
     "| ด้านวิชาชีพ | " + Percent(ScoreOrZero(pro)) + " | " + EmojiCell(pro, "-") + " |",
     "| ด้านสังคม | " + SocialScoreCell(soc) + " | " + EmojiCell(soc, "ยังไม่ใช้") + " |",
     "| ด้านคุณลักษณะ | " + Percent(ScoreOrZero(per)) + " | " + EmojiCell(per, "-") + " |",
     CriterionLine("วิชาชีพ", p.professional),
     if p.social.Some? then CriterionLine("สังคม", p.social.value) else "➖ สังคม: ไม่ใช้ในครั้งนี้",
     CriterionLine("คุณลักษณะ", p.personal),
     if p.overall then "**ผลรวม: ✅ ผ่านเกณฑ์**" else "**ผลรวม: ❌ ยังไม่ผ่านเกณฑ์**"]
  }

  /** The data lines of a slide. */
  function Lines(s: DeckSlide): seq<string> {
    match s
    case CoverPage(round, name, year) =>
      ["## ว19/2568 ครั้งที่ " + IntToString(round), "**" + name + "**", "ปีการศึกษา " + year]
    case OverviewPage(score, status, pro, soc, per, p) => OverviewLines(score, status, pro, soc, per, p)
    case ProfessionalTable(score, items) =>
      ["## ด้านวิชาชีพ (" + Percent(score) + ")"] + TableRows(items, 1)
    case DetailPage(item) =>
      ["## " + item.name + " (" + Percent(item.score) + ")", "### Checklist หลักฐาน"]
      + CheckLines(item.checks) + MissingBlock(item.missing)
    case SocialPage(score, items) =>
      ["## ด้านสังคม (" + Percent(score) + ")", Join(CheckBlocks(items, ""), "\n\n")]
    case DisciplinePage(items) =>
      ["## วินัย คุณธรรม จริยธรรม"] + DisciplineLines(items)
    case DevelopmentPage(items) =>
      ["## การพัฒนาตนเอง", Join(CheckBlocks(items, "  "), "\n\n")]
    case SummaryPage(items, score) => SummaryLines(items, score)
  }

  function SummaryLines(items: seq<IndicatorCompleteness>, deckScore: nat): seq<string> {
    ["# สรุปสิ่งที่ต้องเติม", SummaryBody(MissingEntries(items)), ClosingLine(deckScore)]
  }

  /** The deck's Markdown, slide texts joined by newlines. */
  function RenderAll(slides: seq<DeckSlide>): (r: seq<string>)
    ensures |r| == |slides|
  {
    if slides == [] then [] else [Join(Lines(slides[0]), "\n")] + RenderAll(slides[1..])
  }

  method BuildSlidesMarkdown(c: DeckCompleteness, round: int, year: string) returns (text: string)
    ensures text == Join(RenderAll(DeckSlides(c, round, year)), "\n")
  {
    var slides := BuildSlides(c, round, year);
    text := Join(RenderAll(slides), "\n");
  }

  // ---------------------------------------------------------------
  // Properties
  // ---------------------------------------------------------------

  lemma EndingHasNoDetail(c: DeckCompleteness, round: int)
    ensures forall k :: 0 <= k < |Ending(c, round)| ==> !Ending(c, round)[k].DetailPage?
  {
  }

  /**
   * Exactly one detail slide per PRO_ item, in ascending id order, right
   * after the three opening slides ...
   */
  lemma DetailSlidesPerProItem(c: DeckCompleteness, round: int, year: string)
    ensures |DeckSlides(c, round, year)| >= 3 + |ProItems(c.items)|
    ensures forall k :: 0 <= k < |ProItems(c.items)| ==>
      DeckSlides(c, round, year)[3 + k] == DetailPage(ProItems(c.items)[k])
  {
    DetailsAfter(Opening(c, round, year), ProItems(c.items), Ending(c, round));
  }

  lemma DetailsAfter(o: seq<DeckSlide>, pro: seq<IndicatorCompleteness>, e: seq<DeckSlide>)
    requires |o| == 3
    ensures |o + Details(pro) + e| >= 3 + |pro|
    ensures forall k :: 0 <= k < |pro| ==> (o + Details(pro) + e)[3 + k] == DetailPage(pro[k])
  {
    var ds := Details(pro);
    forall k | 0 <= k < |pro|
      ensures (o + ds + e)[3 + k] == DetailPage(pro[k])
    {
      calc {
        (o + ds + e)[3 + k];
        (o + ds)[3 + k];
        ds[k];
      }
    }
  }

  /** ... and no detail slide anywhere else. */
  lemma DetailSlidesOnlyThere(c: DeckCompleteness, round: int, year: string)
    ensures forall k :: 0 <= k < |DeckSlides(c, round, year)| && DeckSlides(c, round, year)[k].DetailPage? ==>
      3 <= k < 3 + |ProItems(c.items)|
  {
    EndingHasNoDetail(c, round);
    DetailsOnlyAfter(Opening(c, round, year), ProItems(c.items), Ending(c, round));
  }

  lemma DetailsOnlyAfter(o: seq<DeckSlide>, pro: seq<IndicatorCompleteness>, e: seq<DeckSlide>)
    requires |o| == 3 && !o[0].DetailPage? && !o[1].DetailPage? && !o[2].DetailPage?
    requires forall k :: 0 <= k < |e| ==> !e[k].DetailPage?
    ensures forall k :: 0 <= k < |o + Details(pro) + e| && (o + Details(pro) + e)[k].DetailPage? ==>
      3 <= k < 3 + |pro|
  {
    var ds := Details(pro);
    forall k | 0 <= k < |o + ds + e|
      ensures (o + ds + e)[k].DetailPage? ==> 3 <= k < 3 + |pro|
    {
      if k < 3 {
        assert (o + ds + e)[k] == o[k];
      } else if k >= 3 + |pro| {
        assert (o + ds + e)[k] == e[k - 3 - |pro|];
      }
    }
  }

  /** Every slide before the ending is a cover, overview, table or detail slide. */
  lemma OpeningAndDetailsKinds(c: DeckCompleteness, round: int, year: string)
    ensures forall s :: s in Opening(c, round, year) + Details(ProItems(c.items)) ==>
      s.CoverPage? || s.OverviewPage? || s.ProfessionalTable? || s.DetailPage?
  {
  }

  lemma EndingSocial(c: DeckCompleteness, round: int)
    ensures (exists s :: s in Ending(c, round) && s.SocialPage?)
            <==> round >= 3 && DomainById(c.domains, "SOCIAL").Some?
  {
    var soc := SocialSlides(c, round);
    var e := Ending(c, round);
    assert forall s :: s in e && s.SocialPage? ==> s in soc;
    if soc != [] {
      assert soc[0] in e;
    }
  }

  /** The social slide appears iff round ≥3 and a SOCIAL domain exists. */
  lemma SocialSlideAppears(c: DeckCompleteness, round: int, year: string)
    ensures (exists s :: s in DeckSlides(c, round, year) && s.SocialPage?)
            <==> round >= 3 && DomainById(c.domains, "SOCIAL").Some?
  {
    var o := Opening(c, round, year) + Details(ProItems(c.items));
    var e := Ending(c, round);
    OpeningAndDetailsKinds(c, round, year);
    EndingSocial(c, round);
    assert DeckSlides(c, round, year) == o + e;
  }

  lemma EndingDevelopment(c: DeckCompleteness, round: int)
    ensures (exists s :: s in Ending(c, round) && s.DevelopmentPage?) <==> round >= 3
  {
    var dev := DevelopmentSlides(c, round);
    var e := Ending(c, round);
    assert forall s :: s in e && s.DevelopmentPage? ==> s in dev;
    if dev != [] {
      assert dev[0] in e;
    }
  }

  /** The self-development slide appears iff round ≥3. */
  lemma DevelopmentSlideAppears(c: DeckCompleteness, round: int, year: string)
    ensures (exists s :: s in DeckSlides(c, round, year) && s.DevelopmentPage?) <==> round >= 3
  {
    var o := Opening(c, round, year) + Details(ProItems(c.items));
    var e := Ending(c, round);
    OpeningAndDetailsKinds(c, round, year);
    EndingDevelopment(c, round);
    assert DeckSlides(c, round, year) == o + e;
  }

  /**
   * A detail slide lists every check in order, ✅ if passed and ⬜
   * otherwise, then either the missing labels or the "everything present" line.
   */
  lemma DetailContents(item: IndicatorCompleteness)
    ensures |CheckLines(item.checks)| == |item.checks|
    ensures forall k :: 0 <= k < |item.checks| ==>
      StartsWith(CheckLines(item.checks)[k], if item.checks[k].passed then "- ✅" else "- ⬜")
    ensures MissingBlock(item.missing) == [CompleteLine] <==> item.missing == []
    ensures item.missing != [] ==>
      MissingBlock(item.missing) == [MissingHeading] + MissingBullets(item.missing)
  {
    forall k | 0 <= k < |item.checks|
      ensures StartsWith(CheckLines(item.checks)[k], if item.checks[k].passed then "- ✅" else "- ⬜")
    {
      var ch := item.checks[k];
      var head := "- " + Mark(ch.passed);
      assert CheckLines(item.checks)[k] == head + (" " + ch.checkLabel + " (" + Percent(ch.weight) + ")");
    }
    if item.missing != [] {
      assert MissingHeading[4] != CompleteLine[4];
    }
  }

  /** A discipline line is ticked iff the item scores at least 60. */
  lemma DisciplineTicks(item: IndicatorCompleteness)
    ensures StartsWith(DisciplineLine(item), "- ✅") <==> item.score >= 60
  {
    var head := "- " + Mark(item.score >= 60);
    var line := DisciplineLine(item);
    assert line == head + (" " + item.name + " (" + Percent(item.score) + ")");
    assert |head| == 3 && line[..3] == head;
    assert ("- ⬜")[2] != ("- ✅")[2];
  }

  lemma {:induction false} JoinStartsWithFirst(parts: seq<string>, sep: string)
    requires parts != [] && parts[0] != []
    ensures Join(parts, sep) != [] && Join(parts, sep)[0] == parts[0][0]
  {
  }

  lemma {:induction false} NoneMissing(items: seq<IndicatorCompleteness>)
    ensures WithMissing(items) == [] <==> forall item :: item in items ==> item.missing == []
  {
    if items != [] {
      NoneMissing(items[1..]);
      assert items[0] in items;
      assert forall item :: item in items ==> item == items[0] || item in items[1..];
    }
  }

  /** The deck closes with the summary slide. */
  lemma SummaryIsLast(c: DeckCompleteness, round: int, year: string)
    ensures var d := DeckSlides(c, round, year);
      d != [] && d[|d| - 1] == SummaryPage(Take(WithMissing(c.items), 8), c.deckScore)
  {
    var o := Opening(c, round, year) + Details(ProItems(c.items)) + SocialSlides(c, round)
      + [DisciplinePage(WithPrefix(c.items, "PER_1"))] + DevelopmentSlides(c, round);
    var last := [SummaryPage(Take(WithMissing(c.items), 8), c.deckScore)];
    assert DeckSlides(c, round, year) == o + last;
  }

  /** The summary body is the "nothing missing" line iff no entry is listed. */
  lemma SummaryBodyEmpty(items: seq<IndicatorCompleteness>)
    ensures SummaryBody(MissingEntries(items)) == NothingMissing <==> items == []
  {
    if items != [] {
      var entries := MissingEntries(items);
      JoinStartsWithFirst(entries, "\n");
      assert entries[0][0] == '-';
      assert NothingMissing[0] != '-';
    }
  }

  /**
   * The closing slide names at most 8 indicators, each with something
   * missing, and shows at most the first two missing labels of each.
   */
  lemma SummaryItems(c: DeckCompleteness)
    ensures |Take(WithMissing(c.items), 8)| <= 8
    ensures forall item :: item in Take(WithMissing(c.items), 8) ==>
      item in c.items && |item.missing| > 0 && |Take(item.missing, 2)| <= 2
  {
    var w := WithMissing(c.items);
    assert forall item :: item in Take(w, 8) ==> item in w;
  }

  /** The closing slide says "nothing missing" iff no indicator has anything missing. */
  lemma SummaryContents(c: DeckCompleteness)
    ensures SummaryLines(Take(WithMissing(c.items), 8), c.deckScore)[1] == NothingMissing
        <==> forall item :: item in c.items ==> item.missing == []
  {
    NoneMissing(c.items);
    SummaryBodyEmpty(Take(WithMissing(c.items), 8));
  }

  /** A SOCIAL domain scoring 0 is shown as "-", like a missing one (`score || '-'`). */
  lemma SocialZeroShownAsDash(d: DomainCompleteness)
    requires d.score == 0
    ensures SocialScoreCell(Some(d)) == SocialScoreCell(None) == "-"
  {
  }
}

/** The PDPA scanner: what it reports about a text once the sensitive-data
    patterns have matched — the violations, the overall risk, the text with
    every match replaced by a placeholder and the advice shown to the
    teacher. The matching itself is an input: each pattern's matches as
    (matched text, position) pairs. */
module PdpaScanner {
  import opened Common

  datatype Risk = Low | Medium | High

  datatype OverallRisk = Safe | LowRisk | MediumRisk | HighRisk

  /** A sensitive-data pattern: the kind of data, its risk and the advice for it. */
  datatype PatternDef = PatternDef(kind: string, riskLevel: Risk, suggestion: string)

  /** The patterns in the order they are tried. */
  const Patterns: seq<PatternDef> := [
    PatternDef("STUDENT_FULL_NAME", High, "ใช้ \"นักเรียน ก.\" หรือชื่อเล่นแทน เช่น \"นักเรียนชื่อเล่น โจ้\""),
    PatternDef("CITIZEN_ID", High, "ห้ามระบุเลขประจำตัวประชาชนในเอกสาร"),
    PatternDef("PHONE_NUMBER", Medium, "ไม่ควรระบุเบอร์โทรศัพท์นักเรียนในเอกสารสาธารณะ"),
    PatternDef("HOME_ADDRESS", Medium, "ไม่ควรระบุที่อยู่เฉพาะเจาะจงของนักเรียน"),
    PatternDef("EMAIL", Low, "พิจารณาไม่ระบุอีเมลนักเรียนในเอกสารสาธารณะ"),
    PatternDef("PREVIOUS_SCHOOL", Low, "ถ้าไม่จำเป็น ควรหลีกเลี่ยงการระบุโรงเรียนเดิม")
  ]

  /** One regular-expression match: `match[0]` and `match.index`. */
  datatype Match = Match(matched: string, index: nat)

  datatype Violation = Violation(
    kind: string, matchedText: string, startIndex: nat, endIndex: nat, riskLevel: Risk, suggestion: string)

  datatype CheckResult = CheckResult(
    isSafe: bool, riskLevel: OverallRisk, violations: seq<Violation>,
    sanitizedText: Option<string>, suggestions: seq<string>)

  /** The two pieces of general advice added whenever anything was found. */
  const CheckBeforeSaving: string := "ตรวจสอบให้แน่ใจว่าไม่มีข้อมูลส่วนบุคคลของนักเรียนก่อนบันทึก"
  const UseNicknames: string := "หากจำเป็นต้องอ้างถึงนักเรียน ควรใช้ชื่อเล่นหรือ \"นักเรียน ก., ข., ค.\""

  // ---------------------------------------------------------------
  // Violations
  // ---------------------------------------------------------------

  function ViolationOf(p: PatternDef, m: Match): (v: Violation)
    ensures v.endIndex == v.startIndex + |v.matchedText|
    ensures v.kind == p.kind && v.riskLevel == p.riskLevel && v.suggestion == p.suggestion
  {
    Violation(p.kind, m.matched, m.index, m.index + |m.matched|, p.riskLevel, p.suggestion)
  }

  /** All violations, pattern by pattern and match by match. */
  function Violations(defs: seq<PatternDef>, matches: seq<seq<Match>>): (vs: seq<Violation>)
    requires |matches| == |defs|
    ensures forall v :: v in vs ==> v.endIndex == v.startIndex + |v.matchedText|
    ensures forall v :: v in vs ==> exists p :: p in defs && v.suggestion == p.suggestion && v.riskLevel == p.riskLevel
  {
    if defs == [] then []
    else
      var n := |defs| - 1;
      Violations(defs[..n], matches[..n]) + seq(|matches[n]|, j requires 0 <= j < |matches[n]| => ViolationOf(defs[n], matches[n][j]))
  }

  /** The nested loops of `checkText` collecting the violations. */
  method CollectViolations(defs: seq<PatternDef>, matches: seq<seq<Match>>) returns (vs: seq<Violation>)
    requires |matches| == |defs|
    ensures vs == Violations(defs, matches)
  {
    vs := [];
    var i := 0;
    while i < |defs|
      invariant 0 <= i <= |defs|
      invariant vs == Violations(defs[..i], matches[..i])
    {
      var j := 0;
      var before := vs;
      while j < |matches[i]|
        invariant 0 <= j <= |matches[i]|
        invariant vs == before + seq(j, k requires 0 <= k < j => ViolationOf(defs[i], matches[i][k]))
      {
        vs := vs + [ViolationOf(defs[i], matches[i][j])];
        j := j + 1;
      }
      assert defs[..i + 1][..i] == defs[..i];
      assert matches[..i + 1][..i] == matches[..i];
      i := i + 1;
    }
    assert defs[..i] == defs;
    assert matches[..i] == matches;
  }

  // ---------------------------------------------------------------
  // Risk, placeholders, advice
  // ---------------------------------------------------------------

  /** `calculateOverallRisk`. */
  function OverallRiskOf(vs: seq<Violation>): (r: OverallRisk)
    ensures r == Safe <==> vs == []
    ensures r == HighRisk <==> exists v :: v in vs && v.riskLevel == High
    ensures r == MediumRisk <==>
      (exists v :: v in vs && v.riskLevel == Medium) && forall v :: v in vs ==> v.riskLevel != High
    ensures r == LowRisk <==> vs != [] && forall v :: v in vs ==> v.riskLevel == Low
  {
    if vs == [] then Safe
    else if exists v :: v in vs && v.riskLevel == High then HighRisk
    else if exists v :: v in vs && v.riskLevel == Medium then MediumRisk
    else
      OnlyLowLeft(vs);
      LowRisk
  }

  lemma OnlyLowLeft(vs: seq<Violation>)
    requires forall v :: v in vs ==> v.riskLevel != High && v.riskLevel != Medium
    ensures forall v :: v in vs ==> v.riskLevel == Low
  {
    forall v | v in vs
      ensures v.riskLevel == Low
    {
      assert v.riskLevel != High && v.riskLevel != Medium;
    }
  }

  /** `getReplacementText`: the placeholder for a kind of data, or the generic one. */
  function Replacement(kind: string): (r: string)
    ensures r == "[ข้อมูลส่วนบุคคล]" <==>
      kind !in {"STUDENT_FULL_NAME", "CITIZEN_ID", "PHONE_NUMBER", "HOME_ADDRESS", "EMAIL", "PREVIOUS_SCHOOL"}
    ensures r != ""
  {
    match kind
    case "STUDENT_FULL_NAME" => "นักเรียน [ระบุชื่อเล่น]"
    case "CITIZEN_ID" => "[เลขประจำตัว]"
    case "PHONE_NUMBER" => "[เบอร์โทรศัพท์]"
    case "HOME_ADDRESS" => "[ที่อยู่]"
    case "EMAIL" => "[อีเมล]"
    case "PREVIOUS_SCHOOL" => "[โรงเรียนเดิม]"
    case _ => "[ข้อมูลส่วนบุคคล]"
  }

  /** The advice in the order it is first added to the set. */
  function AdviceList(vs: seq<Violation>): seq<string> {
    seq(|vs|, i requires 0 <= i < |vs| => vs[i].suggestion) + (if vs != [] then [CheckBeforeSaving, UseNicknames] else [])
  }

  /** `generateSuggestions`: the distinct advice in order of first appearance. */
  method GenerateSuggestions(vs: seq<Violation>) returns (r: seq<string>)
    ensures r == Dedup(AdviceList(vs))
  {
    r := [];
    var i := 0;
    while i < |vs|
      invariant 0 <= i <= |vs|
      invariant r == Dedup(seq(i, k requires 0 <= k < i => vs[k].suggestion))
    {
      var before := seq(i, k requires 0 <= k < i => vs[k].suggestion);
      assert seq(i + 1, k requires 0 <= k < i + 1 => vs[k].suggestion) == before + [vs[i].suggestion];
      if vs[i].suggestion !in r {
        r := r + [vs[i].suggestion];
      }
      i := i + 1;
    }
    var own := seq(|vs|, k requires 0 <= k < |vs| => vs[k].suggestion);
    if |vs| > 0 {
      assert (own + [CheckBeforeSaving]) + [UseNicknames] == AdviceList(vs);
      assert (own + [CheckBeforeSaving])[..|own|] == own;
      if CheckBeforeSaving !in r {
        r := r + [CheckBeforeSaving];
      }
      if UseNicknames !in r {
        r := r + [UseNicknames];
      }
    } else {
      assert AdviceList(vs) == own;
    }
  }

  /** The advice is duplicate-free, covers every violation, and carries the two general notes
      exactly when something was found (the notes differ from every pattern's advice). */
  lemma AdviceProperties(vs: seq<Violation>)
    requires forall v :: v in vs ==> exists p :: p in Patterns && v.suggestion == p.suggestion
    ensures NoDuplicates(Dedup(AdviceList(vs)))
    ensures forall v :: v in vs ==> v.suggestion in Dedup(AdviceList(vs))
    ensures CheckBeforeSaving in Dedup(AdviceList(vs)) <==> vs != []
    ensures UseNicknames in Dedup(AdviceList(vs)) <==> vs != []
  {
    var a := AdviceList(vs);
    forall v | v in vs
      ensures v.suggestion in Dedup(a)
    {
      var i :| 0 <= i < |vs| && vs[i] == v;
      assert a[i] == v.suggestion;
    }
    if vs == [] {
      assert a == [];
    } else {
      assert a[|vs|] == CheckBeforeSaving && a[|vs| + 1] == UseNicknames;
    }
    forall s | s in Dedup(a)
      ensures s == CheckBeforeSaving || s == UseNicknames ==> vs != []
    {
      var i :| 0 <= i < |a| && a[i] == s;
      if i < |vs| {
        assert s == vs[i].suggestion && vs[i] in vs;
      }
    }
  }

  // ---------------------------------------------------------------
  // Sanitising
  // ---------------------------------------------------------------

  /** `str.substring(0, n)` and `str.substring(n)` for a non-negative `n`: out-of-range ends are clamped. */
  function Before(s: string, n: nat): string { if n <= |s| then s[..n] else s }
  function From(s: string, n: nat): string { if n <= |s| then s[n..] else "" }

  /** Violations ordered by descending start; among equal starts the earlier one stays first. */
  predicate Descending(vs: seq<Violation>) {
    forall i, j :: 0 <= i < j < |vs| ==> vs[i].startIndex >= vs[j].startIndex
  }

  lemma DescendingSnoc(a: seq<Violation>, x: Violation)
    requires Descending(a) && StartsAtLeast(a, x.startIndex)
    ensures Descending(a + [x])
  {
    forall i, j | 0 <= i < j < |a| + 1
      ensures (a + [x])[i].startIndex >= (a + [x])[j].startIndex
    {
      if j == |a| {
        assert (a + [x])[i] == a[i] && a[i] in a;
      }
    }
  }

  /** Every violation in `a` starts at or after `k`. */
  predicate StartsAtLeast(a: seq<Violation>, k: nat) {
    forall y :: y in a ==> y.startIndex >= k
  }

  lemma DescendingLast(a: seq<Violation>)
    requires Descending(a) && a != []
    ensures StartsAtLeast(a, a[|a| - 1].startIndex)
  {
    forall y | y in a
      ensures y.startIndex >= a[|a| - 1].startIndex
    {
      var i :| 0 <= i < |a| && a[i] == y;
    }
  }

  function InsertDescending(v: Violation, sorted: seq<Violation>): (r: seq<Violation>)
    requires Descending(sorted)
    ensures Descending(r)
    ensures forall x :: x in r ==> x == v || x in sorted
    ensures multiset(r) == multiset(sorted) + multiset{v}
  {
    if sorted == [] then [v]
    else if sorted[|sorted| - 1].startIndex >= v.startIndex then
      DescendingLast(sorted);
      DescendingSnoc(sorted, v);
      sorted + [v]
    else
      var n := |sorted| - 1;
      var init := sorted[..n];
      var last := sorted[n];
      assert multiset(sorted) == multiset(init) + multiset{last} by {
        assert init + [last] == sorted;
      }
      assert Descending(init);
      var r := InsertDescending(v, init);
      assert StartsAtLeast(r, last.startIndex) by {
        DescendingLast(sorted);
      }
      DescendingSnoc(r, last);
      r + [last]
  }

  /** `[...violations].sort((a, b) => b.startIndex - a.startIndex)`, a stable sort. */
  function SortDescending(vs: seq<Violation>): (r: seq<Violation>)
    ensures Descending(r) && multiset(r) == multiset(vs)
  {
    if vs == [] then []
    else
      var n := |vs| - 1;
      assert vs[..n] + [vs[n]] == vs;
      InsertDescending(vs[n], SortDescending(vs[..n]))
  }

  /** A span to replace: where it starts and ends and its placeholder. */
  datatype Span = Span(start: nat, end: nat, placeholder: string)

  function SpanOf(v: Violation): (sp: Span)
    ensures sp.start == v.startIndex && sp.end == v.endIndex && sp.placeholder == Replacement(v.kind)
  {
    Span(v.startIndex, v.endIndex, Replacement(v.kind))
  }

  function Spans(vs: seq<Violation>): (r: seq<Span>)
    ensures |r| == |vs| && forall i :: 0 <= i < |vs| ==> r[i] == SpanOf(vs[i])
  {
    seq(|vs|, i requires 0 <= i < |vs| => SpanOf(vs[i]))
  }

  /** The text as `sanitizeText` leaves it after handling the given spans in order. */
  function Replaced(text: string, done: seq<Span>): string {
    if done == [] then text
    else
      var n := |done| - 1;
      var s := Replaced(text, done[..n]);
      Before(s, done[n].start) + done[n].placeholder + From(s, done[n].end)
  }

  /** `sanitizeText`: each violation, from the last to the first, is replaced by its placeholder. */
  method SanitizeText(text: string, vs: seq<Violation>) returns (sanitized: string)
    ensures sanitized == Replaced(text, Spans(SortDescending(vs)))
  {
    sanitized := text;
    var sorted := SortDescending(vs);
    ghost var spans := Spans(sorted);
    var i := 0;
    while i < |sorted|
      invariant 0 <= i <= |sorted|
      invariant sanitized == Replaced(text, spans[..i])
    {
      var v := sorted[i];
      assert spans[..i + 1][..i] == spans[..i];
      assert spans[..i + 1][i] == SpanOf(v);
      sanitized := Before(sanitized, v.startIndex) + Replacement(v.kind) + From(sanitized, v.endIndex);
      i := i + 1;
    }
    assert spans[..i] == spans;
  }

  /** Spans listed from the last in the text to the first, none overlapping the next, all inside the text. */
  predicate Separated(text: string, spans: seq<Span>) {
    (forall i :: 0 <= i < |spans| ==> spans[i].start <= spans[i].end <= |text|) &&
    (forall i, j :: 0 <= i < j < |spans| ==> spans[j].end <= spans[i].start)
  }

  /** The text from `pos` on with the spans (taken from the end of the list, i.e. in text order)
      replaced by their placeholders and everything between them kept. */
  function RedactFrom(text: string, spans: seq<Span>, pos: nat): string
    requires Separated(text, spans)
    requires spans == [] ==> pos <= |text|
    requires spans != [] ==> pos <= spans[|spans| - 1].start
  {
    if spans == [] then text[pos..]
    else
      var n := |spans| - 1;
      text[pos..spans[n].start] + spans[n].placeholder + RedactFrom(text, spans[..n], spans[n].end)
  }

  lemma SliceSplit(text: string, p: nat, q: nat, r: nat, rest: string)
    requires p <= q <= r <= |text|
    ensures text[p..r] + rest == text[p..q] + (text[q..r] + rest)
  {
    assert text[p..r] == text[p..q] + text[q..r];
  }

  lemma {:induction false} RedactShift(text: string, spans: seq<Span>, p: nat, q: nat)
    requires Separated(text, spans)
    requires p <= q
    requires spans == [] ==> q <= |text|
    requires spans != [] ==> q <= spans[|spans| - 1].start
    ensures RedactFrom(text, spans, p) == text[p..q] + RedactFrom(text, spans, q)
  {
    if spans == [] {
      assert text[p..] == text[p..q] + text[q..];
    } else {
      var n := |spans| - 1;
      var start := spans[n].start;
      var rest := spans[n].placeholder + RedactFrom(text, spans[..n], spans[n].end);
      SliceSplit(text, p, q, start, rest);
    }
  }

  lemma SeparatedPrefix(text: string, spans: seq<Span>, k: nat)
    requires Separated(text, spans) && k <= |spans|
    ensures Separated(text, spans[..k])
  {
  }

  /** Where the first span in text order starts, or the end of the text when there is none. */
  function FirstStart(text: string, spans: seq<Span>): nat {
    if spans == [] then |text| else spans[|spans| - 1].start
  }

  /** For spans that do not overlap, sanitising keeps every character outside the spans, in
      order, and puts each span's placeholder where the span was. */
  lemma {:induction false} ReplacedKeepsOutside(text: string, spans: seq<Span>)
    requires Separated(text, spans)
    ensures FirstStart(text, spans) <= |text|
    ensures Replaced(text, spans) == text[..FirstStart(text, spans)] + RedactFrom(text, spans, FirstStart(text, spans))
  {
    if spans == [] {
      assert text[..|text|] + text[|text|..] == text;
    } else {
      var n := |spans| - 1;
      var prev := spans[..n];
      SeparatedPrefix(text, spans, n);
      ReplacedKeepsOutside(text, prev);
      var last := FirstStart(text, prev);
      var s := Replaced(text, prev);
      var v := spans[n];
      assert v.end <= last by {
        if prev != [] {
          assert spans[n - 1] == prev[n - 1];
        }
      }
      var tail := RedactFrom(text, prev, last);
      var a, b := v.start, v.end;
      RedactShift(text, prev, b, last);
      Glue(text, s, last, tail, a, b, v.placeholder, RedactFrom(text, prev, b));
      assert spans[..n] == prev;
    }
  }

  /** One step of the induction above, over plain strings. */
  lemma Glue(text: string, s: string, last: nat, tail: string, a: nat, b: nat, rep: string, rb: string)
    requires a <= b <= last <= |text|
    requires s == text[..last] + tail
    requires rb == text[b..last] + tail
    ensures Before(s, a) + rep + From(s, b) == text[..a] + (text[a..a] + rep + rb)
  {
    CutPrefixed(text, last, tail, a, b);
    assert text[a..a] == [];
  }

  lemma CutPrefixed(t: string, last: nat, tail: string, a: nat, b: nat)
    requires a <= b <= last <= |t|
    ensures Before(t[..last] + tail, a) == t[..a]
    ensures From(t[..last] + tail, b) == t[b..last] + tail
  {
    assert (t[..last] + tail)[..a] == t[..a];
    assert (t[..last] + tail)[b..] == t[b..last] + tail;
  }

  // ---------------------------------------------------------------
  // checkText
  // ---------------------------------------------------------------

  /** `checkText`, given each pattern's matches in the text (the audit row it writes is left out). */
  method CheckText(text: string, matches: seq<seq<Match>>) returns (r: CheckResult)
    requires |matches| == |Patterns|
    ensures r.violations == Violations(Patterns, matches)
    ensures r.riskLevel == OverallRiskOf(r.violations)
    ensures r.isSafe <==> r.riskLevel == Safe
    ensures r.isSafe <==> r.violations == []
    ensures r.sanitizedText.Some? <==> r.violations != []
    ensures r.sanitizedText.Some? ==> r.sanitizedText.value == Replaced(text, Spans(SortDescending(r.violations)))
    ensures r.suggestions == Dedup(AdviceList(r.violations))
  {
    var vs := CollectViolations(Patterns, matches);
    var risk := OverallRiskOf(vs);
    var sanitized: Option<string> := None;
    if |vs| > 0 {
      var s := SanitizeText(text, vs);
      sanitized := Some(s);
    }
    var suggestions := GenerateSuggestions(vs);
    r := CheckResult(risk == Safe, risk, vs, sanitized, suggestions);
  }
}

/** The evidence portfolio service's own logic: the evidence type guessed from
    a suggested filename, and the statistics over a teacher's portfolio items
    (totals, verified count, counts by type and by indicator code). */
module EvidenceService {
  import opened Common
  import opened Tally

  // ---------------------------------------------------------------
  // determineEvidenceType
  // ---------------------------------------------------------------

  /** A type rule: if any needle occurs in the lower-cased name, the type. */
  datatype TypeRule = TypeRule(needles: seq<string>, evidenceType: string)

  const TypeRules: seq<TypeRule> := [
    TypeRule(["แผนการสอน", "lesson"], "LESSON_PLAN"),
    TypeRule(["สื่อ", "media"], "TEACHING_MEDIA"),
    TypeRule(["แบบทดสอบ", "test"], "ASSESSMENT"),
    TypeRule(["ผลงาน", "work"], "STUDENT_WORK"),
    TypeRule(["ภาพ", ".jpg", ".png"], "CLASSROOM_PHOTO"),
    TypeRule(["วิจัย", "research"], "ACTION_RESEARCH")
  ]

  predicate Fires(r: TypeRule, text: string) {
    exists k :: 0 <= k < |r.needles| && Contains(text, r.needles[k])
  }

  /** Rule `i` fires and no earlier rule does. */
  predicate FirstFiring(rules: seq<TypeRule>, text: string, i: int) {
    0 <= i < |rules| && Fires(rules[i], text) && forall j :: 0 <= j < i ==> !Fires(rules[j], text)
  }

  /** The type of the first rule that fires, or OTHER. */
  function FirstType(rules: seq<TypeRule>, text: string): (t: string)
    ensures (forall i :: 0 <= i < |rules| ==> !Fires(rules[i], text)) ==> t == "OTHER"
    ensures forall i :: FirstFiring(rules, text, i) ==> t == rules[i].evidenceType
  {
    if rules == [] then "OTHER"
    else if Fires(rules[0], text) then rules[0].evidenceType
    else
      var t := FirstType(rules[1..], text);
      assert forall i :: 1 <= i < |rules| ==> rules[1..][i - 1] == rules[i];
      t
  }

  /** `determineEvidenceType`: the first rule matching the lower-cased suggested filename. */
  function DetermineEvidenceType(suggestedFilename: string): string {
    FirstType(TypeRules, ToLower(suggestedFilename))
  }

  /** A name matching none of the rules is OTHER; a name matching the first rule is a lesson plan
      whatever else it matches. */
  lemma DetermineEvidenceTypeCases(name: string)
    ensures (forall i :: 0 <= i < |TypeRules| ==> !Fires(TypeRules[i], ToLower(name))) ==>
      DetermineEvidenceType(name) == "OTHER"
    ensures Fires(TypeRules[0], ToLower(name)) ==> DetermineEvidenceType(name) == "LESSON_PLAN"
  {
  }

  // ---------------------------------------------------------------
  // getStats
  // ---------------------------------------------------------------

  datatype Evidence = Evidence(evidenceType: string, indicatorCodes: seq<string>, isVerified: bool)

  datatype Stats = Stats(
    total: nat, verified: nat, unverified: int, byType: map<string, nat>, byIndicator: seq<(string, nat)>)

  /** Every code of every item, item by item. */
  function AllCodes(items: seq<Evidence>): seq<string> {
    if items == [] then [] else AllCodes(items[..|items| - 1]) + items[|items| - 1].indicatorCodes
  }

  /** The items of each type (`groupBy evidenceType` with `_count`). */
  function CountByType(items: seq<Evidence>): (m: map<string, nat>)
    ensures forall t :: t in m <==> exists i :: 0 <= i < |items| && items[i].evidenceType == t
  {
    var types := seq(|items|, i requires 0 <= i < |items| => items[i].evidenceType);
    assert forall i :: 0 <= i < |items| ==> types[i] == items[i].evidenceType;
    map t | t in types :: Count(types, t)
  }

  function VerifiedCount(items: seq<Evidence>): (n: nat)
    ensures n <= |items|
  {
    if items == [] then 0
    else VerifiedCount(items[..|items| - 1]) + (if items[|items| - 1].isVerified then 1 else 0)
  }

  /** The inner `forEach`: `indicatorCounts[code] = (indicatorCounts[code] || 0) + 1` for each
      code of one item. */
  method TallyCodes(keys: seq<string>, counts: map<string, nat>, ghost before: seq<string>, codes: seq<string>)
    returns (keys': seq<string>, counts': map<string, nat>)
    requires Tallied(keys, counts, before)
    ensures Tallied(keys', counts', before + codes)
  {
    keys', counts' := keys, counts;
    var j := 0;
    assert before + codes[..0] == before;
    while j < |codes|
      invariant 0 <= j <= |codes|
      invariant Tallied(keys', counts', before + codes[..j])
    {
      TallyStep(keys', counts', before, codes, j);
      keys', counts' := Bump(keys', counts', codes[j]).0, Bump(keys', counts', codes[j]).1;
      j := j + 1;
    }
    assert codes[..j] == codes;
  }

  lemma AllCodesStep(items: seq<Evidence>, i: nat)
    requires i < |items|
    ensures AllCodes(items[..i + 1]) == AllCodes(items[..i]) + items[i].indicatorCodes
  {
    assert items[..i + 1][..i] == items[..i];
  }

  /** The outer `forEach` over the items, counting every code of every item. */
  method CountIndicators(items: seq<Evidence>) returns (keys: seq<string>, counts: map<string, nat>)
    ensures Tallied(keys, counts, AllCodes(items))
  {
    keys, counts := [], map[];
    var i := 0;
    while i < |items|
      invariant 0 <= i <= |items|
      invariant Tallied(keys, counts, AllCodes(items[..i]))
    {
      keys, counts := TallyCodes(keys, counts, AllCodes(items[..i]), items[i].indicatorCodes);
      AllCodesStep(items, i);
      i := i + 1;
    }
    assert items[..i] == items;
  }

  /** `getStats`: the totals, the verified split and the counts by type and by indicator. */
  method GetStats(items: seq<Evidence>) returns (s: Stats)
    ensures s.total == |items| && s.verified == VerifiedCount(items)
    ensures s.unverified == |items| - VerifiedCount(items) && s.unverified >= 0
    ensures s.byType == CountByType(items)
    ensures |s.byIndicator| == |Dedup(AllCodes(items))|
    ensures forall k :: 0 <= k < |s.byIndicator| ==>
      s.byIndicator[k] == (Dedup(AllCodes(items))[k], Count(AllCodes(items), Dedup(AllCodes(items))[k]))
  {
    var keys, counts := CountIndicators(items);
    var total := |items|;
    var verified := VerifiedCount(items);
    assert forall k :: 0 <= k < |keys| ==> keys[k] in counts;
    var entries := seq(|keys|, k requires 0 <= k < |keys| => (keys[k], counts[keys[k]]));
    s := Stats(total, verified, total - verified, CountByType(items), entries);
  }

  /** An item listing one code twice adds two to that code's count. */
  lemma DuplicateCodesCountTwice(c: string)
    ensures Count(AllCodes([Evidence("OTHER", [c, c], false)]), c) == 2
  {
    var items := [Evidence("OTHER", [c, c], false)];
    assert items[..0] == [];
    assert AllCodes(items) == [c, c];
    assert [c, c][..1] == [c];
    assert [c][..0] == [];
  }
}

/** Evidence-completeness scoring: a teacher's evidence (analysis jobs,
    journals, portfolio items, mentoring visits, PLC activities and
    indicator assessments) is turned into a score per indicator, per
    domain, per slide and for the whole deck, and into the pass criteria of
    the assessment round. */
module Completeness {
  import opened Common
  import opened IndicatorChecks
  import MediaStore

  // ---------------------------------------------------------------
  // Evidence
  // ---------------------------------------------------------------

  /** An analysis job as the scorer sees it; `hasAnalysisReport` is the
      truthiness of its report column. */
  datatype AnalysisJobEvidence = AnalysisJobEvidence(
    id: string, status: MediaStore.JobStatus, hasTranscript: bool, hasAnalysisReport: bool)

  /** A journal; a missing content is the empty string. */
  datatype JournalEvidence = JournalEvidence(id: string, content: string)

  /** A portfolio item and its indicator tags (none when the column is not a list). */
  datatype PortfolioEvidence = PortfolioEvidence(id: string, indicatorCodes: seq<string>)

  /** A mentoring visit; an absent note is the empty string. */
  datatype VisitEvidence = VisitEvidence(observationNotes: string, feedbackSummary: string)

  /** One entry of an indicator assessment's `assessmentDetails` list. */
  datatype AssessmentDetail = AssessmentDetail(code: string, checkId: string, passed: bool)

  datatype TeacherEvidence = TeacherEvidence(
    analysisJobs: seq<AnalysisJobEvidence>,
    journals: seq<JournalEvidence>,
    portfolios: seq<PortfolioEvidence>,
    mentoringVisits: seq<VisitEvidence>,
    plcActivityCount: nat,
    indicatorAssessments: seq<seq<AssessmentDetail>>)

  // ---------------------------------------------------------------
  // Results
  // ---------------------------------------------------------------

  datatype CheckResult = CheckResult(id: string, checkLabel: string, weight: nat, passed: bool, score: nat)

  datatype LinkedEvidence = LinkedEvidence(sessions: seq<string>, files: seq<string>, journals: seq<string>)

  datatype IndicatorCompleteness = IndicatorCompleteness(
    id: string, name: string, score: nat, status: CompletenessStatus, breakdown: map<string, nat>,
    missing: seq<string>, evidence: LinkedEvidence, checks: seq<CheckResult>)

  datatype DomainCompleteness = DomainCompleteness(
    id: string, score: nat, status: CompletenessStatus, itemCount: nat, passedCount: nat)

  datatype SlideCompleteness = SlideCompleteness(
    id: string, score: nat, status: CompletenessStatus, indicatorIds: seq<string>)

  datatype Criterion = Criterion(required: nat, actual: nat, passed: bool)

  datatype PassCriteria = PassCriteria(
    professional: Criterion, social: Option<Criterion>, personal: Criterion, overall: bool)

  /** The report; `items` and `domains` are in insertion (configuration) order. */
  datatype DeckCompleteness = DeckCompleteness(
    teacherId: string, teacherName: string, assessmentRound: int,
    deckScore: nat, deckStatus: CompletenessStatus,
    domains: seq<DomainCompleteness>, items: seq<IndicatorCompleteness>,
    slides: seq<SlideCompleteness>, passCriteria: PassCriteria)

  datatype CompletenessError = TeacherNotFound

  /** Score at or above which an item counts as passed. */
  const PassScore: nat := 60

  // ---------------------------------------------------------------
  // Rounds
  // ---------------------------------------------------------------

  /** SOC_* and PER_2* indicators belong to rounds 3 and 4; all others to every round. */
  function IsIndicatorInRound(id: string, round: int): bool {
    if StartsWith(id, "SOC") then round >= 3
    else if StartsWith(id, "PER_2") then round >= 3
    else true
  }

  lemma InRoundRule(id: string, round: int)
    ensures round >= 3 ==> IsIndicatorInRound(id, round)
    ensures round < 3 ==> (IsIndicatorInRound(id, round) <==> !StartsWith(id, "SOC") && !StartsWith(id, "PER_2"))
  {
  }

  /** The items of one domain that are evaluated in the round, in order. */
  function FilterInRound(items: seq<IndicatorChecks>, round: int): (r: seq<IndicatorChecks>)
    ensures |r| <= |items|
    decreases |items|
  {
    if items == [] then []
    else
      var init := items[..|items| - 1];
      var last := items[|items| - 1];
      assert items == init + [last];
      FilterInRound(init, round) + (if IsIndicatorInRound(last.id, round) then [last] else [])
  }

  /** The evaluated items of all domains, domain by domain. */
  function InRoundItems(domains: seq<DomainChecks>, round: int): seq<IndicatorChecks>
    decreases |domains|
  {
    if domains == [] then []
    else InRoundItems(domains[..|domains| - 1], round) + FilterInRound(domains[|domains| - 1].items, round)
  }

  /** From round 3 on, nothing is filtered out. */
  lemma {:induction false} FilterKeepsAllLate(items: seq<IndicatorChecks>, round: int)
    requires round >= 3
    ensures FilterInRound(items, round) == items
    decreases |items|
  {
    if items != [] {
      FilterKeepsAllLate(items[..|items| - 1], round);
      assert items == items[..|items| - 1] + [items[|items| - 1]];
    }
  }

  // ---------------------------------------------------------------
  // Single checks
  // ---------------------------------------------------------------

  predicate SomeJobDone(jobs: seq<AnalysisJobEvidence>) {
    exists j :: j in jobs && j.status == MediaStore.Done
  }

  /** The check ids the automatic detector knows. */
  const AutoDetectIds: seq<string> :=
    ["HAS_SESSION", "HAS_TRANSCRIPT", "AL_SIGNALS", "REFLECTION_NOTE", "POST_TEACHING_NOTE",
     "MENTOR_LEARNING", "OBSERVATION_REPORT", "MENTOR_APPLY", "PLC_EVIDENCE", "RESULT_NOTE",
     "EVIDENCE_LINKED_SESSION"]

  predicate MentionsMentoring(content: string) {
    Contains(content, "นิเทศ") || Contains(content, "ครูพี่เลี้ยง") || Contains(content, "Mentor")
  }

  /** Automatic detection by check id; unknown ids never pass. */
  function AutoDetectCheck(checkId: string, ev: TeacherEvidence): bool {
    if checkId == "HAS_SESSION" then SomeJobDone(ev.analysisJobs)
    else if checkId == "HAS_TRANSCRIPT" then exists j :: j in ev.analysisJobs && j.hasTranscript
    else if checkId == "AL_SIGNALS" then
      exists j :: j in ev.analysisJobs && j.hasAnalysisReport && j.status == MediaStore.Done
    else if checkId == "REFLECTION_NOTE" then |ev.journals| > 0
    else if checkId == "POST_TEACHING_NOTE" then |ev.journals| > 0
    else if checkId == "MENTOR_LEARNING" then |ev.mentoringVisits| > 0
    else if checkId == "OBSERVATION_REPORT" then
      exists v :: v in ev.mentoringVisits && (v.observationNotes != "" || v.feedbackSummary != "")
    else if checkId == "MENTOR_APPLY" then
      exists j :: j in ev.journals && MentionsMentoring(j.content)
    else if checkId == "PLC_EVIDENCE" then ev.plcActivityCount > 0
    else if checkId == "RESULT_NOTE" then exists j :: j in ev.journals && Contains(j.content, "PLC")
    else if checkId == "EVIDENCE_LINKED_SESSION" then |ev.analysisJobs| > 0 || |ev.portfolios| > 0
    else false
  }

  /** A check id the detector does not list never passes automatically. */
  lemma UnlistedAutoCheckFails(checkId: string, ev: TeacherEvidence)
    requires checkId !in AutoDetectIds
    ensures !AutoDetectCheck(checkId, ev)
  {
  }

  /** How the automatic checks imply one another: active-learning signals
      need a finished session, a finished session links evidence, and the
      two journal checks are the same test. */
  lemma AutoChecksRelated(ev: TeacherEvidence)
    ensures AutoDetectCheck("AL_SIGNALS", ev) ==> AutoDetectCheck("HAS_SESSION", ev)
    ensures AutoDetectCheck("HAS_SESSION", ev) ==> AutoDetectCheck("EVIDENCE_LINKED_SESSION", ev)
    ensures AutoDetectCheck("OBSERVATION_REPORT", ev) ==> AutoDetectCheck("MENTOR_LEARNING", ev)
    ensures AutoDetectCheck("REFLECTION_NOTE", ev) == AutoDetectCheck("POST_TEACHING_NOTE", ev)
    ensures AutoDetectCheck("MENTOR_APPLY", ev) ==> AutoDetectCheck("REFLECTION_NOTE", ev)
  {
    if AutoDetectCheck("AL_SIGNALS", ev) {
      var j :| j in ev.analysisJobs && j.hasAnalysisReport && j.status == MediaStore.Done;
      assert SomeJobDone(ev.analysisJobs);
    }
    if AutoDetectCheck("OBSERVATION_REPORT", ev) {
      var v :| v in ev.mentoringVisits && (v.observationNotes != "" || v.feedbackSummary != "");
      assert |ev.mentoringVisits| > 0;
    }
    if AutoDetectCheck("MENTOR_APPLY", ev) {
      var j :| j in ev.journals && MentionsMentoring(j.content);
      assert |ev.journals| > 0;
    }
  }

  /** A tag matches an indicator when it equals the id or starts with it. */
  predicate TagMatches(code: string, indicatorId: string) {
    code == indicatorId || StartsWith(code, indicatorId)
  }

  predicate TaggedPortfolio(ev: TeacherEvidence, indicatorId: string) {
    exists p, c :: p in ev.portfolios && c in p.indicatorCodes && TagMatches(c, indicatorId)
  }

  predicate AssessedPassed(ev: TeacherEvidence, indicatorId: string) {
    exists a, d :: a in ev.indicatorAssessments && d in a && d.code == indicatorId && d.passed
  }

  predicate ChecklistPassed(ev: TeacherEvidence, indicatorId: string, checkId: string) {
    exists a, d :: a in ev.indicatorAssessments && d in a
      && d.code == indicatorId && d.checkId == checkId && d.passed
  }

  /** Manual evidence: a tagged portfolio item, a passed assessment detail
      for the indicator, or (for checklist checks) a passed detail for
      this very check. */
  function HasManualEvidence(check: EvidenceCheck, indicatorId: string, ev: TeacherEvidence): bool {
    if TaggedPortfolio(ev, indicatorId) then true
    else if AssessedPassed(ev, indicatorId) then true
    else if Checklist in check.evidenceTypes && ChecklistPassed(ev, indicatorId, check.id) then true
    else false
  }

  /** The answer does not depend on which check is asked: the checklist
      branch is subsumed by the assessment branch before it. */
  lemma ManualIgnoresCheck(check: EvidenceCheck, indicatorId: string, ev: TeacherEvidence)
    ensures HasManualEvidence(check, indicatorId, ev) ==
              (TaggedPortfolio(ev, indicatorId) || AssessedPassed(ev, indicatorId))
  {
    if ChecklistPassed(ev, indicatorId, check.id) {
      var a, d :| a in ev.indicatorAssessments && d in a
        && d.code == indicatorId && d.checkId == check.id && d.passed;
      assert AssessedPassed(ev, indicatorId);
    }
  }

  function EvaluateCheck(check: EvidenceCheck, indicatorId: string, ev: TeacherEvidence): bool {
    if check.autoDetectable then AutoDetectCheck(check.id, ev)
    else HasManualEvidence(check, indicatorId, ev)
  }

  // ---------------------------------------------------------------
  // Linked evidence
  // ---------------------------------------------------------------

  predicate NamesSession(types: seq<EvidenceType>) {
    Video in types || Audio in types || TranscriptEvidence in types
  }

  function DoneJobIds(jobs: seq<AnalysisJobEvidence>): (r: seq<string>)
    ensures forall x :: x in r <==> exists j :: j in jobs && j.status == MediaStore.Done && j.id == x
  {
    if jobs == [] then []
    else (if jobs[0].status == MediaStore.Done then [jobs[0].id] else []) + DoneJobIds(jobs[1..])
  }

  /** Portfolio items carrying exactly the indicator id among their tags. */
  function ExactlyTagged(ps: seq<PortfolioEvidence>, indicatorId: string): (r: seq<string>)
    ensures forall x :: x in r <==> exists p :: p in ps && indicatorId in p.indicatorCodes && p.id == x
  {
    if ps == [] then []
    else (if indicatorId in ps[0].indicatorCodes then [ps[0].id] else []) + ExactlyTagged(ps[1..], indicatorId)
  }

  function JournalIds(js: seq<JournalEvidence>): (r: seq<string>)
    ensures |r| == |js| && forall k :: 0 <= k < |js| ==> r[k] == js[k].id
  {
    if js == [] then [] else [js[0].id] + JournalIds(js[1..])
  }

  /** The evidence a passed check links. */
  function LinkedOf(check: EvidenceCheck, indicatorId: string, ev: TeacherEvidence): LinkedEvidence {
    LinkedEvidence(
      if NamesSession(check.evidenceTypes) then DoneJobIds(ev.analysisJobs) else [],
      ExactlyTagged(ev.portfolios, indicatorId),
      JournalIds(ev.journals))
  }

  /** A tag like "PER_1.10" counts as manual evidence for "PER_1.1", but
      the file is not linked to "PER_1.1", which needs the exact tag. */
  lemma PrefixTagCountsButDoesNotLink(check: EvidenceCheck, ev: TeacherEvidence)
    requires ev.portfolios == [PortfolioEvidence("p1", ["PER_1.10"])]
    ensures HasManualEvidence(check, "PER_1.1", ev)
    ensures LinkedOf(check, "PER_1.1", ev).files == []
  {
    var p := ev.portfolios[0];
    assert p.indicatorCodes[0] == "PER_1.10";
    assert TagMatches(p.indicatorCodes[0], "PER_1.1") by {
      assert "PER_1.10"[..|"PER_1.1"|] == "PER_1.1";
    }
    assert "PER_1.1" !in p.indicatorCodes;
    assert ev.portfolios[1..] == [];
    assert ExactlyTagged(ev.portfolios, "PER_1.1") == [] + ExactlyTagged([], "PER_1.1");
  }

  // ---------------------------------------------------------------
  // One indicator
  // ---------------------------------------------------------------

  /** A passed check scores its weight, a failed one 0. */
  function ScoreOf(check: EvidenceCheck, indicatorId: string, ev: TeacherEvidence): nat {
    if EvaluateCheck(check, indicatorId, ev) then check.weight else 0
  }

  function ResultOf(check: EvidenceCheck, indicatorId: string, ev: TeacherEvidence): CheckResult {
    CheckResult(check.id, check.Label(), check.weight, EvaluateCheck(check, indicatorId, ev), ScoreOf(check, indicatorId, ev))
  }

  function CheckResults(checks: seq<EvidenceCheck>, indicatorId: string, ev: TeacherEvidence): (r: seq<CheckResult>)
    ensures |r| == |checks|
    decreases |checks|
  {
    if checks == [] then []
    else CheckResults(checks[..|checks| - 1], indicatorId, ev) + [ResultOf(checks[|checks| - 1], indicatorId, ev)]
  }

  /** One result per check, in the checks' order. */
  lemma {:induction false} CheckResultsAt(checks: seq<EvidenceCheck>, indicatorId: string, ev: TeacherEvidence, k: nat)
    requires k < |checks|
    ensures CheckResults(checks, indicatorId, ev)[k] == ResultOf(checks[k], indicatorId, ev)
    decreases |checks|
  {
    var init := checks[..|checks| - 1];
    var front := CheckResults(init, indicatorId, ev);
    assert CheckResults(checks, indicatorId, ev) == front + [ResultOf(checks[|checks| - 1], indicatorId, ev)];
    if k < |checks| - 1 {
      CheckResultsAt(init, indicatorId, ev, k);
      assert init[k] == checks[k];
    }
  }

  /** `breakdown`: check id to score, a later check overwriting an earlier one with the same id. */
  function Breakdown(checks: seq<EvidenceCheck>, indicatorId: string, ev: TeacherEvidence): map<string, nat>
    decreases |checks|
  {
    if checks == [] then map[]
    else
      var last := checks[|checks| - 1];
      Breakdown(checks[..|checks| - 1], indicatorId, ev)[last.id := ScoreOf(last, indicatorId, ev)]
  }

  /** The labels of the failed checks, in order. */
  function MissingLabels(checks: seq<EvidenceCheck>, indicatorId: string, ev: TeacherEvidence): seq<string>
    decreases |checks|
  {
    if checks == [] then []
    else
      var last := checks[|checks| - 1];
      MissingLabels(checks[..|checks| - 1], indicatorId, ev)
        + (if EvaluateCheck(last, indicatorId, ev) then [] else [last.Label()])
  }

  /** Everything the passed checks link, before de-duplication. */
  function LinkedAll(checks: seq<EvidenceCheck>, indicatorId: string, ev: TeacherEvidence): LinkedEvidence
    decreases |checks|
  {
    if checks == [] then LinkedEvidence([], [], [])
    else
      var last := checks[|checks| - 1];
      var before := LinkedAll(checks[..|checks| - 1], indicatorId, ev);
      if EvaluateCheck(last, indicatorId, ev) then
        var l := LinkedOf(last, indicatorId, ev);
        LinkedEvidence(before.sessions + l.sessions, before.files + l.files, before.journals + l.journals)
      else before
  }

  /** `checkResults.reduce((sum, r) => sum + r.score, 0)`. */
  function TotalScore(results: seq<CheckResult>): nat
    decreases |results|
  {
    if results == [] then 0 else TotalScore(results[..|results| - 1]) + results[|results| - 1].score
  }

  /** The reference reading of an indicator's score: the weights of the
      checks that pass. */
  function PassedWeight(checks: seq<EvidenceCheck>, indicatorId: string, ev: TeacherEvidence): nat
    decreases |checks|
  {
    if checks == [] then 0
    else
      PassedWeight(checks[..|checks| - 1], indicatorId, ev)
        + (if EvaluateCheck(checks[|checks| - 1], indicatorId, ev) then checks[|checks| - 1].weight else 0)
  }

  /** The result of `evaluateIndicator`. */
  function Evaluate(ind: IndicatorChecks, ev: TeacherEvidence): IndicatorCompleteness {
    var results := CheckResults(ind.checks, ind.id, ev);
    var total := TotalScore(results);
    var linked := LinkedAll(ind.checks, ind.id, ev);
    IndicatorCompleteness(
      ind.id, ind.Name(), total, GetCompletenessStatus(total), Breakdown(ind.checks, ind.id, ev),
      MissingLabels(ind.checks, ind.id, ev),
      LinkedEvidence(Dedup(linked.sessions), Dedup(linked.files), Dedup(linked.journals)),
      results)
  }

  /** One more check, for each accumulated list. */
  lemma EvaluateStep(checks: seq<EvidenceCheck>, i: nat, indicatorId: string, ev: TeacherEvidence)
    requires i < |checks|
    ensures var c, passed := checks[i], EvaluateCheck(checks[i], indicatorId, ev);
      && CheckResults(checks[..i + 1], indicatorId, ev) == CheckResults(checks[..i], indicatorId, ev) + [ResultOf(c, indicatorId, ev)]
      && Breakdown(checks[..i + 1], indicatorId, ev) == Breakdown(checks[..i], indicatorId, ev)[c.id := ScoreOf(c, indicatorId, ev)]
      && MissingLabels(checks[..i + 1], indicatorId, ev) == MissingLabels(checks[..i], indicatorId, ev) + (if passed then [] else [c.Label()])
      && LinkedAll(checks[..i + 1], indicatorId, ev) ==
           (var before, l := LinkedAll(checks[..i], indicatorId, ev), LinkedOf(c, indicatorId, ev);
            if passed then LinkedEvidence(before.sessions + l.sessions, before.files + l.files, before.journals + l.journals)
            else before)
  {
    assert checks[..i + 1][..i] == checks[..i];
  }

  /** Evaluates the checks of one indicator one after another. */
  method EvaluateIndicator(ind: IndicatorChecks, ev: TeacherEvidence) returns (r: IndicatorCompleteness)
    ensures r == Evaluate(ind, ev)
  {
    var results: seq<CheckResult> := [];
    var breakdown: map<string, nat> := map[];
    var missing: seq<string> := [];
    var sessions: seq<string>, files: seq<string>, journals: seq<string> := [], [], [];
    var i := 0;
    while i < |ind.checks|
      invariant i <= |ind.checks|
      invariant results == CheckResults(ind.checks[..i], ind.id, ev)
      invariant breakdown == Breakdown(ind.checks[..i], ind.id, ev)
      invariant missing == MissingLabels(ind.checks[..i], ind.id, ev)
      invariant LinkedEvidence(sessions, files, journals) == LinkedAll(ind.checks[..i], ind.id, ev)
    {
      var check := ind.checks[i];
      EvaluateStep(ind.checks, i, ind.id, ev);
      var passed := EvaluateCheck(check, ind.id, ev);
      var score := if passed then check.weight else 0;
      results := results + [CheckResult(check.id, check.Label(), check.weight, passed, score)];
      breakdown := breakdown[check.id := score];
      if !passed {
        missing := missing + [check.Label()];
      }
      if passed {
        var linked := LinkedOf(check, ind.id, ev);
        sessions := sessions + linked.sessions;
        files := files + linked.files;
        journals := journals + linked.journals;
      }
      i := i + 1;
    }
    TakeWhole(ind.checks);
    var total := TotalScore(results);
    r := IndicatorCompleteness(
      ind.id, ind.Name(), total, GetCompletenessStatus(total), breakdown, missing,
      LinkedEvidence(Dedup(sessions), Dedup(files), Dedup(journals)), results);
  }

  /** The score is the sum of the weights of the passed checks. */
  lemma {:induction false} ScoreIsPassedWeight(checks: seq<EvidenceCheck>, indicatorId: string, ev: TeacherEvidence)
    ensures TotalScore(CheckResults(checks, indicatorId, ev)) == PassedWeight(checks, indicatorId, ev)
    decreases |checks|
  {
    if checks != [] {
      var init := checks[..|checks| - 1];
      ScoreIsPassedWeight(init, indicatorId, ev);
      assert CheckResults(checks, indicatorId, ev)[..|checks| - 1] == CheckResults(init, indicatorId, ev);
    }
  }

  lemma WeightSumSnoc(checks: seq<EvidenceCheck>, c: EvidenceCheck)
    ensures WeightSum(checks + [c]) == WeightSum(checks) + c.weight
    decreases |checks|
  {
    if checks != [] {
      assert (checks + [c])[1..] == checks[1..] + [c];
      WeightSumSnoc(checks[1..], c);
    }
  }

  lemma WeightSumLast(checks: seq<EvidenceCheck>)
    requires checks != []
    ensures WeightSum(checks) == WeightSum(checks[..|checks| - 1]) + checks[|checks| - 1].weight
  {
    assert checks == checks[..|checks| - 1] + [checks[|checks| - 1]];
    WeightSumSnoc(checks[..|checks| - 1], checks[|checks| - 1]);
  }

  /** Passing checks never earn more than all the weights: at most 100 for
      a configured indicator. */
  lemma {:induction false} PassedWeightBounded(checks: seq<EvidenceCheck>, indicatorId: string, ev: TeacherEvidence)
    ensures PassedWeight(checks, indicatorId, ev) <= WeightSum(checks)
    decreases |checks|
  {
    if checks != [] {
      PassedWeightBounded(checks[..|checks| - 1], indicatorId, ev);
      WeightSumLast(checks);
    }
  }

  /** With positive weights, nothing is missing exactly when every weight is earned. */
  lemma {:induction false} NothingMissingIffFullScore(checks: seq<EvidenceCheck>, indicatorId: string, ev: TeacherEvidence)
    requires forall k :: 0 <= k < |checks| ==> checks[k].weight > 0
    ensures MissingLabels(checks, indicatorId, ev) == [] <==> PassedWeight(checks, indicatorId, ev) == WeightSum(checks)
    decreases |checks|
  {
    if checks != [] {
      var init := checks[..|checks| - 1];
      NothingMissingIffFullScore(init, indicatorId, ev);
      PassedWeightBounded(init, indicatorId, ev);
      WeightSumLast(checks);
    }
  }

  /** An indicator whose checks are all manual scores all or nothing:
      every check passes exactly when the indicator has a tagged portfolio
      item or a passed assessment detail. */
  lemma {:induction false} ManualChecksAllOrNothing(checks: seq<EvidenceCheck>, indicatorId: string, ev: TeacherEvidence)
    requires forall k :: 0 <= k < |checks| ==> !checks[k].autoDetectable
    ensures PassedWeight(checks, indicatorId, ev) ==
              if TaggedPortfolio(ev, indicatorId) || AssessedPassed(ev, indicatorId) then WeightSum(checks) else 0
    decreases |checks|
  {
    if checks != [] {
      ManualChecksAllOrNothing(checks[..|checks| - 1], indicatorId, ev);
      ManualIgnoresCheck(checks[|checks| - 1], indicatorId, ev);
      WeightSumLast(checks);
    }
  }

  /** So a configured manual-only indicator scores 0 or 100. */
  lemma ManualIndicatorZeroOrHundred(ind: IndicatorChecks, ev: TeacherEvidence)
    requires WeighsHundred(ind)
    requires forall k :: 0 <= k < |ind.checks| ==> !ind.checks[k].autoDetectable
    ensures Evaluate(ind, ev).score == 0 || Evaluate(ind, ev).score == 100
  {
    ScoreIsPassedWeight(ind.checks, ind.id, ev);
    ManualChecksAllOrNothing(ind.checks, ind.id, ev);
  }

  /** Every check appears in the breakdown, with its own score when check ids are distinct. */
  lemma {:induction false} BreakdownCoversChecks(checks: seq<EvidenceCheck>, indicatorId: string, ev: TeacherEvidence)
    requires forall a, b :: 0 <= a < b < |checks| ==> checks[a].id != checks[b].id
    ensures forall k :: 0 <= k < |checks| ==>
              checks[k].id in Breakdown(checks, indicatorId, ev)
              && Breakdown(checks, indicatorId, ev)[checks[k].id] == ScoreOf(checks[k], indicatorId, ev)
    ensures forall id :: id in Breakdown(checks, indicatorId, ev) ==> exists k :: 0 <= k < |checks| && checks[k].id == id
    decreases |checks|
  {
    if checks != [] {
      var init := checks[..|checks| - 1];
      BreakdownCoversChecks(init, indicatorId, ev);
      var b := Breakdown(checks, indicatorId, ev);
      forall id | id in b
        ensures exists k :: 0 <= k < |checks| && checks[k].id == id
      {
        if id != checks[|checks| - 1].id {
          var k :| 0 <= k < |init| && init[k].id == id;
          assert checks[k].id == id;
        }
      }
    }
  }

  // ---------------------------------------------------------------
  // Items
  // ---------------------------------------------------------------

  function EvaluateAll(inds: seq<IndicatorChecks>, ev: TeacherEvidence): (r: seq<IndicatorCompleteness>)
    ensures |r| == |inds|
  {
    if inds == [] then [] else [Evaluate(inds[0], ev)] + EvaluateAll(inds[1..], ev)
  }

  lemma {:induction false} EvaluateAllAt(inds: seq<IndicatorChecks>, ev: TeacherEvidence, k: nat)
    requires k < |inds|
    ensures EvaluateAll(inds, ev)[k] == Evaluate(inds[k], ev)
    decreases k
  {
    if k > 0 {
      EvaluateAllAt(inds[1..], ev, k - 1);
    }
  }

  lemma EvaluateAllOne(x: IndicatorChecks, ev: TeacherEvidence)
    ensures EvaluateAll([x], ev) == [Evaluate(x, ev)]
  {
    assert [x][1..] == [];
  }

  lemma {:induction false} EvaluateAllAppend(a: seq<IndicatorChecks>, b: seq<IndicatorChecks>, ev: TeacherEvidence)
    ensures EvaluateAll(a + b, ev) == EvaluateAll(a, ev) + EvaluateAll(b, ev)
    decreases |a|
  {
    if a == [] {
      assert a + b == b;
    } else {
      var ab := a + b;
      assert ab[0] == a[0] && ab[1..] == a[1..] + b;
      EvaluateAllAppend(a[1..], b, ev);
      calc {
        EvaluateAll(ab, ev);
        [Evaluate(a[0], ev)] + EvaluateAll(a[1..] + b, ev);
        [Evaluate(a[0], ev)] + (EvaluateAll(a[1..], ev) + EvaluateAll(b, ev));
        ([Evaluate(a[0], ev)] + EvaluateAll(a[1..], ev)) + EvaluateAll(b, ev);
      }
    }
  }

  lemma FilterInRoundStep(items: seq<IndicatorChecks>, i: nat, round: int)
    requires i < |items|
    ensures FilterInRound(items[..i + 1], round) ==
              FilterInRound(items[..i], round) + (if IsIndicatorInRound(items[i].id, round) then [items[i]] else [])
  {
    assert items[..i + 1][..i] == items[..i];
  }

  /** The items of one domain evaluated in this round, in order. */
  method EvaluateDomainItems(items: seq<IndicatorChecks>, round: int, ev: TeacherEvidence)
    returns (r: seq<IndicatorCompleteness>)
    ensures r == EvaluateAll(FilterInRound(items, round), ev)
  {
    r := [];
    var i := 0;
    while i < |items|
      invariant i <= |items|
      invariant r == EvaluateAll(FilterInRound(items[..i], round), ev)
    {
      r := EvaluateDomainItem(items, i, round, ev, r);
      i := i + 1;
    }
    TakeWhole(items);
  }

  /** One pass of the loop above. */
  method EvaluateDomainItem(items: seq<IndicatorChecks>, i: nat, round: int, ev: TeacherEvidence,
                            r: seq<IndicatorCompleteness>)
    returns (r': seq<IndicatorCompleteness>)
    requires i < |items|
    requires r == EvaluateAll(FilterInRound(items[..i], round), ev)
    ensures r' == EvaluateAll(FilterInRound(items[..i + 1], round), ev)
  {
    FilterInRoundStep(items, i, round);
    r' := r;
    if IsIndicatorInRound(items[i].id, round) {
      var result := EvaluateIndicator(items[i], ev);
      EvaluateAllAppend(FilterInRound(items[..i], round), [items[i]], ev);
      EvaluateAllOne(items[i], ev);
      r' := r + [result];
    } else {
      assert FilterInRound(items[..i + 1], round) == FilterInRound(items[..i], round);
    }
  }

  /** Every domain's items, in configuration order. */
  method EvaluateItems(domains: seq<DomainChecks>, round: int, ev: TeacherEvidence)
    returns (r: seq<IndicatorCompleteness>)
    ensures r == EvaluateAll(InRoundItems(domains, round), ev)
  {
    r := [];
    var d := 0;
    while d < |domains|
      invariant d <= |domains|
      invariant r == EvaluateAll(InRoundItems(domains[..d], round), ev)
    {
      var part := EvaluateDomainItems(domains[d].items, round, ev);
      assert domains[..d + 1][..d] == domains[..d];
      EvaluateAllAppend(InRoundItems(domains[..d], round), FilterInRound(domains[d].items, round), ev);
      r := r + part;
      d := d + 1;
    }
    TakeWhole(domains);
  }

  /** `itemResults[id]`: the first item with that id. */
  function Lookup(items: seq<IndicatorCompleteness>, id: string): (r: Option<IndicatorCompleteness>)
    ensures r.Some? ==> r.value in items && r.value.id == id
    ensures r.None? <==> forall k :: 0 <= k < |items| ==> items[k].id != id
  {
    if items == [] then None
    else if items[0].id == id then Some(items[0])
    else Lookup(items[1..], id)
  }

  /** `ids.map(id => itemResults[id]).filter(Boolean)`. */
  function LookupAll(items: seq<IndicatorCompleteness>, ids: seq<string>): (r: seq<IndicatorCompleteness>)
    ensures |r| <= |ids|
    ensures forall x :: x in r ==> x in items
  {
    if ids == [] then []
    else
      (match Lookup(items, ids[0]) case Some(x) => [x] case None => []) + LookupAll(items, ids[1..])
  }

  function ScoreSum(items: seq<IndicatorCompleteness>): nat {
    if items == [] then 0 else items[0].score + ScoreSum(items[1..])
  }

  function CountPassed(items: seq<IndicatorCompleteness>): (n: nat)
    ensures n <= |items|
  {
    if items == [] then 0 else (if items[0].score >= PassScore then 1 else 0) + CountPassed(items[1..])
  }

  // ---------------------------------------------------------------
  // Means
  // ---------------------------------------------------------------

  /** The status of the unrounded mean `sum / count`: the thresholds are
      whole numbers, so comparing the truncated mean decides the same. */
  function StatusOfMean(sum: nat, count: nat): CompletenessStatus
    requires count > 0
  {
    GetCompletenessStatus(sum / count)
  }

  /** The thresholds, stated on the exact mean. */
  lemma StatusOfMeanThresholds(sum: nat, count: nat)
    requires count > 0
    ensures StatusOfMean(sum, count) == Ready <==> sum >= 80 * count
    ensures StatusOfMean(sum, count) == Draft <==> 50 * count <= sum < 80 * count
    ensures StatusOfMean(sum, count) == Insufficient <==> sum < 50 * count
  {
    MeanAtLeast(sum, count, 80);
    MeanAtLeast(sum, count, 50);
  }

  /** The truncated mean reaches a whole threshold exactly when the exact mean does. */
  lemma MeanAtLeast(sum: nat, count: nat, t: nat)
    requires count > 0
    ensures sum / count >= t <==> sum >= t * count
  {
    var q, m := sum / count, sum % count;
    assert sum == q * count + m && 0 <= m < count;
    if q >= t {
      MulMono(t, q, count);
    } else {
      MulMono(q + 1, t, count);
    }
  }

  lemma MulMono(a: nat, b: nat, c: nat)
    requires a <= b
    ensures a * c <= b * c
  {
  }

  /** A mean of 79.5 shows as 80 yet is only DRAFT. */
  lemma RoundedEightyCanBeDraft()
    ensures RoundDiv(159, 2) == 80
    ensures StatusOfMean(159, 2) == Draft
  {
  }

  // ---------------------------------------------------------------
  // Domains
  // ---------------------------------------------------------------

  function ItemIdsInRound(domain: DomainChecks, round: int): seq<string> {
    ItemIds(FilterInRound(domain.items, round))
  }

  /** The domains' entries; a domain with no item in this round is left out. */
  function DomainResults(domains: seq<DomainChecks>, items: seq<IndicatorCompleteness>, round: int): seq<DomainCompleteness>
    decreases |domains|
  {
    if domains == [] then []
    else
      var before := DomainResults(domains[..|domains| - 1], items, round);
      var domain := domains[|domains| - 1];
      var domainItems := LookupAll(items, ItemIdsInRound(domain, round));
      if |domainItems| == 0 then before
      else
        var sum := ScoreSum(domainItems);
        before + [DomainCompleteness(domain.id, RoundDiv(sum, |domainItems|), StatusOfMean(sum, |domainItems|),
                                     |domainItems|, CountPassed(domainItems))]
  }

  method ScoreDomains(domains: seq<DomainChecks>, items: seq<IndicatorCompleteness>, round: int)
    returns (r: seq<DomainCompleteness>)
    ensures r == DomainResults(domains, items, round)
  {
    r := [];
    var d := 0;
    while d < |domains|
      invariant d <= |domains|
      invariant r == DomainResults(domains[..d], items, round)
    {
      var domain := domains[d];
      var domainItems := LookupAll(items, ItemIdsInRound(domain, round));
      assert domains[..d + 1][..d] == domains[..d];
      if |domainItems| > 0 {
        var sum := ScoreSum(domainItems);
        r := r + [DomainCompleteness(domain.id, RoundDiv(sum, |domainItems|), StatusOfMean(sum, |domainItems|),
                                     |domainItems|, CountPassed(domainItems))];
      }
      d := d + 1;
    }
    TakeWhole(domains);
  }

  /** Every reported domain has at least one item, no more passed items
      than items, and one entry per domain at most. */
  lemma {:induction false} DomainResultsWellFormed(domains: seq<DomainChecks>, items: seq<IndicatorCompleteness>, round: int)
    ensures |DomainResults(domains, items, round)| <= |domains|
    ensures forall e :: e in DomainResults(domains, items, round) ==> 0 < e.itemCount && e.passedCount <= e.itemCount
    decreases |domains|
  {
    if domains != [] {
      DomainResultsWellFormed(domains[..|domains| - 1], items, round);
    }
  }

  /** In rounds 1 and 2 the SOCIAL domain has no item, so it is not reported. */
  lemma SocialSkippedEarly(round: int)
    requires round < 3
    ensures FilterInRound(Social.items, round) == []
  {
    assert Social.items == [Soc1] + [Soc2];
    assert StartsWith(Soc1.id, "SOC") && StartsWith(Soc2.id, "SOC");
    assert Social.items[..1] == [Soc1];
  }

  // ---------------------------------------------------------------
  // Slides and deck
  // ---------------------------------------------------------------

  /** A slide's entry before back-filling; indicator-less slides start at 0. */
  function SlideEntry(t: SlideTemplate, items: seq<IndicatorCompleteness>): SlideCompleteness {
    if t.indicatorIds == [] then SlideCompleteness(t.id, 0, Insufficient, t.indicatorIds)
    else
      var slideItems := LookupAll(items, t.indicatorIds);
      if |slideItems| == 0 then SlideCompleteness(t.id, 0, GetCompletenessStatus(0), t.indicatorIds)
      else
        var sum := ScoreSum(slideItems);
        SlideCompleteness(t.id, RoundDiv(sum, |slideItems|), StatusOfMean(sum, |slideItems|), t.indicatorIds)
  }

  function SlideEntries(ts: seq<SlideTemplate>, items: seq<IndicatorCompleteness>): (r: seq<SlideCompleteness>)
    ensures |r| == |ts|
    ensures forall k :: 0 <= k < |ts| ==> r[k] == SlideEntry(ts[k], items)
  {
    if ts == [] then [] else [SlideEntry(ts[0], items)] + SlideEntries(ts[1..], items)
  }

  function ScoredSum(slides: seq<SlideCompleteness>): nat {
    if slides == [] then 0
    else (if slides[0].indicatorIds != [] then slides[0].score else 0) + ScoredSum(slides[1..])
  }

  function ScoredCount(slides: seq<SlideCompleteness>): (n: nat)
    ensures n <= |slides|
  {
    if slides == [] then 0
    else (if slides[0].indicatorIds != [] then 1 else 0) + ScoredCount(slides[1..])
  }

  /** The rounded mean over slides that list indicators, or 0 when there are none. */
  function DeckScore(slides: seq<SlideCompleteness>): nat {
    if ScoredCount(slides) > 0 then RoundDiv(ScoredSum(slides), ScoredCount(slides)) else 0
  }

  /** An indicator-less slide takes the deck's score and status. */
  function Backfilled(s: SlideCompleteness, deck: nat): SlideCompleteness {
    if s.indicatorIds == [] then s.(score := deck, status := GetCompletenessStatus(deck)) else s
  }

  /** The in-place update of the indicator-less slides. */
  method BackfillSlides(slides: seq<SlideCompleteness>, deck: nat) returns (r: seq<SlideCompleteness>)
    ensures |r| == |slides|
    ensures forall k :: 0 <= k < |slides| ==> r[k] == Backfilled(slides[k], deck)
  {
    r := slides;
    var i := 0;
    while i < |r|
      invariant i <= |r| == |slides|
      invariant forall k :: 0 <= k < i ==> r[k] == Backfilled(slides[k], deck)
      invariant forall k :: i <= k < |r| ==> r[k] == slides[k]
    {
      if r[i].indicatorIds == [] {
        r := r[i := r[i].(score := deck, status := GetCompletenessStatus(deck))];
      }
      i := i + 1;
    }
  }

  /** Back-filling leaves the scored slides, and so the deck score, as they were. */
  lemma {:induction false} BackfillKeepsDeckScore(slides: seq<SlideCompleteness>, filled: seq<SlideCompleteness>, deck: nat)
    requires |filled| == |slides|
    requires forall k :: 0 <= k < |slides| ==> filled[k] == Backfilled(slides[k], deck)
    ensures ScoredSum(filled) == ScoredSum(slides) && ScoredCount(filled) == ScoredCount(slides)
    decreases |slides|
  {
    if slides != [] {
      BackfillKeepsDeckScore(slides[1..], filled[1..], deck);
    }
  }

  // ---------------------------------------------------------------
  // Pass criteria
  // ---------------------------------------------------------------

  /** Items whose id has the prefix and whose score is at least 60. */
  function CountPassing(items: seq<IndicatorCompleteness>, prefix: string): (n: nat)
    ensures n <= |items|
  {
    if items == [] then 0
    else (if StartsWith(items[0].id, prefix) && items[0].score >= PassScore then 1 else 0)
         + CountPassing(items[1..], prefix)
  }

  function MakeCriterion(required: nat, actual: nat): (c: Criterion)
    ensures c.passed <==> c.actual >= c.required
  {
    Criterion(required, actual, actual >= required)
  }

  /** Rounds up to 2 need 9 PRO and 7 PER items and have no social
      criterion; later rounds need 11 PRO, 3 SOC and 11 PER items. */
  function EvaluatePassCriteria(round: int, items: seq<IndicatorCompleteness>): (r: PassCriteria)
    ensures r.social.None? <==> round <= 2
    ensures r.overall <==> r.professional.passed && r.personal.passed && (r.social.Some? ==> r.social.value.passed)
    ensures r.professional.actual == CountPassing(items, "PRO_")
    ensures r.personal.actual == CountPassing(items, "PER_")
    ensures r.social.Some? ==> r.social.value.actual == CountPassing(items, "SOC_")
  {
    var pro := CountPassing(items, "PRO_");
    var soc := CountPassing(items, "SOC_");
    var per := CountPassing(items, "PER_");
    if round <= 2 then
      PassCriteria(MakeCriterion(9, pro), None, MakeCriterion(7, per), pro >= 9 && per >= 7)
    else
      PassCriteria(MakeCriterion(11, pro), Some(MakeCriterion(3, soc)), MakeCriterion(11, per),
                   pro >= 11 && soc >= 3 && per >= 11)
  }

  function PrefixCount(inds: seq<IndicatorChecks>, prefix: string): nat {
    if inds == [] then 0
    else (if StartsWith(inds[0].id, prefix) then 1 else 0) + PrefixCount(inds[1..], prefix)
  }

  lemma {:induction false} PrefixCountAppend(a: seq<IndicatorChecks>, b: seq<IndicatorChecks>, prefix: string)
    ensures PrefixCount(a + b, prefix) == PrefixCount(a, prefix) + PrefixCount(b, prefix)
    decreases |a|
  {
    if a == [] {
      assert a + b == b;
    } else {
      assert (a + b)[1..] == a[1..] + b;
      PrefixCountAppend(a[1..], b, prefix);
    }
  }

  /** Only items carrying the prefix can count for it. */
  lemma {:induction false} PassingAtMostPrefixed(inds: seq<IndicatorChecks>, ev: TeacherEvidence, prefix: string)
    ensures CountPassing(EvaluateAll(inds, ev), prefix) <= PrefixCount(inds, prefix)
    decreases |inds|
  {
    if inds != [] {
      PassingAtMostPrefixed(inds[1..], ev, prefix);
    }
  }

  /** Only the two SOCIAL indicators carry the SOC_ prefix. */
  lemma SocialPrefixCount()
    ensures PrefixCount(Professional.items + Social.items + Personal.items, "SOC_") == 2
  {
    PrefixCountAppend(Professional.items + Social.items, Personal.items, "SOC_");
    PrefixCountAppend(Professional.items, Social.items, "SOC_");
    ProfessionalNotSocial();
    PersonalNotSocial();
    SocialIsSocial();
  }

  lemma SocialIsSocial()
    ensures PrefixCount(Social.items, "SOC_") == 2
  {
    assert Social.items[1..] == [Soc2];
    assert StartsWith(Soc1.id, "SOC_") && StartsWith(Soc2.id, "SOC_");
    assert PrefixCount([Soc2], "SOC_") == 1 + PrefixCount([], "SOC_");
  }

  lemma ProfessionalNotSocial()
    ensures PrefixCount(Professional.items, "SOC_") == 0
  {
    NoPrefixWhenFirstCharDiffers(Professional.items, "SOC_");
  }

  lemma PersonalNotSocial()
    ensures PrefixCount(Personal.items, "SOC_") == 0
  {
    NoPrefixWhenFirstCharDiffers(Personal.items, "SOC_");
  }

  lemma {:induction false} NoPrefixWhenFirstCharDiffers(inds: seq<IndicatorChecks>, prefix: string)
    requires prefix != []
    requires forall k :: 0 <= k < |inds| ==> inds[k].id != [] && inds[k].id[0] != prefix[0]
    ensures PrefixCount(inds, prefix) == 0
    decreases |inds|
  {
    if inds != [] {
      NoPrefixWhenFirstCharDiffers(inds[1..], prefix);
    }
  }

  /** In rounds 3 and 4 (and any later round) the configuration can never
      pass overall: three SOCIAL items are required, and there are two. */
  lemma LateRoundsNeverPass(round: int, ev: TeacherEvidence)
    requires round >= 3
    ensures !EvaluatePassCriteria(round, EvaluateAll(InRoundItems(Domains, round), ev)).overall
  {
    LateRoundItems(round);
    PassingAtMostPrefixed(InRoundItems(Domains, round), ev, "SOC_");
    SocialPrefixCount();
  }

  /** From round 3 on every configured indicator is evaluated, in order. */
  lemma LateRoundItems(round: int)
    requires round >= 3
    ensures InRoundItems(Domains, round) == Professional.items + Social.items + Personal.items
  {
    FilterKeepsAllLate(Professional.items, round);
    FilterKeepsAllLate(Social.items, round);
    FilterKeepsAllLate(Personal.items, round);
    InRoundItemsThree(Professional, Social, Personal, round);
  }

  lemma InRoundItemsThree(a: DomainChecks, b: DomainChecks, c: DomainChecks, round: int)
    ensures InRoundItems([a, b, c], round) ==
              FilterInRound(a.items, round) + FilterInRound(b.items, round) + FilterInRound(c.items, round)
  {
    var ds := [a, b, c];
    assert ds[..2] == [a, b] && [a, b][..1] == [a] && [a][..0] == [];
    assert InRoundItems([a], round) == [] + FilterInRound(a.items, round);
    assert InRoundItems([a, b], round) == InRoundItems([a], round) + FilterInRound(b.items, round);
    assert InRoundItems(ds, round) == InRoundItems([a, b], round) + FilterInRound(c.items, round);
  }

  // ---------------------------------------------------------------
  // The whole deck
  // ---------------------------------------------------------------

  /** `calculateCompleteness` on an already gathered evidence set;
      `teacherName` is the teacher lookup (None when there is no such teacher). */
  method CalculateCompleteness(
    teacherId: string, teacherName: Option<string>, round: int, ev: TeacherEvidence,
    domains: seq<DomainChecks>, templates: seq<SlideTemplate>)
    returns (r: Result<DeckCompleteness, CompletenessError>)
    ensures teacherName.None? <==> r.Err?
    ensures r.Ok? ==>
      var d := r.value;
      var initial := SlideEntries(SlidesInRound(templates, round), d.items);
      && d.items == EvaluateAll(InRoundItems(domains, round), ev)
      && d.domains == DomainResults(domains, d.items, round)
      && d.deckScore == DeckScore(initial)
      && d.deckStatus == GetCompletenessStatus(d.deckScore)
      && |d.slides| == |initial|
      && (forall k :: 0 <= k < |initial| ==> d.slides[k] == Backfilled(initial[k], d.deckScore))
      && d.passCriteria == EvaluatePassCriteria(round, d.items)
      && d.assessmentRound == round && d.teacherId == teacherId
  {
    if teacherName.None? {
      return Err(TeacherNotFound);
    }
    var items := EvaluateItems(domains, round, ev);
    var domainResults := ScoreDomains(domains, items, round);
    var initial := SlideEntries(SlidesInRound(templates, round), items);
    var deck := DeckScore(initial);
    var slides := BackfillSlides(initial, deck);
    r := Ok(DeckCompleteness(
      teacherId, teacherName.value, round, deck, GetCompletenessStatus(deck),
      domainResults, items, slides, EvaluatePassCriteria(round, items)));
  }
}

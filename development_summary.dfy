// The development summary built on top of a completeness report: evidence
// grouped per indicator, per-domain summaries with highlights, insights
// aggregated from finished video analyses, the narrative text and the
// evidence counts stored with the summary.

module DevelopmentSummary {
  import opened Common
  import opened IndicatorChecks
  import opened Completeness
  import MediaStore

  // ---------------------------------------------------------------
  // Rich evidence records
  // ---------------------------------------------------------------

  datatype ItemType = FileItem | VideoLinkItem | OtherItem

  /** A portfolio row; an absent text column is the empty string. */
  datatype PortfolioRecord = PortfolioRecord(
    id: string, itemType: ItemType, indicatorCodes: seq<string>,
    originalFilename: string, standardFilename: string, videoTitle: string)

  /**
   * The structured `analysisReport` of a finished job. A field that is
   * absent or falsy is `None`; a field holding a single value instead of
   * an array is the one-element list; an empty array is `Some([])`.
   */
  datatype AnalysisReport = AnalysisReport(
    strengths: Option<seq<string>>, weaknesses: Option<seq<string>>,
    improvements: Option<seq<string>>, activeLearning: Option<seq<string>>)

  datatype JobRecord = JobRecord(
    id: string, status: MediaStore.JobStatus, originalFilename: string,
    transcriptSummary: string, aiAdvice: string, report: Option<AnalysisReport>)

  datatype SummaryEvidence = SummaryEvidence(portfolios: seq<PortfolioRecord>, analysisJobs: seq<JobRecord>)

  datatype EvidenceKind = FileKind | VideoLinkKind | AiAnalysisKind

  datatype EvidenceItem = EvidenceItem(id: string, kind: EvidenceKind, title: string, transcriptSummary: string)

  datatype IndicatorEvidence = IndicatorEvidence(
    indicatorId: string, indicatorName: string, score: nat, status: CompletenessStatus,
    files: seq<EvidenceItem>, videoLinks: seq<EvidenceItem>, aiAnalyses: seq<EvidenceItem>,
    totalCount: nat)

  /** `a || b` on strings. */
  function OrElse(s: string, fallback: string): string {
    if s != [] then s else fallback
  }

  // ---------------------------------------------------------------
  // Evidence per indicator
  // ---------------------------------------------------------------

  predicate Matches(p: PortfolioRecord, indicatorId: string) {
    exists c :: c in p.indicatorCodes && TagMatches(c, indicatorId)
  }

  function FileEntry(p: PortfolioRecord): EvidenceItem {
    EvidenceItem(p.id, FileKind, OrElse(p.originalFilename, OrElse(p.standardFilename, "ไฟล์")), "")
  }

  function VideoEntry(p: PortfolioRecord): EvidenceItem {
    EvidenceItem(p.id, VideoLinkKind, OrElse(p.videoTitle, "วิดีโอ"), "")
  }

  function EntryOf(p: PortfolioRecord): EvidenceItem {
    if p.itemType == FileItem then FileEntry(p) else VideoEntry(p)
  }

  function AnalysisEntry(j: JobRecord): EvidenceItem {
    EvidenceItem(j.id, AiAnalysisKind, OrElse(j.originalFilename, "AI Analysis"), j.transcriptSummary)
  }

  /** Number of portfolios of one item type (`filter(...).length`). */
  function CountType(ps: seq<PortfolioRecord>, t: ItemType): nat {
    if ps == [] then 0
    else CountType(ps[..|ps| - 1], t) + (if ps[|ps| - 1].itemType == t then 1 else 0)
  }

  function CountDone(jobs: seq<JobRecord>): nat {
    if jobs == [] then 0
    else CountDone(jobs[..|jobs| - 1]) + (if jobs[|jobs| - 1].status == MediaStore.Done then 1 else 0)
  }

  /** The entries of the portfolios of type `t` tagged for the indicator, in order. */
  function Picked(ps: seq<PortfolioRecord>, indicatorId: string, t: ItemType): (r: seq<EvidenceItem>)
    ensures |r| <= CountType(ps, t)
  {
    if ps == [] then []
    else
      var p := ps[|ps| - 1];
      Picked(ps[..|ps| - 1], indicatorId, t) + (if p.itemType == t && Matches(p, indicatorId) then [EntryOf(p)] else [])
  }

  /** One entry per DONE job, in order. */
  function Analyses(jobs: seq<JobRecord>): (r: seq<EvidenceItem>)
    ensures |r| == CountDone(jobs)
  {
    if jobs == [] then []
    else
      var j := jobs[|jobs| - 1];
      Analyses(jobs[..|jobs| - 1]) + (if j.status == MediaStore.Done then [AnalysisEntry(j)] else [])
  }

  const RelevantPrefixes: seq<string> := ["PRO_1.1", "PRO_1.2", "PRO_1.3", "PRO_1.4", "PRO_1.5", "PRO_1.6", "PRO_1.7"]

  /** Video analyses count as evidence for the teaching indicators only. */
  predicate IsAnalysisRelevant(indicatorId: string) {
    exists i :: 0 <= i < |RelevantPrefixes| && StartsWith(indicatorId, RelevantPrefixes[i])
  }

  /** The evidence entry of one completeness item. */
  function IndicatorEntry(item: IndicatorCompleteness, ev: SummaryEvidence): IndicatorEvidence {
    var files := Picked(ev.portfolios, item.id, FileItem);
    var videos := Picked(ev.portfolios, item.id, VideoLinkItem);
    var ai := if IsAnalysisRelevant(item.id) then Analyses(ev.analysisJobs) else [];
    IndicatorEvidence(item.id, item.name, item.score, item.status,
                      files, videos, ai, |files| + |videos| + |ai|)
  }

  /** The files and video links of one indicator, gathered in one pass over the portfolios. */
  method PickPortfolios(ps: seq<PortfolioRecord>, indicatorId: string)
    returns (files: seq<EvidenceItem>, videoLinks: seq<EvidenceItem>)
    ensures files == Picked(ps, indicatorId, FileItem)
    ensures videoLinks == Picked(ps, indicatorId, VideoLinkItem)
  {
    files := [];
    videoLinks := [];
    var k := 0;
    while k < |ps|
      invariant 0 <= k <= |ps|
      invariant files == Picked(ps[..k], indicatorId, FileItem)
      invariant videoLinks == Picked(ps[..k], indicatorId, VideoLinkItem)
    {
      var p := ps[k];
      assert ps[..k + 1][..k] == ps[..k];
      if Matches(p, indicatorId) {
        if p.itemType == FileItem {
          files := files + [FileEntry(p)];
        } else if p.itemType == VideoLinkItem {
          videoLinks := videoLinks + [VideoEntry(p)];
        }
      }
      k := k + 1;
    }
    TakeWhole(ps);
  }

  method CollectAnalyses(jobs: seq<JobRecord>) returns (aiAnalyses: seq<EvidenceItem>)
    ensures aiAnalyses == Analyses(jobs)
  {
    aiAnalyses := [];
    var m := 0;
    while m < |jobs|
      invariant 0 <= m <= |jobs|
      invariant aiAnalyses == Analyses(jobs[..m])
    {
      assert jobs[..m + 1][..m] == jobs[..m];
      if jobs[m].status == MediaStore.Done {
        aiAnalyses := aiAnalyses + [AnalysisEntry(jobs[m])];
      }
      m := m + 1;
    }
    TakeWhole(jobs);
  }

  method EvidenceForIndicator(item: IndicatorCompleteness, ev: SummaryEvidence) returns (r: IndicatorEvidence)
    ensures r == IndicatorEntry(item, ev)
  {
    var files, videoLinks := PickPortfolios(ev.portfolios, item.id);
    var aiAnalyses: seq<EvidenceItem> := [];
    if IsAnalysisRelevant(item.id) {
      aiAnalyses := CollectAnalyses(ev.analysisJobs);
    }
    r := IndicatorEvidence(item.id, item.name, item.score, item.status,
                           files, videoLinks, aiAnalyses,
                           |files| + |videoLinks| + |aiAnalyses|);
  }

  /** Exactly one entry per completeness item, in the items' order. */
  method MapEvidenceToIndicators(ev: SummaryEvidence, items: seq<IndicatorCompleteness>)
    returns (r: seq<IndicatorEvidence>)
    ensures |r| == |items|
    ensures forall k :: 0 <= k < |items| ==> r[k] == IndicatorEntry(items[k], ev)
  {
    r := [];
    var i := 0;
    while i < |items|
      invariant 0 <= i <= |items|
      invariant |r| == i
      invariant forall k :: 0 <= k < i ==> r[k] == IndicatorEntry(items[k], ev)
    {
      var entry := EvidenceForIndicator(items[i], ev);
      r := r + [entry];
      i := i + 1;
    }
  }

  /** Every listed file is a FILE portfolio tagged for the indicator; likewise for video links. */
  lemma {:induction false} PickedFromTagged(ps: seq<PortfolioRecord>, indicatorId: string, t: ItemType, e: EvidenceItem)
    requires e in Picked(ps, indicatorId, t)
    ensures exists p :: p in ps && p.itemType == t && Matches(p, indicatorId) && e == EntryOf(p)
  {
    var init := ps[..|ps| - 1];
    var p := ps[|ps| - 1];
    if e in Picked(init, indicatorId, t) {
      PickedFromTagged(init, indicatorId, t, e);
      var q :| q in init && q.itemType == t && Matches(q, indicatorId) && e == EntryOf(q);
      assert q in ps;
    } else {
      assert p in ps;
    }
  }

  /** Every portfolio of type `t` tagged for the indicator is listed. */
  lemma {:induction false} TaggedArePicked(ps: seq<PortfolioRecord>, indicatorId: string, t: ItemType, p: PortfolioRecord)
    requires p in ps && p.itemType == t && Matches(p, indicatorId)
    ensures EntryOf(p) in Picked(ps, indicatorId, t)
  {
    var init := ps[..|ps| - 1];
    if p != ps[|ps| - 1] {
      assert p in init;
      TaggedArePicked(init, indicatorId, t, p);
    }
  }

  lemma {:induction false} AnalysesFromDoneJobs(jobs: seq<JobRecord>, e: EvidenceItem)
    requires e in Analyses(jobs)
    ensures exists j :: j in jobs && j.status == MediaStore.Done && e == AnalysisEntry(j)
  {
    var init := jobs[..|jobs| - 1];
    if e in Analyses(init) {
      AnalysesFromDoneJobs(init, e);
      var j :| j in init && j.status == MediaStore.Done && e == AnalysisEntry(j);
      assert j in jobs;
    } else {
      assert jobs[|jobs| - 1] in jobs;
    }
  }

  /** Files hold only FILE portfolios, video links only VIDEO_LINK ones, analyses only DONE jobs. */
  lemma EntrySources(item: IndicatorCompleteness, ev: SummaryEvidence, e: EvidenceItem)
    ensures e in IndicatorEntry(item, ev).files ==>
      exists p :: p in ev.portfolios && p.itemType == FileItem && Matches(p, item.id) && e == FileEntry(p)
    ensures e in IndicatorEntry(item, ev).videoLinks ==>
      exists p :: p in ev.portfolios && p.itemType == VideoLinkItem && Matches(p, item.id) && e == VideoEntry(p)
    ensures e in IndicatorEntry(item, ev).aiAnalyses ==>
      IsAnalysisRelevant(item.id) &&
      exists j :: j in ev.analysisJobs && j.status == MediaStore.Done && e == AnalysisEntry(j)
  {
    var r := IndicatorEntry(item, ev);
    if e in r.files {
      PickedFromTagged(ev.portfolios, item.id, FileItem, e);
    }
    if e in r.videoLinks {
      PickedFromTagged(ev.portfolios, item.id, VideoLinkItem, e);
    }
    if e in r.aiAnalyses {
      AnalysesFromDoneJobs(ev.analysisJobs, e);
    }
  }

  /** A relevant indicator gets every DONE job; any other indicator gets none. */
  lemma AnalysesAllOrNothing(item: IndicatorCompleteness, ev: SummaryEvidence)
    ensures |IndicatorEntry(item, ev).aiAnalyses| ==
            if IsAnalysisRelevant(item.id) then CountDone(ev.analysisJobs) else 0
  {
  }

  /** The relevant indicators are all teaching indicators `PRO_1.x`. */
  lemma RelevantIsTeaching(indicatorId: string)
    ensures IsAnalysisRelevant(indicatorId) ==> StartsWith(indicatorId, "PRO_1.")
  {
    if IsAnalysisRelevant(indicatorId) {
      var i :| 0 <= i < |RelevantPrefixes| && StartsWith(indicatorId, RelevantPrefixes[i]);
      var pre := RelevantPrefixes[i];
      assert pre[..6] == "PRO_1.";
      assert indicatorId[..6] == indicatorId[..|pre|][..6];
    }
  }

  lemma RelevantExamples()
    ensures IsAnalysisRelevant("PRO_1.3")
    ensures !IsAnalysisRelevant("PRO_2.1")
    ensures !IsAnalysisRelevant("SOC_1")
  {
    assert StartsWith("PRO_1.3", RelevantPrefixes[2]);
    RelevantIsTeaching("PRO_2.1");
    RelevantIsTeaching("SOC_1");
    assert "PRO_2.1"[..6][4] != "PRO_1."[4];
  }

  // ---------------------------------------------------------------
  // Summary counts
  // ---------------------------------------------------------------

  datatype EvidenceCounts = EvidenceCounts(
    totalEvidence: nat, totalAnalysisJobs: nat, totalVideoLinks: nat, totalFiles: nat)

  function CountsOf(ev: SummaryEvidence): EvidenceCounts {
    var files := CountType(ev.portfolios, FileItem);
    var videos := CountType(ev.portfolios, VideoLinkItem);
    var jobs := CountDone(ev.analysisJobs);
    EvidenceCounts(files + videos + jobs, jobs, videos, files)
  }

  lemma {:induction false} TypeCountsBounded(ps: seq<PortfolioRecord>)
    ensures CountType(ps, FileItem) + CountType(ps, VideoLinkItem) <= |ps|
  {
    if ps != [] {
      TypeCountsBounded(ps[..|ps| - 1]);
    }
  }

  lemma {:induction false} DoneBounded(jobs: seq<JobRecord>)
    ensures CountDone(jobs) <= |jobs|
  {
    if jobs != [] {
      DoneBounded(jobs[..|jobs| - 1]);
    }
  }

  /**
   * No indicator shows more evidence than the summary counts in total, and
   * the total counts each FILE or VIDEO_LINK portfolio and each DONE job once.
   */
  lemma EntryWithinTotals(item: IndicatorCompleteness, ev: SummaryEvidence)
    ensures IndicatorEntry(item, ev).totalCount <= CountsOf(ev).totalEvidence
    ensures CountsOf(ev).totalEvidence <= |ev.portfolios| + |ev.analysisJobs|
  {
    TypeCountsBounded(ev.portfolios);
    DoneBounded(ev.analysisJobs);
  }

  // ---------------------------------------------------------------
  // Domain summaries
  // ---------------------------------------------------------------

  datatype DomainSummary = DomainSummary(
    domainId: string, domainName: string, score: nat, status: CompletenessStatus,
    indicatorCount: nat, passedCount: nat, totalEvidence: nat,
    highlights: seq<string>, indicators: seq<IndicatorEvidence>)

  /** The id prefix of a domain's indicators; an unknown domain has none. */
  function DomainPrefix(domainId: string): Option<string> {
    if domainId == "PROFESSIONAL" then Some("PRO_")
    else if domainId == "SOCIAL" then Some("SOC_")
    else if domainId == "PERSONAL" then Some("PER_")
    else None
  }

  predicate InDomain(domainId: string, indicatorId: string) {
    DomainPrefix(domainId).Some? && StartsWith(indicatorId, DomainPrefix(domainId).value)
  }

  function IndicatorsOf(domainId: string, evs: seq<IndicatorEvidence>): (r: seq<IndicatorEvidence>)
    ensures forall e :: e in r <==> e in evs && InDomain(domainId, e.indicatorId)
  {
    if evs == [] then []
    else
      var e := evs[|evs| - 1];
      IndicatorsOf(domainId, evs[..|evs| - 1]) + (if InDomain(domainId, e.indicatorId) then [e] else [])
  }

  function TotalOf(evs: seq<IndicatorEvidence>): nat {
    if evs == [] then 0 else TotalOf(evs[..|evs| - 1]) + evs[|evs| - 1].totalCount
  }

  function HighlightOf(name: string, a: EvidenceItem): string {
    name + ": " + Take(a.transcriptSummary, 100) + "..."
  }

  /** One highlight per analysis that has a transcript summary. */
  function AnalysisHighlights(name: string, analyses: seq<EvidenceItem>): seq<string> {
    if analyses == [] then []
    else
      var a := analyses[|analyses| - 1];
      AnalysisHighlights(name, analyses[..|analyses| - 1]) + (if a.transcriptSummary != [] then [HighlightOf(name, a)] else [])
  }

  function Highlights(evs: seq<IndicatorEvidence>): seq<string> {
    if evs == [] then []
    else
      var e := evs[|evs| - 1];
      Highlights(evs[..|evs| - 1]) + AnalysisHighlights(e.indicatorName, e.aiAnalyses)
  }

  function DomainSummaryOf(d: DomainCompleteness, evs: seq<IndicatorEvidence>): DomainSummary {
    var inds := IndicatorsOf(d.id, evs);
    DomainSummary(d.id, DomainName(d.id), d.score, d.status, d.itemCount, d.passedCount,
                  TotalOf(inds), Take(Highlights(inds), 5), inds)
  }

  /** The highlights of a domain's indicators, collected in nested loops. */
  method CollectHighlights(inds: seq<IndicatorEvidence>) returns (hs: seq<string>)
    ensures hs == Highlights(inds)
  {
    hs := [];
    var i := 0;
    while i < |inds|
      invariant 0 <= i <= |inds|
      invariant hs == Highlights(inds[..i])
    {
      assert inds[..i + 1][..i] == inds[..i];
      var ind := inds[i];
      var k := 0;
      while k < |ind.aiAnalyses|
        invariant 0 <= k <= |ind.aiAnalyses|
        invariant hs == Highlights(inds[..i]) + AnalysisHighlights(ind.indicatorName, ind.aiAnalyses[..k])
      {
        var a := ind.aiAnalyses[k];
        assert ind.aiAnalyses[..k + 1][..k] == ind.aiAnalyses[..k];
        if a.transcriptSummary != [] {
          hs := hs + [HighlightOf(ind.indicatorName, a)];
        }
        k := k + 1;
      }
      TakeWhole(ind.aiAnalyses);
      i := i + 1;
    }
    TakeWhole(inds);
  }

  /** One summary per completeness domain, in the domains' order. */
  method BuildDomainSummaries(domains: seq<DomainCompleteness>, evs: seq<IndicatorEvidence>)
    returns (r: seq<DomainSummary>)
    ensures |r| == |domains|
    ensures forall k :: 0 <= k < |domains| ==> r[k] == DomainSummaryOf(domains[k], evs)
  {
    r := [];
    var i := 0;
    while i < |domains|
      invariant 0 <= i <= |domains|
      invariant |r| == i
      invariant forall k :: 0 <= k < i ==> r[k] == DomainSummaryOf(domains[k], evs)
    {
      var d := domains[i];
      var inds := IndicatorsOf(d.id, evs);
      var hs := CollectHighlights(inds);
      r := r + [DomainSummary(d.id, DomainName(d.id), d.score, d.status, d.itemCount, d.passedCount,
                              TotalOf(inds), Take(hs, 5), inds)];
      i := i + 1;
    }
  }

  /** The three domains' prefixes never claim the same indicator. */
  lemma DomainsDisjoint(a: string, b: string, indicatorId: string)
    requires a != b
    ensures !(InDomain(a, indicatorId) && InDomain(b, indicatorId))
  {
  }

  /** A domain's evidence total never exceeds the total over all indicators. */
  lemma {:induction false} DomainTotalBounded(domainId: string, evs: seq<IndicatorEvidence>)
    ensures TotalOf(IndicatorsOf(domainId, evs)) <= TotalOf(evs)
  {
    if evs != [] {
      var init := evs[..|evs| - 1];
      var e := evs[|evs| - 1];
      DomainTotalBounded(domainId, init);
      TotalAppend(IndicatorsOf(domainId, init), if InDomain(domainId, e.indicatorId) then [e] else []);
    }
  }

  lemma {:induction false} TotalAppend(a: seq<IndicatorEvidence>, b: seq<IndicatorEvidence>)
    ensures TotalOf(a + b) == TotalOf(a) + TotalOf(b)
    decreases |b|
  {
    if b != [] {
      assert (a + b)[..|a + b| - 1] == a + b[..|b| - 1];
      TotalAppend(a, b[..|b| - 1]);
    } else {
      assert a + b == a;
    }
  }

  /** At most five highlights; an unknown domain has no indicators and no evidence. */
  lemma DomainSummaryShape(d: DomainCompleteness, evs: seq<IndicatorEvidence>)
    ensures |DomainSummaryOf(d, evs).highlights| <= 5
    ensures DomainPrefix(d.id).None? ==> DomainSummaryOf(d, evs).indicators == [] && DomainSummaryOf(d, evs).totalEvidence == 0
    ensures DomainSummaryOf(d, evs).totalEvidence <= TotalOf(evs)
  {
    DomainTotalBounded(d.id, evs);
  }

  // ---------------------------------------------------------------
  // AI insights
  // ---------------------------------------------------------------

  datatype Insights = Insights(
    teachingStrengths: seq<string>, areasForImprovement: seq<string>,
    recommendations: seq<string>, activeLearningSignals: seq<string>)

  function ListOf(o: Option<seq<string>>): seq<string> {
    if o.Some? then o.value else []
  }

  /** `weaknesses || improvements`. */
  function ImprovementList(rep: AnalysisReport): seq<string> {
    if rep.weaknesses.Some? then rep.weaknesses.value else ListOf(rep.improvements)
  }

  /** What one job adds to each list. */
  function Contribution(j: JobRecord): Insights {
    if j.status != MediaStore.Done then Insights([], [], [], [])
    else
      var advice := if j.aiAdvice != [] then [j.aiAdvice] else [];
      if j.report.None? then Insights([], [], advice, [])
      else
        var rep := j.report.value;
        Insights(ListOf(rep.strengths), ImprovementList(rep), advice, ListOf(rep.activeLearning))
  }

  function Plus(a: Insights, b: Insights): Insights {
    Insights(a.teachingStrengths + b.teachingStrengths, a.areasForImprovement + b.areasForImprovement,
             a.recommendations + b.recommendations, a.activeLearningSignals + b.activeLearningSignals)
  }

  function RawInsights(jobs: seq<JobRecord>): Insights {
    if jobs == [] then Insights([], [], [], [])
    else Plus(RawInsights(jobs[..|jobs| - 1]), Contribution(jobs[|jobs| - 1]))
  }

  function Capped(xs: seq<string>): (r: seq<string>)
    ensures |r| <= 10 && NoDuplicates(r)
    ensures forall x :: x in r ==> x in xs
  {
    Take(Dedup(xs), 10)
  }

  function AggregateOf(jobs: seq<JobRecord>): Insights {
    var raw := RawInsights(jobs);
    Insights(Capped(raw.teachingStrengths), Capped(raw.areasForImprovement),
             Capped(raw.recommendations), Capped(raw.activeLearningSignals))
  }

  /** The pushes one job makes. */
  method AddJob(acc: Insights, job: JobRecord) returns (acc': Insights)
    ensures acc' == Plus(acc, Contribution(job))
  {
    var strengths, improvements, recommendations, signals :=
      acc.teachingStrengths, acc.areasForImprovement, acc.recommendations, acc.activeLearningSignals;
    if job.status == MediaStore.Done {
      if job.report.Some? {
        var rep := job.report.value;
        if rep.strengths.Some? {
          strengths := strengths + rep.strengths.value;
        }
        if rep.weaknesses.Some? || rep.improvements.Some? {
          improvements := improvements + ImprovementList(rep);
        }
        if rep.activeLearning.Some? {
          signals := signals + rep.activeLearning.value;
        }
      }
      if job.aiAdvice != [] {
        recommendations := recommendations + [job.aiAdvice];
      }
    }
    acc' := Insights(strengths, improvements, recommendations, signals);
  }

  method AggregateAiInsights(jobs: seq<JobRecord>) returns (r: Insights)
    ensures r == AggregateOf(jobs)
  {
    var acc := Insights([], [], [], []);
    var i := 0;
    while i < |jobs|
      invariant 0 <= i <= |jobs|
      invariant acc == RawInsights(jobs[..i])
    {
      assert jobs[..i + 1][..i] == jobs[..i];
      acc := AddJob(acc, jobs[i]);
      i := i + 1;
    }
    TakeWhole(jobs);
    r := Insights(Capped(acc.teachingStrengths), Capped(acc.areasForImprovement),
                  Capped(acc.recommendations), Capped(acc.activeLearningSignals));
  }

  /** Jobs that are not DONE contribute nothing. */
  lemma {:induction false} RawIgnoresUnfinished(jobs: seq<JobRecord>, j: JobRecord)
    requires j.status != MediaStore.Done
    ensures RawInsights(jobs + [j]) == RawInsights(jobs)
  {
    assert (jobs + [j])[..|jobs + [j]| - 1] == jobs;
  }

  /**
   * Every improvement area comes from a DONE job's report: from its
   * weaknesses when it has them, otherwise from its improvements.
   */
  lemma {:induction false} ImprovementSource(jobs: seq<JobRecord>, x: string)
    requires x in RawInsights(jobs).areasForImprovement
    ensures exists j :: (j in jobs && j.status == MediaStore.Done && j.report.Some? &&
      (if j.report.value.weaknesses.Some? then x in j.report.value.weaknesses.value
       else x in ListOf(j.report.value.improvements)))
  {
    var init := jobs[..|jobs| - 1];
    var last := jobs[|jobs| - 1];
    if x in RawInsights(init).areasForImprovement {
      ImprovementSource(init, x);
      var j :| j in init && j.status == MediaStore.Done && j.report.Some? &&
        (if j.report.value.weaknesses.Some? then x in j.report.value.weaknesses.value
         else x in ListOf(j.report.value.improvements));
      assert j in jobs;
    } else {
      assert last in jobs;
    }
  }

  /** Every recommendation is the non-empty advice of a DONE job. */
  lemma {:induction false} RecommendationSource(jobs: seq<JobRecord>, x: string)
    requires x in RawInsights(jobs).recommendations
    ensures x != [] && exists j :: j in jobs && j.status == MediaStore.Done && j.aiAdvice == x
  {
    var init := jobs[..|jobs| - 1];
    var last := jobs[|jobs| - 1];
    if x in RawInsights(init).recommendations {
      RecommendationSource(init, x);
      var j :| j in init && j.status == MediaStore.Done && j.aiAdvice == x;
      assert j in jobs;
    } else {
      assert last in jobs;
    }
  }

  /** Each aggregated list is duplicate-free, at most ten long, and drawn from DONE jobs. */
  lemma AggregateShape(jobs: seq<JobRecord>)
    ensures var r := AggregateOf(jobs);
      |r.teachingStrengths| <= 10 && |r.areasForImprovement| <= 10 &&
      |r.recommendations| <= 10 && |r.activeLearningSignals| <= 10 &&
      NoDuplicates(r.areasForImprovement) && NoDuplicates(r.recommendations)
    ensures forall x :: x in AggregateOf(jobs).recommendations ==>
      exists j :: j in jobs && j.status == MediaStore.Done && j.aiAdvice == x
  {
    forall x | x in AggregateOf(jobs).recommendations
      ensures exists j :: j in jobs && j.status == MediaStore.Done && j.aiAdvice == x
    {
      RecommendationSource(jobs, x);
    }
  }

  // ---------------------------------------------------------------
  // Narrative
  // ---------------------------------------------------------------

  datatype Teacher = Teacher(fullName: string, position: string, schoolName: Option<string>)

  function Bullets(xs: seq<string>): (r: seq<string>)
    ensures |r| == |xs|
  {
    if xs == [] then [] else Bullets(xs[..|xs| - 1]) + ["- " + xs[|xs| - 1]]
  }

  /** A titled list of at most `cap` bullets, or nothing for an empty list. */
  function Section(title: string, xs: seq<string>, cap: nat): seq<string> {
    if xs == [] then [] else [title] + Bullets(Take(xs, cap)) + [""]
  }

  function Header(t: Teacher, round: int, year: string): seq<string> {
    ["สรุปผลการเตรียมความพร้อมและพัฒนาอย่างเข้ม ของ " + t.fullName,
     "ตำแหน่ง " + t.position + " โรงเรียน" + OrElse(t.schoolName.GetOr(""), "-"),
     "ครั้งที่ " + IntToString(round) + " ปีการศึกษา " + year,
     ""]
  }

  function Overview(deckScore: nat, overallPassed: bool): seq<string> {
    ["## ภาพรวมความสมบูรณ์: " + NatToString(deckScore) + "%",
     if overallPassed then "ผ่านเกณฑ์การประเมิน" else "ยังไม่ผ่านเกณฑ์การประเมิน",
     ""]
  }

  function DomainBlock(d: DomainSummary): seq<string> {
    ["### " + d.domainName + " (" + NatToString(d.score) + "%)",
     "ผ่าน " + NatToString(d.passedCount) + "/" + NatToString(d.indicatorCount) +
       " ตัวชี้วัด | หลักฐาน " + NatToString(d.totalEvidence) + " ชิ้น"]
    + (if |d.highlights| > 0 then ["จุดเด่น:"] + Bullets(d.highlights) else [])
    + [""]
  }

  function DomainBlocks(ds: seq<DomainSummary>): seq<string> {
    if ds == [] then [] else DomainBlocks(ds[..|ds| - 1]) + DomainBlock(ds[|ds| - 1])
  }

  const StrengthsTitle := "### จุดแข็ง (จาก AI วิเคราะห์)"
  const ImprovementsTitle := "### สิ่งที่ควรพัฒนา"
  const RecommendationsTitle := "### คำแนะนำจาก AI"

  /** The closing sections drawn from the AI insights. */
  function AiSections(ins: Insights): seq<string> {
    Section(StrengthsTitle, ins.teachingStrengths, 5)
    + Section(ImprovementsTitle, ins.areasForImprovement, 5)
    + Section(RecommendationsTitle, ins.recommendations, 3)
  }

  function NarrativeLines(t: Teacher, deckScore: nat, overallPassed: bool, ds: seq<DomainSummary>,
                          ins: Insights, round: int, year: string): seq<string> {
    Preamble(t, deckScore, overallPassed, round, year) + DomainBlocks(ds) + AiSections(ins)
  }

  function Preamble(t: Teacher, deckScore: nat, overallPassed: bool, round: int, year: string): seq<string> {
    Header(t, round, year) + Overview(deckScore, overallPassed)
  }

  /** `for (const x of xs) lines.push(`- ${x}`)`. */
  method PushBullets(lines: seq<string>, xs: seq<string>) returns (lines': seq<string>)
    ensures lines' == lines + Bullets(xs)
  {
    lines' := lines;
    var i := 0;
    while i < |xs|
      invariant 0 <= i <= |xs|
      invariant lines' == lines + Bullets(xs[..i])
    {
      assert xs[..i + 1][..i] == xs[..i];
      lines' := lines' + ["- " + xs[i]];
      i := i + 1;
    }
    TakeWhole(xs);
  }

  method PushSection(lines: seq<string>, title: string, xs: seq<string>, cap: nat) returns (lines': seq<string>)
    ensures lines' == lines + Section(title, xs, cap)
  {
    lines' := lines;
    if |xs| > 0 {
      lines' := lines' + [title];
      lines' := PushBullets(lines', Take(xs, cap));
      lines' := lines' + [""];
    }
  }

  method PushDomainBlock(lines: seq<string>, d: DomainSummary) returns (lines': seq<string>)
    ensures lines' == lines + DomainBlock(d)
  {
    lines' := lines + ["### " + d.domainName + " (" + NatToString(d.score) + "%)"];
    lines' := lines' + ["ผ่าน " + NatToString(d.passedCount) + "/" + NatToString(d.indicatorCount) +
                        " ตัวชี้วัด | หลักฐาน " + NatToString(d.totalEvidence) + " ชิ้น"];
    if |d.highlights| > 0 {
      lines' := lines' + ["จุดเด่น:"];
      lines' := PushBullets(lines', d.highlights);
    }
    lines' := lines' + [""];
  }

  /** The narrative's lines, pushed one block at a time. */
  method PushNarrativeLines(t: Teacher, deckScore: nat, overallPassed: bool, ds: seq<DomainSummary>,
                            ins: Insights, round: int, year: string) returns (all: seq<string>)
    ensures all == NarrativeLines(t, deckScore, overallPassed, ds, ins, round, year)
  {
    var lines := PushDomainBlocks(Preamble(t, deckScore, overallPassed, round, year), ds);
    var tail := PushAiSections(ins);
    all := lines + tail;
  }

  method PushDomainBlocks(lines: seq<string>, ds: seq<DomainSummary>) returns (lines': seq<string>)
    ensures lines' == lines + DomainBlocks(ds)
  {
    lines' := lines;
    var i := 0;
    while i < |ds|
      invariant 0 <= i <= |ds|
      invariant lines' == lines + DomainBlocks(ds[..i])
    {
      DomainBlocksSnoc(ds, i);
      lines' := PushDomainBlock(lines', ds[i]);
      i := i + 1;
    }
    TakeWhole(ds);
  }

  lemma DomainBlocksSnoc(ds: seq<DomainSummary>, i: nat)
    requires i < |ds|
    ensures DomainBlocks(ds[..i + 1]) == DomainBlocks(ds[..i]) + DomainBlock(ds[i])
  {
    assert ds[..i + 1][..i] == ds[..i];
  }

  method PushAiSections(ins: Insights) returns (tail: seq<string>)
    ensures tail == AiSections(ins)
  {
    tail := PushSection([], StrengthsTitle, ins.teachingStrengths, 5);
    tail := PushSection(tail, ImprovementsTitle, ins.areasForImprovement, 5);
    tail := PushSection(tail, RecommendationsTitle, ins.recommendations, 3);
  }

  method BuildNarrative(t: Teacher, deckScore: nat, overallPassed: bool, ds: seq<DomainSummary>,
                        ins: Insights, round: int, year: string) returns (text: string)
    ensures text == Join(NarrativeLines(t, deckScore, overallPassed, ds, ins, round, year), "\n")
  {
    var lines := PushNarrativeLines(t, deckScore, overallPassed, ds, ins, round, year);
    text := Join(lines, "\n");
  }

  lemma {:induction false} BulletsAt(xs: seq<string>, k: nat)
    requires k < |xs|
    ensures Bullets(xs)[k] == "- " + xs[k]
    decreases |xs|
  {
    if k < |xs| - 1 {
      BulletsAt(xs[..|xs| - 1], k);
    }
  }

  /**
   * A section is empty exactly when its list is, and otherwise shows the
   * title, the first `cap` entries as bullets, and a blank line.
   */
  lemma SectionShape(title: string, xs: seq<string>, cap: nat)
    ensures Section(title, xs, cap) == [] <==> xs == []
    ensures xs != [] ==> |Section(title, xs, cap)| == |Take(xs, cap)| + 2 <= cap + 2
    ensures xs != [] ==> forall k :: 0 <= k < |Take(xs, cap)| ==> Section(title, xs, cap)[k + 1] == "- " + xs[k]
  {
    if xs != [] {
      forall k | 0 <= k < |Take(xs, cap)|
        ensures Section(title, xs, cap)[k + 1] == "- " + xs[k]
      {
        BulletsAt(Take(xs, cap), k);
      }
    }
  }

  /** The narrative ends with at most 5 strengths, 5 improvement areas and 3 recommendations. */
  lemma NarrativeCaps(t: Teacher, deckScore: nat, overallPassed: bool, ds: seq<DomainSummary>,
                      ins: Insights, round: int, year: string)
    ensures |Section(StrengthsTitle, ins.teachingStrengths, 5)| <= 7
    ensures |Section(ImprovementsTitle, ins.areasForImprovement, 5)| <= 7
    ensures |Section(RecommendationsTitle, ins.recommendations, 3)| <= 5
    ensures EndsWith(NarrativeLines(t, deckScore, overallPassed, ds, ins, round, year), AiSections(ins))
  {
    SectionShape(StrengthsTitle, ins.teachingStrengths, 5);
    SectionShape(ImprovementsTitle, ins.areasForImprovement, 5);
    SectionShape(RecommendationsTitle, ins.recommendations, 3);
    var all := NarrativeLines(t, deckScore, overallPassed, ds, ins, round, year);
    var front := Preamble(t, deckScore, overallPassed, round, year) + DomainBlocks(ds);
    assert all == front + AiSections(ins);
    assert all[|all| - |AiSections(ins)|..] == AiSections(ins);
  }

  // ---------------------------------------------------------------
  // The summary
  // ---------------------------------------------------------------

  datatype SummaryData = SummaryData(
    teacherId: string, teacherName: string, assessmentRound: int, academicYear: string,
    overallScore: nat, overallStatus: CompletenessStatus, overallPassed: bool,
    counts: EvidenceCounts, domains: seq<DomainSummary>, aiInsights: Insights,
    summaryNarrative: string)

  datatype SummaryError = TeacherMissing

  /**
   * The summary for a teacher, given the completeness report and the rich
   * evidence; a missing teacher is an error.
   */
  method GenerateSummary(teacherId: string, teacher: Option<Teacher>, round: int, year: string,
                         completeness: DeckCompleteness, ev: SummaryEvidence)
    returns (r: Result<SummaryData, SummaryError>)
    ensures teacher.None? <==> r.Err?
    ensures r.Ok? ==>
      var s := r.value;
      var evs := seq(|completeness.items|, k requires 0 <= k < |completeness.items| => IndicatorEntry(completeness.items[k], ev));
      s.counts == CountsOf(ev) &&
      s.counts.totalEvidence == s.counts.totalFiles + s.counts.totalVideoLinks + s.counts.totalAnalysisJobs &&
      s.overallScore == completeness.deckScore && s.overallPassed == completeness.passCriteria.overall &&
      |s.domains| == |completeness.domains| &&
      (forall k :: 0 <= k < |s.domains| ==> s.domains[k] == DomainSummaryOf(completeness.domains[k], evs)) &&
      s.aiInsights == AggregateOf(ev.analysisJobs) &&
      s.summaryNarrative == Join(NarrativeLines(teacher.value, completeness.deckScore, completeness.passCriteria.overall,
                                                s.domains, s.aiInsights, round, year), "\n")
  {
    if teacher.None? {
      return Err(TeacherMissing);
    }
    var t := teacher.value;
    var evs := MapEvidenceToIndicators(ev, completeness.items);
    assert evs == seq(|completeness.items|, k requires 0 <= k < |completeness.items| => IndicatorEntry(completeness.items[k], ev));
    var domains := BuildDomainSummaries(completeness.domains, evs);
    var insights := AggregateAiInsights(ev.analysisJobs);
    var narrative := BuildNarrative(t, completeness.deckScore, completeness.passCriteria.overall,
                                    domains, insights, round, year);
    var counts := CountsOf(ev);
    r := Ok(SummaryData(teacherId, t.fullName, round, year, completeness.deckScore, completeness.deckStatus,
                        completeness.passCriteria.overall, counts, domains, insights, narrative));
  }
}

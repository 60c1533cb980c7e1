/** The teacher assessment report: which assistant teachers a query selects, the
    per-teacher summary built from each teacher's assessments and activities, and the
    filter line printed at the top of the report. */
module Reports {
  import opened Common

  // ---------------------------------------------------------------
  // Teachers and their records
  // ---------------------------------------------------------------

  datatype School = School(schoolName: string, province: string, region: string)

  datatype Assessment = Assessment(period: string, overallLevel: string, pedagogy: int, classroom: int,
                                   community: int, professionalism: int, createdAt: int, assessor: string)

  datatype Visit = Visit(visitType: string, focusArea: string, visitDate: int, observer: string)

  /** A teacher with its related rows; assessments and visits newest first, every date as a
      timestamp in milliseconds. */
  datatype Teacher = Teacher(
    id: string, fullName: string, position: string, cohort: int, schoolId: string, school: School,
    status: string, assessments: seq<Assessment>, visits: seq<Visit>, journalDates: seq<int>,
    plcDates: seq<int>, planDates: seq<int>)

  // ---------------------------------------------------------------
  // The query
  // ---------------------------------------------------------------

  /** The optional query filters; the date range the query also accepts is never read. */
  datatype Filters = Filters(schoolId: Option<string>, province: Option<string>, region: Option<string>,
                             cohort: Option<int>, status: Option<string>)

  /** A string filter takes part when it is present and not empty (JavaScript truthiness). */
  predicate Given(o: Option<string>) {
    o.Some? && o.value != ""
  }

  /** A number filter takes part when it is present and not zero. */
  predicate GivenInt(o: Option<int>) {
    o.Some? && o.value != 0
  }

  const AssistantTeacher: string := "ครูผู้ช่วย"

  /** The conditions every selected teacher meets, apart from the school's location. */
  predicate MatchesOthers(f: Filters, t: Teacher) {
    t.position == AssistantTeacher &&
    (Given(f.schoolId) ==> t.schoolId == f.schoolId.value) &&
    (GivenInt(f.cohort) ==> t.cohort == f.cohort.value) &&
    (Given(f.status) ==> t.status == f.status.value)
  }

  /** The `where` clause as written: the region filter's `school` key replaces the province
      filter's when both are given, so only the region is checked then. */
  predicate MatchesAsWritten(f: Filters, t: Teacher) {
    MatchesOthers(f, t) &&
    if Given(f.region) then t.school.region == f.region.value
    else Given(f.province) ==> t.school.province == f.province.value
  }

  /** The `where` clause with both location filters applied. */
  predicate Matches(f: Filters, t: Teacher) {
    MatchesOthers(f, t) &&
    (Given(f.province) ==> t.school.province == f.province.value) &&
    (Given(f.region) ==> t.school.region == f.region.value)
  }

  /** With both a province and a region given, a teacher of another province in that region is
      selected as written. */
  lemma ProvinceDroppedAsWritten()
    ensures var f := Filters(None, Some("Chiang Mai"), Some("NORTH"), None, None);
      var t := Teacher("t1", "A", AssistantTeacher, 1, "s1", School("S", "Lampang", "NORTH"), "ACTIVE",
                       [], [], [], [], []);
      MatchesAsWritten(f, t) && !Matches(f, t)
  {
  }

  /** The two clauses select the same teachers unless both location filters are given, and the
      intended one never selects more. */
  lemma MatchesRefinesAsWritten(f: Filters, t: Teacher)
    ensures Matches(f, t) ==> MatchesAsWritten(f, t)
    ensures !(Given(f.province) && Given(f.region)) ==> (Matches(f, t) <==> MatchesAsWritten(f, t))
  {
  }

  /** The teachers the query returns, in the database's order: the `where` clause as written. */
  function Fetch(f: Filters, teachers: seq<Teacher>): (r: seq<Teacher>)
    ensures |r| <= |teachers|
    ensures forall i :: 0 <= i < |r| ==> MatchesAsWritten(f, r[i]) && r[i] in teachers
    ensures forall i :: 0 <= i < |teachers| && MatchesAsWritten(f, teachers[i]) ==> teachers[i] in r
  {
    if teachers == [] then []
    else
      var rest := Fetch(f, teachers[1..]);
      assert forall t :: t in teachers[1..] ==> t in teachers;
      if MatchesAsWritten(f, teachers[0]) then [teachers[0]] + rest else rest
  }

  /** The teachers of `ts` in the filter's province, all of them when no province is given. */
  function InProvince(f: Filters, ts: seq<Teacher>): (r: seq<Teacher>)
    ensures |r| <= |ts|
    ensures forall i :: 0 <= i < |r| ==> r[i] in ts && (Given(f.province) ==> r[i].school.province == f.province.value)
    ensures forall i :: 0 <= i < |ts| && (Given(f.province) ==> ts[i].school.province == f.province.value) ==> ts[i] in r
  {
    if ts == [] then []
    else
      var rest := InProvince(f, ts[1..]);
      assert forall t :: t in ts[1..] ==> t in ts;
      if Given(f.province) && ts[0].school.province != f.province.value then rest else [ts[0]] + rest
  }

  /** The query with both location filters applied: the written query's teachers narrowed to the
      province, which selects exactly the stored teachers meeting every given filter. */
  function FetchIntended(f: Filters, teachers: seq<Teacher>): (r: seq<Teacher>)
    ensures |r| <= |Fetch(f, teachers)|
    ensures forall i :: 0 <= i < |r| ==> Matches(f, r[i]) && r[i] in teachers
    ensures forall i :: 0 <= i < |teachers| && Matches(f, teachers[i]) ==> teachers[i] in r
  {
    var written := Fetch(f, teachers);
    var r := InProvince(f, written);
    forall i | 0 <= i < |teachers| && Matches(f, teachers[i])
      ensures teachers[i] in r
    {
      MatchesRefinesAsWritten(f, teachers[i]);
      var j :| 0 <= j < |written| && written[j] == teachers[i];
    }
    r
  }

  /** Narrowing to the province drops nothing from a list already inside it. */
  lemma {:induction false} InProvinceKeepsAll(f: Filters, ts: seq<Teacher>)
    requires forall i :: 0 <= i < |ts| ==> (Given(f.province) ==> ts[i].school.province == f.province.value)
    ensures InProvince(f, ts) == ts
  {
    if ts != [] {
      InProvinceKeepsAll(f, ts[1..]);
      assert ts == [ts[0]] + ts[1..];
    }
  }

  /** The written query and the intended one return the same list unless both a province and a
      region are given. */
  lemma FetchAgreesWithoutBothLocations(f: Filters, teachers: seq<Teacher>)
    requires !(Given(f.province) && Given(f.region))
    ensures FetchIntended(f, teachers) == Fetch(f, teachers)
  {
    var written := Fetch(f, teachers);
    forall i | 0 <= i < |written|
      ensures Given(f.province) ==> written[i].school.province == f.province.value
    {
      MatchesRefinesAsWritten(f, written[i]);
    }
    InProvinceKeepsAll(f, written);
  }

  // ---------------------------------------------------------------
  // The per-teacher summary
  // ---------------------------------------------------------------

  function First<T>(xs: seq<T>): Option<T> {
    if xs == [] then None else Some(xs[0])
  }

  /** `Math.max(...dates)`, or nothing without dates. */
  function Latest(dates: seq<int>): (r: Option<int>)
    ensures r.None? <==> dates == []
    ensures r.Some? ==> r.value in dates && forall i :: 0 <= i < |dates| ==> dates[i] <= r.value
  {
    if dates == [] then None
    else
      var rest := Latest(dates[1..]);
      assert forall i :: 1 <= i < |dates| ==> dates[i] == dates[1..][i - 1];
      if rest.None? || dates[0] >= rest.value then Some(dates[0]) else rest
  }

  function AssessmentDates(xs: seq<Assessment>): (r: seq<int>)
    ensures |r| == |xs| && forall i :: 0 <= i < |xs| ==> r[i] == xs[i].createdAt
  {
    seq(|xs|, i requires 0 <= i < |xs| => xs[i].createdAt)
  }

  function VisitDates(xs: seq<Visit>): (r: seq<int>)
    ensures |r| == |xs| && forall i :: 0 <= i < |xs| ==> r[i] == xs[i].visitDate
  {
    seq(|xs|, i requires 0 <= i < |xs| => xs[i].visitDate)
  }

  /** Every dated record of the teacher. */
  function ActivityDates(t: Teacher): seq<int> {
    AssessmentDates(t.assessments) + VisitDates(t.visits) + t.journalDates + t.plcDates + t.planDates
  }

  /** The four scores of an assessment added up; the average score is this sum over four. */
  function ScoreSum(a: Assessment): int {
    a.pedagogy + a.classroom + a.community + a.professionalism
  }

  datatype Summary = Summary(
    teacherId: string, fullName: string, position: string, cohort: int, school: School,
    assessmentCount: nat, latestAssessment: Option<Assessment>, averageScoreTimesFour: Option<int>,
    mentoringCount: nat, latestMentoring: Option<Visit>, journalCount: nat, plcCount: nat,
    developmentPlanCount: nat, status: string, lastActivityDate: Option<int>)

  /** The transform applied to each fetched teacher. */
  function Summarize(t: Teacher): Summary {
    var latest := First(t.assessments);
    Summary(t.id, t.fullName, t.position, t.cohort, t.school,
            |t.assessments|, latest, if latest.Some? then Some(ScoreSum(latest.value)) else None,
            |t.visits|, First(t.visits), |t.journalDates|, |t.plcDates|, |t.planDates|, t.status,
            Latest(ActivityDates(t)))
  }

  /** The summary's counts are the sizes of the teacher's lists, the latest assessment and visit
      are the newest ones, and the average score is there exactly when an assessment is. */
  lemma SummaryFields(t: Teacher)
    ensures var s := Summarize(t);
      s.teacherId == t.id && s.assessmentCount == |t.assessments| && s.mentoringCount == |t.visits| &&
      s.journalCount == |t.journalDates| && s.plcCount == |t.plcDates| &&
      s.developmentPlanCount == |t.planDates|
    ensures Summarize(t).latestAssessment.None? <==> t.assessments == []
    ensures Summarize(t).averageScoreTimesFour.None? <==> t.assessments == []
    ensures t.assessments != [] ==>
      Summarize(t).latestAssessment == Some(t.assessments[0]) &&
      Summarize(t).averageScoreTimesFour == Some(ScoreSum(t.assessments[0]))
    ensures Summarize(t).latestMentoring.None? <==> t.visits == []
    ensures t.visits != [] ==> Summarize(t).latestMentoring == Some(t.visits[0])
  {
  }

  /** The last activity date is missing exactly when the teacher has no dated record, and is
      otherwise the latest date of any assessment, visit, journal, PLC activity or plan. */
  lemma {:induction false} LastActivityIsLatest(t: Teacher)
    ensures Summarize(t).lastActivityDate.None? <==>
      t.assessments == [] && t.visits == [] && t.journalDates == [] && t.plcDates == [] && t.planDates == []
    ensures Summarize(t).lastActivityDate.Some? ==>
      (forall i :: 0 <= i < |t.assessments| ==> t.assessments[i].createdAt <= Summarize(t).lastActivityDate.value) &&
      (forall i :: 0 <= i < |t.visits| ==> t.visits[i].visitDate <= Summarize(t).lastActivityDate.value) &&
      (forall d :: d in t.journalDates || d in t.plcDates || d in t.planDates ==>
        d <= Summarize(t).lastActivityDate.value)
  {
    var ds := ActivityDates(t);
    var a, v := AssessmentDates(t.assessments), VisitDates(t.visits);
    assert |ds| == |a| + |v| + |t.journalDates| + |t.plcDates| + |t.planDates|;
    forall d | d in a || d in v || d in t.journalDates || d in t.plcDates || d in t.planDates
      ensures d in ds
    {
    }
    forall i | 0 <= i < |t.assessments|
      ensures t.assessments[i].createdAt in ds
    {
      assert a[i] == t.assessments[i].createdAt;
    }
    forall i | 0 <= i < |t.visits|
      ensures t.visits[i].visitDate in ds
    {
      assert v[i] == t.visits[i].visitDate;
    }
  }

  /** `teachers.map(...)`: one summary per fetched teacher, in the fetched order. */
  function Report(f: Filters, teachers: seq<Teacher>): (r: seq<Summary>)
    ensures |r| == |Fetch(f, teachers)|
    ensures forall i :: 0 <= i < |r| ==> r[i] == Summarize(Fetch(f, teachers)[i])
  {
    var fetched := Fetch(f, teachers);
    seq(|fetched|, i requires 0 <= i < |fetched| => Summarize(fetched[i]))
  }

  // ---------------------------------------------------------------
  // The filter line of the report
  // ---------------------------------------------------------------

  const AllTeachers: string := "ทั้งหมด"
  const ProvinceLabel: string := "จังหวัด: "
  const RegionLabel: string := "ภูมิภาค: "
  const CohortLabel: string := "รุ่น: "
  const StatusLabel: string := "สถานะ: "

  /** The parts of `filterSummary`, province, region, cohort and status in that order. */
  function FilterParts(f: Filters): seq<string> {
    (if Given(f.province) then [ProvinceLabel + f.province.value] else []) +
    (if Given(f.region) then [RegionLabel + f.region.value] else []) +
    (if GivenInt(f.cohort) then [CohortLabel + IntToString(f.cohort.value)] else []) +
    (if Given(f.status) then [StatusLabel + f.status.value] else [])
  }

  function FilterText(f: Filters): string {
    var parts := FilterParts(f);
    if |parts| > 0 then Join(parts, " | ") else AllTeachers
  }

  lemma JoinHead(parts: seq<string>, sep: string)
    requires parts != [] && parts[0] != ""
    ensures Join(parts, sep) != "" && Join(parts, sep)[0] == parts[0][0]
  {
  }

  /** The filter line reads "all" exactly when none of the four printed filters is given; a school
      filter alone is not printed. */
  lemma FilterTextAll(f: Filters)
    ensures FilterText(f) == AllTeachers <==>
      !Given(f.province) && !Given(f.region) && !GivenInt(f.cohort) && !Given(f.status)
  {
    var parts := FilterParts(f);
    if parts != [] {
      assert parts[0][0] in {'จ', 'ภ', 'ร', 'ส'};
      JoinHead(parts, " | ");
      assert AllTeachers[0] == 'ท';
    }
  }
}

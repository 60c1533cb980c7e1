/** Teachers' self-assessments: the DRAFT → SUBMITTED → REVIEWED state
    machine with its ownership checks, and the links from portfolio items
    to the assessment they support. */
module SelfAssessment {
  import opened Common

  datatype AssessmentStatus = Draft | Submitted | Reviewed {
    /** Position in the workflow. */
    function Rank(): nat {
      match this
      case Draft => 0
      case Submitted => 1
      case Reviewed => 2
    }
  }

  /** The four competency scores. */
  datatype Scores = Scores(pedagogy: int, classroom: int, community: int, professionalism: int)

  /** What the teacher writes: period, scores, overall level and the free-text
      fields (reflections, strengths, areas for improvement, action plan) by name. */
  datatype Content = Content(assessmentPeriod: string, scores: Scores, overallLevel: string, texts: map<string, string>)

  /** An update request; absent fields are left as stored. */
  datatype ContentPatch = ContentPatch(
    assessmentPeriod: Option<string>, pedagogyScore: Option<int>, classroomScore: Option<int>,
    communityScore: Option<int>, professionalismScore: Option<int>, overallLevel: Option<string>,
    texts: map<string, string>)

  datatype Assessment = Assessment(
    teacherId: string,
    content: Content,
    status: AssessmentStatus,
    submittedAt: Option<int>,
    reviewedBy: Option<string>,
    reviewedAt: Option<int>,
    reviewerComments: Option<string>)

  /** A portfolio item as far as the links are concerned. */
  datatype PortfolioItem = PortfolioItem(teacherId: string, selfAssessmentId: Option<string>)

  datatype AssessmentError = NotFound | NotOwner | NotAllowedInStatus

  function OrKeep<T>(patch: Option<T>, current: T): T {
    if patch.Some? then patch.value else current
  }

  function PatchedContent(c: Content, p: ContentPatch): (r: Content)
    ensures p.texts.Keys <= r.texts.Keys && c.texts.Keys <= r.texts.Keys
    ensures forall k :: k in p.texts ==> r.texts[k] == p.texts[k]
    ensures forall k :: k in c.texts && k !in p.texts ==> r.texts[k] == c.texts[k]
    ensures p.assessmentPeriod.None? ==> r.assessmentPeriod == c.assessmentPeriod
  {
    Content(OrKeep(p.assessmentPeriod, c.assessmentPeriod),
            Scores(OrKeep(p.pedagogyScore, c.scores.pedagogy), OrKeep(p.classroomScore, c.scores.classroom),
                   OrKeep(p.communityScore, c.scores.community),
                   OrKeep(p.professionalismScore, c.scores.professionalism)),
            OrKeep(p.overallLevel, c.overallLevel),
            c.texts + p.texts)
  }

  /** `updateMany({ where: { id in ids, teacherId }, data: { selfAssessmentId } })`. */
  function Linked(items: map<string, PortfolioItem>, ids: seq<string>, teacherId: string, assessmentId: string)
    : (r: map<string, PortfolioItem>)
    ensures r.Keys == items.Keys
    ensures forall k :: k in r ==> r[k] == items[k].(selfAssessmentId := r[k].selfAssessmentId)
    ensures forall k :: k in r ==> r[k].teacherId == items[k].teacherId
    ensures forall k :: k in r ==>
      r[k].selfAssessmentId == (if k in ids && items[k].teacherId == teacherId then Some(assessmentId)
                                else items[k].selfAssessmentId)
  {
    map k | k in items :: if k in ids && items[k].teacherId == teacherId
                          then items[k].(selfAssessmentId := Some(assessmentId)) else items[k]
  }

  /** `updateMany({ where: { selfAssessmentId }, data: { selfAssessmentId: null } })`. */
  function Unlinked(items: map<string, PortfolioItem>, assessmentId: string): (r: map<string, PortfolioItem>)
    ensures r.Keys == items.Keys
    ensures forall k :: k in r ==> r[k] == items[k].(selfAssessmentId := r[k].selfAssessmentId)
    ensures forall k :: k in r ==> r[k].teacherId == items[k].teacherId
    ensures forall k :: k in r ==>
      r[k].selfAssessmentId == (if items[k].selfAssessmentId == Some(assessmentId) then None
                                else items[k].selfAssessmentId)
  {
    map k | k in items :: if items[k].selfAssessmentId == Some(assessmentId)
                          then items[k].(selfAssessmentId := None) else items[k]
  }

  /** No assessment moved back in the workflow, and none of them changed owner. */
  predicate Forward(before: map<string, Assessment>, after: map<string, Assessment>) {
    forall id :: id in before && id in after ==>
      after[id].status.Rank() >= before[id].status.Rank() && after[id].teacherId == before[id].teacherId
  }

  class AssessmentBook {
    var assessments: map<string, Assessment>
    var portfolio: map<string, PortfolioItem>

    constructor (portfolio: map<string, PortfolioItem>)
      ensures assessments == map[] && this.portfolio == portfolio
    {
      assessments := map[];
      this.portfolio := portfolio;
    }

    /** `create`: a new DRAFT under a fresh id; the listed items of this teacher are linked to it. */
    method Create(id: string, teacherId: string, content: Content, portfolioItemIds: seq<string>)
      returns (a: Assessment)
      requires id !in assessments
      modifies this
      ensures a == Assessment(teacherId, content, Draft, None, None, None, None)
      ensures assessments == old(assessments)[id := a]
      ensures portfolio == Linked(old(portfolio), portfolioItemIds, teacherId, id)
      ensures Forward(old(assessments), assessments)
    {
      a := Assessment(teacherId, content, Draft, None, None, None, None);
      assessments := assessments[id := a];
      if |portfolioItemIds| > 0 {
        portfolio := Linked(portfolio, portfolioItemIds, teacherId, id);
      } else {
        assert Linked(portfolio, portfolioItemIds, teacherId, id) == portfolio;
      }
    }

    /** `update`: the owner may change a DRAFT or REVIEWED assessment (never its status); given
        a list of items, the old links are dropped and exactly the listed items of the owner relinked. */
    method Update(id: string, teacherId: string, patch: ContentPatch, portfolioItemIds: Option<seq<string>>)
      returns (r: Result<Assessment, AssessmentError>)
      modifies this
      ensures id !in old(assessments) ==> r == Err(NotFound)
      ensures id in old(assessments) && old(assessments)[id].teacherId != teacherId ==> r == Err(NotOwner)
      ensures (id in old(assessments) && old(assessments)[id].teacherId == teacherId &&
              old(assessments)[id].status == Submitted)
        ==> (r == Err(NotAllowedInStatus))
      ensures (id in old(assessments) && old(assessments)[id].teacherId == teacherId &&
              old(assessments)[id].status != Submitted)
        ==> r.Ok?
      ensures r.Err? ==> assessments == old(assessments) && portfolio == old(portfolio)
      ensures (r.Ok?)
        ==> (id in old(assessments) && old(assessments)[id].teacherId == teacherId &&
        old(assessments)[id].status != Submitted &&
        r.value == old(assessments)[id].(content := PatchedContent(old(assessments)[id].content, patch)) &&
        assessments == old(assessments)[id := r.value] &&
        r.value.status == old(assessments)[id].status)
      ensures r.Ok? && portfolioItemIds.None? ==> portfolio == old(portfolio)
      ensures (r.Ok? && portfolioItemIds.Some?)
        ==> (portfolio.Keys == old(portfolio).Keys &&
        forall k :: k in portfolio ==>
          (portfolio[k].selfAssessmentId == Some(id) <==>
           k in portfolioItemIds.value && portfolio[k].teacherId == teacherId))
      ensures r.Ok? && portfolioItemIds.Some? ==>
        portfolio == (if |portfolioItemIds.value| > 0
                      then Linked(Unlinked(old(portfolio), id), portfolioItemIds.value, teacherId, id)
                      else Unlinked(old(portfolio), id))
      ensures r.Ok? && portfolioItemIds.Some? ==>
        forall k ::
          (k in old(portfolio) && k !in portfolioItemIds.value && old(portfolio)[k].selfAssessmentId != Some(id))
          ==> portfolio[k] == old(portfolio)[k]
      ensures Forward(old(assessments), assessments)
    {
      if id !in assessments {
        return Err(NotFound);
      }
      var a := assessments[id];
      if a.teacherId != teacherId {
        return Err(NotOwner);
      }
      if a.status == Submitted {
        return Err(NotAllowedInStatus);
      }
      var u := a.(content := PatchedContent(a.content, patch));
      assessments := assessments[id := u];
      if portfolioItemIds.Some? {
        var ids := portfolioItemIds.value;
        portfolio := Unlinked(portfolio, id);
        if |ids| > 0 {
          portfolio := Linked(portfolio, ids, teacherId, id);
        }
      }
      r := Ok(u);
    }

    /** `submit`: the owner's DRAFT becomes SUBMITTED, stamped with the time. */
    method Submit(id: string, teacherId: string, now: int) returns (r: Result<Assessment, AssessmentError>)
      modifies this`assessments
      ensures id !in old(assessments) ==> r == Err(NotFound)
      ensures id in old(assessments) && old(assessments)[id].teacherId != teacherId ==> r == Err(NotOwner)
      ensures (id in old(assessments) && old(assessments)[id].teacherId == teacherId &&
              old(assessments)[id].status != Draft)
        ==> (r == Err(NotAllowedInStatus))
      ensures (id in old(assessments) && old(assessments)[id].teacherId == teacherId &&
              old(assessments)[id].status == Draft)
        ==> r.Ok?
      ensures r.Err? ==> assessments == old(assessments)
      ensures (r.Ok?)
        ==> (id in old(assessments) && old(assessments)[id].status == Draft &&
        r.value == old(assessments)[id].(status := Submitted, submittedAt := Some(now)) &&
        assessments == old(assessments)[id := r.value])
      ensures Forward(old(assessments), assessments)
    {
      if id !in assessments {
        return Err(NotFound);
      }
      var a := assessments[id];
      if a.teacherId != teacherId {
        return Err(NotOwner);
      }
      if a.status != Draft {
        return Err(NotAllowedInStatus);
      }
      var u := a.(status := Submitted, submittedAt := Some(now));
      assessments := assessments[id := u];
      r := Ok(u);
    }

    /** `review`: any reviewer may move a SUBMITTED assessment to REVIEWED, with comments. */
    method Review(id: string, reviewerId: string, comments: string, now: int)
      returns (r: Result<Assessment, AssessmentError>)
      modifies this`assessments
      ensures id !in old(assessments) ==> r == Err(NotFound)
      ensures id in old(assessments) && old(assessments)[id].status != Submitted ==> r == Err(NotAllowedInStatus)
      ensures id in old(assessments) && old(assessments)[id].status == Submitted ==> r.Ok?
      ensures r.Err? ==> assessments == old(assessments)
      ensures (r.Ok?)
        ==> (id in old(assessments) && old(assessments)[id].status == Submitted &&
        r.value == old(assessments)[id].(status := Reviewed, reviewedBy := Some(reviewerId),
                                         reviewedAt := Some(now), reviewerComments := Some(comments)) &&
        assessments == old(assessments)[id := r.value])
      ensures Forward(old(assessments), assessments)
    {
      if id !in assessments {
        return Err(NotFound);
      }
      var a := assessments[id];
      if a.status != Submitted {
        return Err(NotAllowedInStatus);
      }
      var u := a.(status := Reviewed, reviewedBy := Some(reviewerId), reviewedAt := Some(now),
                  reviewerComments := Some(comments));
      assessments := assessments[id := u];
      r := Ok(u);
    }

    /** `delete`: the owner may delete anything not yet REVIEWED; its items are unlinked first. */
    method Delete(id: string, teacherId: string) returns (r: Result<Assessment, AssessmentError>)
      modifies this
      ensures id !in old(assessments) ==> r == Err(NotFound)
      ensures id in old(assessments) && old(assessments)[id].teacherId != teacherId ==> r == Err(NotOwner)
      ensures (id in old(assessments) && old(assessments)[id].teacherId == teacherId &&
              old(assessments)[id].status == Reviewed)
        ==> (r == Err(NotAllowedInStatus))
      ensures (id in old(assessments) && old(assessments)[id].teacherId == teacherId &&
              old(assessments)[id].status != Reviewed)
        ==> r.Ok?
      ensures r.Err? ==> assessments == old(assessments) && portfolio == old(portfolio)
      ensures (r.Ok?)
        ==> (id in old(assessments) && r.value == old(assessments)[id] &&
        r.value.status != Reviewed &&
        assessments == old(assessments) - {id} && portfolio == Unlinked(old(portfolio), id))
      ensures r.Ok? ==> forall k :: k in portfolio ==> portfolio[k].selfAssessmentId != Some(id)
      ensures Forward(old(assessments), assessments)
    {
      if id !in assessments {
        return Err(NotFound);
      }
      var a := assessments[id];
      if a.teacherId != teacherId {
        return Err(NotOwner);
      }
      if a.status == Reviewed {
        return Err(NotAllowedInStatus);
      }
      portfolio := Unlinked(portfolio, id);
      assessments := assessments - {id};
      r := Ok(a);
    }
  }
}

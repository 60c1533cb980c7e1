# teachermon core, modelled in Dafny

teachermon supports assistant teachers in Thai schools through their two-year induction (the
W19/2568 assessment). Teachers collect evidence: uploaded files, video links, reflective journals,
mentoring visits, PLC activities and recordings of their lessons. The system scores that evidence
against a fixed configuration of weighted checks. It builds a development summary and a slide
deck from the scores, and it runs a media pipeline that transcribes lesson videos and samples
their frames. It also keeps budgets, self-assessments and PDPA (Thai Personal Data Protection Act)
consent records.

This project models the logic of that core. One Dafny module per source file:

- `IndicatorChecks` is the evidence-check configuration, kept as data: three domains, 27
  indicators, their checks and weights, and the slide templates of each round.
- `Completeness` scores indicators, domains, slides and the deck, and states the pass criteria
  of a round.
- `DevelopmentSummary` groups the evidence per indicator, builds the domain summaries,
  aggregates the AI insights and writes the narrative.
- `DeckGenerator` builds the slide deck.
- The media pipeline shares one store, `MediaStore`: the job table, the per-user quota table,
  the two queues and the per-job files. Four components work on it:
  - `VideoAnalysis`, the API service;
  - `AsrWorker`, the speech-recognition stage;
  - `VisionWorker`, the frame-sampling stage;
  - `MediaApi`, the prototype streaming upload endpoint.
  All four are classes whose methods update that store in place. Each method states the whole
  new state.
- `Budget`, `SelfAssessment`, `Pdpa`, `Journals`, `AiActivity` and `DataRetention` are state
  machines over their tables. Each is a class with `modifies` clauses.
- `PdpaExport` is the CSV export. `PdpaScanner` covers the sensitive-data report.
- `Readiness`, `EvidenceAi`, `JournalAi` and `MentoringAi` are the rule-based parts of the AI
  assistants.
- The remaining modules are the other services and web components:
  - `EvidenceService`, `IndicatorsService`, `Dashboard`, `Reports`, `Journals`;
  - `Sanitize`, `Uploads`, `Middleware`, `SharedUtils`, `UploadModal`;
  - `DetailModal`, `PortfolioItemCard`, `AiJobCard`, `JobStatusCard`.
- Shared helpers are in `Common`, `WebUrl` (string splitting and the parts of URL parsing the
  components use), `Tally` and `ThaiCalendar`.

Loops in the source are methods with loop invariants. Each is proved equal to a specification
function, and the properties are proved about that function. Objects and tables that the source
updates are classes whose fields are maps and sequences.

Some facts are proved about the code as written, and they matter to its users:

- From round 3 on, the pass criteria require 11 PRO, 3 SOC and 11 PER indicators at 60 or more.
  The configuration holds 10 PRO and 2 SOC indicators, so a teacher can never pass overall
  (`Completeness.LateRoundsNeverPass`).
- A portfolio tag "PER_1.10" counts as manual evidence for PER_1.1 but is not linked to it
  (`Completeness.PrefixTagCountsButDoesNotLink`).
- A domain mean of 79.5 is shown as 80 but has the status DRAFT
  (`Completeness.RoundedEightyCanBeDraft`).
- The API stores an uploaded `.mov` file as `raw/video.mov`, but the speech worker reads only
  `raw/video.mp4` (`AsrWorker.MovUploadNotRead`, `VisionWorker.MovUploadIsVideo`).
- The vision worker's post-extraction quota check can never fire (`VisionWorker.PostCheckNeverFires`).
- An owner without a quota row is never charged for frames
  (`VisionWorker.UnrecordedOwnerIsNeverCharged`).
- Both workers overwrite a job's `total_bytes` instead of adding to it
  (`AsrWorker.TotalBytesOverwritten`, `VisionWorker.TotalBytesOverwritten`).
- The vision worker sets the cover flag even when no frame was extracted
  (`VisionWorker.CoverFlagWithoutCover`).

Other behaviour of the code worth noting:

- Each stage overwrites a job's `total_bytes` with its own figure.
- Quota usage goes down when a job is deleted (`subtractQuotaUsage`).
- After frame sampling, a job's status returns to ASR_DONE. The API's analysis pass later moves
  it to ANALYZING and DONE.

## Model

| member | source | states |
|---|---|---|
| AiActivity.InsertOrdered | apps/api/src/ai/ai-activity.service.ts:53-88 | inserting into an ordered list keeps it ordered by creation time and adds exactly one element |
| AiActivity.SortByDate | apps/api/src/ai/ai-activity.service.ts:56-85 | the result is ordered by creation time (newest or oldest first) and is a permutation of the input |
| AiActivity.OrderedAll | apps/api/src/ai/ai-activity.service.ts:56-85 | in an ordered list every earlier element comes no later in the requested order than every later one |
| AiActivity.OfUser | apps/api/src/ai/ai-activity.service.ts:55 | a row is selected iff it belongs to the user |
| AiActivity.Unreviewed | apps/api/src/ai/ai-activity.service.ts:79-84 | a row is selected iff it is unreviewed and an ASSESSMENT_DRAFT or MENTORING_SUMMARY |
| AiActivity.UserActivitiesFacts | apps/api/src/ai/ai-activity.service.ts:53-59 | the history holds at most `limit` of the user's own activities, newest first, and no activity it leaves out is newer than one it lists |
| AiActivity.AllRouteMatchesOnlyAll | apps/api/src/ai/ai-admin.controller.ts:45-48 | the administrators' route lists only activities of a user whose id is "all", and nothing when there is none |
| AiActivity.PendingFacts | apps/api/src/ai/ai-activity.service.ts:77-88 | the queue holds at most `limit` unreviewed drafts and mentoring summaries, oldest first; none left out is older than one listed; with at most `limit` waiting, all are listed |
| AiActivity.ActivityLog.ReviewActivity | apps/api/src/ai/ai-activity.service.ts:93-109 | an unknown id fails and changes nothing; otherwise exactly that activity becomes reviewed with the decision, reviewer and time, and its notes are replaced only when notes are given (an absent field is left as stored) |
| AiActivity.ReviewedLeavesPending | apps/api/src/ai/ai-activity.service.ts:77-109 | a reviewed activity never appears in the pending queue |
| AiActivity.Kept | apps/api/src/ai/ai-activity.service.ts:164-169 | a row survives iff it is unreviewed or not older than the cutoff |
| AiActivity.KeptDistinct | apps/api/src/ai/ai-activity.service.ts:164-169 | deleting rows keeps the activity ids distinct |
| AiActivity.ActivityLog.CleanupOldActivities | apps/api/src/ai/ai-activity.service.ts:160-173 | exactly the reviewed activities older than the cutoff are deleted, and the count is the number removed |
| AiActivity.CleanupKeeps | apps/api/src/ai/ai-activity.service.ts:164-169 | an activity is kept iff it is unreviewed or newer than the cutoff |
| AiJobCard.ExtractYouTubeVideoId | apps/web/components/portfolio/ai-job-card.tsx:29-46 | empty input gives null; a share-link id is non-empty, holds no '?' or '/', and starts right after the first "youtu.be/"; any other id comes from a parsed link on a YouTube host |
| AiJobCard.ShareLinkVideoId | apps/web/components/portfolio/ai-job-card.tsx:33 | the share-link id holds no '?' or '/' and is read from right after the first "youtu.be/" |
| AiJobCard.ShareLinkId | apps/web/components/portfolio/ai-job-card.tsx:32-34 | "https://youtu.be/<id>" followed by nothing, a query or more path gives `<id>` |
| AiJobCard.IdBeforeStops | apps/web/components/portfolio/ai-job-card.tsx:33 | the id ends at the first '?' or '/' that follows it |
| AiJobCard.EmbedPathId | apps/web/components/portfolio/ai-job-card.tsx:36-38 | a parsed YouTube link with the path "/embed/<id>" gives `<id>` |
| AiJobCard.WatchQueryId | apps/web/components/portfolio/ai-job-card.tsx:39-41 | a parsed YouTube link without "/embed/" in its path gives the `v` query value, "" included, or null when there is none |
| AiJobCard.OtherLinksNoId | apps/web/components/portfolio/ai-job-card.tsx:35-45 | a link that cannot be parsed, or one for another host, gives null |
| AiJobCard.ShareLinkAgrees | apps/web/components/portfolio/ai-job-card.tsx:33 | on a share link the job card's id is the detail view's id cut at its first '/', and the two are equal exactly when that id has no '/' |
| AsrWorker.Centis | upgrade/asr-worker/worker/run.py:127-128 | a time rounded to two decimals lies within half a centisecond of the recognised time |
| AsrWorker.Shape | upgrade/asr-worker/worker/run.py:126-130 | a stored segment has the recognised text stripped and both times rounded to two decimals |
| AsrWorker.ShapeSegments | upgrade/asr-worker/worker/run.py:124-130 | the transcribe loop yields exactly one shaped segment per recognised segment, in order |
| AsrWorker.ShapeAll | upgrade/asr-worker/worker/run.py:124-130 | the shaped list has one entry per recognised segment, each its shaped form |
| AsrWorker.TwoDecimalsReadBack | upgrade/asr-worker/worker/run.py:150 | a time printed with two decimals reads back as the same number of centiseconds |
| AsrWorker.RenderTxt | upgrade/asr-worker/worker/run.py:148-150 | the text file is one "[start-end] text" line per segment, in order |
| AsrWorker.SrtTimeReadBack | upgrade/asr-worker/worker/run.py:155-167 | a SubRip timing has two-digit minutes and seconds below 60, three millisecond digits and at least two hour digits, and its fields add back to the segment time |
| AsrWorker.SrtFieldsReadBack | upgrade/asr-worker/worker/run.py:165-167 | a timing assembled as h:mm:ss,mmm reads back field by field from its end |
| AsrWorker.SrtTimeArithmetic | upgrade/asr-worker/worker/run.py:155-158 | hours, minutes, seconds and milliseconds computed by the worker's divisions recombine into the time |
| AsrWorker.RenderSrt | upgrade/asr-worker/worker/run.py:153-169 | the SubRip file is one numbered block per segment, numbered from 1 |
| AsrWorker.ArtifactsAgree | upgrade/asr-worker/worker/run.py:139-169 | the k-th segment is the k-th text line and the SubRip block numbered k+1, so the artifacts list the same segments in the same order |
| AsrWorker.ModeOf | upgrade/asr-worker/worker/run.py:192 | a message without an analysis mode is treated as TEXT_ONLY, otherwise its mode is used |
| AsrWorker.AsrFinalRowFields | upgrade/asr-worker/worker/run.py:205-254 | the row ends ASR_DONE exactly when audio extraction and recognition both succeed, else FAILED with code ASR_GPU_ERROR and "ASR failed: " and 500 characters of the error; the start time is always set, the audio size becomes audio and total bytes, and owner, mode and raw bytes are kept |
| AsrWorker.StatusIgnoresPredecessor | upgrade/asr-worker/worker/run.py:205-208 | the outcome does not depend on the row's previous status, so a job queued twice is processed again |
| AsrWorker.TotalBytesOverwritten | upgrade/asr-worker/worker/run.py:214-217 | the job's total bytes become the audio size, dropping the raw video's bytes rather than adding to them |
| AsrWorker.FailureMessageBounded | upgrade/asr-worker/worker/run.py:251-254 | a failure message is "ASR failed: " followed by at most 500 characters |
| AsrWorker.MovUploadNotRead | upgrade/asr-worker/worker/run.py:197 | a ".mov" upload is stored as video.mov, which is not the raw/video.mp4 file the worker extracts audio from |
| AsrWorker.RemoveDirsSpec | upgrade/asr-worker/worker/run.py:172-177 | removing the listed directories drops exactly the job's files under them and keeps every other file |
| AsrWorker.SuccessFiles | upgrade/asr-worker/worker/run.py:210-233 | after a success the job has its audio and the three transcript files holding the shaped segments, and no other job's files change |
| AsrWorker.FailureFiles | upgrade/asr-worker/worker/run.py:243-254 | after a failure the job has no audio or frame files, no artifact was written, and no other job's files change |
| AsrWorker.Worker.WriteArtifacts | upgrade/asr-worker/worker/run.py:139-169 | the JSON, text and SubRip transcripts of the segments are written in the artifacts directory |
| AsrWorker.Worker.CleanupOnFailure | upgrade/asr-worker/worker/run.py:172-177 | the audio and then the frames directory of the job are removed with their files |
| AsrWorker.Worker.Fail | upgrade/asr-worker/worker/run.py:243-254 | the except branch cleans up the job's audio and frames and then writes the FAILED row |
| AsrWorker.Worker.Process | upgrade/asr-worker/worker/run.py:189-254 | one message leaves the job table, files and directories as the outcome functions say, and pushes the job on queue:frames exactly when it succeeded in FULL mode |
| AsrWorker.Worker.Transcribe | upgrade/asr-worker/worker/run.py:213-254 | after extraction the audio size is recorded, then either the artifacts and ASR_DONE are written (and FULL jobs queued for frames) or the cleanup and FAILED row |
| AsrWorker.Worker.HandleNext | upgrade/asr-worker/worker/run.py:184-192 | an empty queue changes nothing; otherwise the head message is removed from queue:jobs and processed |
| Budget.Created | apps/api/src/budget/budget.service.ts:159-173 | the inserted row is PENDING, created by the caller, with no approver, approval time or rejection reason |
| Budget.Patched | apps/api/src/budget/budget.service.ts:187-193 | an update changes only the supplied fields; status, budget, creator and approval stamp are kept |
| Budget.Decided | apps/api/src/budget/budget.service.ts:230-237 | the decision sets the chosen status (never PENDING), approver and time; the reason is kept only for REJECTED |
| Budget.BudgetBook.CreateTransaction | apps/api/src/budget/budget.service.ts:152-178 | a missing budget gives NotFound with the table unchanged; otherwise exactly one new PENDING row is added |
| Budget.BudgetBook.UpdateTransaction | apps/api/src/budget/budget.service.ts:180-202 | NotFound for an unknown id, Forbidden unless PENDING (table unchanged); otherwise only that row is patched |
| Budget.BudgetBook.RemoveTransaction | apps/api/src/budget/budget.service.ts:204-212 | NotFound / Forbidden as for update; a PENDING row is the only row removed |
| Budget.BudgetBook.ApproveTransaction | apps/api/src/budget/budget.service.ts:218-242 | only a PENDING row is decided; every call keeps decided rows untouched and never moves a row back to PENDING |
| Budget.RespectsTransitive | apps/api/src/budget/budget.service.ts:180-242 | over any sequence of calls, APPROVED and REJECTED rows stay final |
| Budget.SummaryOf | apps/api/src/budget/budget.service.ts:61-102 | totalRemaining = max(0, allocated − used), never above allocated; counts bounded by the rows |
| Budget.UsedCountsApprovedActive | apps/api/src/budget/budget.service.ts:72-80 | totalUsed grows by a row's amount iff it is APPROVED and its budget active, else is unchanged |
| Budget.ApprovalMovesAmount | apps/api/src/budget/budget.service.ts:72-92 | approving a pending row of an active budget moves its amount from totalPending to totalUsed and lowers pendingCount by one |
| Budget.Paginate | apps/api/src/budget/budget.service.ts:108-111 | page defaults to 1, limit to 20 and is capped at 100, skip = (page − 1)·limit, totalPages = ⌈total/limit⌉ |
| Budget.JsCeilDiv | apps/api/src/budget/budget.service.ts:138 | `Math.ceil(total / limit)`: for a positive limit, the least page count covering total |
| Budget.PageRows | apps/api/src/budget/budget.service.ts:123-136 | a page holds at most `limit` rows |
| Budget.RowOnItsPage | apps/api/src/budget/budget.service.ts:108-138 | every row of the ordered listing appears, at position i mod limit, on page ⌊i/limit⌋+1 ≤ totalPages |
| Budget.Percentage | apps/api/src/budget/budget.service.ts:277-279 | a rounded share in hundredths of a percent: 0 for an empty whole, at most 100% for a part of it, exactly 100% for the whole |
| Budget.ReportOf | apps/api/src/budget/budget.service.ts:248-324 | one share per category group; remaining = max(0, allocated − used); usagePercentage 0 when nothing is allocated and ≤100% when used ≤ allocated |
| Budget.ReportBreakdown | apps/api/src/budget/budget.service.ts:267-280 | totalUsed is the sum of the category totals; each share keeps its group's category, total and count, is ≤100%, and is 0 when nothing is approved |
| Budget.FormatMonthThaiOf | apps/api/src/budget/budget.service.ts:355-363 | `formatMonthThai("YYYY-MM")` is the Thai month name, a space and YYYY+543 |
| Budget.Shares | apps/api/src/budget/budget.service.ts:273-280 | one category share per approved category group |
| Completeness.InRoundRule | apps/api/src/indicators/completeness.service.ts:427-434 | from round 3 every indicator is evaluated; before it, exactly the ids that start with neither "SOC" nor "PER_2" |
| Completeness.FilterInRound | apps/api/src/indicators/completeness.service.ts:106-108 | keeping the indicators of the round never adds any |
| Completeness.FilterKeepsAllLate | apps/api/src/indicators/completeness.service.ts:106-108 | from round 3 the round filter keeps every indicator of a domain |
| Completeness.UnlistedAutoCheckFails | apps/api/src/indicators/completeness.service.ts:341-342 | an automatic check whose id the detector does not list never passes |
| Completeness.AutoChecksRelated | apps/api/src/indicators/completeness.service.ts:297-340 | active-learning signals imply a finished session, a finished session implies a linked session, an observation report implies a mentor visit, the reflection and post-teaching notes pass together, and a mentoring journal implies a reflection note |
| Completeness.ManualIgnoresCheck | apps/api/src/indicators/completeness.service.ts:348-389 | manual evidence holds exactly when a portfolio item carries a tag equal to or starting with the indicator id, or an assessment detail for the indicator passed; the checklist branch never changes the answer |
| Completeness.DoneJobIds | apps/api/src/indicators/completeness.service.ts:404-408 | the linked sessions are exactly the ids of the finished analysis jobs |
| Completeness.ExactlyTagged | apps/api/src/indicators/completeness.service.ts:411-416 | the linked files are exactly the portfolio items tagged with the indicator id itself |
| Completeness.JournalIds | apps/api/src/indicators/completeness.service.ts:419 | every journal is linked, in order |
| Completeness.PrefixTagCountsButDoesNotLink | apps/api/src/indicators/completeness.service.ts:354-359 | an item tagged "PER_1.10" counts as manual evidence for PER_1.1 but is not linked as one of its files |
| Completeness.CheckResults | apps/api/src/indicators/completeness.service.ts:227-240 | one check result per configured check |
| Completeness.CheckResultsAt | apps/api/src/indicators/completeness.service.ts:227-240 | the k-th result is the k-th check's id, label, weight, verdict and score (its weight when passed, else 0) |
| Completeness.EvaluateStep | apps/api/src/indicators/completeness.service.ts:227-251 | one more check appends its result, sets its breakdown entry, adds its label to the missing list when it failed and adds its linked evidence when it passed |
| Completeness.EvaluateIndicator | apps/api/src/indicators/completeness.service.ts:215-269 | the loop over the checks yields the reference evaluation of the indicator |
| Completeness.ScoreIsPassedWeight | apps/api/src/indicators/completeness.service.ts:253 | the indicator's score is the sum of the weights of its passed checks |
| Completeness.WeightSumSnoc | apps/api/src/indicators/completeness.service.ts:253 | the total weight grows by the weight of an appended check |
| Completeness.WeightSumLast | apps/api/src/indicators/completeness.service.ts:253 | the total weight is that of all but the last check plus the last one's |
| Completeness.PassedWeightBounded | apps/api/src/indicators/completeness.service.ts:228-253 | an indicator never scores more than the sum of its weights |
| Completeness.NothingMissingIffFullScore | apps/api/src/indicators/completeness.service.ts:228-253 | with positive weights, no label is missing exactly when every weight is earned |
| Completeness.ManualChecksAllOrNothing | apps/api/src/indicators/completeness.service.ts:274-288 | an indicator whose checks are all manual earns all its weight or none, according to its manual evidence |
| Completeness.ManualIndicatorZeroOrHundred | apps/api/src/indicators/completeness.service.ts:253-258 | a manual-only indicator whose weights sum to 100 scores 0 or 100 |
| Completeness.BreakdownCoversChecks | apps/api/src/indicators/completeness.service.ts:236 | with distinct check ids, the breakdown maps every check id to its score and holds nothing else |
| Completeness.EvaluateAll | apps/api/src/indicators/completeness.service.ts:104-114 | one result per evaluated indicator |
| Completeness.EvaluateAllAt | apps/api/src/indicators/completeness.service.ts:104-114 | the k-th result is the evaluation of the k-th indicator |
| Completeness.EvaluateAllOne | apps/api/src/indicators/completeness.service.ts:104-114 | one indicator gives its own evaluation |
| Completeness.EvaluateAllAppend | apps/api/src/indicators/completeness.service.ts:104-114 | evaluating two lists one after the other gives the two results concatenated |
| Completeness.FilterInRoundStep | apps/api/src/indicators/completeness.service.ts:106-108 | one more indicator is kept exactly when it is in the round |
| Completeness.EvaluateDomainItems | apps/api/src/indicators/completeness.service.ts:105-113 | the loop over a domain evaluates exactly its indicators of the round, in order |
| Completeness.EvaluateDomainItem | apps/api/src/indicators/completeness.service.ts:105-113 | one pass of that loop extends the results by the next indicator when it is in the round |
| Completeness.EvaluateItems | apps/api/src/indicators/completeness.service.ts:101-114 | the item results are the evaluations of every domain's indicators of the round, in configuration order |
| Completeness.Lookup | apps/api/src/indicators/completeness.service.ts:121 | a looked-up result has the id asked for, and there is none exactly when no result has it |
| Completeness.LookupAll | apps/api/src/indicators/completeness.service.ts:119-122 | the looked-up results are results of the round, at most one per id |
| Completeness.CountPassed | apps/api/src/indicators/completeness.service.ts:129 | the passed count never exceeds the number of items |
| Completeness.StatusOfMeanThresholds | apps/api/src/indicators/completeness.service.ts:127-135 | the status of a mean is READY from 80, DRAFT from 50 and INSUFFICIENT below, decided on the exact mean |
| Completeness.MeanAtLeast | apps/api/src/indicators/completeness.service.ts:127-135 | the truncated mean reaches a whole threshold exactly when the exact mean does |
| Completeness.RoundedEightyCanBeDraft | apps/api/src/indicators/completeness.service.ts:134-135 | a mean of 79.5 is shown as 80 but has the status DRAFT |
| Completeness.ScoreDomains | apps/api/src/indicators/completeness.service.ts:117-139 | the loop over the domains yields the reference domain entries |
| Completeness.DomainResultsWellFormed | apps/api/src/indicators/completeness.service.ts:117-139 | at most one entry per domain; each has at least one item and no more passed items than items |
| Completeness.SocialSkippedEarly | apps/api/src/indicators/completeness.service.ts:123 | in rounds 1 and 2 the SOCIAL domain has no item of the round, so it is not reported |
| Completeness.SlideEntries | apps/api/src/indicators/completeness.service.ts:143-170 | one entry per slide of the round, each built from its own template |
| Completeness.ScoredCount | apps/api/src/indicators/completeness.service.ts:173 | no more scored slides than slides |
| Completeness.BackfillSlides | apps/api/src/indicators/completeness.service.ts:183-188 | every indicator-less slide takes the deck score and its status; the other slides are unchanged |
| Completeness.BackfillKeepsDeckScore | apps/api/src/indicators/completeness.service.ts:173-188 | back-filling leaves the scored slides, and so the deck score, as they were |
| Completeness.CountPassing | apps/api/src/indicators/completeness.service.ts:443-456 | the passed count of a domain never exceeds the number of items |
| Completeness.MakeCriterion | apps/api/src/indicators/completeness.service.ts:461-465 | a criterion passes exactly when its actual count reaches its requirement |
| Completeness.EvaluatePassCriteria | apps/api/src/indicators/completeness.service.ts:439-507 | the social criterion is absent exactly in rounds up to 2; overall passes exactly when every present criterion passes; actual counts are the passed PRO_, PER_ and SOC_ items |
| Completeness.PrefixCountAppend | apps/api/src/indicators/completeness.service.ts:443-452 | counting prefixed indicators distributes over concatenation |
| Completeness.PassingAtMostPrefixed | apps/api/src/indicators/completeness.service.ts:443-456 | the passed items of a prefix never outnumber the indicators carrying it |
| Completeness.SocialPrefixCount | packages/shared/src/constants/indicator-checks.ts:198-221 | the configuration holds exactly two SOC_ indicators |
| Completeness.SocialIsSocial | packages/shared/src/constants/indicator-checks.ts:198-221 | both SOCIAL indicators carry the SOC_ prefix |
| Completeness.ProfessionalNotSocial | packages/shared/src/constants/indicator-checks.ts:90-193 | no PROFESSIONAL indicator carries the SOC_ prefix |
| Completeness.PersonalNotSocial | packages/shared/src/constants/indicator-checks.ts:226-355 | no PERSONAL indicator carries the SOC_ prefix |
| Completeness.NoPrefixWhenFirstCharDiffers | apps/api/src/indicators/completeness.service.ts:443-452 | indicators whose ids start with another letter than the prefix are never counted for it |
| Completeness.LateRoundsNeverPass | apps/api/src/indicators/completeness.service.ts:477-504 | from round 3, with 3 SOC_ items required and only 2 configured, the overall criterion never passes, whatever the evidence |
| Completeness.LateRoundItems | apps/api/src/indicators/completeness.service.ts:104-114 | from round 3 the evaluated indicators are all configured ones, in order |
| Completeness.InRoundItemsThree | apps/api/src/indicators/completeness.service.ts:104-114 | the evaluated indicators of three domains are each domain's indicators of the round, concatenated |
| Completeness.CalculateCompleteness | apps/api/src/indicators/completeness.service.ts:86-212 | an unknown teacher is an error; otherwise the report holds the evaluated items, the domain entries, the back-filled slides, the deck score with its status and the pass criteria of the round |
| Dashboard.TeachersByRegion | apps/api/src/dashboard/dashboard.service.ts:73-77 | the regions appear once each in first-seen order, every teacher's region is present, and each region's count is the number of teachers in it |
| Dashboard.RegionCountsAddUp | apps/api/src/dashboard/dashboard.service.ts:73-77 | the region counts add up to the number of teachers |
| Dashboard.TeachersByStatus | apps/api/src/dashboard/dashboard.service.ts:31-92 | the map holds exactly the statuses of the grouped rows, and each status maps to the count of the last row for it |
| Dashboard.StatusCountsDistinct | apps/api/src/dashboard/dashboard.service.ts:31-92 | when the grouped statuses are distinct, every row is the last for its status, so every status maps to its own count |
| Dashboard.SixMonthsAgo | apps/api/src/dashboard/dashboard.service.ts:124-125 | the cutoff is a valid calendar date |
| Dashboard.SixMonthsAgoPosition | apps/api/src/dashboard/dashboard.service.ts:124-125 | the cutoff is the same day six months earlier, or, when that month is too short, one of the first three days of the following month, before the current day of month |
| Dashboard.CountedSnoc | apps/api/src/dashboard/dashboard.service.ts:163-179 | one more month key creates its bucket on first sight, appends the month to the order and raises exactly that kind's count by one |
| Dashboard.CountInto | apps/api/src/dashboard/dashboard.service.ts:163-179 | after one loop the buckets are exactly the months seen so far, in first-seen order, each counting the entries of each kind |
| Dashboard.BucketMonths | apps/api/src/dashboard/dashboard.service.ts:160-179 | after the three loops each month's bucket counts the visits, journals and PLC activities with that month key |
| Dashboard.Insert | apps/api/src/dashboard/dashboard.service.ts:181-182 | inserting a month into a sorted list keeps it sorted and adds exactly that month |
| Dashboard.SortKeys | apps/api/src/dashboard/dashboard.service.ts:181-182 | the months come out in ascending code-unit order and are a permutation of the input |
| Dashboard.SortKeysDistinct | apps/api/src/dashboard/dashboard.service.ts:181-182 | sorting distinct months keeps them distinct |
| Dashboard.TrendFacts | apps/api/src/dashboard/dashboard.service.ts:160-182 | the sorted months are exactly the months of the three lists, and each one's bucket holds its visit, journal and PLC counts |
| Dashboard.RowsFacts | apps/api/src/dashboard/dashboard.service.ts:181-186 | the mapped rows carry the months in order with their three counts |
| Dashboard.GetMonthlyTrends | apps/api/src/dashboard/dashboard.service.ts:122-186 | one row per month mentioned by a visit or PLC date on or after the cutoff or by a journal created on or after it; rows ascend by month with no month twice, and each row counts that month's visits, journals and PLC activities, zero for a kind without any |
| Dashboard.TrendTotals | apps/api/src/dashboard/dashboard.service.ts:160-186 | every fetched record lands in exactly one row: the visit, journal and PLC counts add up to the numbers of fetched records |
| DataRetention.RetentionDays | apps/api/src/pdpa/data-retention.service.ts:21-28 | every retention period is a whole number of 365-day years, at least one: 5 for journals and evidence, 3 for audit logs, 1 for AI activity, 7 for assessments |
| DataRetention.Remaining | apps/api/src/pdpa/data-retention.service.ts:51-103 | a row survives a purge exactly when it is not older than the cutoff or, for AI activity, not reviewed |
| DataRetention.RemainingCount | apps/api/src/pdpa/data-retention.service.ts:52-57 | the count a delete reports is the number of rows it removed |
| DataRetention.CountMonotone | apps/api/src/pdpa/data-retention.service.ts:132-194 | a later cutoff never selects fewer rows |
| DataRetention.WarningAfterCutoff | apps/api/src/pdpa/data-retention.service.ts:132-138 | the warning cutoff lies 30 days after the deletion cutoff |
| DataRetention.ExpiringCoversDeleted | apps/api/src/pdpa/data-retention.service.ts:51-194 | in every table, the expiring count is at least the number of rows a cleanup at the same moment deletes |
| DataRetention.RetentionStore.DeleteMany | apps/api/src/pdpa/data-retention.service.ts:52-57 | one table loses exactly its selected rows, the others are untouched, and the count is the number removed |
| DataRetention.RetentionStore.CleanupExpiredData | apps/api/src/pdpa/data-retention.service.ts:37-113 | each table keeps exactly its rows within retention; the per-table results are the counts of expired rows, and the total is their sum and the number of rows removed overall |
| DataRetention.RetentionStore.CheckExpiringData | apps/api/src/pdpa/data-retention.service.ts:123-196 | the warnings are the per-table counts at the warning cutoffs, and nothing is deleted |
| DataRetention.RetentionStore.ManualCleanup | apps/api/src/pdpa/data-retention.service.ts:269-280 | a dry run leaves every table as it was and reports the expiring counts; otherwise the cleanup runs |
| DataRetention.SurvivesCleanup | apps/api/src/pdpa/data-retention.service.ts:51-103 | a row is kept by the cleanup iff it is newer than its table's cutoff or an unreviewed AI activity |
| DataRetention.UnreviewedActivityKept | apps/api/src/pdpa/data-retention.service.ts:85-90 | an unreviewed AI activity is never deleted, however old |
| DataRetention.DryRunBoundsCleanup | apps/api/src/pdpa/data-retention.service.ts:269-277 | the total a dry run reports is at least the total a real cleanup at the same moment deletes |
| DeckGenerator.StatusDisplayFaithful | apps/api/src/indicators/deck-generator.service.ts:226-241 | the three statuses get three distinct labels and three distinct emojis, and any other status string is shown as INSUFFICIENT |
| DeckGenerator.Insert | apps/api/src/indicators/deck-generator.service.ts:124-126 | inserting into a list sorted by id keeps it sorted and adds exactly the one item |
| DeckGenerator.SortById | apps/api/src/indicators/deck-generator.service.ts:124-126 | the sorted list is ordered by id and is a permutation of the input |
| DeckGenerator.WithPrefix | apps/api/src/indicators/deck-generator.service.ts:158-178 | exactly the items whose id carries the prefix are kept |
| DeckGenerator.ProItems | apps/api/src/indicators/deck-generator.service.ts:124-126 | the professional items are exactly the PRO_ items, sorted by id, each once |
| DeckGenerator.DomainById | apps/api/src/indicators/deck-generator.service.ts:89-92 | a found domain has the id asked for, and none is found exactly when no domain has it |
| DeckGenerator.WithMissing | apps/api/src/indicators/deck-generator.service.ts:205-206 | exactly the items with at least one missing label are kept |
| DeckGenerator.Details | apps/api/src/indicators/deck-generator.service.ts:137-155 | one detail slide per professional item, in order |
| DeckGenerator.BuildSlides | apps/api/src/indicators/deck-generator.service.ts:63-223 | the loop builds the reference list of slides |
| DeckGenerator.DetailsSnoc | apps/api/src/indicators/deck-generator.service.ts:137-155 | one more professional item appends its own detail slide |
| DeckGenerator.PushEnding | apps/api/src/indicators/deck-generator.service.ts:157-221 | the slides after the details are the social, discipline, self-development and summary slides of the reference deck |
| DeckGenerator.TableRows | apps/api/src/indicators/deck-generator.service.ts:134 | one table row per professional item |
| DeckGenerator.CheckLines | apps/api/src/indicators/deck-generator.service.ts:138-141 | the k-th checklist line shows the k-th check |
| DeckGenerator.MissingBullets | apps/api/src/indicators/deck-generator.service.ts:143-144 | the k-th bullet shows the k-th missing label |
| DeckGenerator.BareCheckLines | apps/api/src/indicators/deck-generator.service.ts:166-169 | one line per check |
| DeckGenerator.CheckBlocks | apps/api/src/indicators/deck-generator.service.ts:162-171 | one block per item |
| DeckGenerator.DisciplineLines | apps/api/src/indicators/deck-generator.service.ts:183 | the k-th discipline line shows the k-th PER_1 item |
| DeckGenerator.MissingEntries | apps/api/src/indicators/deck-generator.service.ts:207 | the k-th summary entry shows the k-th item with something missing |
| DeckGenerator.RenderAll | apps/api/src/indicators/deck-generator.service.ts:63-223 | one rendered block per slide |
| DeckGenerator.BuildSlidesMarkdown | apps/api/src/indicators/deck-generator.service.ts:63-223 | the deck text is the rendered slides joined with newlines |
| DeckGenerator.EndingHasNoDetail | apps/api/src/indicators/deck-generator.service.ts:157-221 | no slide after the details is a detail slide |
| DeckGenerator.DetailSlidesPerProItem | apps/api/src/indicators/deck-generator.service.ts:121-155 | slide 3 + k is the detail slide of the k-th professional item |
| DeckGenerator.DetailSlidesOnlyThere | apps/api/src/indicators/deck-generator.service.ts:63-221 | detail slides appear nowhere else |
| DeckGenerator.OpeningAndDetailsKinds | apps/api/src/indicators/deck-generator.service.ts:63-155 | the deck opens with the cover, the overview, the professional table and the detail slides |
| DeckGenerator.EndingSocial | apps/api/src/indicators/deck-generator.service.ts:158-173 | the slides after the details include the social slide exactly from round 3 when a SOCIAL domain is reported |
| DeckGenerator.SocialSlideAppears | apps/api/src/indicators/deck-generator.service.ts:158-173 | the deck has a social slide exactly from round 3 when a SOCIAL domain is reported |
| DeckGenerator.EndingDevelopment | apps/api/src/indicators/deck-generator.service.ts:187-202 | the slides after the details include the self-development slide exactly from round 3 |
| DeckGenerator.DevelopmentSlideAppears | apps/api/src/indicators/deck-generator.service.ts:187-202 | the deck has a self-development slide exactly from round 3 |
| DeckGenerator.DetailContents | apps/api/src/indicators/deck-generator.service.ts:138-145 | each check line is ticked exactly when the check passed; the detail says complete exactly when nothing is missing, and otherwise lists every missing label |
| DeckGenerator.DisciplineTicks | apps/api/src/indicators/deck-generator.service.ts:183 | a discipline line is ticked exactly when the score is at least 60 |
| DeckGenerator.NoneMissing | apps/api/src/indicators/deck-generator.service.ts:205-206 | no item is listed as missing something exactly when no item misses anything |
| DeckGenerator.SummaryIsLast | apps/api/src/indicators/deck-generator.service.ts:204-221 | the last slide is the summary of the first 8 items with something missing |
| DeckGenerator.SummaryBodyEmpty | apps/api/src/indicators/deck-generator.service.ts:216 | the summary says nothing is missing exactly when there is no entry |
| DeckGenerator.SummaryItems | apps/api/src/indicators/deck-generator.service.ts:205-208 | the summary lists at most 8 items, each with something missing and showing at most 2 labels |
| DeckGenerator.SummaryContents | apps/api/src/indicators/deck-generator.service.ts:204-221 | the summary's first line says nothing is missing exactly when no item misses anything |
| DeckGenerator.SocialZeroShownAsDash | apps/api/src/indicators/deck-generator.service.ts:91 | a reported SOCIAL score of 0 is shown as "-", like an unreported one |
| DetailModal.StripApiSuffix | apps/web/components/portfolio/detail-modal.tsx:31 | the origin is a prefix of the API base: a trailing "/api" or "/api/" is cut and nothing else |
| DetailModal.OriginOfApiUrl | apps/web/components/portfolio/detail-modal.tsx:30-31 | an API URL ending in "/api" or "/api/" gives its host part as the origin; without an API URL the origin stays "/api" |
| DetailModal.FileUrlCases | apps/web/components/portfolio/detail-modal.tsx:25-35 | an empty path gives "", an http or https link is kept, and any other path is linked under `<origin>/api/uploads/` |
| DetailModal.FirstAlternative | apps/web/components/portfolio/detail-modal.tsx:32 | a match of the case-insensitive alternation is a prefix of the text whose lower case is one of the alternatives |
| DetailModal.FirstAlternativeOfLower | apps/web/components/portfolio/detail-modal.tsx:32 | on lower-case text the case-insensitive alternation is the exact one |
| DetailModal.FirstPrefixSelf | apps/web/components/portfolio/detail-modal.tsx:32 | an alternative that no other alternative begins is matched whole |
| DetailModal.FirstPrefixAppend | apps/web/components/portfolio/detail-modal.tsx:32 | an alternation of two lists tries the second only when the first has no match |
| DetailModal.FirstPrefixOtherStart | apps/web/components/portfolio/detail-modal.tsx:32 | no alternative matches text starting with a character no alternative starts with |
| DetailModal.ExtensionMatch | apps/web/components/portfolio/detail-modal.tsx:32 | the extension matched is a prefix of the text after the dot and an upload extension; anchored at the end it is the whole text |
| DetailModal.LastSegment | apps/web/components/portfolio/detail-modal.tsx:33 | `split(c).pop()` holds no `c` and is no longer than the text |
| DetailModal.StandardNameAfterDir | apps/web/components/portfolio/detail-modal.tsx:32 | after a folder path without dots, the leftmost match is the 36-character id, the dot and the extension matched |
| DetailModal.RelativeLink | apps/web/components/portfolio/detail-modal.tsx:26-34 | a relative path is linked into the uploads route under the name the pattern finds |
| DetailModal.FileUrlOfStandardName | apps/web/components/portfolio/detail-modal.tsx:32-34 | a stored name `<dir><id>.<ext>` is linked as `<origin>/api/uploads/<id>.<extension matched>` |
| DetailModal.FileUrlKeepsUnambiguousName | apps/web/components/portfolio/detail-modal.tsx:32-34 | as written, a stored name keeps its extension when no other upload extension begins it |
| DetailModal.DocxAlternative | apps/web/components/portfolio/detail-modal.tsx:32 | the alternation takes "doc" from "docx" |
| DetailModal.DocxLinkedAsDoc | apps/web/components/portfolio/detail-modal.tsx:32-34 | as written, `<id>.docx` is linked as `<id>.doc`, not as the stored name |
| DetailModal.FixedKeepsEveryExtension | apps/web/components/portfolio/detail-modal.tsx:32-34 | with the extension anchored at the end, every upload extension, in any case, is linked whole |
| DetailModal.PathExtension | apps/web/components/portfolio/detail-modal.tsx:40 | the extension read from the link is, in lower case, an upload extension, and the link ends in '.' and that extension |
| DetailModal.DisplayReadableName | apps/web/components/portfolio/detail-modal.tsx:37-45 | a name without mojibake is shown as it is; with no name at all the label is "ไฟล์" |
| DetailModal.DisplayGarbledName | apps/web/components/portfolio/detail-modal.tsx:39-43 | a garbled name with a link becomes "รูปภาพ" for a lower-case image extension, "ไฟล์." and the extension for other upload extensions, and "ไฟล์.ไฟล์" for none |
| DetailModal.GarbledWithoutLink | apps/web/components/portfolio/detail-modal.tsx:37-45 | a garbled name without a link is shown as it is |
| DetailModal.VideoLinkIsVideo | apps/web/components/portfolio/detail-modal.tsx:93 | a video link is a video whatever its other fields say |
| DetailModal.FileTypeOrder | apps/web/components/portfolio/detail-modal.tsx:96-109 | image is decided before PDF before video, each by MIME type or extension; "other" means none of them applies |
| DetailModal.LinkExtensionDecides | apps/web/components/portfolio/detail-modal.tsx:96-98 | an upload extension at the end of the link decides over the file name, in lower case |
| DetailModal.Between | apps/web/components/portfolio/detail-modal.tsx:56 | `split(sep)[1]?.split(stop)[0] \|\| ''` holds no `stop` |
| DetailModal.BetweenStart | apps/web/components/portfolio/detail-modal.tsx:56 | that text starts right after the first `sep` |
| DetailModal.BetweenAfter | apps/web/components/portfolio/detail-modal.tsx:56 | when `sep` occurs once, after text without its first character, the id is read from what follows `sep` up to the stop |
| DetailModal.EmbedOfEmpty | apps/web/components/portfolio/detail-modal.tsx:50 | an empty link has no player |
| DetailModal.EmbedOfYouTubeId | apps/web/components/portfolio/detail-modal.tsx:52-65 | a YouTube-looking link with an id plays that id on YouTube |
| DetailModal.EmbedForms | apps/web/components/portfolio/detail-modal.tsx:49-89 | the only players are YouTube, Vimeo and Drive, each with a non-empty id |
| DetailModal.ShareLinkEmbed | apps/web/components/portfolio/detail-modal.tsx:55-65 | a share link plays the text after the first "youtu.be/" up to a '?' |
| DetailModal.ShareLinkOfId | apps/web/components/portfolio/detail-modal.tsx:55-65 | "https://youtu.be/<id>" with or without a query plays `<id>` |
| DetailModal.EmbedLinkEmbed | apps/web/components/portfolio/detail-modal.tsx:60-65 | an embed link plays the text after the first "embed/" up to a '?' |
| DetailModal.DriveId | apps/web/components/portfolio/detail-modal.tsx:77-82 | the Drive id is the text after "/file/d/" up to a '/', else after "id=" up to a '&', else "" |
| DetailModal.DriveLinkEmbed | apps/web/components/portfolio/detail-modal.tsx:76-85 | a Drive link that is neither YouTube nor Vimeo previews its file id |
| DetailModal.UnknownLinkNoEmbed | apps/web/components/portfolio/detail-modal.tsx:88 | a link to none of the three services has no player |
| DevelopmentSummary.Picked | apps/api/src/indicators/development-summary.service.ts:297-329 | an indicator never gets more entries of a kind than there are portfolio items of that kind |
| DevelopmentSummary.Analyses | apps/api/src/indicators/development-summary.service.ts:332-349 | one analysis entry per finished job |
| DevelopmentSummary.PickPortfolios | apps/api/src/indicators/development-summary.service.ts:297-329 | the loop over the portfolio items yields exactly the reference file and video-link lists |
| DevelopmentSummary.CollectAnalyses | apps/api/src/indicators/development-summary.service.ts:333-348 | the loop over the jobs yields exactly the reference analysis list |
| DevelopmentSummary.EvidenceForIndicator | apps/api/src/indicators/development-summary.service.ts:292-361 | one indicator's evidence is the reference entry: its tagged files and video links, the finished analyses when relevant, and their total count |
| DevelopmentSummary.MapEvidenceToIndicators | apps/api/src/indicators/development-summary.service.ts:286-365 | one evidence entry per completeness item, in order, each the reference entry |
| DevelopmentSummary.PickedFromTagged | apps/api/src/indicators/development-summary.service.ts:297-310 | every picked entry comes from a portfolio item of that kind tagged with the indicator id or an extension of it |
| DevelopmentSummary.TaggedArePicked | apps/api/src/indicators/development-summary.service.ts:297-329 | every tagged portfolio item of a kind is picked |
| DevelopmentSummary.AnalysesFromDoneJobs | apps/api/src/indicators/development-summary.service.ts:333-348 | every analysis entry comes from a finished job |
| DevelopmentSummary.EntrySources | apps/api/src/indicators/development-summary.service.ts:292-361 | every file, video link and analysis of an entry has its source: a tagged item of the right kind, or a finished job for a relevant indicator |
| DevelopmentSummary.AnalysesAllOrNothing | apps/api/src/indicators/development-summary.service.ts:331-349 | a relevant indicator lists every finished analysis, any other none |
| DevelopmentSummary.RelevantIsTeaching | apps/api/src/indicators/development-summary.service.ts:370-382 | only ids starting with "PRO_1." are relevant to video analyses |
| DevelopmentSummary.RelevantExamples | apps/api/src/indicators/development-summary.service.ts:370-382 | PRO_1.3 is relevant, PRO_2.1 and SOC_1 are not |
| DevelopmentSummary.TypeCountsBounded | apps/api/src/indicators/development-summary.service.ts:162-167 | files and video links together never outnumber the portfolio items |
| DevelopmentSummary.DoneBounded | apps/api/src/indicators/development-summary.service.ts:168-170 | finished jobs never outnumber the jobs |
| DevelopmentSummary.EntryWithinTotals | apps/api/src/indicators/development-summary.service.ts:158-181 | an indicator's evidence count never exceeds the stored total, which never exceeds the portfolio items plus the jobs |
| DevelopmentSummary.IndicatorsOf | apps/api/src/indicators/development-summary.service.ts:394-401 | a domain's indicators are exactly the entries whose id carries the domain's prefix |
| DevelopmentSummary.CollectHighlights | apps/api/src/indicators/development-summary.service.ts:409-418 | the loop yields one highlight per analysis with a summary, in order |
| DevelopmentSummary.BuildDomainSummaries | apps/api/src/indicators/development-summary.service.ts:387-434 | one summary per reported domain, in order, each the reference summary |
| DevelopmentSummary.DomainsDisjoint | apps/api/src/indicators/development-summary.service.ts:395-399 | no indicator belongs to two domains |
| DevelopmentSummary.DomainTotalBounded | apps/api/src/indicators/development-summary.service.ts:403-406 | a domain's evidence total never exceeds the total over all indicators |
| DevelopmentSummary.TotalAppend | apps/api/src/indicators/development-summary.service.ts:403-406 | evidence totals add up over concatenation |
| DevelopmentSummary.DomainSummaryShape | apps/api/src/indicators/development-summary.service.ts:394-431 | at most 5 highlights; a domain other than the three known ones has no indicator and no evidence; the domain total never exceeds the overall total |
| DevelopmentSummary.Capped | apps/api/src/indicators/development-summary.service.ts:480-483 | the de-duplicated list holds at most 10 distinct entries, all from the input |
| DevelopmentSummary.AddJob | apps/api/src/indicators/development-summary.service.ts:447-477 | one job adds its strengths, improvements, active-learning signals and advice |
| DevelopmentSummary.AggregateAiInsights | apps/api/src/indicators/development-summary.service.ts:439-486 | the loop over the jobs yields the reference aggregate |
| DevelopmentSummary.RawIgnoresUnfinished | apps/api/src/indicators/development-summary.service.ts:447-448 | a job that is not finished adds nothing |
| DevelopmentSummary.ImprovementSource | apps/api/src/indicators/development-summary.service.ts:458-463 | each area for improvement comes from a finished job's weaknesses, or from its improvements when it has no weaknesses |
| DevelopmentSummary.RecommendationSource | apps/api/src/indicators/development-summary.service.ts:472-475 | each recommendation is the non-empty advice of a finished job |
| DevelopmentSummary.AggregateShape | apps/api/src/indicators/development-summary.service.ts:439-486 | each list holds at most 10 entries, improvements and recommendations without duplicates, and every recommendation is a finished job's advice |
| DevelopmentSummary.Bullets | apps/api/src/indicators/development-summary.service.ts:527-529 | one bullet line per entry |
| DevelopmentSummary.PushBullets | apps/api/src/indicators/development-summary.service.ts:527-529 | the loop appends one bullet line per entry |
| DevelopmentSummary.PushSection | apps/api/src/indicators/development-summary.service.ts:535-557 | a section appends its title, its first entries as bullets and a blank line, or nothing when empty |
| DevelopmentSummary.PushDomainBlock | apps/api/src/indicators/development-summary.service.ts:520-532 | a domain appends its heading, its pass line, its highlights and a blank line |
| DevelopmentSummary.PushNarrativeLines | apps/api/src/indicators/development-summary.service.ts:491-558 | the narrative's lines are the header, the overview, the domain blocks and the AI sections, in that order |
| DevelopmentSummary.PushDomainBlocks | apps/api/src/indicators/development-summary.service.ts:520-532 | the loop appends every domain's block in order |
| DevelopmentSummary.DomainBlocksSnoc | apps/api/src/indicators/development-summary.service.ts:520-532 | one more domain appends its own block |
| DevelopmentSummary.PushAiSections | apps/api/src/indicators/development-summary.service.ts:535-557 | the AI part is the strengths, improvements and recommendations sections |
| DevelopmentSummary.BuildNarrative | apps/api/src/indicators/development-summary.service.ts:491-560 | the narrative is its lines joined with newlines |
| DevelopmentSummary.BulletsAt | apps/api/src/indicators/development-summary.service.ts:527-529 | the k-th bullet is "- " followed by the k-th entry |
| DevelopmentSummary.SectionShape | apps/api/src/indicators/development-summary.service.ts:535-557 | a section is empty exactly when its list is; otherwise it holds the title, at most cap bullets of the first entries, in order, and a blank line |
| DevelopmentSummary.NarrativeCaps | apps/api/src/indicators/development-summary.service.ts:535-557 | the narrative shows at most 5 strengths, 5 improvements and 3 recommendations, and ends with the AI sections |
| DevelopmentSummary.GenerateSummary | apps/api/src/indicators/development-summary.service.ts:101-250 | an unknown teacher is an error; otherwise the summary carries the evidence counts with total = files + video links + finished jobs, the deck score and verdict, one summary per domain, the aggregated insights and the narrative |
| EvidenceAi.LastMatch | apps/api/src/ai/evidence-ai.service.ts:169-210 | the rule found is one that fires with no firing rule after it, and there is none exactly when no rule fires |
| EvidenceAi.ApplyRules | apps/api/src/ai/evidence-ai.service.ts:169-210 | the rule blocks in order append every firing rule's keywords and indicators and leave the type and summary of the last firing rule, or nothing |
| EvidenceAi.PushFound | apps/api/src/ai/evidence-ai.service.ts:212-226 | the subject and grade loops push exactly the listed words found in the name, in list order |
| EvidenceAi.AnalyzeWith | apps/api/src/ai/evidence-ai.service.ts:163-239 | the analysis of a name is the last firing rule's type and summary (OTHER and the default summary when none fires), the accumulated keywords then found subjects and grades, and the accumulated indicators |
| EvidenceAi.AnalyzeFromFilename | apps/api/src/ai/evidence-ai.service.ts:163-239 | the same, for the service's six rules, five subjects and nine grade codes |
| EvidenceAi.LastRuleWins | apps/api/src/ai/evidence-ai.service.ts:169-236 | with no firing rule the type is OTHER with the default summary; otherwise type and summary are those of the last firing rule |
| EvidenceAi.IndicatorsAccumulate | apps/api/src/ai/evidence-ai.service.ts:169-210 | every firing rule's indicators are in the result and every indicator in it comes from a firing rule |
| EvidenceAi.TypeShortName | apps/api/src/ai/evidence-ai.service.ts:269-281 | every type gets a non-empty short name, and an unknown type gets เอกสาร |
| EvidenceAi.RemoveFirstDot | apps/api/src/ai/evidence-ai.service.ts:251-258 | replacing "." removes exactly the first dot, and nothing when there is none |
| EvidenceAi.Find | apps/api/src/ai/evidence-ai.service.ts:248-251 | the word found is in the list and satisfies the test, and none is found only when no word does |
| EvidenceAi.NonEmpty | apps/api/src/ai/evidence-ai.service.ts:256-262 | filtering keeps exactly the non-empty parts |
| EvidenceAi.StandardFilenameShape | apps/api/src/ai/evidence-ai.service.ts:245-264 | the standard name ends in .pdf and starts with the indicator part and an underscore |
| EvidenceAi.IndicatorPartExamples | apps/api/src/ai/evidence-ai.service.ts:246-258 | no indicator gives WP1, and a first indicator WP.1 gives WP1 |
| EvidenceAi.PerformQualityCheck | apps/api/src/ai/evidence-ai.service.ts:285-314 | completeness is 60 plus 20 for three or more keywords plus 20 for any indicator, so 60, 80 or 100; no issues; one recommendation exactly for the three types that have one |
| EvidenceAi.Suggestions | apps/api/src/ai/evidence-ai.service.ts:319-334 | the suggestions hold every recommendation, start with the indicator hint when there is no indicator, have the expected count and end with the personal-data reminder |
| EvidenceAi.SummarizeEvidence | apps/api/src/ai/evidence-ai.service.ts:24-84 | without the provider enabled the call fails; otherwise the provider's analysis comes back with the standard filename, the quality check and suggestions ending in the reminder |
| EvidenceService.FirstType | apps/api/src/evidence/evidence.service.ts:251-264 | the first rule whose keyword occurs in the lower-cased name decides the type; OTHER when no rule fires |
| EvidenceService.DetermineEvidenceTypeCases | apps/api/src/evidence/evidence.service.ts:251-264 | a name matching no rule is OTHER; a lesson-plan keyword wins over every later rule |
| EvidenceService.TallyCodes | apps/api/src/evidence/evidence.service.ts:227-231 | after the inner loop each code's count is its number of occurrences so far and the keys are the codes in first-seen order |
| EvidenceService.CountIndicators | apps/api/src/evidence/evidence.service.ts:225-231 | the per-indicator counts are the occurrence counts over every item's codes, keyed in first-seen order |
| EvidenceService.GetStats | apps/api/src/evidence/evidence.service.ts:201-246 | total, verified, unverified = total - verified (never negative), counts by type, and one (code, occurrences) entry per distinct code |
| Tally.CountsAddUp | apps/api/src/evidence/evidence.service.ts:225-231 | the per-indicator counts add up to the total number of codes listed over all items |
| EvidenceService.DuplicateCodesCountTwice | apps/api/src/evidence/evidence.service.ts:227-230 | a code listed twice by one item is counted twice |
| EvidenceService.CountByType | apps/api/src/evidence/evidence.service.ts:213-240 | a type has an entry exactly when some item has that type |
| IndicatorChecks.GetCompletenessStatus | packages/shared/src/constants/indicator-checks.ts:62-66 | READY exactly from 80, DRAFT exactly from 50 to below 80, INSUFFICIENT exactly below 50 |
| IndicatorChecks.StatusMonotone | packages/shared/src/constants/indicator-checks.ts:62-66 | a higher score never gets a worse status |
| IndicatorChecks.ConfigWeightsSumTo100 | packages/shared/src/constants/indicator-checks.ts:84-357 | the check weights of every indicator of every domain add up to exactly 100 |
| IndicatorChecks.ProfessionalWeights | packages/shared/src/constants/indicator-checks.ts:90-193 | every professional indicator's check weights add up to 100 |
| IndicatorChecks.SocialWeights | packages/shared/src/constants/indicator-checks.ts:198-221 | every social indicator's check weights add up to 100 |
| IndicatorChecks.PersonalWeights | packages/shared/src/constants/indicator-checks.ts:226-355 | every personal indicator's check weights add up to 100 |
| IndicatorChecks.Pro1_1Weights | packages/shared/src/constants/indicator-checks.ts:95-103 | the check weights of PRO_1.1 add up to 100 |
| IndicatorChecks.Pro1_2Weights | packages/shared/src/constants/indicator-checks.ts:105-113 | the check weights of PRO_1.2 add up to 100 |
| IndicatorChecks.Pro1_3Weights | packages/shared/src/constants/indicator-checks.ts:115-123 | the check weights of PRO_1.3 add up to 100 |
| IndicatorChecks.Pro1_4Weights | packages/shared/src/constants/indicator-checks.ts:125-132 | the check weights of PRO_1.4 add up to 100 |
| IndicatorChecks.Pro1_5Weights | packages/shared/src/constants/indicator-checks.ts:134-142 | the check weights of PRO_1.5 add up to 100 |
| IndicatorChecks.Pro1_6Weights | packages/shared/src/constants/indicator-checks.ts:144-151 | the check weights of PRO_1.6 add up to 100 |
| IndicatorChecks.Pro1_7Weights | packages/shared/src/constants/indicator-checks.ts:153-160 | the check weights of PRO_1.7 add up to 100 |
| IndicatorChecks.Pro2_1Weights | packages/shared/src/constants/indicator-checks.ts:163-170 | the check weights of PRO_2.1 add up to 100 |
| IndicatorChecks.Pro2_2Weights | packages/shared/src/constants/indicator-checks.ts:172-180 | the check weights of PRO_2.2 add up to 100 |
| IndicatorChecks.Pro2_3Weights | packages/shared/src/constants/indicator-checks.ts:182-190 | the check weights of PRO_2.3 add up to 100 |
| IndicatorChecks.Soc1Weights | packages/shared/src/constants/indicator-checks.ts:202-209 | the check weights of SOC_1 add up to 100 |
| IndicatorChecks.Soc2Weights | packages/shared/src/constants/indicator-checks.ts:211-218 | the check weights of SOC_2 add up to 100 |
| IndicatorChecks.Per1_1Weights | packages/shared/src/constants/indicator-checks.ts:232-238 | the check weights of PER_1.1 add up to 100 |
| IndicatorChecks.Per1_2Weights | packages/shared/src/constants/indicator-checks.ts:240-246 | the check weights of PER_1.2 add up to 100 |
| IndicatorChecks.Per1_3Weights | packages/shared/src/constants/indicator-checks.ts:248-254 | the check weights of PER_1.3 add up to 100 |
| IndicatorChecks.Per1_4Weights | packages/shared/src/constants/indicator-checks.ts:256-262 | the check weights of PER_1.4 add up to 100 |
| IndicatorChecks.Per1_5Weights | packages/shared/src/constants/indicator-checks.ts:264-270 | the check weights of PER_1.5 add up to 100 |
| IndicatorChecks.Per1_6Weights | packages/shared/src/constants/indicator-checks.ts:273-279 | the check weights of PER_1.6 add up to 100 |
| IndicatorChecks.Per1_7Weights | packages/shared/src/constants/indicator-checks.ts:281-287 | the check weights of PER_1.7 add up to 100 |
| IndicatorChecks.Per1_8Weights | packages/shared/src/constants/indicator-checks.ts:289-295 | the check weights of PER_1.8 add up to 100 |
| IndicatorChecks.Per1_9Weights | packages/shared/src/constants/indicator-checks.ts:297-303 | the check weights of PER_1.9 add up to 100 |
| IndicatorChecks.Per1_10Weights | packages/shared/src/constants/indicator-checks.ts:305-311 | the check weights of PER_1.10 add up to 100 |
| IndicatorChecks.Per1_11Weights | packages/shared/src/constants/indicator-checks.ts:313-319 | the check weights of PER_1.11 add up to 100 |
| IndicatorChecks.Per2_1Weights | packages/shared/src/constants/indicator-checks.ts:322-328 | the check weights of PER_2.1 add up to 100 |
| IndicatorChecks.Per2_2Weights | packages/shared/src/constants/indicator-checks.ts:330-336 | the check weights of PER_2.2 add up to 100 |
| IndicatorChecks.Per2_3Weights | packages/shared/src/constants/indicator-checks.ts:338-344 | the check weights of PER_2.3 add up to 100 |
| IndicatorChecks.Per2_4Weights | packages/shared/src/constants/indicator-checks.ts:346-352 | the check weights of PER_2.4 add up to 100 |
| IndicatorChecks.ConfigShape | packages/shared/src/constants/indicator-checks.ts:84-357 | the configuration has 10 professional, 2 social and 15 personal indicators, listed in that order, with all 27 ids distinct |
| IndicatorChecks.DistinctIds | packages/shared/src/constants/indicator-checks.ts:84-357 | two indicator ids at different positions of the configuration differ |
| IndicatorChecks.FindItem | packages/shared/src/constants/indicator-checks.ts:365 | the item found has the id sought, and none is found exactly when no item has it |
| IndicatorChecks.FindIndicator | packages/shared/src/constants/indicator-checks.ts:363-369 | getIndicatorChecks returns an item with the id sought, and nothing exactly when no domain lists it |
| IndicatorChecks.FindDomain | packages/shared/src/constants/indicator-checks.ts:371-378 | getDomainForIndicator returns a configured domain that lists the id |
| IndicatorChecks.LookupsAgree | packages/shared/src/constants/indicator-checks.ts:363-378 | the indicator and the domain lookups succeed together, and the indicator found belongs to the domain found |
| IndicatorChecks.SlidesInRoundMembers | packages/shared/src/constants/indicator-checks.ts:417-419 | a round's slides are exactly the templates that list that round |
| IndicatorChecks.SlidesInRoundAppend | packages/shared/src/constants/indicator-checks.ts:417-419 | filtering the templates by round keeps their order |
| IndicatorChecks.SlidesPerRound | packages/shared/src/constants/indicator-checks.ts:392-419 | rounds 1 and 2 show the opening slides, the discipline slide and the summary; rounds 3 and 4 show every template; any other round shows none |
| IndicatorChecks.SlideCounts | packages/shared/src/constants/indicator-checks.ts:392-419 | rounds 1 and 2 show 11 slides and rounds 3 and 4 show 13 |
| IndicatorChecks.SlideIdsPerRound | packages/shared/src/constants/indicator-checks.ts:392-414 | the slide ids of the early and the late rounds, in template order |
| IndicatorChecks.SlideIndicatorsExist | packages/shared/src/constants/indicator-checks.ts:392-414 | every indicator a slide names is in the configuration |
| IndicatorChecks.OpeningIndicatorsAreProfessional | packages/shared/src/constants/indicator-checks.ts:393-402 | the indicators named by the slides before the social slide are all professional |
| IndicatorsService.NormalizeIndicatorCodes | apps/api/src/indicators/indicators.service.ts:315-330 | a list becomes the main codes with no sub codes; an object gives its main and sub lists, empty when absent; null or any other value gives both empty |
| IndicatorsService.NormalizeIdempotent | apps/api/src/indicators/indicators.service.ts:315-330 | normalising the new-form object of a normalised value gives the same codes |
| IndicatorsService.InactiveCounts | apps/api/src/indicators/indicators.service.ts:268-297 | the invalid list holds every requested code that is not active, as often as it was requested, and no active code |
| IndicatorsService.ValidateIndicatorCodes | apps/api/src/indicators/indicators.service.ts:249-310 | the errors are the main list's error then the sub list's, and valid holds iff there is no error |
| IndicatorsService.InactiveEmpty | apps/api/src/indicators/indicators.service.ts:269-273 | no invalid code is reported iff every requested code is active |
| IndicatorsService.ValidationProperties | apps/api/src/indicators/indicators.service.ts:252-309 | at most two errors; no error iff every requested main and sub code is active; an absent or empty list adds no error |
| IndicatorsService.MainErrorFirst | apps/api/src/indicators/indicators.service.ts:255-277 | when a main code is inactive the first error lists exactly the inactive main codes, comma-separated, in request order |
| JobStatusCard.Info | apps/web/components/video-analysis/job-status-card.tsx:47 | a known status shows its own label and colours; any other string shows itself in grey |
| JobStatusCard.LabelsDistinct | apps/web/components/video-analysis/job-status-card.tsx:26-37 | different statuses have different labels |
| JobStatusCard.StepIndex | apps/web/components/video-analysis/job-status-card.tsx:41-44 | the step index is the position of the status among the pipeline steps, or -1 exactly when it is not one of them |
| JobStatusCard.ClassesExclusive | apps/web/components/video-analysis/job-status-card.tsx:48-50 | no status is at once processing, done or failed in two ways |
| JobStatusCard.ProcessingIsEarlyStep | apps/web/components/video-analysis/job-status-card.tsx:39-50 | a status is processing exactly when it is a pipeline step before the last, and done exactly when it is the last |
| JobStatusCard.OffTheBar | apps/web/components/video-analysis/job-status-card.tsx:39-44 | uploading, uploaded, failed and quota-rejected jobs are off the progress bar |
| JobStatusCard.StepsInLifecycleOrder | apps/web/components/video-analysis/job-status-card.tsx:39 | the progress bar lists the steps in the order a job goes through them |
| JobStatusCard.StepAt | apps/web/components/video-analysis/job-status-card.tsx:41-44 | each step's index is its position |
| JobStatusCard.StepsDistinct | apps/web/components/video-analysis/job-status-card.tsx:39 | no step is listed twice |
| JobStatusCard.BorderClass | apps/web/components/video-analysis/job-status-card.tsx:56 | done jobs get a green border, failed ones red, processing ones amber and all others grey |
| JournalAi.MockImprove | apps/api/src/ai/journal-ai.service.ts:120-136 | the rewritten draft always opens with "ในวันนี้" and ends with the fixed closing sentence |
| JournalAi.ReplaceAbsent | apps/api/src/ai/journal-ai.service.ts:122-128 | a global replace of a pattern the text does not contain leaves the text unchanged |
| JournalAi.RewriteKeepsGoodAfterYo | apps/api/src/ai/journal-ai.service.ts:127 | after "ดี" becomes "เป็นไปด้วยดี", every "ดี" left in the text is preceded by "ย" |
| JournalAi.NotGoodRuleNeverApplies | apps/api/src/ai/journal-ai.service.ts:122-135 | because "ดี" is rewritten first, no "ไม่ดี" is left and the "ยังต้องพัฒนา" rewrite never changes anything |
| JournalAi.ChildrenContainsChild | apps/api/src/ai/journal-ai.service.ts:148 | a draft containing "เด็กๆ" contains "เด็ก", so the second test adds nothing |
| JournalAi.SuggestionsProperties | apps/api/src/ai/journal-ai.service.ts:141-160 | 2 to 5 suggestions ending with the two fixed reminders; the formal-language hint iff the text changed, the child hint iff the draft contains "เด็ก", the detail hint iff the draft is under 50 characters |
| JournalAi.PromptsShape | apps/api/src/ai/journal-ai.service.ts:165-246 | the seven underscore codes WP_1 to ET_4 get four prompts; any other code, "WP.1" included, gets the three generic prompts |
| JournalAi.SuggestReflectionPrompts | apps/api/src/ai/journal-ai.service.ts:74-90 | returns exactly the prompts for the code and logs a rule-based JOURNAL_SUGGEST activity for the user |
| JournalAi.ImproveLanguage | apps/api/src/ai/journal-ai.service.ts:30-69 | the model's rewrite is returned unchanged with confidence 0.85, the suggestions comparing draft and rewrite, and a JOURNAL_IMPROVE log entry |
| Journals.RowOf | apps/api/src/journals/journals.service.ts:83-96 | the position found holds a journal with that id, and nothing is found exactly when no journal has it |
| Journals.FindByTeacherAndMonth | apps/api/src/journals/journals.service.ts:50-59 | a journal found belongs to that teacher and month, and nothing is found exactly when no journal has that pair |
| Journals.FoundIsOnly | apps/api/src/journals/journals.service.ts:50-59 | with the pair unique, the journal found is the one stored for the pair |
| Journals.JournalTable.Create | apps/api/src/journals/journals.service.ts:61-80 | Conflict exactly when a journal exists for the checked teacher id and month; otherwise UniqueViolation exactly when the new id is taken or the stored teacher already has a journal for the month, and success (and only success) in every other case; a failed create changes nothing; a successful one appends the new journal; the table keeps one journal per id and per (teacher, month) |
| Journals.JournalTable.Update | apps/api/src/journals/journals.service.ts:82-93 | NotFound exactly for an unknown id; for a known id, UniqueViolation exactly when another journal of the same teacher already holds the new month, and otherwise success, where only that journal changes to the given month and entry and the table stays unique |
| Journals.JournalTable.Remove | apps/api/src/journals/journals.service.ts:95-102 | NotFound exactly for an unknown id; a known id always succeeds, removing exactly the named journal while the others keep their order |
| Journals.Without | apps/api/src/journals/journals.service.ts:101 | deleting position k keeps every other row, in order |
| Journals.WithoutUnique | apps/api/src/journals/journals.service.ts:95-102 | deleting a journal keeps the table unique |
| Journals.UpdateUnique | apps/api/src/journals/journals.service.ts:82-93 | rewriting a journal whose new month is free for its teacher keeps the table unique |
| Journals.NestedTeacherChecksEmptyId | apps/api/src/journals/journals.service.ts:66 | a create without a teacher connect id conflicts exactly when a journal of teacher "" exists for the month |
| Journals.CreatedIsFound | apps/api/src/journals/journals.service.ts:50-80 | after a create the new journal is the one found for its teacher and month |
| Journals.ClashFound | apps/api/src/journals/journals.service.ts:88-92 | in a unique table, the (teacher, month) lookup finds a journal other than the updated one exactly when another journal of that teacher already holds the new month |
| MediaApi.QuotaOf | upgrade/media-api/app/main.py:14-18 | the quota report gives the limit, the usage, and limit minus usage floored at 0 |
| MediaApi.Streamed | upgrade/media-api/app/main.py:45-48 | the loop consumes exactly the reads before the first empty one, all non-empty |
| MediaApi.StreamOutcome | upgrade/media-api/app/main.py:43-58 | the stream is stored exactly when usage plus everything read fits the quota, and then reports the sum of the reads as the raw bytes |
| MediaApi.UploadedWithinQuota | upgrade/media-api/app/main.py:33-58 | a stored upload holds exactly the streamed bytes, passed the size-hint check and keeps usage within the quota unless it is empty |
| MediaApi.OverQuotaStoresNothing | upgrade/media-api/app/main.py:34-50 | a user already over the quota can store only an empty upload without a size hint; the pre-check refuses exactly a non-zero hint |
| MediaApi.Api.CreateJob | upgrade/media-api/app/main.py:20-26 | a new job reports UPLOADING and gets its raw and artifacts directories; no row is written |
| MediaApi.Api.Upload | upgrade/media-api/app/main.py:28-58 | the reply is the endpoint's outcome; a refused pre-check changes nothing; otherwise raw/video.mp4 ends holding the streamed bytes, or is removed when the stream passes the quota |
| MediaApi.OverflowingPrefixConflicts | upgrade/media-api/app/main.py:49-55 | once some prefix of the stream passes what the user has left the upload ends in 409, so no bytes past the quota are kept |
| MediaStore.ParseStatusName | apps/web/components/video-analysis/job-status-card.tsx:26-37 | every job status is stored under its own column name and reads back as itself, so the ten names are distinct |
| MediaStore.NewJob | apps/api/src/video-analysis/video-analysis.service.ts:120-131 | a created job row starts in UPLOADING with the requested user and analysis mode, no bytes counted, no frames and no error |
| MediaStore.RemainingBytes | apps/api/src/video-analysis/video-analysis.service.ts:80-89 | the remaining quota is limit minus usage while usage is within the limit, and 0 once usage reaches or passes it |
| MediaStore.RemoveDir | upgrade/asr-worker/worker/run.py:172-177 | removing one sub-directory of a job removes exactly that job's files in it and keeps every other file with its content |
| MediaStore.RemoveJobFiles | apps/api/src/video-analysis/video-analysis.service.ts:232-235 | removing a job's directory removes exactly that job's files and keeps every other job's files unchanged |
| MediaStore.Store.UpdateJob | upgrade/asr-worker/worker/run.py:53-69 | an UPDATE replaces the row with the given id and leaves the table unchanged when no row has that id |
| MentoringAi.ScheduleTasks | apps/api/src/ai/mentoring-ai.service.ts:97-101 | the model's tasks keep their order and count; the first is due within a week and HIGH, every later one within two weeks and MEDIUM |
| MentoringAi.StrengthsProperties | apps/api/src/ai/mentoring-ai.service.ts:138-163 | no strengths exactly for an absent or empty text; each keyword strength iff its keyword occurs; the default sentence iff no keyword occurs |
| MentoringAi.ImprovementsProperties | apps/api/src/ai/mentoring-ai.service.ts:168-188 | each improvement appears iff one of its keywords occurs in the challenges text |
| MentoringAi.ImprovementsMayBeEmpty | apps/api/src/ai/mentoring-ai.service.ts:168-188 | an absent or empty text gives no improvement, and a non-empty text can give none either |
| MentoringAi.FollowUpTaskCounts | apps/api/src/ai/mentoring-ai.service.ts:193-242 | CLASSROOM gives 2 tasks, MANAGEMENT and PEDAGOGY 1, others 0; the next-meeting task, the only one without an indicator, comes last iff a follow-up is required |
| MentoringAi.Label | apps/api/src/ai/mentoring-ai.service.ts:299-321 | a known code maps to its Thai label and an unknown code is returned unchanged |
| MentoringAi.LabelsProperties | apps/api/src/ai/mentoring-ai.service.ts:299-321 | visit types and focus areas are left unchanged exactly when they are not known codes |
| MentoringAi.MonthNameShape | apps/api/src/ai/mentoring-ai.service.ts:327-330 | each month name is a single word and names its own month |
| MentoringAi.DateTextInjective | apps/api/src/ai/mentoring-ai.service.ts:332-337 | day, month name and Buddhist-era year can be read back from "day month year" |
| MentoringAi.FormatThaiDateInjective | apps/api/src/ai/mentoring-ai.service.ts:326-338 | different dates never print the same Thai date; the printed year is the Gregorian year plus 543 |
| Middleware.Decide | apps/web/middleware.ts:6-21 | a redirect to /login happens iff the path is not public and there is no token; a redirect to /dashboard iff the path is /login with a token; no other target is ever used |
| Middleware.PublicWithoutToken | apps/web/middleware.ts:10-14 | without a token exactly "/" and "/login" pass through |
| Middleware.NoRedirectLoop | apps/web/middleware.ts:10-20 | the target of a redirect passes through for the same token state |
| Middleware.SignedInPassesThrough | apps/web/middleware.ts:12-20 | with a token every path except /login passes through |
| NodePath.Basename | apps/api/src/uploads/uploads.controller.ts:27 | the base name (`path.basename`) never contains a '/' separator |
| NodePath.ExtName | apps/api/src/video-analysis/video-analysis.service.ts:155 | `path.extname`: "" or a '.' followed by no further '.' or '/', and a proper suffix of the base name |
| NodePath.BasenameNoSlash | apps/api/src/uploads/uploads.controller.ts:27 | a name without separators is its own base name |
| NodePath.ExtNameAt | apps/api/src/video-analysis/video-analysis.service.ts:155 | a slash-free name other than ".." whose last '.' is not its first character has the extension starting at that '.', whatever precedes it |
| NodePath.ExtNameNoDot | apps/api/src/video-analysis/video-analysis.service.ts:155 | a base name without '.' has no extension |
| NodePath.ExtNameOfDotFile | apps/api/src/uploads/uploads.controller.ts:52 | a dot file such as ".mp4" has no extension |
| NodePath.ExtNameOfDotDot | apps/api/src/video-analysis/video-analysis.service.ts:155 | ".." has no extension |
| NodePath.ExtNameAfterLeadingDots | apps/api/src/video-analysis/video-analysis.service.ts:155 | leading dots belong to the stem: "..mov" has the extension ".mov" |
| NodePath.ExtNameOfStemAndExt | apps/api/src/video-analysis/video-analysis.service.ts:155 | a "stem.ext" name other than ".." has the extension ".ext", letter case kept |
| Pdpa.ExpiryOf | apps/api/src/pdpa/pdpa.service.ts:69-71 | no expiry when the day count is absent or zero; otherwise the expiry lies that many days after the grant |
| Pdpa.Expire | apps/api/src/pdpa/pdpa.service.ts:30-40 | a GRANTED consent past its expiry becomes EXPIRED and nothing else about it changes; any other row is untouched |
| Pdpa.SweepOnlyExpires | apps/api/src/pdpa/pdpa.service.ts:30-175 | the sweeps change only lapsed GRANTED rows, only to EXPIRED, never change whether a row counts as consent, and sweeping twice is sweeping once |
| Pdpa.SweptStep | apps/api/src/pdpa/pdpa.service.ts:31-40 | one iteration of the expiry loop rewrites that type's row exactly as the full sweep would |
| Pdpa.SweptAllTypes | apps/api/src/pdpa/pdpa.service.ts:31-40 | running the loop over every consent type is the sweep of the user's rows |
| Pdpa.CountsPartition | apps/api/src/pdpa/pdpa.service.ts:183-188 | the records counted in total are exactly those counted as granted, pending, revoked or expired |
| Pdpa.RequiredStatus | apps/api/src/pdpa/pdpa.service.ts:189-193 | a required consent with no record is reported as PENDING, otherwise with its record's status |
| Pdpa.SummaryOf | apps/api/src/pdpa/pdpa.service.ts:180-197 | the total is the sum of the four status counts and at most the number of consent types; data collection reads PENDING exactly when its record is missing or pending |
| Pdpa.ConsentStore.GrantConsent | apps/api/src/pdpa/pdpa.service.ts:48-96 | an upsert on (user, type): the row becomes GRANTED, stamped now, not revoked, with the computed expiry; a new row takes the given versions, IP and user agent, while a re-grant keeps the stored value of each one the caller leaves out |
| Pdpa.ConsentStore.RevokeConsent | apps/api/src/pdpa/pdpa.service.ts:101-126 | a missing row is NotFound and a REVOKED one is refused, leaving the store unchanged; any other existing row is revoked (success guaranteed), taking REVOKED with revokedAt set, and nothing else changes |
| Pdpa.ConsentStore.HasConsent | apps/api/src/pdpa/pdpa.service.ts:131-154 | true exactly for an existing GRANTED row not past its expiry; a lapsed row is rewritten to EXPIRED and no other row changes |
| Pdpa.ConsentStore.CheckExpiredConsents | apps/api/src/pdpa/pdpa.service.ts:159-175 | every lapsed row becomes EXPIRED and the returned count is the number of lapsed rows |
| Pdpa.ConsentStore.GetUserConsents | apps/api/src/pdpa/pdpa.service.ts:15-43 | the user's lapsed rows are rewritten to EXPIRED, other users' rows are untouched, and the result is the user's rows afterwards |
| Pdpa.ConsentStore.GetConsentSummary | apps/api/src/pdpa/pdpa.service.ts:180-197 | the summary is taken over the user's rows after the expiry loop |
| Pdpa.GrantThenRevoke | apps/api/src/pdpa/pdpa.service.ts:48-154 | a grant without a negative expiry counts as consent at once, and a revoked row never does |
| Pdpa.LastFour | apps/api/src/pdpa/pdpa.service.ts:250 | `slice(-4)` gives the last four characters, or the whole string when shorter |
| Pdpa.MaskCitizenId | apps/api/src/pdpa/pdpa.service.ts:249-250 | null and the empty id stay null; otherwise the first character, "***" and the last four characters |
| Pdpa.MaskHidesMiddle | apps/api/src/pdpa/pdpa.service.ts:249-250 | a 13-digit id is shown as its first digit, three asterisks and its last four digits |
| Pdpa.ValidCategories | apps/api/src/pdpa/pdpa.service.ts:358-360 | keeps exactly the requested categories that are in DELETE_CATEGORIES |
| Pdpa.TablesFor | apps/api/src/pdpa/pdpa.service.ts:436-490 | without a teacher profile only the AI activity is erased; otherwise each category erases its tables, assessments both kinds together |
| Pdpa.PlanErasure | apps/api/src/pdpa/pdpa.service.ts:341-393 | a missing user is NotFound; anonymise wins over delete-all, which wins over the valid categories; a request with none of them is refused |
| Pdpa.AnonymizeKeepsProfileUnlessAsked | apps/api/src/pdpa/pdpa.service.ts:402-426 | with categories given, anonymising scrubs the teacher profile exactly when "personal_info" is among them |
| PdpaExport.KeysUnderPrefix | apps/api/src/pdpa/pdpa.service.ts:504-521 | every row flattened under a prefix has that prefix as its key or a key below it, joined with "." |
| PdpaExport.StringifyKeeps | apps/api/src/pdpa/pdpa.service.ts:508-510 | the JSON text of a value contains every string the value holds, quoted |
| PdpaExport.ArrayFieldKept | apps/api/src/pdpa/pdpa.service.ts:512-518 | with array fields JSON-encoded, the row of an array field keeps every string inside the array |
| PdpaExport.ArrayFieldLostAsWritten | apps/api/src/pdpa/pdpa.service.ts:512-518 | as written, an array of records under a field is exported as "[object Object]", and the strings inside it are lost |
| PdpaExport.EscapeQuotes | apps/api/src/pdpa/pdpa.service.ts:529 | doubling the quotes never shortens a cell |
| PdpaExport.Lines | apps/api/src/pdpa/pdpa.service.ts:528-530 | one CSV line per row, in order |
| PdpaExport.ReadEscaped | apps/api/src/pdpa/pdpa.service.ts:529 | a cell body with its quotes doubled, followed by the closing quote, reads back as the original text |
| PdpaExport.ReadCellThen | apps/api/src/pdpa/pdpa.service.ts:529 | a quoted cell reads back as its text, leaving what follows |
| PdpaExport.ReadFirstCell | apps/api/src/pdpa/pdpa.service.ts:529 | the first cell of a line reads back as the key |
| PdpaExport.ParseLineThen | apps/api/src/pdpa/pdpa.service.ts:528-530 | a line reads back as its key and value |
| PdpaExport.ParseJoinedLines | apps/api/src/pdpa/pdpa.service.ts:528-530 | newline-joined lines read back as their rows |
| PdpaExport.CsvRoundTrip | apps/api/src/pdpa/pdpa.service.ts:523-530 | the CSV text reads back as the header row followed by every exported row, whatever quotes, commas or newlines the values hold |
| PdpaExport.ExportCsv | apps/api/src/pdpa/pdpa.service.ts:504-530 | the CSV export as written: the file reads back as the header row followed by the flattened rows, where an array inside a record is written with `String(v)` |
| PdpaExport.ExportCsvIntended | apps/api/src/pdpa/pdpa.service.ts:504-530 | the corrected CSV export: the file reads back as the header row followed by the flattened rows, with array fields JSON-encoded |
| PdpaExport.EscapeChar | apps/api/src/pdpa/pdpa.service.ts:508-510 | `JSON.stringify` escapes a character exactly when it is `"`, `\` or below U+0020, and the escape holds no control character; any other character is written as it is |
| PdpaExport.JsonEscape | apps/api/src/pdpa/pdpa.service.ts:508-510 | the body of a JSON string holds no character below U+0020 and is never shorter than the text |
| PdpaExport.JsonEscapePlain | apps/api/src/pdpa/pdpa.service.ts:508-510 | a text without quotes, backslashes or control characters is written unchanged |
| PdpaExport.LineBreakEscaped | apps/api/src/pdpa/pdpa.service.ts:508-510 | a line break inside a string is written as the two characters `\n` |
| PdpaScanner.ViolationOf | apps/api/src/ai/pdpa-scanner.service.ts:82-90 | a violation carries its pattern's kind, risk and advice, and ends where the matched text ends |
| PdpaScanner.Violations | apps/api/src/ai/pdpa-scanner.service.ts:76-92 | every violation's span is as long as its matched text and its advice and risk come from one of the patterns |
| PdpaScanner.CollectViolations | apps/api/src/ai/pdpa-scanner.service.ts:75-92 | the nested loops collect exactly the violations of each pattern, pattern by pattern, match by match |
| PdpaScanner.OverallRiskOf | apps/api/src/ai/pdpa-scanner.service.ts:120-132 | SAFE exactly when nothing was found; HIGH_RISK exactly when some violation is high; MEDIUM_RISK exactly when some is medium and none high; LOW_RISK exactly when all are low |
| PdpaScanner.Replacement | apps/api/src/ai/pdpa-scanner.service.ts:157-168 | the generic placeholder is used exactly for kinds outside the six known ones, and no placeholder is empty |
| PdpaScanner.GenerateSuggestions | apps/api/src/ai/pdpa-scanner.service.ts:173-188 | the advice is the insertion-ordered set of each violation's advice followed by the two general notes when anything was found |
| PdpaScanner.AdviceProperties | apps/api/src/ai/pdpa-scanner.service.ts:173-188 | the advice has no duplicates, covers every violation, and holds the two general notes exactly when something was found |
| PdpaScanner.InsertDescending | apps/api/src/ai/pdpa-scanner.service.ts:143 | inserting into a list sorted by descending start keeps it sorted and adds exactly the one violation |
| PdpaScanner.SortDescending | apps/api/src/ai/pdpa-scanner.service.ts:143 | the sort orders violations by descending start and is a permutation of its input |
| PdpaScanner.SpanOf | apps/api/src/ai/pdpa-scanner.service.ts:145-150 | the span replaced for a violation runs from its start to its end and carries its kind's placeholder |
| PdpaScanner.SanitizeText | apps/api/src/ai/pdpa-scanner.service.ts:137-152 | the text is rewritten span by span, from the last start to the first, each span replaced by its placeholder |
| PdpaScanner.RedactShift | apps/api/src/ai/pdpa-scanner.service.ts:145-150 | redacting from an earlier position only adds the untouched characters before the later one |
| PdpaScanner.ReplacedKeepsOutside | apps/api/src/ai/pdpa-scanner.service.ts:142-152 | for non-overlapping spans sorted from last to first, sanitising keeps every character outside the spans in order and puts each placeholder where its span was |
| PdpaScanner.CheckText | apps/api/src/ai/pdpa-scanner.service.ts:67-115 | the result lists the violations, its risk is the overall risk, it is safe exactly when nothing was found, a sanitised text is present exactly when something was found, and the advice is the generated advice |
| PortfolioItemCard.Thumbnail | apps/web/components/portfolio/portfolio-item-card.tsx:67-68 | the still's address is the thumbnail host, the id and "/mqdefault.jpg", in that order |
| PortfolioItemCard.ThumbnailRoundTrip | apps/web/components/portfolio/portfolio-item-card.tsx:67-68 | the video id is read back from the still's address, so different videos get different stills |
| PortfolioItemCard.ThumbnailOfId | apps/web/components/portfolio/portfolio-item-card.tsx:50-72 | a link has a still exactly when it looks like YouTube and yields a non-empty id, and the still shows that id |
| PortfolioItemCard.ThumbnailMatchesEmbed | apps/web/components/portfolio/portfolio-item-card.tsx:53-69 | the card's still and the detail view's player show the same YouTube video |
| PortfolioItemCard.UnparseableWatchLink | apps/web/components/portfolio/portfolio-item-card.tsx:58-63 | a watch link that cannot be parsed gives no still, where the detail view throws |
| PortfolioItemCard.OtherPlayersNoThumbnail | apps/web/components/portfolio/portfolio-item-card.tsx:53-72 | a link that does not look like YouTube has no still, while the detail view still plays Vimeo and Drive links |
| Readiness.AverageScore | apps/api/src/ai/readiness-ai.service.ts:79-88 | the average is a quarter of the four scores' total with an assessment, and 0 without one |
| Readiness.AnalyzeReadiness | apps/api/src/ai/readiness-ai.service.ts:72-150 | the analysis carries the average, the strengths and the improvements (area names first, then the record shortfalls) in push order |
| Readiness.RateArea | apps/api/src/ai/readiness-ai.service.ts:100-105 | one area becomes a strength at a score of 4 or more and an improvement below 3 |
| Readiness.RateAreas | apps/api/src/ai/readiness-ai.service.ts:100-124 | the four area checks in order give the strength and weak-area lists |
| Readiness.AddShortfalls | apps/api/src/ai/readiness-ai.service.ts:127-138 | the four record-count checks push their notes in order |
| Readiness.AreaClassification | apps/api/src/ai/readiness-ai.service.ts:100-124 | an area is a strength exactly when its score is at least 4 and an improvement exactly when below 3, and neither at 3 |
| Readiness.ImprovementsMembers | apps/api/src/ai/readiness-ai.service.ts:100-138 | the improvements hold exactly the weak areas and the shortfall notes whose condition holds |
| Readiness.ShortfallClassification | apps/api/src/ai/readiness-ai.service.ts:127-138 | the journal, mentoring, PLC and evidence notes appear exactly when there are under 3, 2, 2 and 5 records |
| Readiness.LevelByTotal | apps/api/src/ai/readiness-ai.service.ts:160-174 | the level is ดีมาก from a total of 16, ดี from 14, พอใช้ from 12 and ต้องพัฒนา below, i.e. means of 4, 3.5 and 3 |
| Readiness.AverageInRange | apps/api/src/ai/readiness-ai.service.ts:79-88 | scores on the 1-5 scale give a mean between 1 and 5; no assessment gives the lowest level |
| Readiness.BandAdvice | apps/api/src/ai/readiness-ai.service.ts:277-287 | the band-based advice is always two items |
| Readiness.Recommendations | apps/api/src/ai/readiness-ai.service.ts:274-297 | two band items, then the journal advice exactly when there are under 3 journals and the PLC advice exactly when under 2 PLC activities |
| Readiness.InsertByPriority | apps/api/src/ai/readiness-ai.service.ts:266 | inserting after the tasks of lower or equal priority keeps the list ordered and adds exactly that task |
| Readiness.SortByPriority | apps/api/src/ai/readiness-ai.service.ts:266 | the sort orders tasks by non-decreasing priority and is a permutation |
| Readiness.InsertByPriorityStable | apps/api/src/ai/readiness-ai.service.ts:266 | an inserted task comes after every task of its own priority, whose order is kept |
| Readiness.PassLastStable | apps/api/src/ai/readiness-ai.service.ts:266 | moving a task in front of one of higher priority leaves each priority's order unchanged |
| Readiness.SortByPriorityStable | apps/api/src/ai/readiness-ai.service.ts:266 | the sort is stable, as `Array.prototype.sort` is: the tasks of each priority come out in the order they were pushed |
| Readiness.PushIf | apps/api/src/ai/readiness-ai.service.ts:218-264 | a task or note is appended exactly when its condition holds |
| Readiness.GenerateWeeklyTasks | apps/api/src/ai/readiness-ai.service.ts:215-269 | the weekly tasks are the first five of the candidate tasks sorted by priority |
| Readiness.WeeklyTasksSorted | apps/api/src/ai/readiness-ai.service.ts:266-268 | at most five tasks come back, ordered by priority, and none of the at most five candidates is cut |
| Readiness.InFourTasks | apps/api/src/ai/readiness-ai.service.ts:218-264 | a task is a candidate exactly when its rule fires |
| Readiness.WeeklyTaskTriggers | apps/api/src/ai/readiness-ai.service.ts:102-264 | the pedagogy task is never a candidate, the classroom task is one exactly when the classroom score is below 3, the journal task exactly when under 3 journals |
| Readiness.ExplainReadiness | apps/api/src/ai/readiness-ai.service.ts:25-209 | the explanation carries the average, its level, the strengths and improvements, the weekly tasks and the recommendations of the analysis |
| Readiness.Candidates | apps/api/src/ai/readiness-ai.service.ts:102-264 | at most five tasks are pushed before sorting |
| Reports.ProvinceDroppedAsWritten | apps/api/src/reports/reports.service.ts:16-25 | as written, a query giving both a province and a region selects an assistant teacher of another province in that region |
| Reports.MatchesRefinesAsWritten | apps/api/src/reports/reports.service.ts:16-25 | the intended clause never selects a teacher the written one rejects, and the two agree whenever at most one location filter is given |
| Reports.Fetch | apps/api/src/reports/reports.service.ts:16-55 | the fetched teachers are exactly the stored teachers meeting the where-clause as it is built, where a region filter replaces the province filter, and there are no more of them than were stored |
| Reports.InProvince | apps/api/src/reports/reports.service.ts:16-18 | keeps exactly the teachers of the filter's province, all of them when no province is given |
| Reports.FetchIntended | apps/api/src/reports/reports.service.ts:16-25 | the corrected query: the written query's teachers narrowed to the province are exactly the stored teachers meeting every given filter, never more than the written query returns |
| Reports.InProvinceKeepsAll | apps/api/src/reports/reports.service.ts:16-18 | narrowing a list already inside the province drops nothing |
| Reports.FetchAgreesWithoutBothLocations | apps/api/src/reports/reports.service.ts:16-25 | the written and corrected queries return the same list unless both a province and a region are given |
| Reports.Latest | apps/api/src/reports/reports.service.ts:82-85 | the latest date is absent exactly when there are no dates, and otherwise is one of the dates and no smaller than any of them |
| Reports.SummaryFields | apps/api/src/reports/reports.service.ts:58-127 | the summary keeps the teacher's id; the counts are the lengths of its assessment, visit, journal, PLC and plan lists; the latest assessment and visit are the first (newest) ones or absent when there are none; the score total is absent exactly without an assessment and otherwise sums the latest assessment's four scores |
| Reports.LastActivityIsLatest | apps/api/src/reports/reports.service.ts:74-85 | the last activity date is absent exactly when the teacher has no assessment, visit, journal, PLC activity or plan, and otherwise is at least every one of their dates |
| Reports.Report | apps/api/src/reports/reports.service.ts:58-128 | one summary per teacher the written query fetches, in the fetched order |
| Reports.JoinHead | apps/api/src/reports/reports.service.ts:167 | a joined list starts with the first character of its first part |
| Reports.FilterTextAll | apps/api/src/reports/reports.service.ts:158-167 | the filter line is "ทั้งหมด" exactly when none of the province, region, cohort and status filters is given |
| Sanitize.DropBrackets | apps/api/src/common/pipes/sanitize.pipe.ts:26 | the result holds no '<' or '>' and only characters of the input |
| Sanitize.SanitizeString | apps/api/src/common/pipes/sanitize.pipe.ts:21-31 | the result is the input with tags stripped, brackets dropped and ends trimmed, and holds no '<' and no '>' |
| Sanitize.TrimKeepsChars | apps/api/src/common/pipes/sanitize.pipe.ts:29 | trimming keeps only characters of the input |
| Sanitize.SanitizedHasNoBrackets | apps/api/src/common/pipes/sanitize.pipe.ts:21-31 | a sanitised string contains no '<' and no '>' |
| Sanitize.StripTagsWithoutOpen | apps/api/src/common/pipes/sanitize.pipe.ts:23 | a string without '<' has no tag to strip |
| Sanitize.StripTagsWithoutClose | apps/api/src/common/pipes/sanitize.pipe.ts:23 | a string without '>' has no tag to strip, even when it holds a '<' |
| Sanitize.DropBracketsWithout | apps/api/src/common/pipes/sanitize.pipe.ts:26 | a string without brackets is kept |
| Sanitize.SanitizeFixed | apps/api/src/common/pipes/sanitize.pipe.ts:21-31 | a string without brackets and without white space at either end is returned unchanged |
| Sanitize.SanitizeIdempotent | apps/api/src/common/pipes/sanitize.pipe.ts:21-31 | sanitising a sanitised string changes nothing |
| Sanitize.StripOneTag | apps/api/src/common/pipes/sanitize.pipe.ts:23 | a leading tag `<...>` disappears and the text after it is processed on |
| Sanitize.KeepFirst | apps/api/src/common/pipes/sanitize.pipe.ts:23 | a leading character other than '<' is kept |
| Sanitize.StripTagsSkipsTag | apps/api/src/common/pipes/sanitize.pipe.ts:23 | text before a tag is kept in order and the tag itself, brackets included, disappears |
| Sanitize.TransformShape | apps/api/src/common/pipes/sanitize.pipe.ts:9-46 | numbers, booleans, null and undefined come back unchanged; a string comes back bracket-free; an array keeps its length with each element transformed; an object keeps its keys in order with each value transformed |
| Sanitize.TransformIdempotent | apps/api/src/common/pipes/sanitize.pipe.ts:9-46 | transforming a transformed value changes nothing, at any depth |
| Sanitize.SanitizeObject | apps/api/src/common/pipes/sanitize.pipe.ts:34-46 | the key loop builds exactly the transform of the object, and an array is mapped element by element |
| Sanitize.StripTags | apps/api/src/common/pipes/sanitize.pipe.ts:23 | stripping tags never lengthens the string |
| SelfAssessment.PatchedContent | apps/api/src/self-assessment/self-assessment.service.ts:133-151 | fields present in the update request replace the stored ones; text fields absent from it keep their stored value |
| SelfAssessment.Linked | apps/api/src/self-assessment/self-assessment.service.ts:41-51 | exactly the listed items that belong to the teacher are linked to the assessment; every other item keeps its link, and no field other than the link changes |
| SelfAssessment.Unlinked | apps/api/src/self-assessment/self-assessment.service.ts:269-273 | every item linked to the assessment loses its link; no other item and no other field changes |
| SelfAssessment.AssessmentBook.Create | apps/api/src/self-assessment/self-assessment.service.ts:11-54 | a new DRAFT with no submission or review stamps is stored under a fresh id, and the teacher's listed items are linked to it |
| SelfAssessment.AssessmentBook.Update | apps/api/src/self-assessment/self-assessment.service.ts:111-180 | missing id is NotFound, another teacher's is NotOwner, a SUBMITTED one is refused; the owner's DRAFT or REVIEWED assessment is always updated: only the content changes, the status is kept, and with a list of items its old links are cleared and it is linked to exactly the owner's listed items, while an item neither listed nor linked to it before is left unchanged |
| SelfAssessment.AssessmentBook.Submit | apps/api/src/self-assessment/self-assessment.service.ts:182-214 | missing id is NotFound, another teacher's is NotOwner, a non-DRAFT one is refused, each leaving the store unchanged; the owner's DRAFT always becomes SUBMITTED, stamped with the time, and nothing else changes |
| SelfAssessment.AssessmentBook.Review | apps/api/src/self-assessment/self-assessment.service.ts:216-250 | missing id is NotFound and a non-SUBMITTED one is refused; a SUBMITTED assessment is always reviewed, becoming REVIEWED with reviewer, comments and time; no assessment moves back in the workflow |
| SelfAssessment.AssessmentBook.Delete | apps/api/src/self-assessment/self-assessment.service.ts:252-278 | missing id is NotFound, another teacher's is NotOwner, a REVIEWED one is refused; the owner's assessment that is not REVIEWED is always deleted, and afterwards no portfolio item points at it |
| SharedUtils.CalculateAge | packages/shared/src/utils/index.js:14-23 | the age is the number of birthdays reached: the age-th anniversary is on or before today and the next one after it; on the birthday itself it is the plain year difference |
| SharedUtils.DigitPrefix | packages/shared/src/utils/index.js:30 | the digits `parseInt` reads are the longest run of decimal digits at the start |
| SharedUtils.ParseDigits | packages/shared/src/utils/index.js:30 | `parseInt` of a non-empty digit string is its decimal value |
| SharedUtils.SplitYearMonth | packages/shared/src/utils/index.js:25 | a `YYYY-MM` string splits into its year and month digits |
| SharedUtils.FormatYearMonth | packages/shared/src/utils/index.js:24-31 | a `YYYY-MM` string prints the month part of its month number and the Buddhist-era year of its year |
| SharedUtils.FormatMonthOfKey | packages/shared/src/utils/index.js:24-31 | a well-formed month string prints the Thai name of month MM, a space and YYYY + 543 |
| SharedUtils.MonthPartOf | packages/shared/src/utils/index.js:26-30 | months 1 to 12 print the Thai name at position month − 1 |
| SharedUtils.FormatMonthWithoutDash | packages/shared/src/utils/index.js:25-30 | without a '-' there is no month part and the label starts with "undefined " |
| SharedUtils.KeepWordChars | packages/shared/src/utils/index.js:35 | only characters of `\w`, `\s` and '-' remain, all taken from the input |
| SharedUtils.Hyphenate | packages/shared/src/utils/index.js:36 | no white space remains, and every character is from the input or a '-' |
| SharedUtils.SlugChars | packages/shared/src/utils/index.js:32-37 | a slug holds only lower-case ASCII letters, digits, '_' and '-' |
| SharedUtils.SlugifyIdempotent | packages/shared/src/utils/index.js:32-37 | slugifying a slug changes nothing |
| SharedUtils.DropsOtherChars | packages/shared/src/utils/index.js:35 | a character outside `\w`, `\s` and '-', such as a Thai letter, is removed wherever it stands |
| SharedUtils.RunBecomesOneDash | packages/shared/src/utils/index.js:36 | a run of white space of any length becomes a single '-' |
| Tally.Count | apps/api/src/dashboard/dashboard.service.ts:73-77 | a key occurs at most as often as the list is long, and zero times exactly when it is absent |
| Tally.SumCountsSnoc | apps/api/src/dashboard/dashboard.service.ts:73-77 | one more element adds one to the summed counts when it is among the keys |
| Tally.CountsCover | apps/api/src/dashboard/dashboard.service.ts:73-77 | when every element is among distinct keys, the counts add up to the number of elements |
| Tally.TalliedSnoc | apps/api/src/evidence/evidence.service.ts:229 | incrementing a key's count, starting from 0 when absent, keeps the tally exact: the keys in first-seen order and each key's count |
| Tally.TallyStep | apps/api/src/evidence/evidence.service.ts:227-231 | one step of the tallying loop keeps the keys and counts exact for the codes seen so far |
| ThaiCalendar.BuddhistYear | apps/api/src/budget/budget.service.ts:362 | the Buddhist-era year is 543 years after the Gregorian one |
| ThaiCalendar.YearMonthRoundTrip | apps/api/src/budget/budget.service.ts:360-363 | splitting a zero-padded `YYYY-MM` month string at the dash reads back the year and month it was made from |
| UploadModal.Extension | apps/web/components/portfolio/upload-modal.tsx:33 | the extension is the text after the last '.', holds no '.', and is the whole name when there is no '.' |
| UploadModal.TruncateName | apps/web/components/portfolio/upload-modal.tsx:31-32 | a name no longer than the width comes back unchanged |
| UploadModal.TruncateWithExtension | apps/web/components/portfolio/upload-modal.tsx:33-36 | a longer name with a '.' becomes a prefix of its base, "…." and its whole extension, and fits the width whenever the extension and two characters do |
| UploadModal.TruncateWithoutDot | apps/web/components/portfolio/upload-modal.tsx:33-36 | a longer name without a '.' becomes "…." followed by the whole name, two characters longer than the name |
| UploadModal.TruncateKeepsExtension | apps/web/components/portfolio/upload-modal.tsx:33-36 | the shortened name has the same extension as the original |
| UploadModal.Accepted | apps/web/components/portfolio/upload-modal.tsx:83-89 | a file is kept exactly when it is in the selection and no larger than 10 MB |
| UploadModal.WithoutPosition | apps/web/components/portfolio/upload-modal.tsx:111 | filtering out position `index` removes exactly that element, and nothing when the index is outside the list |
| UploadModal.SplitBySize | apps/web/components/portfolio/upload-modal.tsx:79-89 | the first loop yields the accepted files and one warning per oversized file, both in selection order |
| UploadModal.AppendUntilFull | apps/web/components/portfolio/upload-modal.tsx:91-98 | pushing until five files and then slicing gives the first five of the previous list followed by the accepted files |
| UploadModal.UploadForm.AddFiles | apps/web/components/portfolio/upload-modal.tsx:16-108 | the new list is the merge of the old list and the accepted files, the warnings name each oversized file, the notice is given when more than five files were picked, and the list stays at most five files of at most 10 MB |
| UploadModal.UploadForm.RemoveFile | apps/web/components/portfolio/upload-modal.tsx:110-112 | the file at the index leaves the list and the rest keep their order; an index outside the list changes nothing |
| UploadModal.MergedWithinLimit | apps/web/components/portfolio/upload-modal.tsx:16-98 | no file over 10 MB enters the list and the list never holds more than five |
| UploadModal.MergedKeepsOrder | apps/web/components/portfolio/upload-modal.tsx:91-98 | the files chosen before stay first and the new ones follow in the order picked |
| UploadModal.MergedAddsAllThatFit | apps/web/components/portfolio/upload-modal.tsx:91-98 | when there is room, every accepted file is added |
| UploadModal.Rejected | apps/web/components/portfolio/upload-modal.tsx:83-89 | every chosen file is either accepted or gets exactly one warning entry |
| Uploads.AcceptedHasNoSeparator | apps/api/src/uploads/uploads.controller.ts:27-30 | a name that passes the guard contains no '/', because a name with a separator differs from its basename |
| Uploads.DotsRejected | apps/api/src/uploads/uploads.controller.ts:28 | every name containing ".." anywhere is refused |
| Uploads.ResolvedInsideDir | apps/api/src/uploads/uploads.controller.ts:39-44 | an accepted name resolves to dir + "/" + name (to dir itself for "" and "."), so the startsWith double check always passes |
| Uploads.ContentTypeDefault | apps/api/src/uploads/uploads.controller.ts:52-64 | the type is application/octet-stream exactly when the lower-cased extension is not one of the eight in the table |
| Uploads.ContentTypeIgnoresCase | apps/api/src/uploads/uploads.controller.ts:52 | "REPORT.PDF" is served as application/pdf: the extension is lower-cased before the lookup |
| Uploads.DotFileHasNoExtension | apps/api/src/uploads/uploads.controller.ts:52-64 | ".png" has no extension and is served as application/octet-stream |
| Uploads.ServeFile | apps/api/src/uploads/uploads.controller.ts:22-72 | a served file passed the guard, exists and lies inside the uploads directory, with the content type of its name; NotFound only for a refused name or a missing file |
| VideoAnalysis.QuotaOr | apps/api/src/video-analysis/video-analysis.service.ts:68-78 | a user's stored quota row is returned as is, and a missing one is a fresh row with the configured limit and usage 0 |
| VideoAnalysis.Subtracted | apps/api/src/video-analysis/video-analysis.service.ts:98-104 | releasing bytes keeps the limit, lowers usage by exactly the amount when usage covers it and floors it at 0 otherwise |
| VideoAnalysis.TenthsHalfUp | apps/api/src/video-analysis/video-analysis.service.ts:147 | `toFixed(1)` of the size in MB picks the tenth nearest to the exact quotient, and an exact tie goes to the larger tenth |
| VideoAnalysis.MbText | apps/api/src/video-analysis/video-analysis.service.ts:147 | a size in MB is printed with exactly one decimal |
| VideoAnalysis.MbTextExamples | apps/api/src/video-analysis/video-analysis.service.ts:147 | 0 bytes print as "0.0", 1 MiB as "1.0" and 1.5 MiB as "1.5" |
| VideoAnalysis.RawVideoName | apps/api/src/video-analysis/video-analysis.service.ts:155-156 | the stored raw file is always named "video." followed by an extension |
| VideoAnalysis.RawVideoNameMp4 | apps/api/src/video-analysis/video-analysis.service.ts:155-156 | the raw file is "video.mp4" exactly when the upload's extension is ".mp4" or it has none (an empty name counts as ".mp4") |
| VideoAnalysis.RawVideoNameOfStemAndExt | apps/api/src/video-analysis/video-analysis.service.ts:155-156 | an upload named "stem.ext" is stored as "video.ext", whatever dots the stem holds ("..mov" is stored as "video.mov") |
| VideoAnalysis.RawVideoNameOfDotFile | apps/api/src/video-analysis/video-analysis.service.ts:155-156 | a dot file such as ".mov" has no extension and is stored as "video.mp4" |
| VideoAnalysis.RawVideoNameWithoutExt | apps/api/src/video-analysis/video-analysis.service.ts:155-156 | a non-empty upload name without an extension is stored as "video.mp4" |
| VideoAnalysis.OrNull | apps/api/src/video-analysis/video-analysis.service.ts:383-386 | an empty summary or advice is stored as null and any other text as itself |
| VideoAnalysis.SegmentTexts | apps/api/src/video-analysis/video-analysis.service.ts:315-317 | one text per transcript segment, in segment order |
| VideoAnalysis.TranscriptOutcome | apps/api/src/video-analysis/video-analysis.service.ts:307-351 | a missing or unreadable transcript is the "not found" error, a blank one the "empty" error, and otherwise the provider is asked about the joined segment texts cut to 15000 characters |
| VideoAnalysis.Owned | apps/api/src/video-analysis/video-analysis.service.ts:137-139 | an unknown job is NotFound, another user's job is BadRequest "Unauthorized", and only the owner gets the row |
| VideoAnalysis.UploadedJob | apps/api/src/video-analysis/video-analysis.service.ts:160-171 | after an upload the row is UPLOADED with raw and total bytes equal to the file size, owner and mode unchanged |
| VideoAnalysis.FirstPassJob | apps/api/src/video-analysis/video-analysis.service.ts:260-281 | a TEXT_ONLY job or a FULL job with frames ends DONE with a report on success and FAILED with "Analysis error: " and the message on failure; a FULL job without frames is left as it is; a FULL success also sets the frame expiry; owner and byte counts never change |
| VideoAnalysis.SecondPassJob | apps/api/src/video-analysis/video-analysis.service.ts:292-298 | a frames-done job ends DONE with a report and a frame expiry one year on, or stays ANALYZING when the analysis fails, since that failure is only logged |
| VideoAnalysis.TwoPasses | apps/api/src/video-analysis/video-analysis.service.ts:246-299 | after both loops each first-batch job has its first-pass row, each second-batch job its second-pass row, and every other job is unchanged |
| VideoAnalysis.FirstPassLeavesNoFramesReady | apps/api/src/video-analysis/video-analysis.service.ts:260-291 | no job the first loop handled is picked up again by the second loop's PROCESSING_FRAMES query |
| VideoAnalysis.PurgedJob | apps/api/src/video-analysis/video-analysis.service.ts:428-436 | a purged row has no frames, 0 frame bytes, the purge time recorded, and total bytes lowered by the frame bytes and floored at 0; status and owner unchanged |
| VideoAnalysis.QuotasAfterPurgeClosedForm | apps/api/src/video-analysis/video-analysis.service.ts:423-445 | subtracting each purged job's frame bytes in turn, each floored at 0, leaves a user's usage at max(0, usage minus that user's total frame bytes); users with no purged job keep their row |
| VideoAnalysis.Service.GetOrCreateQuota | apps/api/src/video-analysis/video-analysis.service.ts:68-78 | returns the user's quota row and stores it, creating it with the configured limit and usage 0 when missing |
| VideoAnalysis.Service.GetQuota | apps/api/src/video-analysis/video-analysis.service.ts:80-89 | reports limit, usage and max(0, limit minus usage) of the (possibly new) row |
| VideoAnalysis.Service.AddQuotaUsage | apps/api/src/video-analysis/video-analysis.service.ts:91-96 | increments the user's usage by exactly the delta and changes nothing else |
| VideoAnalysis.Service.SubtractQuotaUsage | apps/api/src/video-analysis/video-analysis.service.ts:98-104 | stores the user's row with usage lowered by the delta and floored at 0, creating the row first if needed |
| VideoAnalysis.Service.CreateJob | apps/api/src/video-analysis/video-analysis.service.ts:108-134 | refuses with Conflict when no quota remains, without creating anything; otherwise adds an UPLOADING row with source type defaulting to UPLOAD and an empty file name stored as null, and creates the raw and artifacts directories |
| VideoAnalysis.Service.UploadFile | apps/api/src/video-analysis/video-analysis.service.ts:136-175 | unknown job, foreign job, wrong status and oversize file are refused in that order with nothing changed but the quota row; an accepted file is written as raw/video.ext, the row becomes UPLOADED and usage grows by the size, never past the limit |
| VideoAnalysis.Service.AcceptUpload | apps/api/src/video-analysis/video-analysis.service.ts:144-174 | a file larger than the remaining quota is refused with the MB message and no write; otherwise the file, the row and the usage are updated |
| VideoAnalysis.Service.StoreUpload | apps/api/src/video-analysis/video-analysis.service.ts:151-172 | the video blob lands under the job's raw directory, the row becomes UPLOADED and usage grows by the file size |
| VideoAnalysis.Service.ProcessJob | apps/api/src/video-analysis/video-analysis.service.ts:177-204 | only the owner's UPLOADED job with a queue connection is queued: one {job_id, analysis_mode} message is appended to queue:jobs and the row becomes QUEUED; every refusal leaves the store unchanged |
| VideoAnalysis.Service.DeleteJob | apps/api/src/video-analysis/video-analysis.service.ts:222-242 | the owner's job row, directories and files are removed and its total bytes are released from the quota (floored at 0); other users' jobs are refused with nothing changed |
| VideoAnalysis.Service.AnalyzeTranscript | apps/api/src/video-analysis/video-analysis.service.ts:301-393 | on success the report file is written and the row becomes DONE with the summary and advice; on failure the row is left in ANALYZING and no file changes |
| VideoAnalysis.Service.AnalyzeMultimodal | apps/api/src/video-analysis/video-analysis.service.ts:395-409 | the transcript analysis runs, and only on success the frames are set to expire one year on |
| VideoAnalysis.Service.AnalyzeReady | apps/api/src/video-analysis/video-analysis.service.ts:260-281 | one job of the first loop gets its first-pass row, the catch turning a failure into FAILED; only the report file may change |
| VideoAnalysis.Service.RunPendingAnalysis | apps/api/src/video-analysis/video-analysis.service.ts:246-299 | takes at most five distinct ASR_DONE jobs (at least one when any exists), then at most five distinct frames-done jobs; each gets its pass's row, every other job and every non-report file is unchanged |
| VideoAnalysis.Service.FirstPass | apps/api/src/video-analysis/video-analysis.service.ts:260-282 | the loop over the ASR_DONE batch leaves exactly the batch's rows changed, each to its first-pass row |
| VideoAnalysis.Service.SecondPass | apps/api/src/video-analysis/video-analysis.service.ts:292-298 | the loop over the frames-done batch leaves exactly the batch's rows changed, each to its second-pass row |
| VideoAnalysis.Service.PurgeFrames | apps/api/src/video-analysis/video-analysis.service.ts:424-439 | one expired job loses its frames directory and files, its row is purged and its owner's usage drops by the frame bytes |
| VideoAnalysis.Service.CleanupExpiredFrames | apps/api/src/video-analysis/video-analysis.service.ts:413-448 | exactly the jobs whose frames are due (expiry reached, not yet deleted, frames present) are purged, each once, the count returned is their number, quotas drop as the per-user fold says, and nothing else changes |
| VideoAnalysis.Service.PurgeAll | apps/api/src/video-analysis/video-analysis.service.ts:423-445 | the sweep loop purges exactly the batch's rows, frame files and frame directories and folds their frame bytes out of the quotas |
| VisionWorker.QuotaRemaining | upgrade/vision-worker/worker/run.py:72-94 | a missing job has 0 bytes left, an owner without a quota row the full default quota, and otherwise limit minus usage floored at 0 |
| VisionWorker.AddedUsage | upgrade/vision-worker/worker/run.py:97-113 | the owner's usage rises by exactly the delta and no other row changes; a missing job or an owner without a row leaves the table unchanged |
| VisionWorker.OwnerLookupsIgnoreRow | upgrade/vision-worker/worker/run.py:78-108 | both quota lookups go through the job's owner only, so rewriting the job row with the same owner changes neither |
| VisionWorker.FindVideoFile | upgrade/vision-worker/worker/run.py:138-145 | nothing without a raw directory; otherwise the first listed name whose lower-cased form ends in a video extension, and nothing exactly when no listed name does |
| VisionWorker.MovUploadIsVideo | upgrade/vision-worker/worker/run.py:135-145 | a ".mov" upload, stored as video.mov, is found as the job's video here |
| VisionWorker.StoredMovIsVideo | upgrade/vision-worker/worker/run.py:135 | "video.mov" ends in one of the listed video extensions |
| VisionWorker.MeasureFrames | upgrade/vision-worker/worker/run.py:159-163 | the loop adds up the sizes of all extracted frames |
| VisionWorker.MmSsReadBack | upgrade/vision-worker/worker/run.py:175 | under 100 minutes a timestamp is two minute digits, ':', two second digits below 60, and reads back as the time |
| VisionWorker.BuildFramesIndex | upgrade/vision-worker/worker/run.py:166-177 | the loop appends one index entry per sorted frame, in order |
| VisionWorker.FramesIndexEntries | upgrade/vision-worker/worker/run.py:170-176 | entry i names the i-th sorted frame and is stamped i times the interval in seconds and as MM:SS |
| VisionWorker.PadTwo | upgrade/vision-worker/worker/run.py:175 | the two-digit padding of a number below 100 is its tens and units digits |
| VisionWorker.MmSsFirstMinute | upgrade/vision-worker/worker/run.py:175 | within the first minute the stamp is "00:" followed by the two digits of the seconds |
| VisionWorker.SixFramesIndex | upgrade/vision-worker/worker/run.py:166-177 | six frames are stamped 0, 5, ..., 25 seconds, "00:00" to "00:25" |
| VisionWorker.CoverFrame | upgrade/vision-worker/worker/run.py:182-187 | there is a cover frame exactly when there is at least one frame |
| VisionWorker.CoverIsMiddle | upgrade/vision-worker/worker/run.py:187 | the cover is the middle frame: as many frames before it as after it, or one more before |
| VisionWorker.Estimate | upgrade/vision-worker/worker/run.py:241-243 | the estimate is at least one frame of 50000 bytes, and 50000 bytes per whole interval once the video lasts two intervals |
| VisionWorker.ShortVideoIsOneFrame | upgrade/vision-worker/worker/run.py:242 | a video shorter than two intervals, or one whose duration could not be read, is estimated as one frame |
| VisionWorker.Outcome | upgrade/vision-worker/worker/run.py:218-293 | no video gives VIDEO_NOT_FOUND; with a video the pre-check refuses exactly when the estimate exceeds the remaining quota; success needs the pre-check, ffmpeg and (when there are frames) the imaging to pass |
| VisionWorker.FinalRowFields | upgrade/vision-worker/worker/run.py:219-302 | no video gives FAILED with VIDEO_NOT_FOUND and no start time; other failures give FAILED with FRAMES_ERROR and 500 characters of the error; success gives ASR_DONE with the frame bytes as frame and total bytes, frames and cover flags and expiry a year on; owner, mode and other byte counts are kept |
| VisionWorker.WithFramesSpec | upgrade/vision-worker/worker/run.py:148-157 | after extraction the frames directory holds exactly the listed frames and no other file changes |
| VisionWorker.IndexNamesFrames | upgrade/vision-worker/worker/run.py:166-177 | every index entry names a frame that is in the frames directory |
| VisionWorker.PostCheckNeverFires | upgrade/vision-worker/worker/run.py:255-260 | the post-extraction check total > remaining + total can never hold, since remaining is never negative |
| VisionWorker.NoVideoTouchesOnlyTheRow | upgrade/vision-worker/worker/run.py:218-226 | without a video only the job row changes, to FAILED with VIDEO_NOT_FOUND, and no file, directory or quota changes |
| VisionWorker.FailureChargesNothing | upgrade/vision-worker/worker/run.py:293-302 | a failure after the video was found records FRAMES_ERROR with at most 500 characters of the error and charges no quota |
| VisionWorker.SuccessChargesOnce | upgrade/vision-worker/worker/run.py:288-289 | a success adds exactly the measured frame bytes to the owner's usage, once, and leaves every other row alone |
| VisionWorker.UnrecordedOwnerIsNeverCharged | upgrade/vision-worker/worker/run.py:90-111 | an owner without a quota row passes the pre-check against the full default quota, yet the frames are never charged |
| VisionWorker.TotalBytesOverwritten | upgrade/vision-worker/worker/run.py:280-281 | total bytes become the frame bytes alone, dropping what the row counted before |
| VisionWorker.CoverFlagWithoutCover | upgrade/vision-worker/worker/run.py:180-184 | with no frames the job still ends with the cover flag set although no cover is written |
| VisionWorker.Worker.AddQuotaUsage | upgrade/vision-worker/worker/run.py:97-113 | the store's quota table becomes the added-usage table |
| VisionWorker.Worker.LocateVideo | upgrade/vision-worker/worker/run.py:216-218 | a video is found exactly when the raw directory exists and holds a video name, and the name found is one of the job's raw files |
| VisionWorker.Worker.Finish | upgrade/vision-worker/worker/run.py:252-289 | frames, index and (on imaging success) cover and thumbnail are written; the row becomes ASR_DONE and the owner is charged, or FAILED with no charge when imaging fails |
| VisionWorker.Worker.Attempt | upgrade/vision-worker/worker/run.py:236-302 | the try block leaves row, files, directories and quotas as the outcome functions say |
| VisionWorker.Worker.Process | upgrade/vision-worker/worker/run.py:212-302 | one job id leaves row, files, directories and quotas as the outcome functions say |
| VisionWorker.Worker.HandleNext | upgrade/vision-worker/worker/run.py:205-218 | an empty queue changes nothing; otherwise the head id is removed from queue:frames, its video looked up and the message processed |
| VisionWorker.TenthsHalfEven | upgrade/vision-worker/worker/run.py:247-248 | Python's `:.1f` of the size in MB picks the tenth nearest to the exact quotient, and an exact tie goes to the even tenth |
| VisionWorker.PyMbText | upgrade/vision-worker/worker/run.py:247-248 | the worker prints a size in MB with exactly one decimal |
| VisionWorker.HalfEvenAgreesOffTies | upgrade/vision-worker/worker/run.py:247-248 | the worker's MB figure equals the API's `toFixed(1)` figure unless the size is an exact odd number of twentieths of a MB; there it is the same or one tenth lower |
| VisionWorker.QuarterMbTie | upgrade/vision-worker/worker/run.py:247-248 | 262144 bytes are printed "0.2" by the worker and "0.3" by the API |
| WebUrl.FindSub | apps/web/components/portfolio/detail-modal.tsx:55 | the result is -1 exactly when `sub` does not occur; otherwise `sub` occurs there and at no earlier position (`includes` and the first piece of `split`) |
| WebUrl.SplitSecond | apps/web/components/portfolio/detail-modal.tsx:56 | `split(sep)[1]` is defined exactly when `sep` occurs, and is a prefix of the text after its first occurrence |
| WebUrl.Before | apps/web/components/portfolio/detail-modal.tsx:56 | `split(c)[0]` holds no `c`, is a prefix of the text, and stops just before the first `c` |
| WebUrl.FirstOf | apps/web/components/portfolio/detail-modal.tsx:58 | the scan for the end of a URL part stops at the first stop character, or at the end |
| WebUrl.NotContainsChar | apps/web/components/portfolio/ai-job-card.tsx:32 | a text without one of the characters of `sub` cannot contain `sub` |
| WebUrl.ParseUrl | apps/web/components/portfolio/detail-modal.tsx:58 | `new URL` succeeds only on text that holds a ':'; the text is read trimmed of C0 controls and spaces (see ParseUrlIgnoresPadding) |
| WebUrl.NoColonNoUrl | apps/web/components/portfolio/ai-job-card.tsx:35 | `new URL` throws on text without a ':' |
| WebUrl.ParseHttps | apps/web/components/portfolio/detail-modal.tsx:57-59 | an https URL with a plain host, a path and a query (not ending in a control or space) parses into exactly that scheme, host, path and query |
| WebUrl.ParseHttpsSlashes | apps/web/components/portfolio/ai-job-card.tsx:35 | an https URL parses the same with any number of slashes after the ':', none included, as the WHATWG URL Standard's special-authority-ignore-slashes state does |
| WebUrl.SpecialSlashes | apps/web/components/portfolio/ai-job-card.tsx:35 | a special scheme skips every '/' before its authority |
| WebUrl.OpaqueHostKeepsCase | apps/web/components/portfolio/ai-job-card.tsx:35-36 | a non-special scheme's URL "scheme://host/..." parses, and its `hostname` keeps the host's case |
| WebUrl.SpecialHostLowered | apps/web/components/portfolio/ai-job-card.tsx:35-36 | a special scheme's URL with a non-empty host parses, and its `hostname` is the host in lower case |
| WebUrl.TrimC0 | apps/web/components/portfolio/ai-job-card.tsx:35 | `new URL` reads its input without the C0 controls and spaces at either end: the trimmed text starts and ends with neither and holds only characters of the input |
| WebUrl.ParseUrlIgnoresPadding | apps/web/components/portfolio/ai-job-card.tsx:35 | leading and trailing C0 controls and spaces never change how a URL parses |
| WebUrl.QueryGet | apps/web/components/portfolio/detail-modal.tsx:59 | `searchParams.get` yields a value without '&' |
| WebUrl.QueryGetLeading | apps/web/components/portfolio/detail-modal.tsx:59 | a query that starts with `name=value` yields `value` for `name` |

## Left out

- Database, queue and file-system I/O. Prisma and MariaDB queries, the Redis `rpush`/`blpop`
  calls, and file writes, `mkdir` and `rm` are in-memory maps and sequences. A query's row order
  is the order of the sequence given. The SQL text of the workers' `update_job` is not modelled.
- External transforms. ffmpeg/ffprobe, faster-whisper and PIL resizing are opaque outcomes passed
  in as parameters. This includes the GPU start-up exit of the speech worker.
- Gemini calls, prompts and the parsing of AI replies. Their results are inputs.
- PowerPoint generation (`pptx-generator.service.ts`) is not part of this model. Neither is
  PDF rendering, nor writing the Slidev deck and its Vue components to disk.
- The regular-expression matching of the PDPA sensitive-data patterns. Each pattern's matches are
  an input to `PdpaScanner`.
- Floating point. Money is in satang and percentages are in hundredths.
  - SRT and text timings are integer milliseconds and centiseconds. The float truncation of
    `int((s % 1) * 1000)` is not modelled.
  - MB figures are computed on integers: the API rounds a tie up as `toFixed(1)` does, the vision worker rounds it to even as Python's `:.1f` does.
  - A mean's status is decided on the exact quotient `sum / count`.
- Clocks, dates and randomness are parameters.
  - "Now", "today" and the job-id generator are passed in.
  - Dates are day numbers or millisecond counts.
  - `toLocaleDateString`, dayjs and time-zone behaviour are not modelled.
  - `Dashboard` moves months with the day-overflow rule of `Date.setMonth` and ignores daylight
    saving.
- Concurrency: replicated workers, and the race between the service's QUEUED write and the
  worker's PROCESSING_ASR write. Every operation runs to completion alone. The unlocked
  read-then-write of a quota row is therefore atomic here.
- Strings are sequences of Dafny characters (Unicode scalar values). `toLowerCase`, `trim` and `\w`
  are modelled on ASCII only. There is no Unicode case folding or normalisation.
- PdpaExport.EscapeChar: lone UTF-16 surrogates, which `JSON.stringify` writes as `\uXXXX`, are
  not modelled, because a Dafny character is always a Unicode scalar value.
- URLs: `WebUrl.ParseUrl` trims leading and trailing C0 controls and spaces, skips any number of
  slashes after a special scheme and lower-cases only special hosts. It does not model:
  - percent-decoding, '+' as a space, or the removal of tabs and newlines inside the URL;
  - the `file` scheme, whose special host rules differ from the other special schemes;
  - IPv6 and IDNA hosts;
  - backslashes in special URLs;
  - port validation.
- A missing field (`null`, `undefined` or "") is the empty string or `None`, because every helper
  tests fields by JavaScript truthiness.
- `PortfolioItemCard` reuses the `DetailModal` link, name and preview-kind functions. The card's
  copies of `getFileUrl`, `getDisplayFilename` and `getFileType` are the same code.
- UI: React rendering, toasts, charts, the markdown boilerplate around deck slides (front matter,
  table headers), and the text templates of the readiness explanation and the narrative are not
  modelled. Only the data lines are modelled.
- Authentication, controllers, DTO validation and module wiring are framework plumbing.
- The thin CRUD services for teachers, schools, mentoring, PLC and assessments are not modelled.
- Dashboard.SortKeys: orders month keys by code units rather than by `localeCompare`. The two
  agree on the `YYYY-MM` keys the dashboard builds.
- Middleware: the `config.matcher` export, which chooses the paths the middleware runs on, is
  routing configuration and is not modelled. "Every path" in the Middleware lemmas means every
  path the middleware is run on.
- DeckGenerator.SortById: orders indicator ids by code units rather than by `localeCompare`. The
  two agree on the ASCII ids of the configuration, but a collation difference would not be
  captured.
- AiActivity.SortByDate: activities with equal creation times come in the order the insertion
  sort gives them. The database's order for ties is not modelled.
- Budget.ReportOf: the database groups the transactions by category. The model takes the groups
  as input and states only the arithmetic over them.
- Journals.JournalTable.Create: a clash with the unique (teacher, month) index is reported as a distinct
  error. The database's own error text is not modelled.
- MediaApi.Api.Upload: the user is the placeholder "me", and the current usage comes from a
  placeholder lookup. That usage is a parameter here.
- VisionWorker.Worker.Process: the worker's endless consumer loop is modelled as one `HandleNext`
  step per message.
- AsrWorker.Worker.Process: the worker's endless consumer loop is modelled as one `HandleNext`
  step per message.

## Findings

| source | as written | input that shows it | evidently intended | confidence | as-written member | corrected member |
|---|---|---|---|---|---|---|
| apps/api/src/pdpa/pdpa.service.ts:512-518 | an array held in a record field is written with `String(v)`, which gives "[object Object]" for a list of records | the export `{visits: [{note: "x"}]}` gives the row `visits,[object Object]` | array fields JSON-encoded, as the top-level array branch at line 508 does, so the user's visits, journals and consents reach the file | not executed | PdpaExport.ArrayFieldLostAsWritten | PdpaExport.ArrayFieldKept |
| apps/api/src/reports/reports.service.ts:16-25 | with both a province and a region filter, the second `school` key replaces the first and the province is dropped | filters province "Chiang Mai" and region "NORTH" select a teacher of a Lampang school in NORTH | both location conditions applied together | not executed | Reports.ProvinceDroppedAsWritten | Reports.FetchIntended |
| apps/web/components/portfolio/detail-modal.tsx:32-33 | the extension alternation tries "doc" before "docx" and is not anchored, so it takes "doc" first; likewise "xls" before "xlsx" and "ppt" before "pptx" | "/api/uploads/<36-character id>.docx" is linked as ".../<id>.doc" | the extension anchored to the end of the name, as the pattern of `getDisplayFilename` at line 40 is | not executed | DetailModal.DocxLinkedAsDoc | DetailModal.FixedKeepsEveryExtension |

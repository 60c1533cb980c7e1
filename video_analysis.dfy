/** The API side of media analysis: the lazily created quota row, job
    creation, the buffered upload, queueing, deletion, the periodic AI
    analysis pass and the expiry of extracted frames.  The clock, the job
    id generator and the AI provider are parameters. */
module VideoAnalysis {
  import opened Common
  import opened NodePath
  import opened MediaStore

  /** The quota configured when `ANALYSIS_QUOTA_BYTES` is not set (1 GiB). */
  const DefaultQuota: nat := 1073741824

  const BytesPerMb: nat := 1048576

  datatype HttpError =
    | NotFound(message: string)
    | BadRequest(message: string)
    | Conflict(message: string)

  datatype QuotaView = QuotaView(limitBytes: nat, usageBytes: nat, remainingBytes: nat)

  datatype CreateJobRequest = CreateJobRequest(
    analysisMode: AnalysisMode, sourceType: Option<string>, originalFilename: Option<string>)

  /** The part of a multer upload the service reads. */
  datatype UploadedFile = UploadedFile(originalname: string, mimetype: string, size: nat)

  datatype UploadReply = UploadReply(status: JobStatus, rawBytes: nat)

  /** The fields of the AI provider's answer that the job row keeps; "" is an absent field. */
  datatype GeminiAnalysis = GeminiAnalysis(summary: string, advice: string)

  const MissingTranscript: string := "ไม่พบไฟล์ transcript"
  const EmptyTranscript: string := "Transcript ว่างเปล่า"
  const QuotaFullMessage: string := "โควต้าเต็ม – ไม่สามารถสร้างงานใหม่ได้ กรุณาลบงานเก่า"
  const QueueDownMessage: string := "ระบบ Queue ไม่พร้อมใช้งาน (Redis ไม่ได้เชื่อมต่อ)"

  /** The quota row `getOrCreateQuota` returns: the stored one, or a fresh one with usage 0. */
  function QuotaOr(quotas: map<string, Quota>, userId: string, limit: nat): (q: Quota)
    ensures userId in quotas ==> q == quotas[userId]
    ensures userId !in quotas ==> q == Quota(limit, 0)
  {
    if userId in quotas then quotas[userId] else Quota(limit, 0)
  }

  /** `subtractQuotaUsage`: usage lowered by `delta` and floored at 0. */
  function Subtracted(q: Quota, delta: nat): (r: Quota)
    ensures r.limitBytes == q.limitBytes
    ensures r.usageBytes <= q.usageBytes
    ensures delta <= q.usageBytes ==> r.usageBytes + delta == q.usageBytes
    ensures delta >= q.usageBytes ==> r.usageBytes == 0
  {
    q.(usageBytes := ClampZero(q.usageBytes - delta))
  }

  /** A number of tenths written with one decimal: "12.3" for 123. */
  function OneDecimal(tenths: nat): (s: string)
    ensures |s| >= 3 && s[|s| - 2] == '.' && s[|s| - 1] == DigitChar(tenths % 10)
  {
    NatToString(tenths / 10) + "." + [DigitChar(tenths % 10)]
  }

  /** `bytes / 1024 / 1024` in tenths, to the nearest tenth, an exact tie rounded up as
      `toFixed` does. */
  function TenthsHalfUp(bytes: nat): (t: nat)
    ensures (2 * t - 1) * BytesPerMb <= 20 * bytes < (2 * t + 1) * BytesPerMb
  {
    (20 * bytes + BytesPerMb) / (2 * BytesPerMb)
  }

  /** `(bytes / 1024 / 1024).toFixed(1)`: one decimal, ties rounded up. */
  function MbText(bytes: nat): (s: string)
    ensures |s| >= 3 && s[|s| - 2] == '.'
  {
    OneDecimal(TenthsHalfUp(bytes))
  }

  lemma MbTextExamples()
    ensures MbText(0) == "0.0"
    ensures MbText(BytesPerMb) == "1.0"
    ensures MbText(BytesPerMb + BytesPerMb / 2) == "1.5"
  {
    assert (20 * BytesPerMb + BytesPerMb) / (2 * BytesPerMb) == 10;
    assert (20 * (BytesPerMb + BytesPerMb / 2) + BytesPerMb) / (2 * BytesPerMb) == 15;
    assert NatToString(1) == "1" && NatToString(0) == "0";
  }

  function UploadTooLargeMessage(size: nat, remaining: nat): string {
    "ไฟล์ขนาด " + MbText(size) + " MB เกินโควต้าที่เหลือ " + MbText(remaining) + " MB"
  }

  /** The stored raw file: `video` + `extname(originalname || '.mp4') || '.mp4'`. */
  function RawVideoName(originalname: string): (n: string)
    ensures StartsWith(n, "video.")
  {
    var e := ExtName(if originalname == [] then ".mp4" else originalname);
    if e == [] then "video.mp4" else "video" + e
  }

  /** The raw file is `video.mp4` exactly when the upload's extension is
      ".mp4" or it has none: a ".mov" upload is stored as `video.mov`. */
  lemma RawVideoNameMp4(originalname: string)
    ensures RawVideoName(originalname) == "video.mp4" <==>
      (var e := ExtName(if originalname == [] then ".mp4" else originalname); e == [] || e == ".mp4")
  {
    var e := ExtName(if originalname == [] then ".mp4" else originalname);
    if e != [] {
      assert RawVideoName(originalname) == "video" + e;
      assert ("video" + e)[5..] == e;
    }
  }

  /** A `stem.ext` upload is stored as `video.ext`, whatever dots the stem holds. */
  lemma RawVideoNameOfStemAndExt(stem: string, ext: string)
    requires stem != [] && '.' !in ext
    requires '/' !in stem && '/' !in ext
    requires stem + "." + ext != ".."
    ensures RawVideoName(stem + "." + ext) == "video." + ext
  {
    ExtNameOfStemAndExt(stem, ext);
    RawVideoNameOfExt(stem + "." + ext, "." + ext);
    VideoDot(ext);
  }

  /** A dot file such as ".mov" has no extension and is stored as `video.mp4`. */
  lemma RawVideoNameOfDotFile(ext: string)
    requires '.' !in ext && '/' !in ext
    ensures RawVideoName("." + ext) == "video.mp4"
  {
    ExtNameOfDotFile(ext);
    RawVideoNameWithoutExt("." + ext);
  }

  lemma RawVideoNameWithoutExt(p: string)
    requires p != [] && ExtName(p) == []
    ensures RawVideoName(p) == "video.mp4"
  {
  }

  lemma VideoDot(ext: string)
    ensures "video" + ("." + ext) == "video." + ext
  {
    assert "video" + "." == "video.";
  }

  lemma RawVideoNameOfExt(p: string, e: string)
    requires p != [] && e != [] && ExtName(p) == e
    ensures RawVideoName(p) == "video" + e
  {
  }

  /** `x || null` on a string: "" is stored as null. */
  function OrNull(s: string): (r: Option<string>)
    ensures r == None <==> s == []
    ensures r.Some? ==> r.value == s
  {
    if s == [] then None else Some(s)
  }

  function SegmentTexts(segs: seq<Segment>): (r: seq<string>)
    ensures |r| == |segs|
    ensures forall i :: 0 <= i < |segs| ==> r[i] == segs[i].text
  {
    if segs == [] then [] else [segs[0].text] + SegmentTexts(segs[1..])
  }

  /** What `analyzeTranscript` gets from reading the transcript and asking
      the AI provider: the segment texts joined by ' ', truncated to 15000
      characters for the prompt; a missing or empty transcript is an error. */
  function TranscriptOutcome(transcript: Option<FileContent>,
                             gemini: string -> Result<GeminiAnalysis, string>): (r: Result<GeminiAnalysis, string>)
    ensures !(transcript.Some? && transcript.value.TranscriptJson?) ==> r == Err(MissingTranscript)
    ensures transcript.Some? && transcript.value.TranscriptJson? ==>
      var text := Join(SegmentTexts(transcript.value.segments), " ");
      if Trim(text) == [] then r == Err(EmptyTranscript) else r == gemini(Take(text, 15000))
  {
    match transcript
    case Some(TranscriptJson(segs)) =>
      var text := Join(SegmentTexts(segs), " ");
      if Trim(text) == [] then Err(EmptyTranscript) else gemini(Take(text, 15000))
    case _ => Err(MissingTranscript)
  }

  /** The owner check every per-job endpoint makes first. */
  function Owned(jobs: map<string, Job>, jobId: string, userId: string): (r: Result<Job, HttpError>)
    ensures jobId !in jobs ==> r == Err(NotFound("Job not found"))
    ensures jobId in jobs && jobs[jobId].userId != userId ==> r == Err(BadRequest("Unauthorized"))
    ensures jobId in jobs && jobs[jobId].userId == userId ==> r == Ok(jobs[jobId])
  {
    if jobId !in jobs then Err(NotFound("Job not found"))
    else if jobs[jobId].userId != userId then Err(BadRequest("Unauthorized"))
    else Ok(jobs[jobId])
  }

  /** The row after a successful upload. */
  function UploadedJob(j: Job, file: UploadedFile, now: int): (r: Job)
    ensures r.status == Uploaded && r.rawBytes == file.size && r.totalBytes == file.size
    ensures r.userId == j.userId && r.analysisMode == j.analysisMode
  {
    j.(status := Uploaded, rawBytes := file.size, totalBytes := file.size,
       mimeType := Some(file.mimetype), originalFilename := Some(file.originalname),
       uploadedAt := Some(now))
  }

  /** The row after a successful analysis. */
  function DoneJob(j: Job, a: GeminiAnalysis, now: int): Job {
    j.(status := Done, hasReport := true, transcriptSummary := OrNull(a.summary),
       aiAdvice := OrNull(a.advice), analysisDoneAt := Some(now), doneAt := Some(now))
  }

  /** The row after the first pass of `runPendingAnalysis` handled it. */
  function FirstPassJob(j: Job, outcome: Result<GeminiAnalysis, string>, now: int, nowPlusYear: int): (r: Job)
    ensures (j.analysisMode == TextOnly || j.hasFrames) && outcome.Ok? ==> r.status == Done && r.hasReport
    ensures (j.analysisMode == TextOnly || j.hasFrames) && outcome.Err? ==>
      r.status == Failed && r.errorMessage == Some("Analysis error: " + outcome.error) && r.errorCode == j.errorCode
    ensures j.analysisMode == Full && !j.hasFrames ==> r == j
    ensures j.analysisMode == Full && j.hasFrames && outcome.Ok? ==> r.framesExpiresAt == Some(nowPlusYear)
    ensures r.userId == j.userId && r.totalBytes == j.totalBytes && r.framesBytes == j.framesBytes
  {
    if j.analysisMode == Full && !j.hasFrames then j
    else
      match outcome
      case Err(m) => FailedAnalysis(j.(status := Analyzing), m)
      case Ok(a) => if j.analysisMode == Full then SecondPassJob(j, outcome, now, nowPlusYear) else DoneJob(j, a, now)
  }

  /** The `catch` of the first pass: FAILED with the provider's message. */
  function FailedAnalysis(j: Job, m: string): Job {
    j.(status := Failed, errorMessage := Some("Analysis error: " + m))
  }

  /** The row after the second pass (frames finished) handled it: a failure
      is only logged, so the row stays in ANALYZING. */
  function SecondPassJob(j: Job, outcome: Result<GeminiAnalysis, string>, now: int, nowPlusYear: int): (r: Job)
    ensures outcome.Ok? ==> r.status == Done && r.hasReport && r.framesExpiresAt == Some(nowPlusYear)
    ensures outcome.Err? ==> r == j.(status := Analyzing)
  {
    match outcome
    case Err(_) => j.(status := Analyzing)
    case Ok(a) => DoneJob(j, a, now).(framesExpiresAt := Some(nowPlusYear))
  }

  /** The job table after the first pass handled the jobs `ids`. */
  function AfterFirstPass(jobs: map<string, Job>, files: map<JobPath, FileContent>, ids: set<string>,
                          gemini: string -> Result<GeminiAnalysis, string>, now: int, nowPlusYear: int): map<string, Job>
  {
    map id | id in jobs ::
      if id in ids then FirstPassJob(jobs[id], TranscriptOutcome(FileAt(files, TranscriptPath(id)), gemini), now, nowPlusYear)
      else jobs[id]
  }

  /** The job table after the second pass handled the jobs `ids`. */
  function AfterSecondPass(jobs: map<string, Job>, files: map<JobPath, FileContent>, ids: set<string>,
                           gemini: string -> Result<GeminiAnalysis, string>, now: int, nowPlusYear: int): map<string, Job>
  {
    map id | id in jobs ::
      if id in ids then SecondPassJob(jobs[id], TranscriptOutcome(FileAt(files, TranscriptPath(id)), gemini), now, nowPlusYear)
      else jobs[id]
  }

  lemma AfterFirstPassStep(jobs: map<string, Job>, files: map<JobPath, FileContent>, ids: set<string>, id: string,
                           gemini: string -> Result<GeminiAnalysis, string>, now: int, nowPlusYear: int)
    requires id in jobs && id !in ids
    ensures AfterFirstPass(jobs, files, ids, gemini, now, nowPlusYear)[id :=
              FirstPassJob(jobs[id], TranscriptOutcome(FileAt(files, TranscriptPath(id)), gemini), now, nowPlusYear)]
            == AfterFirstPass(jobs, files, ids + {id}, gemini, now, nowPlusYear)
  {
  }

  lemma AfterSecondPassStep(jobs: map<string, Job>, files: map<JobPath, FileContent>, ids: set<string>, id: string,
                            gemini: string -> Result<GeminiAnalysis, string>, now: int, nowPlusYear: int)
    requires id in jobs && id !in ids
    ensures AfterSecondPass(jobs, files, ids, gemini, now, nowPlusYear)[id :=
              SecondPassJob(jobs[id], TranscriptOutcome(FileAt(files, TranscriptPath(id)), gemini), now, nowPlusYear)]
            == AfterSecondPass(jobs, files, ids + {id}, gemini, now, nowPlusYear)
  {
  }

  /** The two passes of `runPendingAnalysis` over disjoint batches: each
      job of a batch gets that pass's row, every other job keeps its row. */
  lemma TwoPasses(jobs: map<string, Job>, files0: map<JobPath, FileContent>, files1: map<JobPath, FileContent>,
                  first: seq<string>, second: seq<string>,
                  gemini: string -> Result<GeminiAnalysis, string>, now: int, nowPlusYear: int)
    requires forall i :: 0 <= i < |first| ==> first[i] in jobs
    requires forall i :: 0 <= i < |second| ==> second[i] in jobs && second[i] !in first
    requires forall id :: FileAt(files1, TranscriptPath(id)) == FileAt(files0, TranscriptPath(id))
    ensures var r := AfterSecondPass(AfterFirstPass(jobs, files0, (set x | x in first), gemini, now, nowPlusYear),
                                     files1, (set x | x in second), gemini, now, nowPlusYear);
      r.Keys == jobs.Keys &&
      (forall i :: 0 <= i < |first| ==>
        r[first[i]] == FirstPassJob(jobs[first[i]], TranscriptOutcome(FileAt(files0, TranscriptPath(first[i])), gemini), now, nowPlusYear)) &&
      (forall i :: 0 <= i < |second| ==>
        r[second[i]] == SecondPassJob(jobs[second[i]], TranscriptOutcome(FileAt(files0, TranscriptPath(second[i])), gemini), now, nowPlusYear)) &&
      (forall id :: id in jobs && id !in first && id !in second ==> r[id] == jobs[id])
  {
    var mid := AfterFirstPass(jobs, files0, (set x | x in first), gemini, now, nowPlusYear);
    forall i | 0 <= i < |second|
      ensures mid[second[i]] == jobs[second[i]]
    {
      assert second[i] !in (set x | x in first);
    }
  }

  /** A job the first pass handled is DONE, FAILED or still ASR_DONE, never PROCESSING_FRAMES. */
  lemma FirstPassLeavesNoFramesReady(jobs: map<string, Job>, files: map<JobPath, FileContent>, first: seq<string>,
                                     gemini: string -> Result<GeminiAnalysis, string>, now: int, nowPlusYear: int)
    requires forall i :: 0 <= i < |first| ==> first[i] in jobs && ReadyForAnalysis(jobs[first[i]])
    ensures var r := AfterFirstPass(jobs, files, (set x | x in first), gemini, now, nowPlusYear);
      forall id :: id in first ==> id in r && !FramesReady(r[id])
  {
    var r := AfterFirstPass(jobs, files, (set x | x in first), gemini, now, nowPlusYear);
    forall id | id in first ensures id in r && !FramesReady(r[id]) {
      var i :| 0 <= i < |first| && first[i] == id;
      assert id in (set x | x in first);
    }
  }

  predicate ReadyForAnalysis(j: Job) {
    j.status == AsrDone
  }

  predicate FramesReady(j: Job) {
    j.status == ProcessingFrames && j.hasFrames
  }

  predicate FramesExpired(j: Job, now: int) {
    j.framesExpiresAt.Some? && j.framesExpiresAt.value <= now && j.framesDeletedAt == None && j.hasFrames
  }

  /** The row after its frames were purged. */
  function PurgedJob(j: Job, now: int): (r: Job)
    ensures !r.hasFrames && r.framesBytes == 0 && r.framesDeletedAt == Some(now)
    ensures r.totalBytes == ClampZero(j.totalBytes - j.framesBytes)
    ensures r.status == j.status && r.userId == j.userId
  {
    j.(framesDeletedAt := Some(now), hasFrames := false,
       totalBytes := ClampZero(j.totalBytes - j.framesBytes), framesBytes := 0)
  }

  function ReportPath(id: string): JobPath {
    JobPath(id, ReportJsonFile)
  }

  function TranscriptPath(id: string): JobPath {
    JobPath(id, TranscriptJsonFile)
  }

  /** The quota table after `subtractQuotaUsage` ran for each purged job in turn. */
  function QuotasAfterPurge(quotas: map<string, Quota>, limit: nat, jobs: map<string, Job>, batch: seq<string>): map<string, Quota>
    requires forall i :: 0 <= i < |batch| ==> batch[i] in jobs
    decreases |batch|
  {
    if batch == [] then quotas
    else
      var prev := QuotasAfterPurge(quotas, limit, jobs, batch[..|batch| - 1]);
      var j := jobs[batch[|batch| - 1]];
      prev[j.userId := Subtracted(QuotaOr(prev, j.userId, limit), j.framesBytes)]
  }

  lemma QuotasAfterPurgeStep(quotas: map<string, Quota>, limit: nat, jobs: map<string, Job>, batch: seq<string>, i: nat)
    requires i < |batch| && forall k :: 0 <= k < |batch| ==> batch[k] in jobs
    ensures var prev := QuotasAfterPurge(quotas, limit, jobs, batch[..i]);
      var j := jobs[batch[i]];
      QuotasAfterPurge(quotas, limit, jobs, batch[..i + 1]) ==
        prev[j.userId := Subtracted(QuotaOr(prev, j.userId, limit), j.framesBytes)]
  {
    assert batch[..i + 1][..i] == batch[..i];
  }

  /** The job table once the frames of `ids` are purged. */
  function AfterPurge(jobs: map<string, Job>, ids: set<string>, now: int): map<string, Job> {
    map id | id in jobs :: if id in ids then PurgedJob(jobs[id], now) else jobs[id]
  }

  lemma AfterPurgeStep(jobs: map<string, Job>, ids: set<string>, id: string, now: int)
    requires id in jobs && id !in ids
    ensures AfterPurge(jobs, ids, now)[id := PurgedJob(jobs[id], now)] == AfterPurge(jobs, ids + {id}, now)
  {
  }

  /** The files left once the frame directories of `ids` are removed. */
  function FilesWithoutFrames(files: map<JobPath, FileContent>, ids: set<string>): map<JobPath, FileContent> {
    map p | p in files && !(p.file.Dir() == Frames && p.jobId in ids) :: files[p]
  }

  function DirsWithoutFrames(dirs: set<(string, Dir)>, ids: set<string>): set<(string, Dir)> {
    set d | d in dirs && !(d.1 == Frames && d.0 in ids)
  }

  /** The three folds once every id in `batch` is done, element by element. */
  lemma PurgedState(jobs: map<string, Job>, files: map<JobPath, FileContent>, dirs: set<(string, Dir)>,
                    done: set<string>, batch: seq<string>, now: int)
    requires forall x :: x in done <==> x in batch
    ensures AfterPurge(jobs, done, now).Keys == jobs.Keys
    ensures forall id :: id in jobs ==>
      AfterPurge(jobs, done, now)[id] == if id in batch then PurgedJob(jobs[id], now) else jobs[id]
    ensures forall p :: p in FilesWithoutFrames(files, done) <==> p in files && !(p.file.Dir() == Frames && p.jobId in batch)
    ensures forall p :: p in FilesWithoutFrames(files, done) ==> FilesWithoutFrames(files, done)[p] == files[p]
    ensures forall d :: d in DirsWithoutFrames(dirs, done) <==> d in dirs && !(d.1 == Frames && d.0 in batch)
  {
  }

  lemma FramesRemovalStep(files: map<JobPath, FileContent>, dirs: set<(string, Dir)>, ids: set<string>, id: string)
    ensures RemoveDir(FilesWithoutFrames(files, ids), id, Frames) == FilesWithoutFrames(files, ids + {id})
    ensures (set d | d in DirsWithoutFrames(dirs, ids) && !(d.1 == Frames && d.0 == id)) == DirsWithoutFrames(dirs, ids + {id})
  {
  }

  /** The frame bytes of `u`'s jobs among `batch`. */
  function FramesOf(jobs: map<string, Job>, batch: seq<string>, u: string): nat
    requires forall i :: 0 <= i < |batch| ==> batch[i] in jobs
    decreases |batch|
  {
    if batch == [] then 0
    else
      var j := jobs[batch[|batch| - 1]];
      FramesOf(jobs, batch[..|batch| - 1], u) + (if j.userId == u then j.framesBytes else 0)
  }

  predicate Touches(jobs: map<string, Job>, batch: seq<string>, u: string)
    requires forall i :: 0 <= i < |batch| ==> batch[i] in jobs
  {
    exists i :: 0 <= i < |batch| && jobs[batch[i]].userId == u
  }

  /** Subtracting one job at a time, each floored at 0, is the same as
      subtracting the user's total frame bytes once: the user's row is
      created if missing and ends at max(0, usage - frames). */
  lemma {:induction false} QuotasAfterPurgeClosedForm(quotas: map<string, Quota>, limit: nat,
                                                    jobs: map<string, Job>, batch: seq<string>, u: string)
    requires forall i :: 0 <= i < |batch| ==> batch[i] in jobs
    ensures var r := QuotasAfterPurge(quotas, limit, jobs, batch);
      if Touches(jobs, batch, u) then
        u in r && r[u] == Subtracted(QuotaOr(quotas, u, limit), FramesOf(jobs, batch, u))
      else
        (u in r <==> u in quotas) && (u in r ==> r[u] == quotas[u])
    decreases |batch|
  {
    if batch != [] {
      var init := batch[..|batch| - 1];
      var last := jobs[batch[|batch| - 1]];
      QuotasAfterPurgeClosedForm(quotas, limit, jobs, init, u);
      if Touches(jobs, batch, u) && !Touches(jobs, init, u) {
        assert last.userId == u by {
          var i :| 0 <= i < |batch| && jobs[batch[i]].userId == u;
          assert i >= |init|;
        }
        assert FramesOf(jobs, init, u) == 0 by {
          NoJobsNoFrames(jobs, init, u);
        }
      }
      if Touches(jobs, init, u) {
        var i :| 0 <= i < |init| && jobs[init[i]].userId == u;
        assert batch[i] == init[i];
      }
    }
  }

  lemma {:induction false} NoJobsNoFrames(jobs: map<string, Job>, batch: seq<string>, u: string)
    requires forall i :: 0 <= i < |batch| ==> batch[i] in jobs
    requires !Touches(jobs, batch, u)
    ensures FramesOf(jobs, batch, u) == 0
    decreases |batch|
  {
    if batch != [] {
      var init := batch[..|batch| - 1];
      forall i | 0 <= i < |init|
        ensures jobs[init[i]].userId != u
      {
        assert init[i] == batch[i];
      }
      NoJobsNoFrames(jobs, init, u);
    }
  }

  class Service {
    const db: Store
    const quotaLimit: nat
    /** Whether a Redis connection was opened at start-up. */
    const queueConnected: bool

    constructor (db: Store, quotaLimit: nat, queueConnected: bool)
      ensures this.db == db && this.quotaLimit == quotaLimit && this.queueConnected == queueConnected
    {
      this.db := db;
      this.quotaLimit := quotaLimit;
      this.queueConnected := queueConnected;
    }

    method GetOrCreateQuota(userId: string) returns (q: Quota)
      modifies db`quotas
      ensures q == QuotaOr(old(db.quotas), userId, quotaLimit)
      ensures db.quotas == old(db.quotas)[userId := q]
    {
      if userId in db.quotas {
        q := db.quotas[userId];
      } else {
        q := Quota(quotaLimit, 0);
        db.quotas := db.quotas[userId := q];
      }
    }

    method GetQuota(userId: string) returns (v: QuotaView)
      modifies db`quotas
      ensures var q := QuotaOr(old(db.quotas), userId, quotaLimit);
        v == QuotaView(q.limitBytes, q.usageBytes, RemainingBytes(q)) && db.quotas == old(db.quotas)[userId := q]
    {
      var q := GetOrCreateQuota(userId);
      v := QuotaView(q.limitBytes, q.usageBytes, RemainingBytes(q));
    }

    /** An `increment` update: the row must exist, as every caller created it first. */
    method AddQuotaUsage(userId: string, delta: nat)
      requires userId in db.quotas
      modifies db`quotas
      ensures db.quotas == old(db.quotas)[userId := old(db.quotas[userId]).(usageBytes := old(db.quotas[userId]).usageBytes + delta)]
    {
      var q := db.quotas[userId];
      db.quotas := db.quotas[userId := q.(usageBytes := q.usageBytes + delta)];
    }

    method SubtractQuotaUsage(userId: string, delta: nat)
      modifies db`quotas
      ensures db.quotas == old(db.quotas)[userId := Subtracted(QuotaOr(old(db.quotas), userId, quotaLimit), delta)]
    {
      var q := GetOrCreateQuota(userId);
      db.quotas := db.quotas[userId := Subtracted(q, delta)];
    }

    method CreateJob(userId: string, teacherId: Option<string>, dto: CreateJobRequest, jobId: string)
      returns (r: Result<Job, HttpError>)
      requires jobId !in db.jobs   // a fresh uuid
      modifies db`quotas, db`jobs, db`dirs
      ensures var q := QuotaOr(old(db.quotas), userId, quotaLimit);
        db.quotas == old(db.quotas)[userId := q] &&
        if RemainingBytes(q) == 0 then
          r == Err(Conflict(QuotaFullMessage)) && db.jobs == old(db.jobs) && db.dirs == old(db.dirs)
        else
          r.Ok? && r.value.status == Uploading && r.value.userId == userId &&
          db.jobs == old(db.jobs)[jobId := r.value] &&
          r.value == NewJob(userId, teacherId, dto.analysisMode,
                            if dto.sourceType.GetOr("") == "" then "UPLOAD" else dto.sourceType.value,
                            OrNull(dto.originalFilename.GetOr(""))) &&
          db.dirs == old(db.dirs) + {(jobId, Raw), (jobId, Artifacts)}
    {
      var quota := GetQuota(userId);
      if quota.remainingBytes <= 0 {
        return Err(Conflict(QuotaFullMessage));
      }
      db.dirs := db.dirs + {(jobId, Raw), (jobId, Artifacts)};
      var sourceType := if dto.sourceType.GetOr("") == "" then "UPLOAD" else dto.sourceType.value;
      var job := NewJob(userId, teacherId, dto.analysisMode, sourceType, OrNull(dto.originalFilename.GetOr("")));
      db.jobs := db.jobs[jobId := job];
      r := Ok(job);
    }

    method UploadFile(jobId: string, userId: string, file: UploadedFile, now: int)
      returns (r: Result<UploadReply, HttpError>)
      modifies db`quotas, db`jobs, db`dirs, db`files
      ensures jobId !in old(db.jobs) ==> r == Err(NotFound("Job not found")) && unchanged(db)
      ensures jobId in old(db.jobs) && old(db.jobs[jobId]).userId != userId ==>
        r == Err(BadRequest("Unauthorized")) && unchanged(db)
      ensures jobId in old(db.jobs) && old(db.jobs[jobId]).userId == userId && old(db.jobs[jobId]).status != Uploading ==>
        r == Err(BadRequest("Job is not in UPLOADING state")) && unchanged(db)
      ensures jobId in old(db.jobs) && old(db.jobs[jobId]).userId == userId && old(db.jobs[jobId]).status == Uploading ==>
        var q := QuotaOr(old(db.quotas), userId, quotaLimit);
        if file.size > RemainingBytes(q) then
          r == Err(Conflict(UploadTooLargeMessage(file.size, RemainingBytes(q)))) &&
          db.quotas == old(db.quotas)[userId := q] &&
          db.jobs == old(db.jobs) && db.dirs == old(db.dirs) && db.files == old(db.files)
        else
          r == Ok(UploadReply(Uploaded, file.size)) &&
          db.jobs == old(db.jobs)[jobId := UploadedJob(old(db.jobs[jobId]), file, now)] &&
          db.quotas == old(db.quotas)[userId := q.(usageBytes := q.usageBytes + file.size)] &&
          (q.usageBytes <= q.limitBytes ==> q.usageBytes + file.size <= q.limitBytes) &&
          db.dirs == old(db.dirs) + {(jobId, Raw)} &&
          db.files == old(db.files)[JobPath(jobId, RawVideo(RawVideoName(file.originalname))) := Blob(file.size)]
    {
      var found := Owned(db.jobs, jobId, userId);
      if found.Err? {
        return Err(found.error);
      }
      var job := found.value;
      if job.status != Uploading {
        return Err(BadRequest("Job is not in UPLOADING state"));
      }
      r := AcceptUpload(jobId, userId, job, file, now);
    }

    /** The quota guard of `uploadFile`, once the job is known to be the
        caller's and in UPLOADING. */
    method AcceptUpload(jobId: string, userId: string, job: Job, file: UploadedFile, now: int)
      returns (r: Result<UploadReply, HttpError>)
      requires jobId in db.jobs
      modifies db`quotas, db`jobs, db`dirs, db`files
      ensures var q := QuotaOr(old(db.quotas), userId, quotaLimit);
        if file.size > RemainingBytes(q) then
          r == Err(Conflict(UploadTooLargeMessage(file.size, RemainingBytes(q)))) &&
          db.quotas == old(db.quotas)[userId := q] &&
          db.jobs == old(db.jobs) && db.dirs == old(db.dirs) && db.files == old(db.files)
        else
          r == Ok(UploadReply(Uploaded, file.size)) &&
          db.quotas == old(db.quotas)[userId := q.(usageBytes := q.usageBytes + file.size)] &&
          db.jobs == old(db.jobs)[jobId := UploadedJob(job, file, now)] &&
          db.dirs == old(db.dirs) + {(jobId, Raw)} &&
          db.files == old(db.files)[JobPath(jobId, RawVideo(RawVideoName(file.originalname))) := Blob(file.size)]
    {
      // `getQuota` creates a missing row and the accepted branch then
      // increments it; both land in the one write per branch below
      var q := QuotaOr(db.quotas, userId, quotaLimit);
      var remaining := RemainingBytes(q);
      if file.size > remaining {
        db.quotas := db.quotas[userId := q];
        return Err(Conflict(UploadTooLargeMessage(file.size, remaining)));
      }
      StoreUpload(jobId, userId, job, file, q, now);
      r := Ok(UploadReply(Uploaded, file.size));
    }

    /** The accepted branch of `uploadFile`: the video is written under
        `raw/`, the row becomes UPLOADED and the owner's usage grows. */
    method StoreUpload(jobId: string, userId: string, job: Job, file: UploadedFile, q: Quota, now: int)
      requires jobId in db.jobs
      modifies db`quotas, db`jobs, db`dirs, db`files
      ensures db.dirs == old(db.dirs) + {(jobId, Raw)}
      ensures db.files == old(db.files)[JobPath(jobId, RawVideo(RawVideoName(file.originalname))) := Blob(file.size)]
      ensures db.jobs == old(db.jobs)[jobId := UploadedJob(job, file, now)]
      ensures db.quotas == old(db.quotas)[userId := q.(usageBytes := q.usageBytes + file.size)]
    {
      db.dirs := db.dirs + {(jobId, Raw)};
      db.files := db.files[JobPath(jobId, RawVideo(RawVideoName(file.originalname))) := Blob(file.size)];
      db.jobs := db.jobs[jobId := UploadedJob(job, file, now)];
      db.quotas := db.quotas[userId := q.(usageBytes := q.usageBytes + file.size)];
    }

    method ProcessJob(jobId: string, userId: string, now: int) returns (r: Result<string, HttpError>)
      modifies db`jobs, db`jobQueue
      ensures jobId !in old(db.jobs) ==> r == Err(NotFound("Job not found")) && unchanged(db)
      ensures jobId in old(db.jobs) && old(db.jobs[jobId]).userId != userId ==>
        r == Err(BadRequest("Unauthorized")) && unchanged(db)
      ensures jobId in old(db.jobs) && old(db.jobs[jobId]).userId == userId && old(db.jobs[jobId]).status != Uploaded ==>
        r == Err(BadRequest("Job must be UPLOADED before processing")) && unchanged(db)
      ensures jobId in old(db.jobs) && old(db.jobs[jobId]).userId == userId && old(db.jobs[jobId]).status == Uploaded ==>
        if !queueConnected then
          r == Err(BadRequest(QueueDownMessage)) && unchanged(db)
        else
          r == Ok(jobId) &&
          db.jobQueue == old(db.jobQueue) + [JobMessage(jobId, Some(old(db.jobs[jobId]).analysisMode.Name()))] &&
          db.jobs == old(db.jobs)[jobId := old(db.jobs[jobId]).(status := Queued, queuedAt := Some(now))]
    {
      var found := Owned(db.jobs, jobId, userId);
      if found.Err? {
        return Err(found.error);
      }
      var job := found.value;
      if job.status != Uploaded {
        return Err(BadRequest("Job must be UPLOADED before processing"));
      }
      if !queueConnected {
        return Err(BadRequest(QueueDownMessage));
      }
      db.jobQueue := db.jobQueue + [JobMessage(jobId, Some(job.analysisMode.Name()))];
      db.jobs := db.jobs[jobId := job.(status := Queued, queuedAt := Some(now))];
      r := Ok(jobId);
    }

    method DeleteJob(jobId: string, userId: string) returns (r: Result<bool, HttpError>)
      modifies db`jobs, db`quotas, db`dirs, db`files
      ensures jobId !in old(db.jobs) ==> r == Err(NotFound("Job not found")) && unchanged(db)
      ensures jobId in old(db.jobs) && old(db.jobs[jobId]).userId != userId ==>
        r == Err(BadRequest("Unauthorized")) && unchanged(db)
      ensures jobId in old(db.jobs) && old(db.jobs[jobId]).userId == userId ==>
        var total := old(db.jobs[jobId]).totalBytes;
        r == Ok(true) &&
        db.jobs == old(db.jobs) - {jobId} &&
        db.quotas == (if total > 0
                      then old(db.quotas)[userId := Subtracted(QuotaOr(old(db.quotas), userId, quotaLimit), total)]
                      else old(db.quotas)) &&
        db.dirs == (set d | d in old(db.dirs) && d.0 != jobId) &&
        db.files == RemoveJobFiles(old(db.files), jobId)
    {
      var found := Owned(db.jobs, jobId, userId);
      if found.Err? {
        return Err(found.error);
      }
      var job := found.value;
      if job.totalBytes > 0 {
        SubtractQuotaUsage(userId, job.totalBytes);
      }
      db.dirs := set d | d in db.dirs && d.0 != jobId;
      db.files := RemoveJobFiles(db.files, jobId);
      db.jobs := db.jobs - {jobId};
      r := Ok(true);
    }

    /** `analyzeTranscript` for one job: ANALYZING, then the report and DONE,
        or an error with the row left in ANALYZING. */
    method AnalyzeTranscript(jobId: string, gemini: string -> Result<GeminiAnalysis, string>, now: int)
      returns (outcome: Result<GeminiAnalysis, string>)
      requires jobId in db.jobs
      modifies db`jobs, db`files
      ensures outcome == TranscriptOutcome(FileAt(old(db.files), TranscriptPath(jobId)), gemini)
      ensures outcome.Err? ==>
        db.jobs == old(db.jobs)[jobId := old(db.jobs[jobId]).(status := Analyzing)] && db.files == old(db.files)
      ensures outcome.Ok? ==>
        db.jobs == old(db.jobs)[jobId := DoneJob(old(db.jobs[jobId]), outcome.value, now)] &&
        db.files == old(db.files)[ReportPath(jobId) := ReportJson(outcome.value.summary, outcome.value.advice)]
    {
      var job := db.jobs[jobId];
      outcome := TranscriptOutcome(FileAt(db.files, TranscriptPath(jobId)), gemini);
      if outcome.Ok? {
        var a := outcome.value;
        db.files := db.files[ReportPath(jobId) := ReportJson(a.summary, a.advice)];
        // the DONE update overwrites every field the earlier ANALYZING update wrote
        db.jobs := db.jobs[jobId := DoneJob(job, a, now)];
      } else {
        db.jobs := db.jobs[jobId := job.(status := Analyzing)];
      }
    }

    /** `analyzeMultimodal`: the transcript analysis, then the frames expire a year later. */
    method AnalyzeMultimodal(jobId: string, gemini: string -> Result<GeminiAnalysis, string>, now: int, nowPlusYear: int)
      returns (outcome: Result<GeminiAnalysis, string>)
      requires jobId in db.jobs
      modifies db`jobs, db`files
      ensures outcome == TranscriptOutcome(FileAt(old(db.files), TranscriptPath(jobId)), gemini)
      ensures db.jobs == old(db.jobs)[jobId := SecondPassJob(old(db.jobs[jobId]), outcome, now, nowPlusYear)]
      ensures outcome.Err? ==> db.files == old(db.files)
      ensures outcome.Ok? ==>
        db.files == old(db.files)[ReportPath(jobId) := ReportJson(outcome.value.summary, outcome.value.advice)]
    {
      outcome := AnalyzeTranscript(jobId, gemini, now);
      if outcome.Ok? {
        db.jobs := db.jobs[jobId := db.jobs[jobId].(framesExpiresAt := Some(nowPlusYear))];
      }
    }

    /** One iteration of the first pass, with its `catch`: an analysis
        failure becomes FAILED with an "Analysis error: " message. */
    method AnalyzeReady(id: string, gemini: string -> Result<GeminiAnalysis, string>, now: int, nowPlusYear: int)
      requires id in db.jobs
      modifies db`jobs, db`files
      ensures var outcome := TranscriptOutcome(FileAt(old(db.files), TranscriptPath(id)), gemini);
        db.jobs == old(db.jobs)[id := FirstPassJob(old(db.jobs[id]), outcome, now, nowPlusYear)] &&
        forall p: JobPath :: p.file != ReportJsonFile ==> FileAt(db.files, p) == FileAt(old(db.files), p)
    {
      var job := db.jobs[id];
      if job.analysisMode == TextOnly || job.hasFrames {
        var outcome;
        if job.analysisMode == TextOnly {
          outcome := AnalyzeTranscript(id, gemini, now);
        } else {
          outcome := AnalyzeMultimodal(id, gemini, now, nowPlusYear);
        }
        if outcome.Err? {
          db.jobs := db.jobs[id := FailedAnalysis(db.jobs[id], outcome.error)];
        }
      }
    }

    /** The periodic analysis pass: up to five ASR_DONE jobs, then up to
        five PROCESSING_FRAMES jobs whose frames are present.  Returns the
        two batches in the order they were handled. */
    method RunPendingAnalysis(gemini: string -> Result<GeminiAnalysis, string>, now: int, nowPlusYear: int)
      returns (first: seq<string>, second: seq<string>)
      modifies db`jobs, db`files
      ensures NoDuplicates(first) && |first| <= 5 && NoDuplicates(second) && |second| <= 5
      ensures forall i :: 0 <= i < |first| ==> first[i] in old(db.jobs) && ReadyForAnalysis(old(db.jobs)[first[i]])
      ensures forall i :: 0 <= i < |second| ==> second[i] in old(db.jobs) && FramesReady(old(db.jobs)[second[i]])
      ensures (set id | id in old(db.jobs) && ReadyForAnalysis(old(db.jobs)[id])) != {} ==> first != []
      ensures var ready := set id | id in old(db.jobs) && ReadyForAnalysis(old(db.jobs)[id]);
        |first| == if |ready| <= 5 then |ready| else 5
      ensures var framesDone := set id | id in old(db.jobs) && id !in first && FramesReady(old(db.jobs)[id]);
        |second| == if |framesDone| <= 5 then |framesDone| else 5
      ensures db.jobs.Keys == old(db.jobs).Keys
      ensures forall i :: 0 <= i < |first| ==>
        db.jobs[first[i]] == FirstPassJob(old(db.jobs)[first[i]],
          TranscriptOutcome(FileAt(old(db.files), TranscriptPath(first[i])), gemini), now, nowPlusYear)
      ensures forall i :: 0 <= i < |second| ==>
        db.jobs[second[i]] == SecondPassJob(old(db.jobs)[second[i]],
          TranscriptOutcome(FileAt(old(db.files), TranscriptPath(second[i])), gemini), now, nowPlusYear)
      ensures forall id :: id in old(db.jobs) && id !in first && id !in second ==> db.jobs[id] == old(db.jobs)[id]
      ensures forall p: JobPath :: p.file != ReportJsonFile ==> FileAt(db.files, p) == FileAt(old(db.files), p)
    {
      var ready := set id | id in db.jobs && ReadyForAnalysis(db.jobs[id]);
      first := TakeUpTo(ready, 5);
      ghost var jobs0 := db.jobs;
      ghost var files0 := db.files;
      FirstPass(first, gemini, now, nowPlusYear);
      var framesDone := set id | id in db.jobs && FramesReady(db.jobs[id]);
      second := TakeUpTo(framesDone, 5);
      ghost var files1 := db.files;
      FirstPassLeavesNoFramesReady(jobs0, files0, first, gemini, now, nowPlusYear);
      assert framesDone == set id | id in jobs0 && id !in first && FramesReady(jobs0[id]);
      forall k | 0 <= k < |second|
        ensures second[k] !in first
      {
      }
      SecondPass(second, gemini, now, nowPlusYear);
      forall id ensures FileAt(files1, TranscriptPath(id)) == FileAt(files0, TranscriptPath(id)) {
      }
      TwoPasses(jobs0, files0, files1, first, second, gemini, now, nowPlusYear);
    }

    /** The first loop of `runPendingAnalysis` over an ASR_DONE batch. */
    method FirstPass(batch: seq<string>, gemini: string -> Result<GeminiAnalysis, string>, now: int, nowPlusYear: int)
      requires NoDuplicates(batch) && forall i :: 0 <= i < |batch| ==> batch[i] in db.jobs
      modifies db`jobs, db`files
      ensures db.jobs == AfterFirstPass(old(db.jobs), old(db.files), (set x | x in batch), gemini, now, nowPlusYear)
      ensures forall p: JobPath :: p.file != ReportJsonFile ==> FileAt(db.files, p) == FileAt(old(db.files), p)
    {
      ghost var done: set<string> := {};
      var i := 0;
      while i < |batch|
        invariant 0 <= i <= |batch|
        invariant done == (set x | x in batch[..i])
        invariant db.jobs == AfterFirstPass(old(db.jobs), old(db.files), done, gemini, now, nowPlusYear)
        invariant forall p: JobPath :: p.file != ReportJsonFile ==> FileAt(db.files, p) == FileAt(old(db.files), p)
      {
        var id := batch[i];
        assert id !in done by { assert id !in batch[..i]; }
        AnalyzeReady(id, gemini, now, nowPlusYear);
        AfterFirstPassStep(old(db.jobs), old(db.files), done, id, gemini, now, nowPlusYear);
        assert batch[..i + 1] == batch[..i] + [id];
        done := done + {id};
        i := i + 1;
      }
      assert batch[..|batch|] == batch;
    }

    /** The second loop of `runPendingAnalysis`: its errors are only logged. */
    method SecondPass(batch: seq<string>, gemini: string -> Result<GeminiAnalysis, string>, now: int, nowPlusYear: int)
      requires NoDuplicates(batch) && forall i :: 0 <= i < |batch| ==> batch[i] in db.jobs
      modifies db`jobs, db`files
      ensures db.jobs == AfterSecondPass(old(db.jobs), old(db.files), (set x | x in batch), gemini, now, nowPlusYear)
      ensures forall p: JobPath :: p.file != ReportJsonFile ==> FileAt(db.files, p) == FileAt(old(db.files), p)
    {
      ghost var done: set<string> := {};
      var i := 0;
      while i < |batch|
        invariant 0 <= i <= |batch|
        invariant done == (set x | x in batch[..i])
        invariant db.jobs == AfterSecondPass(old(db.jobs), old(db.files), done, gemini, now, nowPlusYear)
        invariant forall p: JobPath :: p.file != ReportJsonFile ==> FileAt(db.files, p) == FileAt(old(db.files), p)
      {
        var id := batch[i];
        assert id !in done by { assert id !in batch[..i]; }
        var _ := AnalyzeMultimodal(id, gemini, now, nowPlusYear);
        AfterSecondPassStep(old(db.jobs), old(db.files), done, id, gemini, now, nowPlusYear);
        assert batch[..i + 1] == batch[..i] + [id];
        done := done + {id};
        i := i + 1;
      }
      assert batch[..|batch|] == batch;
    }

    /** One iteration of the expiry sweep. */
    method PurgeFrames(id: string, now: int)
      requires id in db.jobs
      modifies db`jobs, db`files, db`dirs, db`quotas
      ensures var j := old(db.jobs[id]);
        db.jobs == old(db.jobs)[id := PurgedJob(j, now)] &&
        db.files == RemoveDir(old(db.files), id, Frames) &&
        db.dirs == (set d | d in old(db.dirs) && !(d.1 == Frames && d.0 == id)) &&
        db.quotas == old(db.quotas)[j.userId := Subtracted(QuotaOr(old(db.quotas), j.userId, quotaLimit), j.framesBytes)]
    {
      var job := db.jobs[id];
      db.files := RemoveDir(db.files, id, Frames);
      db.dirs := set d | d in db.dirs && !(d.1 == Frames && d.0 == id);
      db.jobs := db.jobs[id := PurgedJob(job, now)];
      SubtractQuotaUsage(job.userId, job.framesBytes);
    }

    /** The expiry sweep: every job whose frames are due loses them, its
        byte counts drop by the frame bytes, and so does its owner's usage. */
    method CleanupExpiredFrames(now: int) returns (expired: seq<string>, purged: nat)
      modifies db`jobs, db`files, db`dirs, db`quotas
      ensures NoDuplicates(expired) && purged == |expired|
      ensures forall i :: 0 <= i < |expired| ==> expired[i] in old(db.jobs) && FramesExpired(old(db.jobs)[expired[i]], now)
      ensures forall id :: id in old(db.jobs) && FramesExpired(old(db.jobs)[id], now) ==> id in expired
      ensures db.jobs.Keys == old(db.jobs).Keys
      ensures forall id :: id in old(db.jobs) ==>
        db.jobs[id] == if id in expired then PurgedJob(old(db.jobs)[id], now) else old(db.jobs)[id]
      ensures db.quotas == QuotasAfterPurge(old(db.quotas), quotaLimit, old(db.jobs), expired)
      ensures forall p :: p in db.files <==> p in old(db.files) && !(p.file.Dir() == Frames && p.jobId in expired)
      ensures forall p :: p in db.files ==> db.files[p] == old(db.files)[p]
      ensures forall d :: d in db.dirs <==> d in old(db.dirs) && !(d.1 == Frames && d.0 in expired)
    {
      var due := set id | id in db.jobs && FramesExpired(db.jobs[id], now);
      expired := SetToSeq(due);
      PurgeAll(expired, now);
      purged := |expired|;
    }

    /** The loop of the expiry sweep over the due jobs. */
    method PurgeAll(batch: seq<string>, now: int)
      requires NoDuplicates(batch) && forall i :: 0 <= i < |batch| ==> batch[i] in db.jobs
      modifies db`jobs, db`files, db`dirs, db`quotas
      ensures db.jobs.Keys == old(db.jobs).Keys
      ensures forall id :: id in old(db.jobs) ==>
        db.jobs[id] == if id in batch then PurgedJob(old(db.jobs)[id], now) else old(db.jobs)[id]
      ensures db.quotas == QuotasAfterPurge(old(db.quotas), quotaLimit, old(db.jobs), batch)
      ensures forall p :: p in db.files <==> p in old(db.files) && !(p.file.Dir() == Frames && p.jobId in batch)
      ensures forall p :: p in db.files ==> db.files[p] == old(db.files)[p]
      ensures forall d :: d in db.dirs <==> d in old(db.dirs) && !(d.1 == Frames && d.0 in batch)
    {
      ghost var done: set<string> := {};
      var i := 0;
      while i < |batch|
        invariant 0 <= i <= |batch|
        invariant forall x :: x in done <==> x in batch[..i]
        invariant db.jobs == AfterPurge(old(db.jobs), done, now)
        invariant db.quotas == QuotasAfterPurge(old(db.quotas), quotaLimit, old(db.jobs), batch[..i])
        invariant db.files == FilesWithoutFrames(old(db.files), done)
        invariant db.dirs == DirsWithoutFrames(old(db.dirs), done)
      {
        PurgeStep(batch, i, done, now, old(db.jobs), old(db.quotas), old(db.files), old(db.dirs));
        done := done + {batch[i]};
        i := i + 1;
      }
      assert batch[..|batch|] == batch;
      PurgedState(old(db.jobs), old(db.files), old(db.dirs), done, batch, now);
    }

    /** The body of the sweep's loop: the folds advance by `batch[i]`. */
    method PurgeStep(batch: seq<string>, i: nat, ghost done: set<string>, now: int,
                     ghost jobs0: map<string, Job>, ghost quotas0: map<string, Quota>,
                     ghost files0: map<JobPath, FileContent>, ghost dirs0: set<(string, Dir)>)
      requires i < |batch| && NoDuplicates(batch) && forall k :: 0 <= k < |batch| ==> batch[k] in jobs0
      requires forall x :: x in done <==> x in batch[..i]
      requires db.jobs == AfterPurge(jobs0, done, now)
      requires db.quotas == QuotasAfterPurge(quotas0, quotaLimit, jobs0, batch[..i])
      requires db.files == FilesWithoutFrames(files0, done)
      requires db.dirs == DirsWithoutFrames(dirs0, done)
      modifies db`jobs, db`files, db`dirs, db`quotas
      ensures forall x :: x in done + {batch[i]} <==> x in batch[..i + 1]
      ensures db.jobs == AfterPurge(jobs0, done + {batch[i]}, now)
      ensures db.quotas == QuotasAfterPurge(quotas0, quotaLimit, jobs0, batch[..i + 1])
      ensures db.files == FilesWithoutFrames(files0, done + {batch[i]})
      ensures db.dirs == DirsWithoutFrames(dirs0, done + {batch[i]})
    {
      var id := batch[i];
      PrefixSnoc(batch, i);
      assert id !in batch[..i];
      AfterPurgeStep(jobs0, done, id, now);
      QuotasAfterPurgeStep(quotas0, quotaLimit, jobs0, batch, i);
      FramesRemovalStep(files0, dirs0, done, id);
      PurgeFrames(id, now);
    }
  }
}

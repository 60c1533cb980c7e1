/** The shared state of the media-analysis pipeline: the job table, the
    per-user quota table, the two Redis queues and the per-job directories
    on disk.  The API service, the ASR worker, the vision worker and the
    streaming upload endpoint all read and write this one store. */
module MediaStore {
  import opened Common

  /** The status vocabulary of an analysis job. */
  datatype JobStatus =
    | Uploading | Uploaded | Queued | ProcessingAsr | AsrDone
    | ProcessingFrames | Analyzing | Done | Failed | RejectedQuota
  {
    /** The column value stored in the job table. */
    function Name(): string {
      match this
      case Uploading => "UPLOADING"
      case Uploaded => "UPLOADED"
      case Queued => "QUEUED"
      case ProcessingAsr => "PROCESSING_ASR"
      case AsrDone => "ASR_DONE"
      case ProcessingFrames => "PROCESSING_FRAMES"
      case Analyzing => "ANALYZING"
      case Done => "DONE"
      case Failed => "FAILED"
      case RejectedQuota => "REJECTED_QUOTA"
    }
  }

  const AllStatuses: seq<JobStatus> :=
    [Uploading, Uploaded, Queued, ProcessingAsr, AsrDone,
     ProcessingFrames, Analyzing, Done, Failed, RejectedQuota]

  /** Reading a status column back; unknown strings have no status. */
  function ParseStatus(s: string): (r: Option<JobStatus>)
    ensures r.Some? ==> r.value.Name() == s
  {
    if s == "UPLOADING" then Some(Uploading)
    else if s == "UPLOADED" then Some(Uploaded)
    else if s == "QUEUED" then Some(Queued)
    else if s == "PROCESSING_ASR" then Some(ProcessingAsr)
    else if s == "ASR_DONE" then Some(AsrDone)
    else if s == "PROCESSING_FRAMES" then Some(ProcessingFrames)
    else if s == "ANALYZING" then Some(Analyzing)
    else if s == "DONE" then Some(Done)
    else if s == "FAILED" then Some(Failed)
    else if s == "REJECTED_QUOTA" then Some(RejectedQuota)
    else None
  }

  lemma ParseStatusName(st: JobStatus)
    ensures ParseStatus(st.Name()) == Some(st)
  {
  }

  datatype AnalysisMode = TextOnly | Full {
    function Name(): string {
      match this
      case TextOnly => "TEXT_ONLY"
      case Full => "FULL"
    }
  }

  /** One row of the job table. Times are clock readings in milliseconds. */
  datatype Job = Job(
    userId: string,
    teacherId: Option<string>,
    status: JobStatus,
    analysisMode: AnalysisMode,
    sourceType: string,
    originalFilename: Option<string>,
    mimeType: Option<string>,
    rawBytes: nat,
    audioBytes: nat,
    framesBytes: nat,
    totalBytes: nat,
    hasTranscript: bool,
    hasFrames: bool,
    hasCover: bool,
    hasReport: bool,
    errorCode: Option<string>,
    errorMessage: Option<string>,
    transcriptSummary: Option<string>,
    aiAdvice: Option<string>,
    uploadedAt: Option<int>,
    queuedAt: Option<int>,
    asrStartedAt: Option<int>,
    asrDoneAt: Option<int>,
    framesStartedAt: Option<int>,
    framesDoneAt: Option<int>,
    analysisDoneAt: Option<int>,
    doneAt: Option<int>,
    framesExpiresAt: Option<int>,
    framesDeletedAt: Option<int>)

  /** A freshly created job row: every counter 0, every flag false. */
  function NewJob(userId: string, teacherId: Option<string>, mode: AnalysisMode,
                  sourceType: string, originalFilename: Option<string>): (j: Job)
    ensures j.status == Uploading && j.userId == userId && j.analysisMode == mode
    ensures j.totalBytes == 0 && j.rawBytes == 0 && !j.hasFrames && j.errorCode == None
  {
    Job(userId, teacherId, Uploading, mode, sourceType, originalFilename, None,
        0, 0, 0, 0, false, false, false, false, None, None, None, None,
        None, None, None, None, None, None, None, None, None, None)
  }

  /** One row of the quota table. */
  datatype Quota = Quota(limitBytes: nat, usageBytes: nat)

  /** `Math.max(0, limit - usage)`: what the user may still store. */
  function RemainingBytes(q: Quota): (r: nat)
    ensures q.usageBytes <= q.limitBytes ==> q.usageBytes + r == q.limitBytes
    ensures q.usageBytes >= q.limitBytes ==> r == 0
  {
    ClampZero(q.limitBytes - q.usageBytes)
  }

  /** A message on `queue:jobs`: `{job_id, analysis_mode}`; the mode key may be absent. */
  datatype JobMessage = JobMessage(jobId: string, analysisMode: Option<string>)

  /** One segment of `transcript.json`: times in centiseconds (seconds
      rounded to two decimals), text already stripped. */
  datatype Segment = Segment(startCs: nat, endCs: nat, text: string)

  /** One entry of `frames_index.json`. */
  datatype FrameEntry = FrameEntry(frame: string, timestampSec: nat, timestampStr: string)

  /** The two text renderings of a transcript: `[start-end] text` lines, and SubRip blocks. */
  datatype TextLayout = PlainLines | Subtitles

  /** What a file on disk holds, as far as the pipeline cares.  A text
      transcript is kept as its layout and segments; its characters are a
      function of the two. */
  datatype FileContent =
    | Blob(size: nat)                        // raw video, wav audio, jpg frames
    | TranscriptText(layout: TextLayout, segments: seq<Segment>) // transcript.txt, transcript.srt
    | TranscriptJson(segments: seq<Segment>) // transcript.json
    | FramesIndexJson(entries: seq<FrameEntry>)
    | ImageOf(frame: string)                 // cover.jpg / thumb.jpg made from a frame
    | ReportJson(summary: string, advice: string)

  /** The sub-directories of a job's directory. */
  datatype Dir = Raw | Audio | Frames | Artifacts

  /** The files the pipeline writes, by role. */
  datatype FileName =
    | RawVideo(name: string)     // raw/video<ext>
    | AudioWav                   // audio/audio.wav
    | FrameJpg(name: string)     // frames/<name>.jpg as extracted
    | TranscriptJsonFile         // artifacts/transcript.json
    | TranscriptTxtFile          // artifacts/transcript.txt
    | TranscriptSrtFile          // artifacts/transcript.srt
    | FramesIndexFile            // artifacts/frames_index.json
    | CoverJpg                   // artifacts/cover.jpg
    | ThumbJpg                   // artifacts/thumb.jpg
    | ReportJsonFile             // artifacts/report.json
  {
    function Dir(): Dir {
      match this
      case RawVideo(_) => Raw
      case AudioWav => Audio
      case FrameJpg(_) => Frames
      case _ => Artifacts
    }
  }

  /** A file inside one job's directory. */
  datatype JobPath = JobPath(jobId: string, file: FileName)

  /** The files left after `rm -rf <job>/<dir>`. */
  function RemoveDir(files: map<JobPath, FileContent>, jobId: string, dir: Dir): (r: map<JobPath, FileContent>)
    ensures forall p :: p in r <==> p in files && !(p.jobId == jobId && p.file.Dir() == dir)
    ensures forall p :: p in r ==> r[p] == files[p]
  {
    map p | p in files && !(p.jobId == jobId && p.file.Dir() == dir) :: files[p]
  }

  /** The files left after `rm -rf <job>`. */
  function RemoveJobFiles(files: map<JobPath, FileContent>, jobId: string): (r: map<JobPath, FileContent>)
    ensures forall p :: p in r <==> p in files && p.jobId != jobId
    ensures forall p :: p in r ==> r[p] == files[p]
  {
    map p | p in files && p.jobId != jobId :: files[p]
  }

  /** The file at `p`, if any. */
  function FileAt(files: map<JobPath, FileContent>, p: JobPath): (r: Option<FileContent>)
    ensures r.Some? <==> p in files
    ensures r.Some? ==> r.value == files[p]
  {
    if p in files then Some(files[p]) else None
  }

  /** The whole persistent state shared by the API and the workers. */
  class Store {
    var jobs: map<string, Job>
    var quotas: map<string, Quota>
    /** `queue:jobs`, head first. */
    var jobQueue: seq<JobMessage>
    /** `queue:frames`, head first: each message is `{job_id}`. */
    var frameQueue: seq<string>
    /** Directories that exist on disk: (job id, sub-directory). */
    var dirs: set<(string, Dir)>
    var files: map<JobPath, FileContent>

    constructor ()
      ensures jobs == map[] && quotas == map[] && jobQueue == [] && frameQueue == []
      ensures dirs == {} && files == map[]
    {
      jobs, quotas, jobQueue, frameQueue := map[], map[], [], [];
      dirs, files := {}, map[];
    }

    /** `UPDATE analysis_job SET ... WHERE id = ?`: a missing row is left alone. */
    method UpdateJob(id: string, j: Job)
      modifies this`jobs
      ensures jobs == if id in old(jobs) then old(jobs)[id := j] else old(jobs)
    {
      if id in jobs {
        jobs := jobs[id := j];
      }
    }
  }
}

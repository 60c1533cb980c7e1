/** The speech-recognition stage of the media pipeline.  It takes one
    message off `queue:jobs`, extracts the audio track, transcribes it,
    writes `transcript.json`, `transcript.txt` and `transcript.srt`, and
    moves the job to ASR_DONE (handing FULL jobs on to `queue:frames`), or
    marks it FAILED and removes its audio and frame directories. */
module AsrWorker {
  import opened Common
  import opened MediaStore
  import VideoAnalysis

  // ---------------------------------------------------------------
  // Segment shaping
  // ---------------------------------------------------------------

  /** A segment as the recogniser yields it: times in milliseconds, text unstripped. */
  datatype RawSegment = RawSegment(startMs: nat, endMs: nat, text: string)

  /** `round(t, 2)` for a time of `ms` milliseconds, in centiseconds: the nearest centisecond, a
      half rounding up (Python's float `round` may go down on an exact tie). */
  function Centis(ms: nat): (c: nat)
    ensures ms - 5 < 10 * c <= ms + 5
  {
    RoundDiv(ms, 10)
  }

  /** One entry of the `segs` list built by `transcribe`. */
  function Shape(s: RawSegment): (r: Segment)
    ensures r.text == Trim(s.text)
    ensures s.startMs - 5 < 10 * r.startCs <= s.startMs + 5
    ensures s.endMs - 5 < 10 * r.endCs <= s.endMs + 5
  {
    Segment(Centis(s.startMs), Centis(s.endMs), Trim(s.text))
  }

  /** The loop of `transcribe`: one shaped segment per recognised one, in order. */
  method ShapeSegments(raw: seq<RawSegment>) returns (segs: seq<Segment>)
    ensures |segs| == |raw|
    ensures forall i :: 0 <= i < |raw| ==> segs[i] == Shape(raw[i])
  {
    segs := [];
    var i := 0;
    while i < |raw|
      invariant 0 <= i <= |raw|
      invariant |segs| == i
      invariant forall k :: 0 <= k < i ==> segs[k] == Shape(raw[k])
    {
      segs := segs + [Shape(raw[i])];
      i := i + 1;
    }
  }

  /** The shaped list as a value, for the specifications below. */
  function ShapeAll(raw: seq<RawSegment>): (r: seq<Segment>)
    ensures |r| == |raw|
    ensures forall i :: 0 <= i < |raw| ==> r[i] == Shape(raw[i])
  {
    seq(|raw|, i requires 0 <= i < |raw| => Shape(raw[i]))
  }

  // ---------------------------------------------------------------
  // transcript.txt
  // ---------------------------------------------------------------

  /** `f"{t:.2f}"` for a time of `cs` centiseconds. */
  function TwoDecimals(cs: nat): string {
    NatToString(cs / 100) + "." + PadNat(cs % 100, 2)
  }

  /** The rendering is exact: the digits before the point are the whole
      seconds, the two after it the centiseconds. */
  lemma TwoDecimalsReadBack(cs: nat)
    ensures var t := TwoDecimals(cs);
      |t| >= 4 && t[|t| - 3] == '.' && IsDigits(t[..|t| - 3]) && IsDigits(t[|t| - 2..]) &&
      DecimalValue(t[..|t| - 3]) * 100 + DecimalValue(t[|t| - 2..]) == cs
  {
    var w, f := NatToString(cs / 100), PadNat(cs % 100, 2);
    NatToStringValue(cs / 100);
    assert Pow10(2) == 100;
    PadNatValue(cs % 100, 2);
    var t := TwoDecimals(cs);
    assert t == w + "." + f;
    assert t[..|t| - 3] == w;
    assert t[|t| - 2..] == f;
  }

  /** One line of `transcript.txt`: `[start-end] text`. */
  function TxtLine(s: Segment): string {
    "[" + TwoDecimals(s.startCs) + "-" + TwoDecimals(s.endCs) + "] " + s.text + "\n"
  }

  function TxtDoc(segs: seq<Segment>): string {
    ConcatMap(TxtLine, segs)
  }

  /** The text file as `write_artifacts` writes it, one segment after another. */
  method RenderTxt(segs: seq<Segment>) returns (out: string)
    ensures out == TxtDoc(segs)
  {
    out := "";
    var i := 0;
    while i < |segs|
      invariant 0 <= i <= |segs|
      invariant out == ConcatMap(TxtLine, segs[..i])
    {
      ConcatMapSnoc(TxtLine, segs, i);
      out := out + TxtLine(segs[i]);
      i := i + 1;
    }
    assert segs[..|segs|] == segs;
  }

  // ---------------------------------------------------------------
  // transcript.srt
  // ---------------------------------------------------------------

  /** `HH:MM:SS,mmm` for a time of `cs` centiseconds (hours widen past 99). */
  function SrtTime(cs: nat): string {
    var sec := cs / 100;
    PadNat(sec / 3600, 2) + ":" + PadNat(sec % 3600 / 60, 2) + ":" + PadNat(sec % 60, 2) + ","
      + PadNat(cs % 100 * 10, 3)
  }

  /** Four digit fields, minutes and seconds below 60, whose value is
      `totalMs` milliseconds. */
  predicate SrtFields(h: string, m: string, s: string, f: string, totalMs: int) {
    IsDigits(h) && IsDigits(m) && IsDigits(s) && IsDigits(f) &&
    DecimalValue(m) < 60 && DecimalValue(s) < 60 &&
    DecimalValue(h) * 3600000 + DecimalValue(m) * 60000 + DecimalValue(s) * 1000 + DecimalValue(f) == totalMs
  }

  /** `t` reads as `H:MM:SS,mmm` (at least two hour digits) whose fields
      add up to `totalMs` milliseconds. */
  predicate ReadsAsSrtTime(t: string, totalMs: int) {
    |t| >= 12 && t[|t| - 10] == ':' && t[|t| - 7] == ':' && t[|t| - 4] == ',' &&
    SrtFields(t[..|t| - 10], t[|t| - 9..|t| - 7], t[|t| - 6..|t| - 4], t[|t| - 3..], totalMs)
  }

  /** The rendering is exact: reading the four fields back gives the time
      in milliseconds. */
  lemma SrtTimeReadBack(cs: nat)
    ensures ReadsAsSrtTime(SrtTime(cs), 10 * cs)
  {
    var sec := cs / 100;
    var hh, mm, ss, ms := sec / 3600, sec % 3600 / 60, sec % 60, cs % 100 * 10;
    var h, m, s, f := PadNat(hh, 2), PadNat(mm, 2), PadNat(ss, 2), PadNat(ms, 3);
    assert SrtTime(cs) == h + ":" + m + ":" + s + "," + f;
    assert IsDigits(h) && DecimalValue(h) == hh && |h| >= 2 by { PadNatValue(hh, 2); }
    assert IsDigits(m) && DecimalValue(m) == mm && |m| == 2 by { assert Pow10(2) == 100; PadNatValue(mm, 2); }
    assert IsDigits(s) && DecimalValue(s) == ss && |s| == 2 by { assert Pow10(2) == 100; PadNatValue(ss, 2); }
    assert IsDigits(f) && DecimalValue(f) == ms && |f| == 3 by { assert Pow10(3) == 1000; PadNatValue(ms, 3); }
    assert hh * 3600000 + mm * 60000 + ss * 1000 + ms == 10 * cs by { SrtTimeArithmetic(cs); }
    assert SrtFields(h, m, s, f, 10 * cs);
    SrtFieldsReadBack(h, m, s, f, 10 * cs);
  }

  /** Reading the fields of a timing `h:m:s,f` back by their positions from the end. */
  lemma SrtFieldsReadBack(h: string, m: string, s: string, f: string, total: int)
    requires |h| >= 2 && |m| == 2 && |s| == 2 && |f| == 3
    requires SrtFields(h, m, s, f, total)
    ensures ReadsAsSrtTime(h + ":" + m + ":" + s + "," + f, total)
  {
    var t := h + ":" + m + ":" + s + "," + f;
    assert t[..|t| - 10] == h;
    assert t[|t| - 9..|t| - 7] == m;
    assert t[|t| - 6..|t| - 4] == s;
    assert t[|t| - 3..] == f;
  }

  lemma SrtTimeArithmetic(cs: nat)
    ensures var sec := cs / 100;
      sec / 3600 * 3600000 + sec % 3600 / 60 * 60000 + sec % 60 * 1000 + cs % 100 * 10 == 10 * cs
  {
    var sec := cs / 100;
    var hh, rem := sec / 3600, sec % 3600;
    var mm, ss := rem / 60, rem % 60;
    assert sec == 3600 * hh + rem && rem == 60 * mm + ss && ss < 60;
    assert sec == 60 * (60 * hh + mm) + ss;
    Mod60(sec, 60 * hh + mm, ss);
    assert cs == 100 * sec + cs % 100;
  }

  lemma Mod60(x: nat, q: nat, r: nat)
    requires x == 60 * q + r && r < 60
    ensures x % 60 == r
  {
  }

  /** One SRT block: its number, the timing line and the text, then a blank line. */
  function SrtBlock(n: nat, s: Segment): string {
    NatToString(n) + "\n" + SrtTime(s.startCs) + " --> " + SrtTime(s.endCs) + "\n" + s.text + "\n\n"
  }

  /** The blocks of `segs`, numbered from `first`. */
  function SrtDoc(segs: seq<Segment>, first: nat): string {
    ConcatNumbered(SrtBlock, segs, first)
  }

  /** The characters of a text transcript. */
  function TextOf(layout: TextLayout, segs: seq<Segment>): string {
    match layout
    case PlainLines => TxtDoc(segs)
    case Subtitles => SrtDoc(segs, 1)
  }

  /** The SRT file as `write_artifacts` writes it: `enumerate(segs, 1)`. */
  method RenderSrt(segs: seq<Segment>) returns (out: string)
    ensures out == SrtDoc(segs, 1)
  {
    out := "";
    var i := 0;
    while i < |segs|
      invariant 0 <= i <= |segs|
      invariant out == ConcatNumbered(SrtBlock, segs[..i], 1)
    {
      ConcatNumberedSnoc(SrtBlock, segs, i, 1);
      out := out + SrtBlock(i + 1, segs[i]);
      i := i + 1;
    }
    assert segs[..|segs|] == segs;
  }

  /** The three artifacts list the same segments in the same order: segment
      `k` of the JSON is line `k` of the text file and block `k + 1` of the SRT. */
  lemma ArtifactsAgree(segs: seq<Segment>, k: nat)
    requires k < |segs|
    ensures TxtDoc(segs) == TxtDoc(segs[..k]) + TxtLine(segs[k]) + TxtDoc(segs[k + 1..])
    ensures SrtDoc(segs, 1) == SrtDoc(segs[..k], 1) + SrtBlock(k + 1, segs[k]) + SrtDoc(segs[k + 1..], k + 2)
  {
    assert segs == segs[..k + 1] + segs[k + 1..];
    ConcatMapAppend(TxtLine, segs[..k + 1], segs[k + 1..]);
    ConcatMapSnoc(TxtLine, segs, k);
    ConcatNumberedAppend(SrtBlock, segs[..k + 1], segs[k + 1..], 1);
    ConcatNumberedSnoc(SrtBlock, segs, k, 1);
  }

  // ---------------------------------------------------------------
  // Job rows
  // ---------------------------------------------------------------

  const AsrErrorCode: string := "ASR_GPU_ERROR"
  const AsrErrorPrefix: string := "ASR failed: "
  /** The file `ffmpeg` is pointed at, whatever the upload's extension was. */
  const VideoFileName: string := "video.mp4"

  function VideoPath(jobId: string): JobPath {
    JobPath(jobId, RawVideo(VideoFileName))
  }

  /** `msg.get("analysis_mode", "TEXT_ONLY")`. */
  function ModeOf(msg: JobMessage): (m: string)
    ensures msg.analysisMode == None ==> m == TextOnly.Name()
    ensures msg.analysisMode.Some? ==> m == msg.analysisMode.value
  {
    msg.analysisMode.GetOr(TextOnly.Name())
  }

  /** The first write: PROCESSING_ASR with the start time. */
  function StartedRow(j: Job, now: int): Job {
    j.(status := ProcessingAsr, asrStartedAt := Some(now))
  }

  /** The second write: the audio size becomes both `audio_bytes` and `total_bytes`. */
  function AudioRow(j: Job, audioBytes: nat): Job {
    j.(status := ProcessingAsr, audioBytes := audioBytes, totalBytes := audioBytes)
  }

  function AsrDoneRow(j: Job, now: int): Job {
    j.(status := AsrDone, asrDoneAt := Some(now), hasTranscript := true)
  }

  /** The failure write: the first 500 characters of the error after the prefix. */
  function AsrFailedRow(j: Job, err: string): Job {
    j.(status := Failed, errorMessage := Some(AsrErrorPrefix + Take(err, 500)), errorCode := Some(AsrErrorCode))
  }

  /** The row after all the writes one message makes, given what `ffmpeg`
      and the recogniser produced. */
  function AsrFinalRow(j: Job, audio: Result<nat, string>, asr: Result<seq<RawSegment>, string>, now: int): Job {
    var started := StartedRow(j, now);
    if audio.Err? then AsrFailedRow(started, audio.error)
    else
      var extracted := AudioRow(started, audio.value);
      if asr.Err? then AsrFailedRow(extracted, asr.error)
      else AsrDoneRow(extracted, now)
  }

  /** What the final row records for each outcome, and what it keeps. */
  lemma AsrFinalRowFields(j: Job, audio: Result<nat, string>, asr: Result<seq<RawSegment>, string>, now: int)
    ensures var r := AsrFinalRow(j, audio, asr, now);
      r.status == (if audio.Ok? && asr.Ok? then AsrDone else Failed)
    ensures var r := AsrFinalRow(j, audio, asr, now);
      r.asrStartedAt == Some(now)
    ensures var r := AsrFinalRow(j, audio, asr, now);
      audio.Ok? ==> r.audioBytes == audio.value && r.totalBytes == audio.value
    ensures var r := AsrFinalRow(j, audio, asr, now);
      audio.Err? ==> r.audioBytes == j.audioBytes && r.totalBytes == j.totalBytes
    ensures var r := AsrFinalRow(j, audio, asr, now);
      r.hasTranscript == (j.hasTranscript || (audio.Ok? && asr.Ok?))
    ensures var r := AsrFinalRow(j, audio, asr, now);
      audio.Err? ==> r.errorMessage == Some(AsrErrorPrefix + Take(audio.error, 500))
    ensures var r := AsrFinalRow(j, audio, asr, now);
      audio.Ok? && asr.Err? ==> r.errorMessage == Some(AsrErrorPrefix + Take(asr.error, 500))
    ensures var r := AsrFinalRow(j, audio, asr, now);
      r.status == Failed ==> r.errorCode == Some(AsrErrorCode)
    ensures var r := AsrFinalRow(j, audio, asr, now);
      r.status == AsrDone ==> r.errorCode == j.errorCode && r.errorMessage == j.errorMessage
    ensures var r := AsrFinalRow(j, audio, asr, now);
      r.userId == j.userId && r.analysisMode == j.analysisMode && r.rawBytes == j.rawBytes
  {
  }

  /** PROCESSING_ASR is written without looking at the current status: the
      outcome is the same whatever state the row was in, so a job already
      DONE or FAILED that is queued again goes back through ASR. */
  lemma StatusIgnoresPredecessor(j: Job, st: JobStatus, audio: Result<nat, string>,
                                 asr: Result<seq<RawSegment>, string>, now: int)
    ensures AsrFinalRow(j.(status := st), audio, asr, now).status == AsrFinalRow(j, audio, asr, now).status
    ensures StartedRow(j.(status := st), now) == StartedRow(j, now)
  {
  }

  /** `total_bytes` is overwritten with the audio size, not added to: the
      raw video the upload counted is dropped from the job's total. */
  lemma TotalBytesOverwritten(j: Job, a: nat, asr: Result<seq<RawSegment>, string>, now: int)
    requires j.totalBytes == j.rawBytes && j.rawBytes > 0
    ensures var r := AsrFinalRow(j, Ok(a), asr, now);
      r.totalBytes == a && r.totalBytes < j.totalBytes + a
  {
  }

  /** The stored error message is the prefix and at most 500 characters of the error. */
  lemma FailureMessageBounded(j: Job, audio: Result<nat, string>, asr: Result<seq<RawSegment>, string>, now: int)
    requires audio.Err? || asr.Err?
    ensures var r := AsrFinalRow(j, audio, asr, now);
      r.errorMessage.Some? && StartsWith(r.errorMessage.value, AsrErrorPrefix) &&
      |r.errorMessage.value| <= |AsrErrorPrefix| + 500
  {
  }

  /** An upload named `<stem>.mov` is stored as `video.mov`, which is not
      the file the worker extracts audio from. */
  lemma MovUploadNotRead(stem: string)
    requires stem != [] && '.' !in stem && '/' !in stem
    ensures VideoAnalysis.RawVideoName(stem + "." + "mov") != VideoFileName
  {
    VideoAnalysis.RawVideoNameOfStemAndExt(stem, "mov");
    assert ("video." + "mov")[7] != VideoFileName[7];
  }

  /** The job table after one message: an `UPDATE` of a missing row changes nothing. */
  function JobsAfterAsr(jobs: map<string, Job>, id: string, audio: Result<nat, string>,
                        asr: Result<seq<RawSegment>, string>, now: int): map<string, Job> {
    if id in jobs then jobs[id := AsrFinalRow(jobs[id], audio, asr, now)] else jobs
  }

  // ---------------------------------------------------------------
  // Files and directories
  // ---------------------------------------------------------------

  /** The three transcript files of `segs`. */
  function WithArtifacts(files: map<JobPath, FileContent>, jobId: string, segs: seq<Segment>): map<JobPath, FileContent> {
    files[JobPath(jobId, TranscriptJsonFile) := TranscriptJson(segs)]
         [JobPath(jobId, TranscriptTxtFile) := TranscriptText(PlainLines, segs)]
         [JobPath(jobId, TranscriptSrtFile) := TranscriptText(Subtitles, segs)]
  }

  /** The directories `cleanup_on_failure` removes, in its order. */
  const CleanupDirs: seq<Dir> := [Audio, Frames]

  /** The files left after removing each directory of `ds` in turn. */
  function RemoveDirs(files: map<JobPath, FileContent>, jobId: string, ds: seq<Dir>): map<JobPath, FileContent>
    decreases |ds|
  {
    if ds == [] then files
    else RemoveDir(RemoveDirs(files, jobId, ds[..|ds| - 1]), jobId, ds[|ds| - 1])
  }

  /** Removing the directories `ds` drops exactly the job's files under them. */
  lemma {:induction false} RemoveDirsSpec(files: map<JobPath, FileContent>, jobId: string, ds: seq<Dir>)
    ensures var r := RemoveDirs(files, jobId, ds);
      (forall p :: p in r <==> p in files && !(p.jobId == jobId && p.file.Dir() in ds)) &&
      forall p :: p in r ==> r[p] == files[p]
    decreases |ds|
  {
    if ds != [] {
      var init := ds[..|ds| - 1];
      RemoveDirsSpec(files, jobId, init);
      assert forall d :: d in ds <==> d in init || d == ds[|ds| - 1];
    }
  }

  /** The job's files and directories after the message: created
      directories, the extracted audio and the three artifacts on success;
      on failure the audio and frames directories are gone. */
  function FilesAfterAsr(files: map<JobPath, FileContent>, jobId: string, audio: Result<nat, string>,
                         asr: Result<seq<RawSegment>, string>): map<JobPath, FileContent>
  {
    var extracted := if audio.Ok? then files[JobPath(jobId, AudioWav) := Blob(audio.value)] else files;
    if audio.Ok? && asr.Ok? then WithArtifacts(extracted, jobId, ShapeAll(asr.value))
    else RemoveDirs(extracted, jobId, CleanupDirs)
  }

  function DirsAfterAsr(dirs: set<(string, Dir)>, jobId: string, ok: bool): set<(string, Dir)> {
    var made := dirs + {(jobId, Audio), (jobId, Artifacts)};
    if ok then made else made - {(jobId, Audio), (jobId, Frames)}
  }

  /** After a success the job has its audio and the three artifacts, each
      holding the shaped segments; nothing of another job changes. */
  lemma SuccessFiles(files: map<JobPath, FileContent>, jobId: string, a: nat, raw: seq<RawSegment>)
    ensures var r := FilesAfterAsr(files, jobId, Ok(a), Ok(raw));
      var segs := ShapeAll(raw);
      r[JobPath(jobId, AudioWav)] == Blob(a) &&
      r[JobPath(jobId, TranscriptJsonFile)] == TranscriptJson(segs) &&
      r[JobPath(jobId, TranscriptTxtFile)] == TranscriptText(PlainLines, segs) &&
      r[JobPath(jobId, TranscriptSrtFile)] == TranscriptText(Subtitles, segs) &&
      forall p: JobPath :: p.jobId != jobId ==> (p in r <==> p in files) && (p in r ==> r[p] == files[p])
  {
  }

  /** After a failure the job has no audio and no frames left, no artifact
      was written, and nothing of another job changes. */
  lemma FailureFiles(files: map<JobPath, FileContent>, jobId: string, audio: Result<nat, string>,
                     asr: Result<seq<RawSegment>, string>)
    requires audio.Err? || asr.Err?
    ensures var r := FilesAfterAsr(files, jobId, audio, asr);
      (forall p :: p in r && p.jobId == jobId ==> p.file.Dir() != Audio && p.file.Dir() != Frames) &&
      (forall p :: p in r && p.jobId == jobId ==> p in files && r[p] == files[p]) &&
      forall p: JobPath :: p.jobId != jobId ==> (p in r <==> p in files) && (p in r ==> r[p] == files[p])
  {
    var extracted := if audio.Ok? then files[JobPath(jobId, AudioWav) := Blob(audio.value)] else files;
    RemoveDirsSpec(extracted, jobId, CleanupDirs);
  }

  // ---------------------------------------------------------------
  // The worker
  // ---------------------------------------------------------------

  /** One consumer of `queue:jobs`.  `ffmpeg` is given the file at
      `raw/video.mp4` (None when absent) and yields the size of the audio it
      wrote or an error; the recogniser's outcome is a parameter too.  The
      process runs an endless loop of `HandleNext`. */
  class Worker {
    const db: Store

    constructor (db: Store)
      ensures this.db == db
    {
      this.db := db;
    }

    /** `write_artifacts`: the transcript as JSON, as text lines and as
        SubRip blocks, in the artifacts directory. */
    method WriteArtifacts(jobId: string, segs: seq<Segment>)
      modifies db`files, db`dirs
      ensures db.files == WithArtifacts(old(db.files), jobId, segs)
      ensures db.dirs == old(db.dirs) + {(jobId, Artifacts)}
    {
      db.dirs := db.dirs + {(jobId, Artifacts)};
      db.files := db.files[JobPath(jobId, TranscriptJsonFile) := TranscriptJson(segs)]
                          [JobPath(jobId, TranscriptTxtFile) := TranscriptText(PlainLines, segs)]
                          [JobPath(jobId, TranscriptSrtFile) := TranscriptText(Subtitles, segs)];
    }

    /** `cleanup_on_failure`: `rm -rf` of `audio/` and then `frames/`. */
    method CleanupOnFailure(jobId: string)
      modifies db`files, db`dirs
      ensures db.files == RemoveDirs(old(db.files), jobId, CleanupDirs)
      ensures db.dirs == old(db.dirs) - {(jobId, Audio), (jobId, Frames)}
    {
      var i := 0;
      while i < |CleanupDirs|
        invariant 0 <= i <= |CleanupDirs|
        invariant db.files == RemoveDirs(old(db.files), jobId, CleanupDirs[..i])
        invariant db.dirs == old(db.dirs) - set d | d in CleanupDirs[..i] :: (jobId, d)
      {
        var d := CleanupDirs[i];
        assert CleanupDirs[..i + 1][..i] == CleanupDirs[..i];
        db.files := RemoveDir(db.files, jobId, d);
        db.dirs := db.dirs - {(jobId, d)};
        i := i + 1;
      }
      assert CleanupDirs[..i] == CleanupDirs;
    }

    /** The `except` branch: clean up, then write the FAILED row. */
    method Fail(jobId: string, failed: Job)
      modifies db`files, db`dirs, db`jobs
      ensures db.files == RemoveDirs(old(db.files), jobId, CleanupDirs)
      ensures db.dirs == old(db.dirs) - {(jobId, Audio), (jobId, Frames)}
      ensures db.jobs == if jobId in old(db.jobs) then old(db.jobs)[jobId := failed] else old(db.jobs)
    {
      CleanupOnFailure(jobId);
      db.UpdateJob(jobId, failed);
    }

    /** What the worker does with one message it popped.  Each
        `update_job_status` rewrites the row from the worker's copy of it,
        which is what the job table holds between the writes. */
    method Process(msg: JobMessage, now: int, ffmpeg: Option<FileContent> -> Result<nat, string>,
                   asr: Result<seq<RawSegment>, string>)
      modifies db`jobs, db`frameQueue, db`dirs, db`files
      ensures var audio := ffmpeg(FileAt(old(db.files), VideoPath(msg.jobId)));
        db.jobs == JobsAfterAsr(old(db.jobs), msg.jobId, audio, asr, now)
      ensures var audio := ffmpeg(FileAt(old(db.files), VideoPath(msg.jobId)));
        db.files == FilesAfterAsr(old(db.files), msg.jobId, audio, asr)
      ensures var audio := ffmpeg(FileAt(old(db.files), VideoPath(msg.jobId)));
        db.dirs == DirsAfterAsr(old(db.dirs), msg.jobId, audio.Ok? && asr.Ok?)
      ensures var audio := ffmpeg(FileAt(old(db.files), VideoPath(msg.jobId)));
        db.frameQueue == if audio.Ok? && asr.Ok? && ModeOf(msg) == Full.Name() then old(db.frameQueue) + [msg.jobId]
                         else old(db.frameQueue)
    {
      var id := msg.jobId;
      // a missing row is never written, so its stand-in value does not matter
      var row := if id in db.jobs then db.jobs[id] else NewJob(id, None, TextOnly, "", None);
      db.dirs := db.dirs + {(id, Audio), (id, Artifacts)};
      var started := StartedRow(row, now);
      db.UpdateJob(id, started);
      var audio := ffmpeg(FileAt(db.files, VideoPath(id)));
      if audio.Err? {
        Fail(id, AsrFailedRow(started, audio.error));
      } else {
        Transcribe(msg, started, audio.value, now, asr);
      }
    }

    /** The steps after the audio was extracted: its size is recorded, the
        recogniser runs, and the artifacts and ASR_DONE are written. */
    method Transcribe(msg: JobMessage, started: Job, a: nat, now: int, asr: Result<seq<RawSegment>, string>)
      modifies db`jobs, db`frameQueue, db`dirs, db`files
      ensures var extracted := AudioRow(started, a);
        db.jobs == if msg.jobId in old(db.jobs) then
          old(db.jobs)[msg.jobId := if asr.Err? then AsrFailedRow(extracted, asr.error) else AsrDoneRow(extracted, now)]
        else old(db.jobs)
      ensures var extracted := old(db.files)[JobPath(msg.jobId, AudioWav) := Blob(a)];
        db.files == if asr.Ok? then WithArtifacts(extracted, msg.jobId, ShapeAll(asr.value))
                    else RemoveDirs(extracted, msg.jobId, CleanupDirs)
      ensures db.dirs == if asr.Ok? then old(db.dirs) + {(msg.jobId, Artifacts)}
                         else old(db.dirs) - {(msg.jobId, Audio), (msg.jobId, Frames)}
      ensures db.frameQueue == if asr.Ok? && ModeOf(msg) == Full.Name() then old(db.frameQueue) + [msg.jobId]
                               else old(db.frameQueue)
    {
      var id := msg.jobId;
      db.files := db.files[JobPath(id, AudioWav) := Blob(a)];
      var extracted := AudioRow(started, a);
      db.UpdateJob(id, extracted);
      if asr.Err? {
        Fail(id, AsrFailedRow(extracted, asr.error));
        return;
      }
      var segs := ShapeSegments(asr.value);
      assert segs == ShapeAll(asr.value);
      WriteArtifacts(id, segs);
      db.UpdateJob(id, AsrDoneRow(extracted, now));
      if ModeOf(msg) == Full.Name() {
        db.frameQueue := db.frameQueue + [id];
      }
    }

    /** One turn of the consumer loop: an empty poll changes nothing;
        otherwise the head message is taken off `queue:jobs` and processed. */
    method HandleNext(now: int, ffmpeg: Option<FileContent> -> Result<nat, string>,
                      asr: Result<seq<RawSegment>, string>) returns (handled: Option<JobMessage>)
      modifies db`jobs, db`jobQueue, db`frameQueue, db`dirs, db`files
      ensures old(db.jobQueue) == [] ==> handled == None && unchanged(db)
      ensures old(db.jobQueue) != [] ==>
        handled == Some(old(db.jobQueue[0])) && db.jobQueue == old(db.jobQueue[1..]) &&
        var id := old(db.jobQueue[0]).jobId;
        var audio := ffmpeg(FileAt(old(db.files), VideoPath(id)));
        var ok := audio.Ok? && asr.Ok?;
        db.jobs == JobsAfterAsr(old(db.jobs), id, audio, asr, now) &&
        db.files == FilesAfterAsr(old(db.files), id, audio, asr) &&
        db.dirs == DirsAfterAsr(old(db.dirs), id, ok) &&
        db.frameQueue == if ok && ModeOf(old(db.jobQueue[0])) == Full.Name() then old(db.frameQueue) + [id]
                         else old(db.frameQueue)
    {
      if db.jobQueue == [] {
        return None;
      }
      var msg := db.jobQueue[0];
      db.jobQueue := db.jobQueue[1..];
      Process(msg, now, ffmpeg, asr);
      handled := Some(msg);
    }
  }
}

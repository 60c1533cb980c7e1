/** The frame-extraction stage of the media pipeline, for FULL jobs.  It
    takes one job id off `queue:frames`, finds the raw video, checks an
    estimate of the frame bytes against the owner's remaining quota,
    extracts one frame every five seconds, writes `frames_index.json` and
    a cover and thumbnail made from the middle frame, moves the job back
    to ASR_DONE and charges the measured bytes to the owner's quota; any
    failure marks the job FAILED. */
module VisionWorker {
  import opened Common
  import opened MediaStore
  import VideoAnalysis

  /** Seconds between two extracted frames. */
  const Interval: nat := 5
  /** The quota a user without a quota row is assumed to have. */
  const QuotaBytes: nat := 1073741824
  /** The pre-check's guess at the size of one frame. */
  const FrameBytesEstimate: nat := 50000
  /** 365 days in milliseconds: how long the frames are kept. */
  const YearMs: nat := 365 * 24 * 60 * 60 * 1000
  const VideoExtensions: seq<string> := [".mp4", ".webm", ".mov", ".avi", ".mkv", ".m4v", ".flv", ".wmv"]

  const NotFoundMessage: string := "No video file found in raw directory"
  const NotFoundCode: string := "VIDEO_NOT_FOUND"
  const FramesErrorCode: string := "FRAMES_ERROR"
  const FramesErrorPrefix: string := "Frame extraction failed: "

  // ---------------------------------------------------------------
  // Quota rows
  // ---------------------------------------------------------------

  /** `get_user_quota_remaining`: the owner's remaining bytes; nothing
      for a missing job, the full default for an owner without a row. */
  function QuotaRemaining(jobs: map<string, Job>, quotas: map<string, Quota>, jobId: string): (r: nat)
    ensures jobId !in jobs ==> r == 0
    ensures jobId in jobs && jobs[jobId].userId !in quotas ==> r == QuotaBytes
    ensures jobId in jobs && jobs[jobId].userId in quotas ==>
      var q := quotas[jobs[jobId].userId];
      r == if q.usageBytes <= q.limitBytes then q.limitBytes - q.usageBytes else 0
  {
    if jobId !in jobs then 0
    else if jobs[jobId].userId !in quotas then QuotaBytes
    else RemainingBytes(quotas[jobs[jobId].userId])
  }

  /** `add_quota_usage`: the owner's usage raised by `delta`; an `UPDATE`
      that matches no row (missing job, owner without a quota row) changes nothing. */
  function AddedUsage(jobs: map<string, Job>, quotas: map<string, Quota>, jobId: string, delta: nat): (r: map<string, Quota>)
    ensures jobId !in jobs || jobs[jobId].userId !in quotas ==> r == quotas
    ensures jobId in jobs && jobs[jobId].userId in quotas ==>
      var u := jobs[jobId].userId;
      r.Keys == quotas.Keys &&
      r[u] == Quota(quotas[u].limitBytes, quotas[u].usageBytes + delta) &&
      forall v :: v in quotas && v != u ==> r[v] == quotas[v]
  {
    if jobId !in jobs || jobs[jobId].userId !in quotas then quotas
    else
      var u := jobs[jobId].userId;
      quotas[u := quotas[u].(usageBytes := quotas[u].usageBytes + delta)]
  }

  /** Both lookups go through the job's owner only, so rewriting the job
      row with the same owner changes neither. */
  lemma OwnerLookupsIgnoreRow(jobs: map<string, Job>, quotas: map<string, Quota>, jobId: string, j: Job, delta: nat)
    requires jobId in jobs ==> j.userId == jobs[jobId].userId
    ensures var after := if jobId in jobs then jobs[jobId := j] else jobs;
      QuotaRemaining(after, quotas, jobId) == QuotaRemaining(jobs, quotas, jobId) &&
      AddedUsage(after, quotas, jobId, delta) == AddedUsage(jobs, quotas, jobId, delta)
  {
  }

  // ---------------------------------------------------------------
  // Finding the video
  // ---------------------------------------------------------------

  /** The lower-cased name ends in one of the listed video extensions. */
  predicate IsVideoName(n: string) {
    exists k :: 0 <= k < |VideoExtensions| && EndsWith(ToLower(n), VideoExtensions[k])
  }

  /** `find_video_file`: nothing when `raw/` is missing, otherwise the
      first entry of the directory listing that is a video name. */
  method FindVideoFile(rawDirExists: bool, listing: seq<string>) returns (r: Option<string>)
    ensures !rawDirExists ==> r == None
    ensures rawDirExists ==> (r.None? <==> forall i :: 0 <= i < |listing| ==> !IsVideoName(listing[i]))
    ensures r.Some? ==> exists i :: 0 <= i < |listing| && listing[i] == r.value && IsVideoName(listing[i]) &&
                                    forall j :: 0 <= j < i ==> !IsVideoName(listing[j])
  {
    if !rawDirExists {
      return None;
    }
    var i := 0;
    while i < |listing|
      invariant 0 <= i <= |listing|
      invariant forall j :: 0 <= j < i ==> !IsVideoName(listing[j])
    {
      if IsVideoName(listing[i]) {
        return Some(listing[i]);
      }
      i := i + 1;
    }
    return None;
  }

  /** The names of the job's files under `raw/`. */
  function RawNames(files: map<JobPath, FileContent>, jobId: string): set<string> {
    set p | p in files && p.jobId == jobId && p.file.RawVideo? :: p.file.name
  }

  /** `raw/` exists and holds a file with a video name. */
  predicate HasVideo(files: map<JobPath, FileContent>, dirs: set<(string, Dir)>, jobId: string) {
    (jobId, Raw) in dirs && exists n :: n in RawNames(files, jobId) && IsVideoName(n)
  }

  /** A stored upload `<stem>.mov` (which the speech stage never opens) has a video name here. */
  lemma MovUploadIsVideo(stem: string)
    requires stem != [] && '.' !in stem && '/' !in stem
    ensures IsVideoName(VideoAnalysis.RawVideoName(stem + "." + "mov"))
  {
    VideoAnalysis.RawVideoNameOfStemAndExt(stem, "mov");
    StoredMovIsVideo();
  }

  lemma StoredMovIsVideo()
    ensures IsVideoName("video." + "mov")
  {
    var n := "video." + "mov";
    assert ToLower(n) == n;
    assert n[|n| - 4..] == VideoExtensions[2];
  }

  // ---------------------------------------------------------------
  // Frames, their index and the cover
  // ---------------------------------------------------------------

  /** A `.jpg` file in `frames/` and its size. */
  datatype FrameFile = FrameFile(name: string, size: nat)

  /** The sizes summed. */
  function TotalSize(frames: seq<FrameFile>): nat {
    if frames == [] then 0 else TotalSize(frames[..|frames| - 1]) + frames[|frames| - 1].size
  }

  /** The loop over the `*.jpg` files of `frames/` adding up their sizes. */
  method MeasureFrames(frames: seq<FrameFile>) returns (total: nat)
    ensures total == TotalSize(frames)
  {
    total := 0;
    var i := 0;
    while i < |frames|
      invariant 0 <= i <= |frames|
      invariant total == TotalSize(frames[..i])
    {
      assert frames[..i + 1][..i] == frames[..i];
      total := total + frames[i].size;
      i := i + 1;
    }
    assert frames[..i] == frames;
  }

  /** `f"{ts // 60:02d}:{ts % 60:02d}"`. */
  function MmSs(ts: nat): string {
    PadNat(ts / 60, 2) + ":" + PadNat(ts % 60, 2)
  }

  /** Under 100 minutes the timestamp is five characters: two digits of
      minutes, a colon, two digits of seconds below 60, reading back as `ts`. */
  lemma MmSsReadBack(ts: nat)
    requires ts < 6000
    ensures var s := MmSs(ts);
      |s| == 5 && s[2] == ':' && IsDigits(s[..2]) && IsDigits(s[3..]) &&
      DecimalValue(s[3..]) < 60 && 60 * DecimalValue(s[..2]) + DecimalValue(s[3..]) == ts
  {
    var m := PadNat(ts / 60, 2);
    var sec := PadNat(ts % 60, 2);
    assert Pow10(2) == 100 by { assert Pow10(1) == 10; }
    PadNatValue(ts / 60, 2);
    PadNatValue(ts % 60, 2);
    var s := MmSs(ts);
    assert s[..2] == m;
    assert s[3..] == sec;
  }

  /** Entry `i` of `frames_index.json`: the frame's name, `i * INTERVAL`
      seconds, and that time as MM:SS. */
  function IndexEntry(i: nat, f: FrameFile): FrameEntry {
    FrameEntry(f.name, i * Interval, MmSs(i * Interval))
  }

  /** The index of a sorted frame listing: one entry per frame, in order. */
  function FramesIndex(frames: seq<FrameFile>): seq<FrameEntry> {
    MapIndexed(IndexEntry, frames)
  }

  /** `build_frames_index`: the loop over the sorted frames appending one entry each. */
  method BuildFramesIndex(frames: seq<FrameFile>) returns (index: seq<FrameEntry>)
    ensures index == FramesIndex(frames)
  {
    index := [];
    var i := 0;
    while i < |frames|
      invariant 0 <= i <= |frames|
      invariant index == MapIndexed(IndexEntry, frames[..i])
    {
      assert frames[..i + 1][..i] == frames[..i];
      index := index + [IndexEntry(i, frames[i])];
      i := i + 1;
    }
    assert frames[..i] == frames;
  }

  /** Entry `i` names the `i`-th sorted frame and is stamped `i * INTERVAL` seconds, as MM:SS. */
  lemma FramesIndexEntries(frames: seq<FrameFile>)
    ensures |FramesIndex(frames)| == |frames|
    ensures forall i :: 0 <= i < |frames| ==>
      FramesIndex(frames)[i].frame == frames[i].name && FramesIndex(frames)[i].timestampSec == i * Interval &&
      FramesIndex(frames)[i].timestampStr == MmSs(i * Interval)
  {
    MapIndexedAt(IndexEntry, frames);
  }

  /** Two-digit zero padding of a number below 100. */
  lemma PadTwo(n: nat)
    requires n < 100
    ensures PadNat(n, 2) == [DigitChar(n / 10), DigitChar(n % 10)]
  {
    if n < 10 {
      assert NatToString(n) == [DigitChar(n)];
      assert seq(1, _ => '0') == [DigitChar(0)];
    } else {
      assert NatToString(n / 10) == [DigitChar(n / 10)];
    }
  }

  /** Within the first minute the stamp is "00:" and the two digits of the seconds. */
  lemma MmSsFirstMinute(ts: nat)
    requires ts < 60
    ensures MmSs(ts) == ['0', '0', ':', DigitChar(ts / 10), DigitChar(ts % 10)]
  {
    PadTwo(0);
    PadTwo(ts);
  }

  /** Six frames are stamped 0, 5, ..., 25 seconds, "00:00" to "00:25". */
  lemma SixFramesIndex(frames: seq<FrameFile>)
    requires |frames| == 6
    ensures var idx := FramesIndex(frames);
      |idx| == 6 &&
      (forall i :: 0 <= i < 6 ==> idx[i].frame == frames[i].name) &&
      [idx[0].timestampSec, idx[1].timestampSec, idx[2].timestampSec,
       idx[3].timestampSec, idx[4].timestampSec, idx[5].timestampSec] == [0, 5, 10, 15, 20, 25] &&
      [idx[0].timestampStr, idx[1].timestampStr, idx[2].timestampStr,
       idx[3].timestampStr, idx[4].timestampStr, idx[5].timestampStr] ==
      ["00:00", "00:05", "00:10", "00:15", "00:20", "00:25"]
  {
    FramesIndexEntries(frames);
    MmSsFirstMinute(0);
    MmSsFirstMinute(5);
    MmSsFirstMinute(10);
    MmSsFirstMinute(15);
    MmSsFirstMinute(20);
    MmSsFirstMinute(25);
  }

  /** The frame the cover and thumbnail are made from: index `len // 2`
      of the sorted listing, none when there are no frames. */
  function CoverFrame(frames: seq<FrameFile>): (r: Option<string>)
    ensures r.None? <==> frames == []
  {
    if frames == [] then None else Some(frames[|frames| / 2].name)
  }

  /** The cover frame is the middle one: as many frames before it as
      after it, or one more before it. */
  lemma CoverIsMiddle(frames: seq<FrameFile>)
    requires frames != []
    ensures var k := |frames| / 2;
      CoverFrame(frames) == Some(frames[k].name) &&
      (|frames[..k]| == |frames[k + 1..]| || |frames[..k]| == |frames[k + 1..]| + 1)
  {
  }

  // ---------------------------------------------------------------
  // What one message does
  // ---------------------------------------------------------------

  /** `max(1, int(duration / INTERVAL)) * 50_000` for a video of
      `durationSec` whole seconds (ffprobe's reading rounded down, 0 when it failed). */
  function Estimate(durationSec: nat): (e: nat)
    ensures e >= FrameBytesEstimate
    ensures durationSec >= 2 * Interval ==> e == (durationSec / Interval) * FrameBytesEstimate
  {
    (if durationSec / Interval >= 1 then durationSec / Interval else 1) * FrameBytesEstimate
  }

  /** A video shorter than two intervals is estimated as one frame. */
  lemma ShortVideoIsOneFrame(durationSec: nat)
    requires durationSec < 2 * Interval
    ensures Estimate(durationSec) == FrameBytesEstimate
  {
  }

  /** `bytes / 1024 / 1024` in tenths as Python's `:.1f` rounds the exact quotient: to the
      nearest tenth, an exact tie to the even one. */
  function TenthsHalfEven(bytes: nat): (t: nat)
    ensures (2 * t - 1) * VideoAnalysis.BytesPerMb <= 20 * bytes <= (2 * t + 1) * VideoAnalysis.BytesPerMb
    ensures 20 * bytes == (2 * t - 1) * VideoAnalysis.BytesPerMb ==> t % 2 == 0
    ensures 20 * bytes == (2 * t + 1) * VideoAnalysis.BytesPerMb ==> t % 2 == 0
  {
    var m := VideoAnalysis.BytesPerMb;
    var q := 10 * bytes / m;
    var rem := 10 * bytes % m;
    if 2 * rem > m || (2 * rem == m && q % 2 == 1) then q + 1 else q
  }

  /** `f"{bytes / 1024 / 1024:.1f}"`. */
  function PyMbText(bytes: nat): (s: string)
    ensures |s| >= 3 && s[|s| - 2] == '.'
  {
    VideoAnalysis.OneDecimal(TenthsHalfEven(bytes))
  }

  /** The worker's figure is the API's `toFixed(1)` figure except on an exact tie, where it may
      be one tenth lower. */
  lemma HalfEvenAgreesOffTies(bytes: nat)
    ensures TenthsHalfEven(bytes) <= VideoAnalysis.TenthsHalfUp(bytes) <= TenthsHalfEven(bytes) + 1
    ensures 20 * bytes % (2 * VideoAnalysis.BytesPerMb) != VideoAnalysis.BytesPerMb ==>
      TenthsHalfEven(bytes) == VideoAnalysis.TenthsHalfUp(bytes)
  {
    var m: int := VideoAnalysis.BytesPerMb;
    var e: int, u: int := TenthsHalfEven(bytes), VideoAnalysis.TenthsHalfUp(bytes);
    var x: int := 20 * bytes;
    OddMultipleMod(e - 1);
    OddMultipleMod(e);
  }

  /** An odd number of half-MBs leaves half a MB over when divided into whole MBs. */
  lemma OddMultipleMod(k: int)
    ensures (2 * k + 1) * VideoAnalysis.BytesPerMb % (2 * VideoAnalysis.BytesPerMb) == VideoAnalysis.BytesPerMb
  {
    var m := VideoAnalysis.BytesPerMb;
    assert (2 * k + 1) * m == 2 * m * k + m;
  }

  /** 262144 bytes are a quarter of a MB: the worker writes "0.2" where the API writes "0.3". */
  lemma QuarterMbTie()
    ensures PyMbText(262144) == "0.2"
    ensures VideoAnalysis.MbText(262144) == "0.3"
  {
    assert TenthsHalfEven(262144) == 2;
    assert VideoAnalysis.TenthsHalfUp(262144) == 3;
    assert NatToString(0) == "0";
  }

  /** The text of the `OverflowError` the pre-check raises. */
  function OverQuotaMessage(estimate: nat, remaining: nat): string {
    "Estimated frames (" + PyMbText(estimate) + " MB) exceeds remaining quota ("
      + PyMbText(remaining) + " MB)"
  }

  /** How the handling of one message ended. */
  datatype FramesOutcome =
    | NoVideo
    | OverQuota(estimate: nat, remaining: nat)
    | ExtractFailed(error: string)
    // the frames and the index are written; making the cover failed
    | ImagingFailed(error: string, frames: seq<FrameFile>)
    | Extracted(frames: seq<FrameFile>)

  /** The step that decides each message: the video lookup, the
      pre-check, ffmpeg's outcome (the sorted listing of `frames/`
      afterwards, or an error) and PIL's outcome. */
  function Outcome(found: bool, durationSec: nat, remaining: nat,
                   extract: Result<seq<FrameFile>, string>, imaging: Option<string>): (o: FramesOutcome)
    ensures !found <==> o.NoVideo?
    ensures found ==> (o.OverQuota? <==> Estimate(durationSec) > remaining)
    ensures o.Extracted? <==>
      found && Estimate(durationSec) <= remaining && extract.Ok? && (extract.value == [] || imaging.None?)
  {
    if !found then NoVideo
    else if Estimate(durationSec) > remaining then OverQuota(Estimate(durationSec), remaining)
    else if extract.Err? then ExtractFailed(extract.error)
    else if extract.value != [] && imaging.Some? then ImagingFailed(imaging.value, extract.value)
    else Extracted(extract.value)
  }

  /** The error text a failing outcome records. */
  function ErrorText(o: FramesOutcome): string {
    match o
    case OverQuota(e, r) => OverQuotaMessage(e, r)
    case ExtractFailed(err) => err
    case ImagingFailed(err, _) => err
    case _ => ""
  }

  function NotFoundRow(j: Job): Job {
    j.(status := Failed, errorMessage := Some(NotFoundMessage), errorCode := Some(NotFoundCode))
  }

  function FramesStartedRow(j: Job, now: int): Job {
    j.(status := ProcessingFrames, framesStartedAt := Some(now))
  }

  function FramesFailedRow(j: Job, err: string): Job {
    j.(status := Failed, errorMessage := Some(FramesErrorPrefix + Take(err, 500)), errorCode := Some(FramesErrorCode))
  }

  function FramesDoneRow(j: Job, total: nat, now: int): Job {
    j.(status := AsrDone, framesBytes := total, totalBytes := total, hasFrames := true, hasCover := true,
       framesDoneAt := Some(now), framesExpiresAt := Some(now + YearMs))
  }

  /** The job row after one message, from the row before it. */
  function FramesFinalRow(j: Job, o: FramesOutcome, now: int): Job {
    if o.NoVideo? then NotFoundRow(j) else AttemptRow(FramesStartedRow(j, now), o, now)
  }

  /** The row the `try` block leaves, from the PROCESSING_FRAMES row. */
  function AttemptRow(started: Job, o: FramesOutcome, now: int): Job {
    if o.Extracted? then FramesDoneRow(started, TotalSize(o.frames), now) else FramesFailedRow(started, ErrorText(o))
  }

  /** The fields the final row sets for each outcome, and the ones it keeps. */
  lemma FinalRowFields(j: Job, o: FramesOutcome, now: int)
    ensures var r := FramesFinalRow(j, o, now);
      o.NoVideo? ==>
      r.status == Failed && r.errorCode == Some(NotFoundCode) && r.errorMessage == Some(NotFoundMessage) &&
      r.framesStartedAt == j.framesStartedAt
    ensures !o.NoVideo? ==> FramesFinalRow(j, o, now).framesStartedAt == Some(now)
    ensures var r := FramesFinalRow(j, o, now);
      !o.NoVideo? && !o.Extracted? ==>
      r.status == Failed && r.errorCode == Some(FramesErrorCode) &&
      r.errorMessage == Some(FramesErrorPrefix + Take(ErrorText(o), 500))
    ensures var r := FramesFinalRow(j, o, now);
      o.Extracted? ==>
      r.status == AsrDone && r.framesBytes == TotalSize(o.frames) && r.totalBytes == TotalSize(o.frames) &&
      r.hasFrames && r.hasCover && r.framesDoneAt == Some(now) && r.framesExpiresAt == Some(now + YearMs) &&
      r.errorCode == j.errorCode
    ensures var r := FramesFinalRow(j, o, now);
      !o.Extracted? ==>
      r.framesBytes == j.framesBytes && r.totalBytes == j.totalBytes && r.hasFrames == j.hasFrames &&
      r.hasCover == j.hasCover && r.framesExpiresAt == j.framesExpiresAt
    ensures var r := FramesFinalRow(j, o, now);
      r.userId == j.userId && r.analysisMode == j.analysisMode && r.rawBytes == j.rawBytes &&
      r.audioBytes == j.audioBytes && r.hasTranscript == j.hasTranscript && r.asrDoneAt == j.asrDoneAt
  {
  }

  function JobsAfterFrames(jobs: map<string, Job>, id: string, o: FramesOutcome, now: int): map<string, Job> {
    if id in jobs then jobs[id := FramesFinalRow(jobs[id], o, now)] else jobs
  }

  /** `frames/` as ffmpeg leaves it: exactly the listed frames. */
  function WithFrames(files: map<JobPath, FileContent>, jobId: string, frames: seq<FrameFile>): map<JobPath, FileContent>
    decreases |frames|
  {
    if frames == [] then RemoveDir(files, jobId, Frames)
    else
      var last := frames[|frames| - 1];
      WithFrames(files, jobId, frames[..|frames| - 1])[JobPath(jobId, FrameJpg(last.name)) := Blob(last.size)]
  }

  /** After extraction `frames/` holds a file for each listed frame and
      nothing else; every other file is as it was. */
  lemma {:induction false} WithFramesSpec(files: map<JobPath, FileContent>, jobId: string, frames: seq<FrameFile>)
    ensures forall p: JobPath :: p.jobId != jobId || p.file.Dir() != Frames ==>
      (p in WithFrames(files, jobId, frames) <==> p in files)
    ensures forall p: JobPath :: p in files && (p.jobId != jobId || p.file.Dir() != Frames) ==>
      WithFrames(files, jobId, frames)[p] == files[p]
    ensures forall n :: JobPath(jobId, FrameJpg(n)) in WithFrames(files, jobId, frames) <==>
      exists i :: 0 <= i < |frames| && frames[i].name == n
    decreases |frames|
  {
    if frames != [] {
      var init := frames[..|frames| - 1];
      WithFramesSpec(files, jobId, init);
      forall n ensures JobPath(jobId, FrameJpg(n)) in WithFrames(files, jobId, frames) <==>
        exists i :: 0 <= i < |frames| && frames[i].name == n
      {
        if exists i :: 0 <= i < |frames| && frames[i].name == n {
          var i :| 0 <= i < |frames| && frames[i].name == n;
          if i < |init| {
            assert init[i].name == n;
          }
        }
        if JobPath(jobId, FrameJpg(n)) in WithFrames(files, jobId, init) {
          var i :| 0 <= i < |init| && init[i].name == n;
          assert frames[i].name == n;
        }
      }
    }
  }

  /** Every entry of the index names a file that is in `frames/`. */
  lemma IndexNamesFrames(files: map<JobPath, FileContent>, jobId: string, frames: seq<FrameFile>)
    ensures forall e :: e in FramesIndex(frames) ==> JobPath(jobId, FrameJpg(e.frame)) in WithFrames(files, jobId, frames)
  {
    WithFramesSpec(files, jobId, frames);
    FramesIndexEntries(frames);
    forall e | e in FramesIndex(frames)
      ensures JobPath(jobId, FrameJpg(e.frame)) in WithFrames(files, jobId, frames)
    {
      var i :| 0 <= i < |FramesIndex(frames)| && FramesIndex(frames)[i] == e;
      assert frames[i].name == e.frame;
    }
  }

  /** The frames and `frames_index.json`. */
  function Indexed(files: map<JobPath, FileContent>, jobId: string, frames: seq<FrameFile>): map<JobPath, FileContent> {
    WithFrames(files, jobId, frames)[JobPath(jobId, FramesIndexFile) := FramesIndexJson(FramesIndex(frames))]
  }

  /** `cover.jpg` and `thumb.jpg` from the cover frame; nothing without frames. */
  function WithCover(files: map<JobPath, FileContent>, jobId: string, frames: seq<FrameFile>): map<JobPath, FileContent> {
    match CoverFrame(frames)
    case None => files
    case Some(mid) => files[JobPath(jobId, CoverJpg) := ImageOf(mid)][JobPath(jobId, ThumbJpg) := ImageOf(mid)]
  }

  function FilesAfterFrames(files: map<JobPath, FileContent>, jobId: string, o: FramesOutcome): map<JobPath, FileContent> {
    match o
    case ImagingFailed(_, frames) => Indexed(files, jobId, frames)
    case Extracted(frames) => WithCover(Indexed(files, jobId, frames), jobId, frames)
    case _ => files
  }

  /** `frames/` is made once the pre-check passed; `artifacts/` when there is a cover to make. */
  function DirsAfterFrames(dirs: set<(string, Dir)>, jobId: string, o: FramesOutcome): set<(string, Dir)> {
    match o
    case NoVideo => dirs
    case OverQuota(_, _) => dirs
    case ExtractFailed(_) => dirs + {(jobId, Frames)}
    case ImagingFailed(_, _) => dirs + {(jobId, Frames), (jobId, Artifacts)}
    case Extracted(frames) => dirs + {(jobId, Frames)} + (if frames == [] then {} else {(jobId, Artifacts)})
  }

  /** Only a success charges the quota, with the measured bytes. */
  function QuotasAfterFrames(jobs: map<string, Job>, quotas: map<string, Quota>, jobId: string, o: FramesOutcome): map<string, Quota> {
    if o.Extracted? then AddedUsage(jobs, quotas, jobId, TotalSize(o.frames)) else quotas
  }

  // ---------------------------------------------------------------
  // Properties of one message
  // ---------------------------------------------------------------

  /** The check after extraction, `total_bytes > remaining_after + total_bytes`,
      can never hold: remaining is never negative. */
  lemma PostCheckNeverFires(total: nat, jobs: map<string, Job>, quotas: map<string, Quota>, jobId: string)
    ensures !(total > QuotaRemaining(jobs, quotas, jobId) + total)
  {
  }

  /** Without a video the job fails with VIDEO_NOT_FOUND; PROCESSING_FRAMES
      was never written, and no file, directory or quota changes. */
  lemma NoVideoTouchesOnlyTheRow(jobs: map<string, Job>, quotas: map<string, Quota>, files: map<JobPath, FileContent>,
                                 dirs: set<(string, Dir)>, id: string, durationSec: nat, remaining: nat,
                                 extract: Result<seq<FrameFile>, string>, imaging: Option<string>, now: int)
    requires id in jobs
    ensures var o := Outcome(false, durationSec, remaining, extract, imaging);
      var r := JobsAfterFrames(jobs, id, o, now)[id];
      r.status == Failed && r.errorCode == Some(NotFoundCode) && r.framesStartedAt == jobs[id].framesStartedAt &&
      FilesAfterFrames(files, id, o) == files && DirsAfterFrames(dirs, id, o) == dirs &&
      QuotasAfterFrames(jobs, quotas, id, o) == quotas
  {
  }

  /** A failure after the video was found records FRAMES_ERROR and the
      first 500 characters of the error, and leaves every quota row alone. */
  lemma FailureChargesNothing(jobs: map<string, Job>, quotas: map<string, Quota>, id: string, durationSec: nat,
                              remaining: nat, extract: Result<seq<FrameFile>, string>, imaging: Option<string>, now: int)
    requires id in jobs
    requires !Outcome(true, durationSec, remaining, extract, imaging).Extracted?
    ensures var o := Outcome(true, durationSec, remaining, extract, imaging);
      var r := JobsAfterFrames(jobs, id, o, now)[id];
      r.status == Failed && r.errorCode == Some(FramesErrorCode) &&
      r.errorMessage == Some(FramesErrorPrefix + Take(ErrorText(o), 500)) &&
      |r.errorMessage.value| <= |FramesErrorPrefix| + 500 &&
      QuotasAfterFrames(jobs, quotas, id, o) == quotas
  {
  }

  /** A success charges the owner's quota row with exactly the measured
      frame bytes, once, and no other row. */
  lemma SuccessChargesOnce(jobs: map<string, Job>, quotas: map<string, Quota>, id: string, frames: seq<FrameFile>)
    requires id in jobs && jobs[id].userId in quotas
    ensures var u := jobs[id].userId;
      var after := QuotasAfterFrames(jobs, quotas, id, Extracted(frames));
      after.Keys == quotas.Keys &&
      after[u].usageBytes == quotas[u].usageBytes + TotalSize(frames) &&
      after[u].limitBytes == quotas[u].limitBytes &&
      forall v :: v in quotas && v != u ==> after[v] == quotas[v]
  {
  }

  /** An owner without a quota row passes the pre-check against the full
      default quota, yet the frames are never charged: the increment
      matches no row and none is created. */
  lemma UnrecordedOwnerIsNeverCharged(jobs: map<string, Job>, quotas: map<string, Quota>, id: string, frames: seq<FrameFile>)
    requires id in jobs && jobs[id].userId !in quotas
    requires TotalSize(frames) > 0
    ensures QuotaRemaining(jobs, quotas, id) == QuotaBytes
    ensures QuotasAfterFrames(jobs, quotas, id, Extracted(frames)) == quotas
  {
  }

  /** `total_bytes` becomes the frame bytes alone: whatever the row
      counted before (raw video, audio) is dropped, not added to. */
  lemma TotalBytesOverwritten(j: Job, frames: seq<FrameFile>, now: int)
    requires j.totalBytes > 0
    ensures FramesFinalRow(j, Extracted(frames), now).totalBytes == TotalSize(frames)
    ensures FramesFinalRow(j, Extracted(frames), now).totalBytes != j.totalBytes + TotalSize(frames)
  {
  }

  /** With no frames the job still ends with `has_cover` set although no
      cover file is written. */
  lemma CoverFlagWithoutCover(jobs: map<string, Job>, files: map<JobPath, FileContent>, id: string, now: int)
    requires id in jobs && JobPath(id, CoverJpg) !in files
    ensures JobsAfterFrames(jobs, id, Extracted([]), now)[id].hasCover
    ensures JobPath(id, CoverJpg) !in FilesAfterFrames(files, id, Extracted([]))
  {
    WithFramesSpec(files, id, []);
  }

  // ---------------------------------------------------------------
  // The worker
  // ---------------------------------------------------------------

  /** The vision worker over the shared store.  ffprobe's reading, the
      sorted listing ffmpeg leaves in `frames/` (or its error) and PIL's
      outcome are parameters; the process runs an endless loop of `HandleNext`. */
  class Worker {
    const db: Store

    constructor (db: Store)
      ensures this.db == db
    {
      this.db := db;
    }

    /** `add_quota_usage` against the store. */
    method AddQuotaUsage(jobId: string, delta: nat)
      modifies db`quotas
      ensures db.quotas == AddedUsage(db.jobs, old(db.quotas), jobId, delta)
    {
      if jobId in db.jobs && db.jobs[jobId].userId in db.quotas {
        var u := db.jobs[jobId].userId;
        db.quotas := db.quotas[u := db.quotas[u].(usageBytes := db.quotas[u].usageBytes + delta)];
      }
    }

    /** The video lookup: `raw/` listed in whatever order the file system yields. */
    method LocateVideo(jobId: string) returns (video: Option<string>)
      ensures video.None? <==> !HasVideo(db.files, db.dirs, jobId)
      ensures video.Some? ==> video.value in RawNames(db.files, jobId) && IsVideoName(video.value)
    {
      var listing := SetToSeq(RawNames(db.files, jobId));
      video := FindVideoFile((jobId, Raw) in db.dirs, listing);
      if video.None? && (jobId, Raw) in db.dirs {
        forall n | n in RawNames(db.files, jobId)
          ensures !IsVideoName(n)
        {
          var i :| 0 <= i < |listing| && listing[i] == n;
        }
      }
    }

    /** The steps once ffmpeg has left `frames` in `frames/`: the sizes are
        added up, the index and the cover are written, ASR_DONE is written
        and the quota is charged. */
    method Finish(jobId: string, started: Job, frames: seq<FrameFile>, now: int, imaging: Option<string>)
      requires jobId in db.jobs ==> started.userId == db.jobs[jobId].userId
      modifies db`jobs, db`files, db`dirs, db`quotas
      ensures db.jobs == if jobId in old(db.jobs) then
        old(db.jobs)[jobId := if frames != [] && imaging.Some? then FramesFailedRow(started, imaging.value)
                              else FramesDoneRow(started, TotalSize(frames), now)]
        else old(db.jobs)
      ensures db.files == if frames != [] && imaging.Some? then Indexed(old(db.files), jobId, frames)
                          else WithCover(Indexed(old(db.files), jobId, frames), jobId, frames)
      ensures db.dirs == if frames == [] then old(db.dirs) else old(db.dirs) + {(jobId, Artifacts)}
      ensures db.quotas == if frames != [] && imaging.Some? then old(db.quotas)
                           else AddedUsage(old(db.jobs), old(db.quotas), jobId, TotalSize(frames))
    {
      db.files := WithFrames(db.files, jobId, frames);
      var total := MeasureFrames(frames);
      // the post-extraction check never fires (PostCheckNeverFires)
      var index := BuildFramesIndex(frames);
      db.files := db.files[JobPath(jobId, FramesIndexFile) := FramesIndexJson(index)];
      if frames != [] {
        db.dirs := db.dirs + {(jobId, Artifacts)};
        if imaging.Some? {
          db.UpdateJob(jobId, FramesFailedRow(started, imaging.value));
          return;
        }
        var mid := frames[|frames| / 2].name;
        db.files := db.files[JobPath(jobId, CoverJpg) := ImageOf(mid)][JobPath(jobId, ThumbJpg) := ImageOf(mid)];
      }
      var done := FramesDoneRow(started, total, now);
      ghost var before := db.jobs;
      db.UpdateJob(jobId, done);
      OwnerLookupsIgnoreRow(before, db.quotas, jobId, done, total);
      AddQuotaUsage(jobId, total);
    }

    /** The `try` block, once PROCESSING_FRAMES is written: the
        pre-check, the extraction and the steps after it. */
    method Attempt(jobId: string, started: Job, now: int, durationSec: nat,
                   extract: Result<seq<FrameFile>, string>, imaging: Option<string>)
      requires jobId in db.jobs ==> started.userId == db.jobs[jobId].userId
      modifies db`jobs, db`files, db`dirs, db`quotas
      ensures var o := Outcome(true, durationSec, QuotaRemaining(old(db.jobs), old(db.quotas), jobId), extract, imaging);
        db.jobs == if jobId in old(db.jobs) then old(db.jobs)[jobId := AttemptRow(started, o, now)] else old(db.jobs)
      ensures var o := Outcome(true, durationSec, QuotaRemaining(old(db.jobs), old(db.quotas), jobId), extract, imaging);
        db.files == FilesAfterFrames(old(db.files), jobId, o)
      ensures var o := Outcome(true, durationSec, QuotaRemaining(old(db.jobs), old(db.quotas), jobId), extract, imaging);
        db.dirs == DirsAfterFrames(old(db.dirs), jobId, o)
      ensures var o := Outcome(true, durationSec, QuotaRemaining(old(db.jobs), old(db.quotas), jobId), extract, imaging);
        db.quotas == QuotasAfterFrames(old(db.jobs), old(db.quotas), jobId, o)
    {
      var estimate := Estimate(durationSec);
      var remaining := QuotaRemaining(db.jobs, db.quotas, jobId);
      if estimate > remaining {
        db.UpdateJob(jobId, FramesFailedRow(started, OverQuotaMessage(estimate, remaining)));
        return;
      }
      db.dirs := db.dirs + {(jobId, Frames)};
      if extract.Err? {
        db.UpdateJob(jobId, FramesFailedRow(started, extract.error));
        return;
      }
      Finish(jobId, started, extract.value, now, imaging);
    }

    /** What the worker does with a popped job id, given whether a video was found. */
    method Process(jobId: string, found: bool, now: int, durationSec: nat,
                   extract: Result<seq<FrameFile>, string>, imaging: Option<string>)
      modifies db`jobs, db`files, db`dirs, db`quotas
      ensures var o := Outcome(found, durationSec, QuotaRemaining(old(db.jobs), old(db.quotas), jobId), extract, imaging);
        db.jobs == JobsAfterFrames(old(db.jobs), jobId, o, now)
      ensures var o := Outcome(found, durationSec, QuotaRemaining(old(db.jobs), old(db.quotas), jobId), extract, imaging);
        db.files == FilesAfterFrames(old(db.files), jobId, o)
      ensures var o := Outcome(found, durationSec, QuotaRemaining(old(db.jobs), old(db.quotas), jobId), extract, imaging);
        db.dirs == DirsAfterFrames(old(db.dirs), jobId, o)
      ensures var o := Outcome(found, durationSec, QuotaRemaining(old(db.jobs), old(db.quotas), jobId), extract, imaging);
        db.quotas == QuotasAfterFrames(old(db.jobs), old(db.quotas), jobId, o)
    {
      // a missing row is never written, so its stand-in value does not matter
      var row := if jobId in db.jobs then db.jobs[jobId] else NewJob(jobId, None, TextOnly, "", None);
      if !found {
        db.UpdateJob(jobId, NotFoundRow(row));
        return;
      }
      var started := FramesStartedRow(row, now);
      ghost var before := db.jobs;
      db.UpdateJob(jobId, started);
      ghost var o := Outcome(true, durationSec, QuotaRemaining(before, db.quotas, jobId), extract, imaging);
      OwnerLookupsIgnoreRow(before, db.quotas, jobId, started, if o.Extracted? then TotalSize(o.frames) else 0);
      Attempt(jobId, started, now, durationSec, extract, imaging);
    }

    /** One turn of the consumer loop: an empty poll changes nothing;
        otherwise the head id is taken off `queue:frames`, its video is
        looked up and the message is processed.  `video` is the file
        found, if any. */
    method HandleNext(now: int, durationSec: nat, extract: Result<seq<FrameFile>, string>, imaging: Option<string>)
      returns (handled: Option<string>, video: Option<string>)
      modifies db`jobs, db`frameQueue, db`files, db`dirs, db`quotas
      ensures old(db.frameQueue) == [] ==> handled == None && video == None && unchanged(db)
      ensures old(db.frameQueue) != [] ==>
        var id := old(db.frameQueue[0]);
        handled == Some(id) && db.frameQueue == old(db.frameQueue[1..]) &&
        (video.None? <==> !HasVideo(old(db.files), old(db.dirs), id)) &&
        (video.Some? ==> video.value in RawNames(old(db.files), id) && IsVideoName(video.value)) &&
        var o := Outcome(video.Some?, durationSec, QuotaRemaining(old(db.jobs), old(db.quotas), id), extract, imaging);
        db.jobs == JobsAfterFrames(old(db.jobs), id, o, now) &&
        db.files == FilesAfterFrames(old(db.files), id, o) &&
        db.dirs == DirsAfterFrames(old(db.dirs), id, o) &&
        db.quotas == QuotasAfterFrames(old(db.jobs), old(db.quotas), id, o)
    {
      if db.frameQueue == [] {
        return None, None;
      }
      var id := db.frameQueue[0];
      db.frameQueue := db.frameQueue[1..];
      video := LocateVideo(id);
      Process(id, video.Some?, now, durationSec, extract, imaging);
      handled := Some(id);
    }
  }
}

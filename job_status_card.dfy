/** The status badge and progress bar of one analysis job in the web app:
    the label and colours of each status, the pipeline steps shown as a
    progress bar, and the processing / done / failed classification that
    picks the card's border.  Statuses arrive as raw strings from the API. */
module JobStatusCard {
  import opened Common
  import opened MediaStore

  /** The label and the two colour classes of a status badge. */
  datatype StatusInfo = StatusInfo(text: string, color: string, bg: string)

  /** The fixed table of known statuses. */
  function StatusMap(st: JobStatus): StatusInfo {
    match st
    case Uploading => StatusInfo("กำลังอัพโหลด", "text-blue-700", "bg-blue-100")
    case Uploaded => StatusInfo("อัพโหลดแล้ว", "text-blue-700", "bg-blue-100")
    case Queued => StatusInfo("รอคิว", "text-yellow-700", "bg-yellow-100")
    case ProcessingAsr => StatusInfo("กำลังถอดเสียง", "text-indigo-700", "bg-indigo-100")
    case AsrDone => StatusInfo("ถอดเสียงเสร็จ", "text-indigo-700", "bg-indigo-100")
    case ProcessingFrames => StatusInfo("กำลังแยกเฟรม", "text-purple-700", "bg-purple-100")
    case Analyzing => StatusInfo("กำลังวิเคราะห์ AI", "text-amber-700", "bg-amber-100")
    case Done => StatusInfo("เสร็จสิ้น", "text-green-700", "bg-green-100")
    case Failed => StatusInfo("ล้มเหลว", "text-red-700", "bg-red-100")
    case RejectedQuota => StatusInfo("เกินโควต้า", "text-red-700", "bg-red-100")
  }

  /** The badge of a raw status: the table entry, or the raw string in grey. */
  function Info(status: string): (r: StatusInfo)
    ensures ParseStatus(status) == None ==> r == StatusInfo(status, "text-gray-700", "bg-gray-100")
    ensures ParseStatus(status).Some? ==> r == StatusMap(ParseStatus(status).value)
  {
    match ParseStatus(status)
    case Some(st) => StatusMap(st)
    case None => StatusInfo(status, "text-gray-700", "bg-gray-100")
  }

  /** Every known status has its own label, so no two statuses share a badge text. */
  lemma LabelsDistinct(a: JobStatus, b: JobStatus)
    requires a != b
    ensures StatusMap(a).text != StatusMap(b).text
  {
  }

  /** The statuses drawn as the progress bar, in pipeline order. */
  const PipelineSteps: seq<string> :=
    ["QUEUED", "PROCESSING_ASR", "ASR_DONE", "PROCESSING_FRAMES", "ANALYZING", "DONE"]

  /** Position in the progress bar, or -1 for a status not on it. */
  function StepIndex(status: string): (i: int)
    ensures -1 <= i < |PipelineSteps|
    ensures i == -1 <==> status !in PipelineSteps
    ensures i >= 0 ==> PipelineSteps[i] == status
  {
    IndexOf(PipelineSteps, status)
  }

  predicate IsProcessing(status: string) {
    status in ["QUEUED", "PROCESSING_ASR", "ASR_DONE", "PROCESSING_FRAMES", "ANALYZING"]
  }

  predicate IsDone(status: string) {
    status == "DONE"
  }

  predicate IsFailed(status: string) {
    status == "FAILED" || status == "REJECTED_QUOTA"
  }

  /** At most one of the three classifications holds. */
  lemma ClassesExclusive(status: string)
    ensures !(IsProcessing(status) && IsDone(status))
    ensures !(IsProcessing(status) && IsFailed(status))
    ensures !(IsDone(status) && IsFailed(status))
  {
  }

  /** A status is processing exactly when it is on the progress bar before DONE. */
  lemma ProcessingIsEarlyStep(status: string)
    ensures IsProcessing(status) <==> 0 <= StepIndex(status) < |PipelineSteps| - 1
    ensures IsDone(status) <==> StepIndex(status) == |PipelineSteps| - 1
  {
    var i := StepIndex(status);
    if 0 <= i < |PipelineSteps| - 1 {
      assert status == PipelineSteps[i];
    }
  }

  /** The statuses before the queue and the failure statuses are not on the bar. */
  lemma OffTheBar()
    ensures StepIndex("UPLOADING") == -1 && StepIndex("UPLOADED") == -1
    ensures StepIndex("FAILED") == -1 && StepIndex("REJECTED_QUOTA") == -1
  {
  }

  /** The progress bar follows the order the pipeline goes through. */
  lemma StepsInLifecycleOrder()
    ensures StepIndex(Queued.Name()) < StepIndex(ProcessingAsr.Name()) < StepIndex(AsrDone.Name())
    ensures StepIndex(AsrDone.Name()) < StepIndex(ProcessingFrames.Name()) < StepIndex(Analyzing.Name())
    ensures StepIndex(Analyzing.Name()) < StepIndex(Done.Name())
  {
    StepAt(0);
    StepAt(1);
    StepAt(2);
    StepAt(3);
    StepAt(4);
    StepAt(5);
  }

  /** Each step sits at its own position: no status appears twice on the bar. */
  lemma StepAt(k: nat)
    requires k < |PipelineSteps|
    ensures StepIndex(PipelineSteps[k]) == k
  {
    var i := StepIndex(PipelineSteps[k]);
    assert PipelineSteps[k] in PipelineSteps;
    if i < k {
      StepsDistinct(i, k);
    }
  }

  lemma StepsDistinct(i: nat, k: nat)
    requires i < k < |PipelineSteps|
    ensures PipelineSteps[i] != PipelineSteps[k]
  {
    // the six names have six different lengths
    var lengths := [6, 14, 8, 17, 9, 4];
    assert forall j :: 0 <= j < |PipelineSteps| ==> |PipelineSteps[j]| == lengths[j];
    assert lengths[i] != lengths[k];
  }

  /** The left border: green when done, red when failed, amber while processing, grey otherwise. */
  function BorderClass(status: string): (c: string)
    ensures IsDone(status) ==> c == "border-green-500"
    ensures IsFailed(status) ==> c == "border-red-500"
    ensures IsProcessing(status) ==> c == "border-amber-500"
    ensures !IsDone(status) && !IsFailed(status) && !IsProcessing(status) ==> c == "border-gray-300"
  {
    if IsDone(status) then "border-green-500"
    else if IsFailed(status) then "border-red-500"
    else if IsProcessing(status) then "border-amber-500"
    else "border-gray-300"
  }
}

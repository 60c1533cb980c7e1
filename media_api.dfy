/** The prototype streaming upload service: a quota report, job creation
    (two directories and an UPLOADING reply) and an upload endpoint that
    streams the request body to `raw/video.mp4` while guarding the quota
    after every chunk.  The user's current usage comes from a placeholder
    lookup; here it is a parameter. */
module MediaApi {
  import opened Common
  import opened MediaStore

  /** `QUOTA_BYTES_PER_USER` when the environment does not set it. */
  const DefaultQuota: nat := 1073741824
  /** The size of one `file.read` request. */
  const ChunkBytes: nat := 1024 * 1024
  const PreCheckDetail := "Quota exceeded"
  const StreamDetail := "Quota exceeded during upload"
  const UploadName := "video.mp4"

  /** The body of `GET /api/v1/quota`. */
  datatype QuotaReport = QuotaReport(limitBytes: nat, usageBytes: nat, remainingBytes: nat)

  function QuotaOf(quota: nat, usage: nat): (r: QuotaReport)
    ensures r.limitBytes == quota && r.usageBytes == usage
    ensures usage <= quota ==> usage + r.remainingBytes == quota
    ensures usage >= quota ==> r.remainingBytes == 0
  {
    QuotaReport(quota, usage, ClampZero(quota - usage))
  }

  /** The reply of a finished upload, or the HTTP 409 detail that ended it. */
  datatype UploadReply = Stored(rawBytes: nat) | Refused(detail: string)

  /** The chunks the loop consumes: everything before the first empty read. */
  function Streamed(chunks: seq<nat>): (r: seq<nat>)
    ensures |r| <= |chunks| && r == chunks[..|r|]
    ensures forall k :: 0 <= k < |r| ==> r[k] > 0
    ensures |r| < |chunks| ==> chunks[|r|] == 0
  {
    if chunks == [] || chunks[0] == 0 then []
    else [chunks[0]] + Streamed(chunks[1..])
  }

  /** What the streaming loop ends with, having already written `written`
      bytes: the byte count at the first empty read, or the 409 of the
      first chunk that would take the user over the quota. */
  function Stream(quota: nat, usage: nat, written: nat, chunks: seq<nat>): UploadReply
    decreases |chunks|
  {
    if chunks == [] || chunks[0] == 0 then Stored(written)
    else if usage + written + chunks[0] > quota then Refused(StreamDetail)
    else Stream(quota, usage, written + chunks[0], chunks[1..])
  }

  /** The stream succeeds iff all of it fits, and then it reports the sum of
      the chunk lengths. */
  lemma {:induction false} StreamOutcome(quota: nat, usage: nat, written: nat, chunks: seq<nat>)
    requires usage + written <= quota
    ensures Stream(quota, usage, written, chunks).Stored?
            <==> usage + written + Sum(Streamed(chunks)) <= quota
    ensures Stream(quota, usage, written, chunks).Stored? ==>
              Stream(quota, usage, written, chunks).rawBytes == written + Sum(Streamed(chunks))
    ensures Stream(quota, usage, written, chunks).Refused? ==>
              Stream(quota, usage, written, chunks).detail == StreamDetail
    decreases |chunks|
  {
    if chunks == [] || chunks[0] == 0 {
    } else if usage + written + chunks[0] > quota {
      assert Streamed(chunks) == [chunks[0]] + Streamed(chunks[1..]);
    } else {
      StreamOutcome(quota, usage, written + chunks[0], chunks[1..]);
      assert Streamed(chunks) == [chunks[0]] + Streamed(chunks[1..]);
    }
  }

  /** The whole endpoint as a function: the size-hint pre-check, then the
      stream.  A zero size hint is falsy and is ignored like a missing one. */
  function UploadResult(quota: nat, usage: nat, sizeHint: Option<nat>, chunks: seq<nat>): UploadReply
  {
    if PreCheckRefuses(quota, usage, sizeHint) then Refused(PreCheckDetail)
    else Stream(quota, usage, 0, chunks)
  }

  predicate PreCheckRefuses(quota: nat, usage: nat, sizeHint: Option<nat>) {
    sizeHint.Some? && sizeHint.value > 0 && usage + sizeHint.value > quota
  }

  /** A successful upload stores exactly the streamed bytes and keeps the
      user within the quota. */
  lemma UploadedWithinQuota(quota: nat, usage: nat, sizeHint: Option<nat>, chunks: seq<nat>)
    requires UploadResult(quota, usage, sizeHint, chunks).Stored?
    ensures UploadResult(quota, usage, sizeHint, chunks).rawBytes == Sum(Streamed(chunks))
    ensures Streamed(chunks) == [] || usage + Sum(Streamed(chunks)) <= quota
    ensures !PreCheckRefuses(quota, usage, sizeHint)
  {
    if usage <= quota {
      StreamOutcome(quota, usage, 0, chunks);
    } else {
      OverQuotaStoresNothing(quota, usage, sizeHint, chunks);
    }
  }

  /** A user already over the quota can store only an empty upload, and
      only without a size hint. */
  lemma OverQuotaStoresNothing(quota: nat, usage: nat, sizeHint: Option<nat>, chunks: seq<nat>)
    requires usage > quota
    ensures UploadResult(quota, usage, sizeHint, chunks).Stored?
            <==> !PreCheckRefuses(quota, usage, sizeHint) && Streamed(chunks) == []
    ensures PreCheckRefuses(quota, usage, sizeHint) <==> sizeHint.Some? && sizeHint.value > 0
  {
  }

  /** The directories and files of the prototype's data root. */
  class Api {
    const db: Store
    const quota: nat

    constructor (db: Store, quota: nat)
      ensures this.db == db && this.quota == quota
    {
      this.db := db;
      this.quota := quota;
    }

    /** `POST /api/v1/jobs`: the job id is freshly drawn by the caller. Both
        directories are created (`exist_ok`); no job row is written. */
    method CreateJob(jobId: string) returns (status: JobStatus)
      modifies db`dirs
      ensures status == Uploading
      ensures db.dirs == old(db.dirs) + {(jobId, Raw), (jobId, Artifacts)}
    {
      db.dirs := db.dirs + {(jobId, Raw), (jobId, Artifacts)};
      status := Uploading;
    }

    /** `POST /api/v1/jobs/{id}/upload` with the body given as the lengths of
        the successive reads (a read of length 0 is end of stream). */
    method Upload(jobId: string, usage: nat, sizeHint: Option<nat>, chunks: seq<nat>)
      returns (reply: UploadReply)
      modifies db`dirs, db`files
      ensures reply == UploadResult(quota, usage, sizeHint, chunks)
      ensures reply.Stored? && reply.rawBytes > 0 ==> usage + reply.rawBytes <= quota
      ensures PreCheckRefuses(quota, usage, sizeHint) ==>
                db.dirs == old(db.dirs) && db.files == old(db.files)
      ensures !PreCheckRefuses(quota, usage, sizeHint) ==>
                db.dirs == old(db.dirs) + {(jobId, Raw)}
      ensures !PreCheckRefuses(quota, usage, sizeHint) ==>
                db.files == if reply.Stored?
                            then old(db.files)[JobPath(jobId, RawVideo(UploadName)) := Blob(reply.rawBytes)]
                            else old(db.files) - {JobPath(jobId, RawVideo(UploadName))}
    {
      if PreCheckRefuses(quota, usage, sizeHint) {
        return Refused(PreCheckDetail);
      }
      db.dirs := db.dirs + {(jobId, Raw)};
      var path := JobPath(jobId, RawVideo(UploadName));
      db.files := db.files[path := Blob(0)];
      ghost var files0 := old(db.files);
      var written := 0;
      var i := 0;
      while i < |chunks| && chunks[i] != 0
        invariant 0 <= i <= |chunks|
        invariant usage + written <= quota || (written == 0 && i == 0)
        invariant Stream(quota, usage, 0, chunks) == Stream(quota, usage, written, chunks[i..])
        invariant db.files == files0[path := Blob(written)]
        invariant db.dirs == old(db.dirs) + {(jobId, Raw)}
        decreases |chunks| - i
      {
        written := written + chunks[i];
        if usage + written > quota {
          db.files := db.files - {path};
          assert db.files == files0 - {path};
          return Refused(StreamDetail);
        }
        assert chunks[i..][1..] == chunks[i + 1..];
        db.files := db.files[path := Blob(written)];
        i := i + 1;
      }
      reply := Stored(written);
    }
  }

  /** Once the running total of some prefix of the stream goes over what
      the user has left, the upload ends in a 409: no chunk that would pass
      the quota is ever kept on disk. */
  lemma {:induction false} OverflowingPrefixConflicts(quota: nat, usage: nat, written: nat, chunks: seq<nat>, n: nat)
    requires usage + written <= quota
    requires n <= |Streamed(chunks)|
    requires usage + written + Sum(Streamed(chunks)[..n]) > quota
    ensures Stream(quota, usage, written, chunks).Refused?
    decreases |chunks|
  {
    var s := Streamed(chunks);
    assert n > 0;
    assert s == [chunks[0]] + Streamed(chunks[1..]);
    if usage + written + chunks[0] <= quota {
      assert s[..n] == [chunks[0]] + Streamed(chunks[1..])[..n - 1];
      OverflowingPrefixConflicts(quota, usage, written + chunks[0], chunks[1..], n - 1);
    }
  }
}

/** Sessions, their resumable snapshots and the persisted records of those. */
module Sessions {
  import opened Basics
  import opened Plan

  const MAX_KEY_BYTES: nat := 1_024
  const MIN_BUCKET_NAME_LEN: nat := 3
  const MAX_BUCKET_NAME_LEN: nat := 63
  const HYPHEN: byte := 45

  predicate ValidKey(key: Bytes) {
    1 <= |key| <= MAX_KEY_BYTES
  }

  predicate BucketByte(b: byte) {
    97 <= b <= 122 || 48 <= b <= 57 || b == HYPHEN
  }

  predicate ValidBucket(name: Bytes) {
    && MIN_BUCKET_NAME_LEN <= |name| <= MAX_BUCKET_NAME_LEN
    && (forall i :: 0 <= i < |name| ==> BucketByte(name[i]))
    && name[0] != HYPHEN && name[|name| - 1] != HYPHEN
  }

  datatype Session = Session(bucket: Bytes, key: Bytes, uploadId: Bytes, plan: MultipartPlan) {
    predicate Valid() { ValidBucket(bucket) && ValidKey(key) && plan.Valid() }
  }

  datatype Snapshot = Snapshot(bucket: Bytes, key: Bytes, uploadId: Bytes, fileSize: nat, partSize: nat)

  datatype Record = Record(version: nat, bucket: Bytes, key: Bytes, uploadId: Bytes, fileSize: nat, partSize: nat)

  function SnapshotOf(s: Session): Snapshot {
    Snapshot(s.bucket, s.key, s.uploadId, s.plan.fileSize, s.plan.partSize)
  }

  function Restore(bucket: Bytes, key: Bytes, uploadId: Bytes, fileSize: nat, partSize: nat): Result<Snapshot, Error> {
    if !ValidBucket(bucket) then Err(InvalidBucket)
    else if !ValidKey(key) then Err(InvalidKey)
    else
      match NewPlan(fileSize, partSize)
      case Err(e) => Err(e)
      case Ok(_) =>
        if uploadId == [] then Err(EmptyUploadId) else Ok(Snapshot(bucket, key, uploadId, fileSize, partSize))
  }

  function IntoRecord(s: Snapshot): Record {
    Record(1, s.bucket, s.key, s.uploadId, s.fileSize, s.partSize)
  }

  function FromRecord(r: Record): Result<Snapshot, Error> {
    if r.version != 1 then Err(UnsupportedVersion)
    else Restore(r.bucket, r.key, r.uploadId, r.fileSize, r.partSize)
  }

  function Resume(bucket: Bytes, s: Snapshot): Result<Session, Error> {
    if s.bucket != bucket then Err(OtherBucket)
    else
      match NewPlan(s.fileSize, s.partSize)
      case Err(e) => Err(e)
      case Ok(plan) => Ok(Session(bucket, s.key, s.uploadId, plan))
  }

  /** A session's own snapshot is accepted by its bucket, and by no other, and rebuilds the session
      with the same plan. */
  lemma {:induction false} ResumeRebuildsSession(session: Session, bucket: Bytes)
    requires session.Valid()
    ensures Resume(bucket, SnapshotOf(session)).Ok? <==> bucket == session.bucket
    ensures Resume(session.bucket, SnapshotOf(session)) == Ok(session)
  {
    ValidPlanIsRebuilt(session.plan);
  }

  /** The persisted record of a session's snapshot reads back as that snapshot if and only if the
      upload id is not empty. */
  lemma {:induction false} RecordRoundTrip(session: Session)
    requires session.Valid()
    ensures FromRecord(IntoRecord(SnapshotOf(session))) == Ok(SnapshotOf(session)) <==> session.uploadId != []
    ensures session.uploadId == [] ==> FromRecord(IntoRecord(SnapshotOf(session))) == Err(EmptyUploadId)
  {
    ValidPlanIsRebuilt(session.plan);
  }

  /** A record that is accepted is written back unchanged, and can be resumed in its bucket with a
      valid plan for its sizes. */
  lemma {:induction false} AcceptedRecordResumes(r: Record)
    requires FromRecord(r).Ok?
    ensures IntoRecord(FromRecord(r).value) == r
    ensures var resumed := Resume(r.bucket, FromRecord(r).value);
            resumed.Ok? && resumed.value.Valid() && SnapshotOf(resumed.value) == FromRecord(r).value
  {
    NewPlanAccepts(r.fileSize, r.partSize);
  }

  /** A refused record or snapshot is really at fault. */
  lemma {:induction false} RefusedRecordIsWrong(r: Record)
    requires FromRecord(r).Err?
    ensures match FromRecord(r).error
            case UnsupportedVersion => r.version != 1
            case InvalidBucket => !ValidBucket(r.bucket)
            case InvalidKey => !ValidKey(r.key)
            case EmptyUploadId => r.uploadId == []
            case error => NewPlan(r.fileSize, r.partSize) == Err(error)
  {
  }
}

/** Strategy and part-size choice against R2's limits and the caller's memory budget. */
module Sizing {
  import opened Basics
  import opened Plan

  const MIN_THRESHOLD: nat := 5 * 1024 * 1024
  const DEFAULT_THRESHOLD: nat := 8 * 1024 * 1024
  const MAX_CONCURRENCY: nat := 64
  const MAX_ATTEMPTS: nat := 10

  /** The raised part size of the adaptive and the presigned paths. */
  function RaisedPartSize(partSize: nat, fileSize: nat): nat {
    Max(partSize, CeilDiv(fileSize, MAX_PARTS))
  }

  /** The raised size is the least one not below `partSize` that needs at most 10,000 parts. */
  lemma {:induction false} RaisedPartSizeIsLeast(partSize: nat, fileSize: nat, p: nat)
    requires p > 0
    ensures RaisedPartSize(partSize, fileSize) <= p <==> partSize <= p && CeilDiv(fileSize, p) <= MAX_PARTS
  {
    CeilDivIsLeast(fileSize, MAX_PARTS, p);
    CeilDivIsLeast(fileSize, p, MAX_PARTS);
  }

  /** Raising never leaves R2's part limits for an object R2 can hold, and the raised plan exists
      exactly for those objects. */
  lemma {:induction false} RaisedPlanAccepted(partSize: nat, fileSize: nat)
    requires PartSizeAllowed(partSize) && fileSize >= 1
    ensures NewPlan(fileSize, RaisedPartSize(partSize, fileSize)).Ok? <==> fileSize <= MAX_OBJECT_SIZE
    ensures fileSize <= MAX_OBJECT_SIZE ==> PartSizeAllowed(RaisedPartSize(partSize, fileSize))
  {
    var raised := RaisedPartSize(partSize, fileSize);
    NewPlanAccepts(fileSize, raised);
    CeilDivIsLeast(fileSize, MAX_PARTS, raised);
    CeilDivIsLeast(fileSize, MAX_PARTS, MAX_PART_SIZE);
  }

  datatype UploadPlan = SinglePut | Multipart(plan: MultipartPlan)

  /** `presign_upload_with_options`, the sizing part. */
  function PresignUpload(fileSize: nat): Result<UploadPlan, Error> {
    if fileSize < DEFAULT_THRESHOLD then Ok(SinglePut)
    else
      match NewPlan(fileSize, Max(CeilDiv(fileSize, MAX_PARTS), DEFAULT_THRESHOLD))
      case Ok(plan) => Ok(Multipart(plan))
      case Err(e) => Err(e)
  }

  /** At or above the threshold a presigned upload is planned exactly when R2 can hold the object,
      and then as a valid multipart plan of the least sufficient parts from 8 MiB up. */
  lemma {:induction false} PresignUploadAccepted(fileSize: nat)
    ensures PresignUpload(fileSize).Ok? <==> fileSize <= MAX_OBJECT_SIZE
    ensures fileSize < DEFAULT_THRESHOLD ==> PresignUpload(fileSize) == Ok(SinglePut)
    ensures fileSize > MAX_OBJECT_SIZE ==> PresignUpload(fileSize) == Err(ObjectTooLarge)
    ensures fileSize >= DEFAULT_THRESHOLD && PresignUpload(fileSize).Ok? ==>
              var chosen := PresignUpload(fileSize).value;
              && chosen.Multipart? && chosen.plan.Valid() && chosen.plan.fileSize == fileSize
              && chosen.plan.partSize == RaisedPartSize(DEFAULT_THRESHOLD, fileSize)
  {
    if fileSize >= DEFAULT_THRESHOLD {
      RaisedPlanAccepted(DEFAULT_THRESHOLD, fileSize);
      NewPlanAccepts(fileSize, RaisedPartSize(DEFAULT_THRESHOLD, fileSize));
    }
  }

  /** `saturating_mul` on `u64`. */
  function RequiredBufferBytes(partSize: nat, concurrency: nat): nat {
    var product := partSize * concurrency;
    if product > U64_MAX then U64_MAX else product
  }

  datatype Settings = Settings(partSize: nat, concurrency: nat, maxAttempts: nat, maxBufferedBytes: nat)

  /** `validate`, the numeric checks in the order the managed builder makes them. */
  function Validate(s: Settings): Result<(), Error> {
    if !PartSizeAllowed(s.partSize) then Err(PartSizeOutOfRange)
    else if s.concurrency == 0 || s.concurrency > MAX_CONCURRENCY then Err(ConcurrencyOutOfRange)
    else if s.maxAttempts == 0 || s.maxAttempts > MAX_ATTEMPTS then Err(AttemptsOutOfRange)
    else if RequiredBufferBytes(s.partSize, s.concurrency) > s.maxBufferedBytes then Err(MemoryBudgetExceeded)
    else Ok(())
  }

  predicate Accepted(s: Settings) {
    && PartSizeAllowed(s.partSize)
    && 1 <= s.concurrency <= MAX_CONCURRENCY
    && 1 <= s.maxAttempts <= MAX_ATTEMPTS
    && s.partSize * s.concurrency <= s.maxBufferedBytes
  }

  /** Saturation never hides an overrun: a full pool of full parts fits the budget exactly when
      the settings pass. */
  lemma {:induction false} ValidateIsExact(s: Settings)
    requires s.maxBufferedBytes <= U64_MAX
    ensures Validate(s).Ok? <==> Accepted(s)
  {
    if PartSizeAllowed(s.partSize) && s.concurrency <= MAX_CONCURRENCY {
      SmallProduct(s.partSize, s.concurrency);
    }
  }

  /** A refusal names a limit that the settings really break. */
  lemma {:induction false} RefusedSettingsBreakALimit(s: Settings)
    requires s.maxBufferedBytes <= U64_MAX && Validate(s).Err?
    ensures match Validate(s).error
            case PartSizeOutOfRange => !PartSizeAllowed(s.partSize)
            case ConcurrencyOutOfRange => !(1 <= s.concurrency <= MAX_CONCURRENCY)
            case AttemptsOutOfRange => !(1 <= s.maxAttempts <= MAX_ATTEMPTS)
            case MemoryBudgetExceeded => s.partSize * s.concurrency > s.maxBufferedBytes
            case _ => false
  {
  }

  lemma {:induction false} SmallProduct(partSize: nat, concurrency: nat)
    requires partSize <= MAX_PART_SIZE && concurrency <= MAX_CONCURRENCY
    ensures partSize * concurrency <= U64_MAX
  {
    MulMono(partSize, MAX_PART_SIZE, concurrency);
    assert MAX_PART_SIZE * concurrency <= MAX_PART_SIZE * MAX_CONCURRENCY;
  }
}

/** Values shared by every module: bytes, ETags, results and the error kinds. */
module Basics {
  newtype byte = x: int | 0 <= x < 256

  type Bytes = seq<byte>

  /** An ETag, compared byte for byte and kept exactly as R2 sent it. */
  type ETag = string

  datatype Option<+T> = None | Some(value: T)

  datatype Result<+T, +E> = Ok(value: T) | Err(error: E)

  /** Error kinds, without the message texts. */
  datatype Error =
    | FileSizeZero
    | ObjectTooLarge
    | SingleUploadTooLarge
    | PartSizeOutOfRange
    | TooManyParts
    | PartNumberOutOfRange
    | ConcurrencyOutOfRange
    | AttemptsOutOfRange
    | MemoryBudgetExceeded
    | EmptyETag
    | DuplicatePart
    | NoParts
    | MissingParts
    | NotEveryPlannedPart
    | InvalidRemoteNumber
    | OutsidePlan
    | UnexpectedSize
    | NotWhatIsStored
    | NotARegularFile
    | SourceChanged
    | InvalidBucket
    | InvalidKey
    | EmptyUploadId
    | UnsupportedVersion
    | OtherBucket
    | SessionMismatch
    | ChecksumUnsupported
    | ConditionUnsupported
    | OptionsOnResume
    | ResumeUnsupported
    | Service
    | Remote
    | Io
    | Cancelled

  const U64_MAX: nat := 0xFFFF_FFFF_FFFF_FFFF
  const U16_MAX: nat := 0xFFFF

  function Min(a: int, b: int): int { if a < b then a else b }

  function Max(a: int, b: int): int { if a < b then b else a }
}

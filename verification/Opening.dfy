/** The way into an upload, up to the session: everything that fails here fails before the start. */
module Opening {
  import opened Basics
  import opened Plan
  import opened Sizing
  import opened Sessions

  /** What the checks ask of the upload options: what their own validation reports, whether a checksum
      or a condition is set, and whether nothing is set. */
  datatype Options = Options(invalid: Option<Error>, checksum: bool, conditional: bool, empty: bool)

  /** A managed upload as it is called. `cancelled` is what the signal shows when it is looked at,
      `created` the store's answer to CreateMultipartUpload if it is asked. */
  datatype Call = Call(
    settings: Settings, options: Options, bucket: Bytes, key: Bytes, resume: Option<Snapshot>,
    abortOnError: bool, cancelled: bool, created: Result<Bytes, Error>)
  {
    /** Bucket, keys and a `u64` budget are what their types let through. */
    predicate WellFormed() {
      && ValidBucket(bucket) && ValidKey(key) && (resume.Some? ==> ValidKey(resume.value.key))
      && settings.maxBufferedBytes <= U64_MAX
    }
  }

  /** `validate`, in the order of its checks. */
  function CheckCall(call: Call): Result<(), Error> {
    match Validate(call.settings)
    case Err(e) => Err(e)
    case Ok(_) =>
      if call.options.invalid.Some? then Err(call.options.invalid.value)
      else if call.options.checksum then Err(ChecksumUnsupported)
      else if call.options.conditional then Err(ConditionUnsupported)
      else if call.resume.Some? && !call.options.empty then Err(OptionsOnResume)
      else Ok(())
  }

  /** What `tokio::fs::metadata` reported for the path. */
  datatype Metadata = NoMetadata | NotAFile | RegularFile(len: nat)

  function CreateSession(call: Call, fileSize: nat): Result<Session, Error> {
    match NewPlan(fileSize, call.settings.partSize)
    case Err(e) => Err(e)
    case Ok(plan) =>
      match call.created
      case Err(e) => Err(e)
      case Ok(uploadId) => Ok(Session(call.bucket, call.key, uploadId, plan))
  }

  /** `upload_file` up to the session. */
  function OpenFile(call: Call, metadata: Metadata): Result<Session, Error> {
    match CheckCall(call)
    case Err(e) => Err(e)
    case Ok(_) =>
      match metadata
      case NoMetadata => Err(Io)
      case NotAFile => Err(NotARegularFile)
      case RegularFile(len) =>
        if call.cancelled then Err(Cancelled)
        else
          match call.resume
          case None => CreateSession(call, len)
          case Some(snapshot) =>
            if snapshot.fileSize != len || snapshot.partSize != call.settings.partSize then Err(SessionMismatch)
            else Resume(call.bucket, snapshot)
  }

  /** `upload_stream` up to the session. */
  function OpenStream(call: Call, fileSize: nat): Result<Session, Error> {
    match CheckCall(call)
    case Err(e) => Err(e)
    case Ok(_) =>
      if call.cancelled then Err(Cancelled)
      else if call.resume.Some? then Err(ResumeUnsupported)
      else CreateSession(call, fileSize)
  }

  // ----- When a run starts, and with what -----

  predicate Permitted(call: Call) {
    && Accepted(call.settings) && !call.cancelled
    && call.options.invalid.None? && !call.options.checksum && !call.options.conditional
    && (call.resume.Some? ==> call.options.empty)
  }

  /** A file of this size can be cut into parts of this size. */
  predicate Plannable(fileSize: nat, partSize: nat) {
    1 <= fileSize <= MAX_OBJECT_SIZE && PartSizeAllowed(partSize) && fileSize <= MAX_PARTS * partSize
  }

  lemma {:induction false} CheckIsExact(call: Call)
    requires call.settings.maxBufferedBytes <= U64_MAX && !call.cancelled
    ensures CheckCall(call).Ok? <==> Permitted(call)
  {
    hide Accepted, Validate;
    ValidateIsExact(call.settings);
  }

  lemma {:induction false} CreateIsExact(call: Call, fileSize: nat, session: Session)
    ensures CreateSession(call, fileSize) == Ok(session) <==>
            && Plannable(fileSize, call.settings.partSize) && session.plan.Valid()
            && session.plan.fileSize == fileSize && session.plan.partSize == call.settings.partSize
            && session.bucket == call.bucket && session.key == call.key && call.created == Ok(session.uploadId)
  {
    NewPlanAccepts(fileSize, call.settings.partSize);
    if session.plan.Valid() { ValidPlanIsRebuilt(session.plan); }
  }

  /** A file run starts exactly when settings and options pass, the path is a regular file that can be
      planned, no cancellation came first, and the snapshot is of this bucket, file size and part size,
      or the store created a session; the session is then the snapshot's or the created one. */
  lemma {:induction false} OpenFileIsExact(call: Call, metadata: Metadata, session: Session)
    requires call.settings.maxBufferedBytes <= U64_MAX
    ensures OpenFile(call, metadata) == Ok(session) <==>
            && Permitted(call) && metadata == RegularFile(session.plan.fileSize)
            && Plannable(session.plan.fileSize, call.settings.partSize)
            && session.plan.Valid() && session.plan.partSize == call.settings.partSize && session.bucket == call.bucket
            && match call.resume
               case Some(snapshot) => snapshot == SnapshotOf(session)
               case None => session.key == call.key && call.created == Ok(session.uploadId)
  {
    hide Accepted, CheckCall, CreateSession;
    if !call.cancelled { CheckIsExact(call); }
    if metadata.RegularFile? {
      CreateIsExact(call, metadata.len, session);
      NewPlanAccepts(metadata.len, call.settings.partSize);
    }
    if session.plan.Valid() { ValidPlanIsRebuilt(session.plan); }
  }

  /** A stream run starts exactly when settings and options pass, no cancellation came first, nothing
      is to be resumed, the announced size can be planned and the store created a session. */
  lemma {:induction false} OpenStreamIsExact(call: Call, fileSize: nat, session: Session)
    requires call.settings.maxBufferedBytes <= U64_MAX
    ensures OpenStream(call, fileSize) == Ok(session) <==>
            && Permitted(call) && call.resume.None? && fileSize == session.plan.fileSize
            && Plannable(fileSize, call.settings.partSize)
            && session.plan.Valid() && session.plan.partSize == call.settings.partSize
            && session.bucket == call.bucket && session.key == call.key && call.created == Ok(session.uploadId)
  {
    hide Accepted, CheckCall, CreateSession;
    if !call.cancelled { CheckIsExact(call); }
    CreateIsExact(call, fileSize, session);
  }

  /** The error is the store's or the options' own, or it names what really stands in the way of an upload
      of this many bytes. */
  predicate Justified(call: Call, fileSize: Option<nat>, error: Error) {
    || call.options.invalid == Some(error) || call.created == Err(error)
    || match error
       case PartSizeOutOfRange => !PartSizeAllowed(call.settings.partSize)
       case ConcurrencyOutOfRange => !(1 <= call.settings.concurrency <= MAX_CONCURRENCY)
       case AttemptsOutOfRange => !(1 <= call.settings.maxAttempts <= MAX_ATTEMPTS)
       case MemoryBudgetExceeded => call.settings.partSize * call.settings.concurrency > call.settings.maxBufferedBytes
       case ChecksumUnsupported => call.options.checksum
       case ConditionUnsupported => call.options.conditional
       case OptionsOnResume => call.resume.Some? && !call.options.empty
       case Cancelled => call.cancelled
       case ResumeUnsupported => call.resume.Some?
       case SessionMismatch =>
         && call.resume.Some?
         && (Some(call.resume.value.fileSize) != fileSize || call.resume.value.partSize != call.settings.partSize)
       case OtherBucket => call.resume.Some? && call.resume.value.bucket != call.bucket
       case FileSizeZero => fileSize == Some(0)
       case ObjectTooLarge => fileSize.Some? && fileSize.value > MAX_OBJECT_SIZE
       case TooManyParts => fileSize.Some? && fileSize.value > MAX_PARTS * call.settings.partSize
       case _ => false
  }

  lemma {:induction false} RefusedCallIsJustified(call: Call, fileSize: Option<nat>)
    requires call.settings.maxBufferedBytes <= U64_MAX && CheckCall(call).Err?
    ensures Justified(call, fileSize, CheckCall(call).error)
  {
    hide Validate;
    if Validate(call.settings).Err? { RefusedSettingsBreakALimit(call.settings); }
  }

  lemma {:induction false} RefusedSessionIsJustified(call: Call, fileSize: nat)
    requires CreateSession(call, fileSize).Err?
    ensures Justified(call, Some(fileSize), CreateSession(call, fileSize).error)
  {
    hide NewPlan;
    if NewPlan(fileSize, call.settings.partSize).Err? { RefusedPlanBreaksALimit(fileSize, call.settings.partSize); }
  }

  /** Whatever fails before a file run starts is really so, and the error says what: a path without
      metadata, something that is not a regular file, or one of the other reasons. */
  lemma {:induction false} RefusedFileIsJustified(call: Call, metadata: Metadata)
    requires call.settings.maxBufferedBytes <= U64_MAX && OpenFile(call, metadata).Err?
    ensures var error := OpenFile(call, metadata).error;
            || (error == Io && metadata.NoMetadata?) || (error == NotARegularFile && metadata.NotAFile?)
            || Justified(call, if metadata.RegularFile? then Some(metadata.len) else None, error)
  {
    hide CheckCall, CreateSession, NewPlan;
    var fileSize := if metadata.RegularFile? then Some(metadata.len) else None;
    if CheckCall(call).Err? {
      RefusedCallIsJustified(call, fileSize);
    } else if metadata.RegularFile? && !call.cancelled {
      if call.resume.None? {
        RefusedSessionIsJustified(call, metadata.len);
      } else if NewPlan(metadata.len, call.settings.partSize).Err? {
        RefusedPlanBreaksALimit(metadata.len, call.settings.partSize);
      }
    }
  }

  /** The same for a stream run. */
  lemma {:induction false} RefusedStreamIsJustified(call: Call, fileSize: nat)
    requires call.settings.maxBufferedBytes <= U64_MAX && OpenStream(call, fileSize).Err?
    ensures Justified(call, Some(fileSize), OpenStream(call, fileSize).error)
  {
    hide CheckCall, CreateSession;
    if CheckCall(call).Err? {
      RefusedCallIsJustified(call, Some(fileSize));
    } else if !call.cancelled && call.resume.None? {
      RefusedSessionIsJustified(call, fileSize);
    }
  }

  // ----- The adaptive upload -----

  datatype Started = Single(len: nat) | Managed(session: Session)

  /** The adaptive upload up to its one PUT or its session: its own check, the first look at the file,
      the strategy, and the managed upload with the raised part size, which looks at signal and file
      again (`call.cancelled`, `second`). */
  function Send(call: Call, threshold: nat, cancelled: bool, first: Metadata,
                second: Metadata): Result<Started, Error>
  {
    if call.options.invalid.Some? then Err(call.options.invalid.value)
    else
      match Validate(call.settings)
      case Err(e) => Err(e)
      case Ok(_) =>
        if cancelled then Err(Cancelled)
        else
          match first
          case NoMetadata => Err(Io)
          case NotAFile => Err(NotARegularFile)
          case RegularFile(len) =>
            if len == 0 then Ok(Single(0))
            else if len < threshold then
              if len > MAX_PART_SIZE then Err(SingleUploadTooLarge) else Ok(Single(len))
            else
              match OpenFile(Raised(call, len), second)
              case Err(e) => Err(e)
              case Ok(session) => Ok(Managed(session))
  }

  /** The managed upload the adaptive one makes for a file of this size. */
  function Raised(call: Call, len: nat): Call {
    call.(settings := call.settings.(partSize := RaisedPartSize(call.settings.partSize, len)), resume := None)
  }

  /** One PUT is made exactly for a file below the threshold that one PUT can carry. A session is opened
      exactly when the file was first seen at or above the threshold, a full pool of parts raised for
      that size fits the budget, and the size seen then can be planned with those parts. */
  lemma {:induction false} SendIsExact(call: Call, threshold: nat, cancelled: bool, first: Metadata, second: Metadata,
                                       started: Started)
    requires call.settings.maxBufferedBytes <= U64_MAX
    ensures Send(call, threshold, cancelled, first, second) == Ok(started) <==>
            && Accepted(call.settings) && call.options.invalid.None? && !cancelled && first.RegularFile?
            && match started
               case Single(len) => first.len == len && (len == 0 || (len < threshold && len <= MAX_PART_SIZE))
               case Managed(session) =>
                 var raised := RaisedPartSize(call.settings.partSize, first.len);
                 && 0 < first.len && threshold <= first.len && second == RegularFile(session.plan.fileSize)
                 && !call.cancelled && !call.options.checksum && !call.options.conditional
                 && PartSizeAllowed(raised) && raised * call.settings.concurrency <= call.settings.maxBufferedBytes
                 && Plannable(session.plan.fileSize, raised)
                 && session.plan.Valid() && session.plan.partSize == raised
                 && session.bucket == call.bucket && session.key == call.key && call.created == Ok(session.uploadId)
  {
    hide Validate, OpenFile, RaisedPartSize, Plannable;
    ValidateIsExact(call.settings);
    if first.RegularFile? && started.Managed? {
      OpenFileIsExact(Raised(call, first.len), second, started.session);
    }
  }

  /** For a file that keeps its size, the raised parts always suffice: beyond options, cancellation and
      the store's answer, the adaptive upload depends on the maximum object size and the budget alone. */
  lemma {:induction false} SendAccepted(call: Call, threshold: nat, len: nat)
    requires call.settings.maxBufferedBytes <= U64_MAX && MIN_THRESHOLD <= threshold <= MAX_OBJECT_SIZE
    requires Accepted(call.settings) && !call.cancelled && call.created.Ok?
    requires call.options.invalid.None? && !call.options.checksum && !call.options.conditional
    ensures var sent := Send(call, threshold, false, RegularFile(len), RegularFile(len));
            if len < threshold then
              if len <= MAX_PART_SIZE then sent == Ok(Single(len)) else sent == Err(SingleUploadTooLarge)
            else
              var raised := RaisedPartSize(call.settings.partSize, len);
              && (sent.Ok? <==>
                    len <= MAX_OBJECT_SIZE && raised * call.settings.concurrency <= call.settings.maxBufferedBytes)
              && (sent.Ok? ==>
                    && raised > 0 && sent.value.Managed?
                    && sent.value.session.plan == MultipartPlan(len, raised, CeilDiv(len, raised)))
  {
    hide Validate, RaisedPartSize, CeilDiv, Accepted;
    ValidateIsExact(call.settings);
    if len >= threshold { RaisedOpens(call, len); }
  }

  lemma {:induction false} RaisedOpens(call: Call, len: nat)
    requires call.settings.maxBufferedBytes <= U64_MAX && len >= 1
    requires Accepted(call.settings) && !call.cancelled && call.created.Ok?
    requires call.options.invalid.None? && !call.options.checksum && !call.options.conditional
    ensures var raised := RaisedPartSize(call.settings.partSize, len);
            var result := OpenFile(Raised(call, len), RegularFile(len));
            && (result.Ok? <==>
                  len <= MAX_OBJECT_SIZE && raised * call.settings.concurrency <= call.settings.maxBufferedBytes)
            && (result.Ok? ==> raised > 0 && result.value.plan == MultipartPlan(len, raised, CeilDiv(len, raised)))
  {
    hide Validate, RaisedPartSize, CeilDiv;
    var inner := Raised(call, len);
    CheckIsExact(inner);
    RaisedPlanAccepted(call.settings.partSize, len);
  }

  /** What keeps the adaptive upload from starting is really so. */
  lemma {:induction false} RefusedSendIsJustified(call: Call, threshold: nat, cancelled: bool, first: Metadata,
                                                  second: Metadata)
    requires call.settings.maxBufferedBytes <= U64_MAX && Send(call, threshold, cancelled, first, second).Err?
    ensures var error := Send(call, threshold, cancelled, first, second).error;
            || (error == Io && (first.NoMetadata? || second.NoMetadata?))
            || (error == NotARegularFile && (first.NotAFile? || second.NotAFile?))
            || (error == Cancelled && (cancelled || call.cancelled))
            || (error == SingleUploadTooLarge && first.RegularFile? && MAX_PART_SIZE < first.len < threshold)
            || Justified(call, None, error)
            || (first.RegularFile? &&
                Justified(Raised(call, first.len), if second.RegularFile? then Some(second.len) else None, error))
  {
    hide Validate, OpenFile, RaisedPartSize, Raised;
    if call.options.invalid.None? && Validate(call.settings).Err? {
      RefusedSettingsBreakALimit(call.settings);
    } else if first.RegularFile? && OpenFile(Raised(call, first.len), second).Err? {
      RaisedKeepsTheRest(call, first.len);
      RefusedFileIsJustified(Raised(call, first.len), second);
    }
  }

  lemma {:induction false} RaisedKeepsTheRest(call: Call, len: nat)
    ensures Raised(call, len).settings.maxBufferedBytes == call.settings.maxBufferedBytes
  {
  }
}

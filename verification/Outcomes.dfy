/** Whole calls of the managed uploads: opening, one run, and the result the caller gets. */
module Outcomes {
  import opened Basics
  import opened Plan
  import opened Remote
  import opened Sessions
  import opened SessionEnd
  import opened Opening
  import Files = FileUpload
  import FilesInv = FileUploadInv
  import FilesTheorems = FileUploadTheorems
  import Pool = FileUploadPool
  import Streams = StreamUpload
  import StreamsInv = StreamUploadInv
  import StreamsTheorems = StreamUploadTheorems
  import StreamsProgress = StreamProgress
  import Memory = StreamMemory

  /** `ManagedUploadError`. */
  datatype UploadError = UploadError(error: Error, snapshot: Option<Snapshot>, aborted: bool)

  type UploadResult = Result<(), UploadError>

  function BeforeStart(error: Error): UploadError {
    UploadError(error, None, false)
  }

  function ResultOf(outcome: Outcome): UploadResult {
    match outcome
    case Succeeded => Ok(())
    case Failed(error, snapshot, aborted) => Err(UploadError(error, snapshot, aborted))
  }

  // ----- File uploads -----

  function FileConfig(call: Call, session: Session): Files.Config {
    Files.Config(session, call.settings.concurrency, call.settings.maxAttempts, call.abortOnError)
  }

  /** What opening returns is what every theorem about runs starts from. */
  lemma {:induction false} OpenedFileStarts(call: Call, source: Files.Source, metadata: Metadata, server: Server)
    requires call.WellFormed() && Sound(server) && OpenFile(call, metadata).Ok?
    requires metadata.RegularFile? ==> metadata.len == |source.content|
    ensures FilesInv.Starts(FileConfig(call, OpenFile(call, metadata).value), source, server)
  {
    var session := OpenFile(call, metadata).value;
    OpenFileIsExact(call, metadata, session);
  }

  /** The steps are one run that has ended, and `result` is what the call returns. */
  ghost predicate FileCall(call: Call, source: Files.Source, metadata: Metadata, server: Server,
                           steps: seq<Files.Step>, result: UploadResult)
    requires call.WellFormed() && Sound(server) && (metadata.RegularFile? ==> metadata.len == |source.content|)
  {
    match OpenFile(call, metadata)
    case Err(e) => steps == [] && result == Err(BeforeStart(e))
    case Ok(session) =>
      OpenedFileStarts(call, source, metadata, server);
      var c := FileConfig(call, session);
      var init := Files.Init(c, source, server, call.resume.Some?);
      && Files.Resume !in steps && Files.Runs(c, init, steps)
      && var s := Files.After(c, init, steps); s.end.phase.Ended? && result == ResultOf(s.end.phase.outcome)
  }

  /** The four ways a call can end, told apart by the result alone. */
  predicate Uploaded(r: UploadResult) { r.Ok? }

  predicate FailedBeforeStart(r: UploadResult) { r.Err? && r.error.snapshot.None? && !r.error.aborted }

  predicate FailedAborted(r: UploadResult) { r.Err? && r.error.snapshot.None? && r.error.aborted }

  predicate FailedResumable(r: UploadResult) { r.Err? && r.error.snapshot.Some? && !r.error.aborted }

  /** What each way means for a call that opened as `session` and left the store as `after`. */
  ghost predicate MeansWhatItSays(call: Call, session: Result<Session, Error>, after: Server, r: UploadResult) {
    && (Uploaded(r) || FailedBeforeStart(r) || FailedAborted(r) || FailedResumable(r))
    && (FailedBeforeStart(r) <==> session.Err?)
    && (Uploaded(r) ==>
          session.Ok? && after.status.Completed? && |after.status.content| == session.value.plan.fileSize)
    && (FailedAborted(r) ==> call.abortOnError && after.status.Aborted?)
    && (FailedResumable(r) ==>
          && Resume(call.bucket, r.error.snapshot.value) == session
          && (FromRecord(IntoRecord(r.error.snapshot.value)) == Ok(r.error.snapshot.value) <==>
              session.value.uploadId != []))
  }

  /** How a failed run was cleaned up, and which error it reports. */
  ghost predicate FailsAsAsked(call: Call, r: UploadResult, confirmed: bool, unconfirmed: bool,
                               failure: Option<Error>)
  {
    && (Uploaded(r) ==> !confirmed && !unconfirmed && failure.None?)
    && (r.Err? ==> failure == Some(r.error.error))
    && (FailedAborted(r) <==> confirmed)
    && (r.Err? && !call.abortOnError ==> FailedResumable(r) && !unconfirmed)
    && (r.Err? && call.abortOnError ==> confirmed != unconfirmed && (FailedResumable(r) <==> unconfirmed))
  }

  /** The store when the call returns. */
  ghost function FileServer(call: Call, source: Files.Source, metadata: Metadata, server: Server,
                            steps: seq<Files.Step>, result: UploadResult): Server
    requires call.WellFormed() && Sound(server) && (metadata.RegularFile? ==> metadata.len == |source.content|)
    requires FileCall(call, source, metadata, server, steps, result)
  {
    match OpenFile(call, metadata)
    case Err(_) => server
    case Ok(session) =>
      OpenedFileStarts(call, source, metadata, server);
      var c := FileConfig(call, session);
      Files.After(c, Files.Init(c, source, server, call.resume.Some?), steps).end.server
  }

  /** Every file upload ends in exactly one of four ways, and its result says which: Ok with an object of
      the planned size; failed before the start, with neither snapshot nor abort; aborted without snapshot;
      or failed with a snapshot that its bucket accepts, that rebuilds the session, and that survives its
      record exactly when the upload id is not empty. */
  lemma {:induction false} FileCallEnds(call: Call, source: Files.Source, metadata: Metadata, server: Server,
                                        steps: seq<Files.Step>, result: UploadResult)
    requires call.WellFormed() && Sound(server) && (metadata.RegularFile? ==> metadata.len == |source.content|)
    requires FileCall(call, source, metadata, server, steps, result)
    ensures MeansWhatItSays(call, OpenFile(call, metadata),
                            FileServer(call, source, metadata, server, steps, result), result)
  {
    if OpenFile(call, metadata).Ok? {
      var session := OpenFile(call, metadata).value;
      OpenedFileStarts(call, source, metadata, server);
      OpenFileIsExact(call, metadata, session);
      FilesTheorems.OneOfThreeEndings(FileConfig(call, session), source, server, call.resume.Some?, steps);
      FileCallFailsAsAsked(call, source, metadata, server, steps, result);
      if Uploaded(result) {
        FilesTheorems.OkMeansTheFile(FileConfig(call, session), source, server, call.resume.Some?, steps);
      }
    }
  }

  /** A started file upload that fails reports the error that first made its run fail. Without
      `abort_on_error` nothing is ever aborted and the snapshot is returned; with it there is an abort
      attempt, and a snapshot is returned exactly if that abort was not confirmed. */
  lemma {:induction false} FileCallFailsAsAsked(call: Call, source: Files.Source, metadata: Metadata, server: Server,
                                                steps: seq<Files.Step>, result: UploadResult)
    requires call.WellFormed() && Sound(server) && (metadata.RegularFile? ==> metadata.len == |source.content|)
    requires FileCall(call, source, metadata, server, steps, result) && OpenFile(call, metadata).Ok?
    ensures var c := FileConfig(call, OpenFile(call, metadata).value);
            && c.Valid() && Files.Runs(c, Files.Init(c, source, server, call.resume.Some?), steps)
            && FailsAsAsked(call, result, Files.Tail(AbortConfirmed) in steps, FilesTheorems.AbortUnconfirmedIn(steps),
                            FilesTheorems.FirstFailure(c, Files.Init(c, source, server, call.resume.Some?), steps))
  {
    OpenedFileStarts(call, source, metadata, server);
    var c := FileConfig(call, OpenFile(call, metadata).value);
    var init := Files.Init(c, source, server, call.resume.Some?);
    FilesInv.InitKeeps(c, source, server, call.resume.Some?);
    FilesTheorems.AbortsMatch(c, init, steps);
    FilesTheorems.ReportsItsFailure(c, init, steps);
    InitWorks(c, source, server, call.resume.Some?);
  }

  lemma {:induction false} InitWorks(c: Files.Config, source: Files.Source, server: Server, resumed: bool)
    requires c.Valid()
    ensures Files.Init(c, source, server, resumed).end.phase.Working?
  {
  }

  /** At every moment of a file upload the settings of its call bound it: the pool, its memory, and the
      attempts of every part. */
  lemma {:induction false} FileCallKeepsItsLimits(call: Call, source: Files.Source, metadata: Metadata, server: Server,
                                                  steps: seq<Files.Step>)
    requires call.WellFormed() && Sound(server) && (metadata.RegularFile? ==> metadata.len == |source.content|)
    requires OpenFile(call, metadata).Ok?
    requires var c := FileConfig(call, OpenFile(call, metadata).value);
             c.Valid() && Files.Runs(c, Files.Init(c, source, server, call.resume.Some?), steps)
    ensures var c := FileConfig(call, OpenFile(call, metadata).value);
            var s := Files.After(c, Files.Init(c, source, server, call.resume.Some?), steps);
            && c.Plan().Valid() && |Files.Active(s.tasks)| <= call.settings.concurrency
            && FilesTheorems.BufferedBytes(c.Plan(), s) <= call.settings.maxBufferedBytes
            && forall n :: n in s.tasks && s.tasks[n].Sending? ==> 1 <= s.tasks[n].attempt <= call.settings.maxAttempts
  {
    var session := OpenFile(call, metadata).value;
    var c := FileConfig(call, session);
    OpenedFileStarts(call, source, metadata, server);
    OpenFileIsExact(call, metadata, session);
    FilesTheorems.MemoryStaysInBudget(c, call.settings, source, server, call.resume.Some?, steps);
    FilesTheorems.Reachable(c, source, server, call.resume.Some?, steps);
    AttemptsAreBounded(c, Files.After(c, Files.Init(c, source, server, call.resume.Some?), steps));
  }

  lemma {:induction false} AttemptsAreBounded(c: Files.Config, s: Files.State)
    requires c.Valid() && FilesInv.FileInv(c, s) && FilesInv.TasksInv(c, s)
    ensures forall n :: n in s.tasks && s.tasks[n].Sending? ==> 1 <= s.tasks[n].attempt <= c.maxAttempts
  {
    forall n | n in s.tasks && s.tasks[n].Sending?
      ensures 1 <= s.tasks[n].attempt <= c.maxAttempts
    {
      assert FilesInv.TaskOk(c, s.start.content, FilesInv.SameSource(s), s.end.server, s.bodies, n, s.tasks[n]);
    }
  }

  /** And they are used: while it transfers, the pool can fill up to the call's concurrency if so many parts
      are missing. */
  lemma {:induction false} FileCallFillsItsPool(call: Call, source: Files.Source, metadata: Metadata, server: Server,
                                                steps: seq<Files.Step>)
    requires call.WellFormed() && Sound(server) && (metadata.RegularFile? ==> metadata.len == |source.content|)
    requires OpenFile(call, metadata).Ok?
    requires var c := FileConfig(call, OpenFile(call, metadata).value);
             && c.Valid() && Files.Runs(c, Files.Init(c, source, server, call.resume.Some?), steps)
             && Files.Transfers(Files.After(c, Files.Init(c, source, server, call.resume.Some?), steps))
    ensures var c := FileConfig(call, OpenFile(call, metadata).value);
            var s := Files.After(c, Files.Init(c, source, server, call.resume.Some?), steps);
            exists more :: Files.Runs(c, s, more) &&
                           |Files.Active(Files.After(c, s, more).tasks)| ==
                           Min(call.settings.concurrency, |s.tasks.Keys|)
  {
    hide Files.Runs, Files.After, Files.Init, OpenFile, Files.Active, Session.Valid;
    FileCallKeepsItsLimits(call, source, metadata, server, steps);
    var c := FileConfig(call, OpenFile(call, metadata).value);
    var more := Pool.PoolFillsUp(c, Files.After(c, Files.Init(c, source, server, call.resume.Some?), steps));
  }

  /** Every part request can be tried as often as the call says. */
  lemma {:induction false} FileAttemptsAreUsed(call: Call, source: Files.Source, metadata: Metadata, server: Server,
                                               steps: seq<Files.Step>, n: nat)
    requires call.WellFormed() && Sound(server) && (metadata.RegularFile? ==> metadata.len == |source.content|)
    requires OpenFile(call, metadata).Ok?
    requires var c := FileConfig(call, OpenFile(call, metadata).value);
             && c.Valid() && Files.Runs(c, Files.Init(c, source, server, call.resume.Some?), steps)
             && Files.InFlight(Files.After(c, Files.Init(c, source, server, call.resume.Some?), steps), n)
    ensures var c := FileConfig(call, OpenFile(call, metadata).value);
            var s := Files.After(c, Files.Init(c, source, server, call.resume.Some?), steps);
            exists more :: Files.Runs(c, s, more) && Files.InFlight(Files.After(c, s, more), n) &&
                           Files.After(c, s, more).tasks[n].attempt == call.settings.maxAttempts
  {
    hide Files.Runs, Files.After, Files.Init, OpenFile, Files.Active, Session.Valid;
    FileCallKeepsItsLimits(call, source, metadata, server, steps);
    var c := FileConfig(call, OpenFile(call, metadata).value);
    var more := Pool.AttemptsCanBeUsedUp(c, Files.After(c, Files.Init(c, source, server, call.resume.Some?), steps), n);
  }

  // ----- Resuming -----

  /** The next run of a session begins as a new call with its snapshot would: from the file and the store as
      they are, with nothing kept but the history of what was sent and confirmed. */
  lemma {:induction false} ResumeIsAFreshRun(c: Files.Config, s: Files.State)
    requires c.Valid() && Files.Can(c, s, Files.Resume)
    ensures Files.Do(c, s, Files.Resume) ==
            Files.Init(c, s.source, s.end.server, true).(bodies := s.bodies, acknowledged := s.acknowledged)
  {
  }

  /** And it can begin exactly when opening accepts the snapshot the failed run returned: a call with the
      same settings and without options reopens the very same session if and only if the file has its
      planned size. */
  lemma {:induction false} SnapshotReopens(call: Call, session: Session, s: Files.State)
    requires call.WellFormed() && session.Valid() && Permitted(call.(resume := Some(SnapshotOf(session))))
    requires call.bucket == session.bucket && call.settings.partSize == session.plan.partSize
    requires s.end.phase.Ended? && s.end.phase.outcome.Failed?
    requires s.end.phase.outcome.snapshot == Some(SnapshotOf(session))
    ensures var again := call.(resume := s.end.phase.outcome.snapshot);
            && (Files.CanResume(FileConfig(call, session), s) <==>
                OpenFile(again, RegularFile(|s.source.content|)) == Ok(session))
            && (OpenFile(again, RegularFile(|s.source.content|)).Ok? ==>
                  OpenFile(again, RegularFile(|s.source.content|)) == Ok(session))
  {
    var again := call.(resume := s.end.phase.outcome.snapshot);
    OpenFileIsExact(again, RegularFile(|s.source.content|), session);
    ValidPlanIsRebuilt(session.plan);
    NewPlanAccepts(session.plan.fileSize, session.plan.partSize);
  }

  // ----- Stream uploads -----

  function StreamConfig(call: Call, session: Session, input: Bytes): Streams.Stream
    requires call.settings.partSize > 0
  {
    Streams.StreamOf(session, call.settings, call.abortOnError, input)
  }

  lemma {:induction false} OpenedStreamStarts(call: Call, fileSize: nat, input: Bytes, server: Server)
    requires call.WellFormed() && Sound(server) && OpenStream(call, fileSize).Ok?
    ensures call.settings.partSize > 0
    ensures StreamsInv.Startable(StreamConfig(call, OpenStream(call, fileSize).value, input), server)
  {
    var session := OpenStream(call, fileSize).value;
    OpenStreamIsExact(call, fileSize, session);
  }

  /** The moves are one run that has ended, and `result` is what the call returns. */
  ghost predicate StreamCall(call: Call, fileSize: nat, input: Bytes, server: Server, moves: seq<Streams.Move>,
                             result: UploadResult)
    requires call.WellFormed() && Sound(server)
  {
    match OpenStream(call, fileSize)
    case Err(e) => moves == [] && result == Err(BeforeStart(e))
    case Ok(session) =>
      OpenedStreamStarts(call, fileSize, input, server);
      var c := StreamConfig(call, session, input);
      && Streams.Flows(c, Streams.Begin(c, server), moves)
      && var s := Streams.Reached(c, Streams.Begin(c, server), moves);
         s.end.phase.Ended? && result == ResultOf(s.end.phase.outcome)
  }

  /** The store when the call returns. */
  ghost function StreamServer(call: Call, fileSize: nat, input: Bytes, server: Server, moves: seq<Streams.Move>,
                              result: UploadResult): Server
    requires call.WellFormed() && Sound(server) && StreamCall(call, fileSize, input, server, moves, result)
  {
    match OpenStream(call, fileSize)
    case Err(_) => server
    case Ok(session) =>
      OpenedStreamStarts(call, fileSize, input, server);
      var c := StreamConfig(call, session, input);
      Streams.Reached(c, Streams.Begin(c, server), moves).end.server
  }

  /** Every stream upload ends in exactly one of the same four ways. */
  lemma {:induction false} StreamCallEnds(call: Call, fileSize: nat, input: Bytes, server: Server,
                                          moves: seq<Streams.Move>, result: UploadResult)
    requires call.WellFormed() && Sound(server) && StreamCall(call, fileSize, input, server, moves, result)
    ensures MeansWhatItSays(call, OpenStream(call, fileSize),
                            StreamServer(call, fileSize, input, server, moves, result), result)
  {
    if OpenStream(call, fileSize).Ok? {
      var session := OpenStream(call, fileSize).value;
      OpenedStreamStarts(call, fileSize, input, server);
      OpenStreamIsExact(call, fileSize, session);
      StreamsTheorems.StreamEndings(StreamConfig(call, session, input), server, moves);
      StreamCallFailsAsAsked(call, fileSize, input, server, moves, result);
      if Uploaded(result) {
        StreamsTheorems.OkMeansTheStream(StreamConfig(call, session, input), server, moves);
      }
    }
  }

  /** The same for a started stream upload that fails. */
  lemma {:induction false} StreamCallFailsAsAsked(call: Call, fileSize: nat, input: Bytes, server: Server,
                                                  moves: seq<Streams.Move>, result: UploadResult)
    requires call.WellFormed() && Sound(server) && StreamCall(call, fileSize, input, server, moves, result)
    requires OpenStream(call, fileSize).Ok?
    ensures call.settings.partSize > 0
    ensures var c := StreamConfig(call, OpenStream(call, fileSize).value, input);
            && c.Valid() && Streams.Flows(c, Streams.Begin(c, server), moves)
            && FailsAsAsked(call, result, Streams.Tail(AbortConfirmed) in moves,
                            StreamsTheorems.AbortUnconfirmedIn(moves),
                            StreamsTheorems.FirstFailure(c, Streams.Begin(c, server), moves))
  {
    OpenedStreamStarts(call, fileSize, input, server);
    var c := StreamConfig(call, OpenStream(call, fileSize).value, input);
    var begin := Streams.Begin(c, server);
    StreamsInv.BeginKeeps(c, server);
    StreamsTheorems.AbortsMatch(c, begin, moves);
    StreamsTheorems.ReportsItsFailure(c, begin, moves);
  }

  /** At every moment of a stream upload the settings of its call bound it: the buffers of reader, channel
      and pool, and the attempts of every part. */
  lemma {:induction false} StreamCallKeepsItsLimits(call: Call, fileSize: nat, input: Bytes, server: Server,
                                                    moves: seq<Streams.Move>)
    requires call.WellFormed() && Sound(server) && OpenStream(call, fileSize).Ok? && call.settings.partSize > 0
    requires var c := StreamConfig(call, OpenStream(call, fileSize).value, input);
             c.Valid() && Streams.Flows(c, Streams.Begin(c, server), moves)
    ensures var c := StreamConfig(call, OpenStream(call, fileSize).value, input);
            var s := Streams.Reached(c, Streams.Begin(c, server), moves);
            var most := call.settings.maxBufferedBytes / call.settings.partSize;
            && |s.pool| <= call.settings.concurrency <= most
            && Memory.HeldBuffers(s) <=
               (if most > call.settings.concurrency then most + 1 else call.settings.concurrency + 2)
            && forall n :: n in s.pool ==> 1 <= s.pool[n].attempt <= call.settings.maxAttempts
  {
    hide Streams.Flows, Streams.Reached;
    var session := OpenStream(call, fileSize).value;
    var c := StreamConfig(call, session, input);
    OpenedStreamStarts(call, fileSize, input, server);
    OpenStreamIsExact(call, fileSize, session);
    Memory.BuffersAreBounded(call.settings, c, server, moves);
    StreamsTheorems.FlowReachable(c, server, moves);
    TransfersAreBounded(c, Streams.Reached(c, Streams.Begin(c, server), moves));
  }

  lemma {:induction false} TransfersAreBounded(c: Streams.Stream, s: Streams.Flow)
    requires c.Valid() && StreamsInv.FlowInv(c, s)
    ensures |s.pool| <= c.concurrency
    ensures forall n :: n in s.pool ==> 1 <= s.pool[n].attempt <= c.maxAttempts
  {
    forall n | n in s.pool
      ensures 1 <= s.pool[n].attempt <= c.maxAttempts
    {
      StreamsInv.PoolMember(c.Plan(), c.input, c.maxAttempts, s.end.server, s.bodies, s.pool, n);
    }
  }

  /** And they are used: if there are so many parts and the reader yields them, all these buffers are in use
      at once, and every part request can be tried as often as the call says. */
  lemma {:induction false} StreamCallUsesItsLimits(call: Call, fileSize: nat, input: Bytes, server: Server)
    requires call.WellFormed() && Sound(server) && OpenStream(call, fileSize).Ok? && fileSize <= |input|
    ensures call.settings.partSize > 0
    ensures var c := StreamConfig(call, OpenStream(call, fileSize).value, input);
            var most := call.settings.maxBufferedBytes / call.settings.partSize;
            var buffers := if most > call.settings.concurrency then most + 1 else call.settings.concurrency + 2;
            && c.Valid()
            && (exists moves :: Streams.Flows(c, Streams.Begin(c, server), moves) &&
                                Memory.HeldBuffers(Streams.Reached(c, Streams.Begin(c, server), moves)) ==
                                Min(c.Plan().partCount, buffers))
  {
    hide Streams.Flows, Streams.Reached;
    var session := OpenStream(call, fileSize).value;
    OpenedStreamStarts(call, fileSize, input, server);
    OpenStreamIsExact(call, fileSize, session);
    var c := StreamConfig(call, session, input);
    Memory.PoolWithinBudget(call.settings);
    Memory.WholeInputIsReadable(c);
    var moves := Memory.BuffersAreReached(c, server);
  }

  lemma {:induction false} StreamAttemptsAreUsed(call: Call, fileSize: nat, input: Bytes, server: Server,
                                                 moves: seq<Streams.Move>, n: nat)
    requires call.WellFormed() && Sound(server) && OpenStream(call, fileSize).Ok? && call.settings.partSize > 0
    requires var c := StreamConfig(call, OpenStream(call, fileSize).value, input);
             && c.Valid() && Streams.Flows(c, Streams.Begin(c, server), moves)
             && Streams.Outstanding(Streams.Reached(c, Streams.Begin(c, server), moves), n)
    ensures var c := StreamConfig(call, OpenStream(call, fileSize).value, input);
            var s := Streams.Reached(c, Streams.Begin(c, server), moves);
            exists more :: Streams.Flows(c, s, more) && n in Streams.Reached(c, s, more).pool &&
                           Streams.Reached(c, s, more).pool[n].attempt == call.settings.maxAttempts
  {
    hide Streams.Flows, Streams.Reached;
    StreamCallKeepsItsLimits(call, fileSize, input, server, moves);
    var c := StreamConfig(call, OpenStream(call, fileSize).value, input);
    var more := StreamsProgress.AttemptsCanBeUsedUp(c, Streams.Reached(c, Streams.Begin(c, server), moves), n);
  }
}

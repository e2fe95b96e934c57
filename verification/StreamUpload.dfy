/**
  The managed upload of a byte stream, as a step relation over all interleavings of its three stages,
  a reader task, a bounded channel and a bounded upload pool, with the store, other clients and
  cancellation.
  */
module StreamUpload {
  import opened Basics
  import opened Plan
  import opened Sizing
  import opened Manifest
  import opened Accounting
  import opened Remote
  import opened Sessions
  import opened SessionEnd

  /** `max_parts` whole parts fit the memory budget. */
  function MaxParts(settings: Settings): nat
    requires settings.partSize > 0
  {
    settings.maxBufferedBytes / settings.partSize
  }

  /** `max_parts.saturating_sub(concurrency).max(1)`. */
  function ChannelSize(settings: Settings): nat
    requires settings.partSize > 0
  {
    var maxParts := MaxParts(settings);
    Max(if maxParts < settings.concurrency then 0 else maxParts - settings.concurrency, 1)
  }

  /** `input` is what the reader would yield if it were read to its end or first error. */
  datatype Stream = Stream(session: Session, concurrency: nat, maxAttempts: nat, channelSize: nat,
                           abortOnError: bool, input: Bytes) {
    predicate Valid() { session.Valid() && concurrency >= 1 && maxAttempts >= 1 && channelSize >= 1 }

    function Plan(): MultipartPlan { session.plan }
  }

  function StreamOf(session: Session, settings: Settings, abortOnError: bool, input: Bytes): Stream
    requires settings.partSize > 0
  {
    Stream(session, settings.concurrency, settings.maxAttempts, ChannelSize(settings), abortOnError, input)
  }

  datatype Chunk = Chunk(number: PartNumber, bytes: Bytes)

  /** `Filling` has allocated the buffer of the current part, `Holding` waits for room in the channel. */
  datatype Reader = Filling | Holding(chunk: Chunk) | Done(result: Result<(), Error>)

  datatype Transfer = Transfer(bytes: Bytes, attempt: nat, replies: set<ETag>)

  /** `position` counts the bytes taken from the input; `remaining` and `number` are the reader's
      loop variables. `sent` is the history of the channel. */
  datatype Flow = Flow(
    end: End, reader: Reader, position: nat, remaining: nat, number: nat,
    sent: seq<Chunk>, channel: seq<Chunk>, pool: map<nat, Transfer>, uploaded: seq<UploadedPart>,
    completed: nat, transferred: nat, callbacks: seq<Progress>, bodies: set<(nat, Bytes)>)

  datatype Move =
    | Tail(step: EndStep)
    | LateCopy(number: nat, bytes: Bytes, etag: ETag)
    | Answer(number: nat, etag: ETag)
    | ReadOk
    | ReadErr
    | Send
    | Pull
    | Retry(number: nat)
    | Deliver(number: nat, etag: ETag)
    | Finish

  function Begin(c: Stream, server: Server): Flow {
    Flow(End(server, Working, None, false), Filling, 0, c.Plan().fileSize, 1, [], [], map[], [], 0, 0, [], {})
  }

  function BufferLength(c: Stream, s: Flow): nat {
    if s.remaining < c.Plan().partSize then s.remaining else c.Plan().partSize
  }

  predicate CanRead(c: Stream, s: Flow) {
    s.end.phase.Working? && s.reader.Filling? && s.position + BufferLength(c, s) <= |c.input|
  }

  /** `read_exact` has filled the buffer; the part number is checked afterwards. */
  function ReadBuffer(c: Stream, s: Flow): Flow
    requires CanRead(c, s)
  {
    var end := s.position + BufferLength(c, s);
    var bytes := c.input[s.position..end];
    match TryPartNumber(s.number)
    case Ok(number) => s.(reader := Holding(Chunk(number, bytes)), position := end)
    case Err(e) => s.(reader := Done(Err(e)), position := end)
  }

  predicate CanSend(c: Stream, s: Flow)
    requires c.Valid()
  {
    s.end.phase.Working? && s.reader.Holding? && |s.channel| < c.channelSize && BufferLength(c, s) <= s.remaining
  }

  /** The chunk enters the channel and the reader's loop goes on while bytes remain. */
  function SendChunk(c: Stream, s: Flow): Flow
    requires c.Valid() && CanSend(c, s)
  {
    var remaining := s.remaining - BufferLength(c, s);
    s.(channel := s.channel + [s.reader.chunk], sent := s.sent + [s.reader.chunk],
       remaining := remaining, number := s.number + 1,
       reader := if remaining > 0 then Filling else Done(Ok(())))
  }

  predicate CanPull(c: Stream, s: Flow) {
    s.end.phase.Working? && s.channel != [] && |s.pool| < c.concurrency
  }

  function PullChunk(s: Flow): Flow
    requires s.channel != []
  {
    var chunk := s.channel[0];
    s.(channel := s.channel[1..], pool := s.pool[chunk.number := Transfer(chunk.bytes, 1, {})],
       bodies := s.bodies + {(chunk.number as nat, chunk.bytes)})
  }

  predicate Outstanding(s: Flow, n: nat) {
    s.end.phase.Working? && n in s.pool
  }

  function AnswerChunk(s: Flow, n: nat, etag: ETag): Flow
    requires Outstanding(s, n) && CanServe(s.end.server, StorePart(n, s.pool[n].bytes, etag))
  {
    var t := s.pool[n];
    s.(end := s.end.(server := Serve(s.end.server, StorePart(n, t.bytes, etag))),
       pool := s.pool[n := t.(replies := t.replies + {etag})])
  }

  predicate CanConfirm(s: Flow, n: nat, etag: ETag) {
    Outstanding(s, n) && 1 <= n <= MAX_PARTS && etag in s.pool[n].replies && etag != ""
  }

  /** Both counters and the callback move in one step. */
  function ConfirmChunk(s: Flow, n: nat, etag: ETag): Flow
    requires CanConfirm(s, n, etag)
  {
    var parts := s.completed + 1;
    var bytes := s.transferred + |s.pool[n].bytes|;
    s.(pool := s.pool - {n}, uploaded := s.uploaded + [UploadedPart(n, etag)],
       completed := parts, transferred := bytes, callbacks := s.callbacks + [Progress(parts, bytes)])
  }

  /** The channel is drained and closed and the pool is empty: join the reader, then complete. */
  function FinishStream(c: Stream, s: Flow): Flow
    requires c.Valid() && s.end.phase.Working? && s.reader.Done?
  {
    match s.reader.result
    case Err(e) => s.(end := s.end.(phase := CleaningUp(e)))
    case Ok(_) =>
      match Canonical(Values(Inserted(s.uploaded)))
      case Err(e) => s.(end := s.end.(phase := CleaningUp(e)))
      case Ok(manifest) =>
        if !Accepts(c.Plan(), manifest) then s.(end := s.end.(phase := CleaningUp(NotEveryPlannedPart)))
        else s.(end := Complete(s.end, manifest))
  }

  predicate CanMove(c: Stream, s: Flow, move: Move)
    requires c.Valid()
  {
    match move
    case Tail(t) => CanEnd(c.abortOnError, s.end, t)
    case LateCopy(n, bytes, etag) => (n, bytes) in s.bodies && CanServe(s.end.server, StorePart(n, bytes, etag))
    case Answer(n, etag) => Outstanding(s, n) && CanServe(s.end.server, StorePart(n, s.pool[n].bytes, etag))
    case ReadOk => CanRead(c, s)
    case ReadErr => s.end.phase.Working? && s.reader.Filling?
    case Send => CanSend(c, s)
    case Pull => CanPull(c, s)
    case Retry(n) => Outstanding(s, n) && s.pool[n].attempt < c.maxAttempts
    case Deliver(n, etag) => CanConfirm(s, n, etag)
    case Finish => s.end.phase.Working? && s.channel == [] && s.reader.Done? && s.pool == map[]
  }

  function Moved(c: Stream, s: Flow, move: Move): Flow
    requires c.Valid() && CanMove(c, s, move)
  {
    match move
    case Tail(t) => s.(end := DoEnd(c.abortOnError, c.session, s.end, t))
    case LateCopy(n, bytes, etag) => s.(end := s.end.(server := Serve(s.end.server, StorePart(n, bytes, etag))))
    case Answer(n, etag) => AnswerChunk(s, n, etag)
    case ReadOk => ReadBuffer(c, s)
    case ReadErr => s.(reader := Done(Err(Io)))
    case Send => SendChunk(c, s)
    case Pull => PullChunk(s)
    case Retry(n) => s.(pool := s.pool[n := Transfer(s.pool[n].bytes, s.pool[n].attempt + 1, {})])
    case Deliver(n, etag) => ConfirmChunk(s, n, etag)
    case Finish => FinishStream(c, s)
  }

  predicate Flows(c: Stream, s: Flow, moves: seq<Move>)
    requires c.Valid()
    decreases |moves|
  {
    moves == [] || (CanMove(c, s, moves[0]) && Flows(c, Moved(c, s, moves[0]), moves[1..]))
  }

  function Reached(c: Stream, s: Flow, moves: seq<Move>): Flow
    requires c.Valid() && Flows(c, s, moves)
    decreases |moves|
  {
    if moves == [] then s else Reached(c, Moved(c, s, moves[0]), moves[1..])
  }
}

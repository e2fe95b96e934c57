/** The inductive invariant of the stream upload and its preservation by every step. */
module StreamUploadInv {
  import opened Basics
  import opened Plan
  import opened Manifest
  import opened Accounting
  import opened Remote
  import opened SessionEnd
  import opened StreamUpload

  // ----- The parts of the invariant -----

  /** The bytes are the input's at the planned place of part `n`. */
  predicate FromInput(plan: MultipartPlan, input: Bytes, n: nat, bytes: Bytes)
    requires plan.Valid()
  {
    && Planned(plan, n) && Offset(plan, n) + Length(plan, n) <= |input|
    && bytes == input[Offset(plan, n)..Offset(plan, n) + Length(plan, n)]
  }

  /** The k-th chunk ever sent is planned part k. */
  ghost predicate SentInv(plan: MultipartPlan, input: Bytes, sent: seq<Chunk>)
    requires plan.Valid()
  {
    && |sent| <= plan.partCount
    && forall k :: 0 <= k < |sent| ==> sent[k].number == k + 1 && FromInput(plan, input, k + 1, sent[k].bytes)
  }

  /** The reader is exactly behind the last chunk sent. */
  ghost predicate ReaderInv(plan: MultipartPlan, input: Bytes, reader: Reader, position: nat, remaining: nat,
                            number: nat, sent: nat)
    requires plan.Valid() && sent <= plan.partCount
  {
    && number == sent + 1
    && remaining == plan.fileSize - EndOf(plan, sent)
    && match reader
       case Filling => Planned(plan, number) && position == Offset(plan, number)
       case Holding(chunk) =>
         && chunk.number == number && FromInput(plan, input, number, chunk.bytes)
         && position == Offset(plan, number) + Length(plan, number)
       case Done(Ok(_)) => sent == plan.partCount && position == plan.fileSize
       case Done(Err(e)) => e == Io && sent < plan.partCount
  }

  /** The channel holds the chunks sent last, in order, within its capacity. */
  ghost predicate ChannelInv(capacity: nat, sent: seq<Chunk>, channel: seq<Chunk>) {
    |channel| <= |sent| && |channel| <= capacity && channel == sent[|sent| - |channel|..]
  }

  /** The chunks taken from the channel are in the pool or uploaded, each exactly once. */
  ghost predicate TakenInv(concurrency: nat, taken: nat, pool: map<nat, Transfer>, uploaded: seq<UploadedPart>) {
    && |pool| <= concurrency
    && pool.Keys + Numbers(uploaded) == UpTo(taken)
    && pool.Keys !! Numbers(uploaded)
    && Distinct(uploaded)
  }

  predicate TransferOk(plan: MultipartPlan, input: Bytes, attempts: nat, server: Server, bodies: set<(nat, Bytes)>,
                       n: nat, t: Transfer)
    requires plan.Valid()
  {
    && FromInput(plan, input, n, t.bytes) && (n, t.bytes) in bodies && 1 <= t.attempt <= attempts
    && forall e :: e in t.replies ==> e in server.issued && server.issued[e] == t.bytes && n in server.parts
  }

  ghost predicate PoolInv(plan: MultipartPlan, input: Bytes, attempts: nat, server: Server, bodies: set<(nat,
                          Bytes)>, pool: map<nat, Transfer>)
    requires plan.Valid()
  {
    forall n :: n in pool ==> TransferOk(plan, input, attempts, server, bodies, n, pool[n])
  }

  predicate StoredOk(plan: MultipartPlan, input: Bytes, server: Server, part: UploadedPart)
    requires plan.Valid()
  {
    && part.number in server.parts && part.etag != "" && part.etag in server.issued
    && FromInput(plan, input, part.number, server.issued[part.etag])
  }

  ghost predicate UploadedInv(plan: MultipartPlan, input: Bytes, server: Server, uploaded: seq<UploadedPart>)
    requires plan.Valid()
  {
    forall i :: 0 <= i < |uploaded| ==> StoredOk(plan, input, server, uploaded[i])
  }

  /** A run from a stream reuses nothing: the k-th report counts the first k uploads. */
  ghost predicate ReportInv(plan: MultipartPlan, uploaded: seq<UploadedPart>, completed: nat, transferred: nat,
                            callbacks: seq<Progress>)
    requires plan.Valid()
  {
    && |callbacks| == |uploaded|
    && (forall k :: 0 <= k < |callbacks| ==> callbacks[k] == ProgressAfter(plan, [], uploaded, k + 1))
    && Progress(completed, transferred) == ProgressAfter(plan, [], uploaded, |uploaded|)
  }

  /** A completion was sent only with everything read, sent and uploaded; it may outlive the caller. */
  ghost predicate CommitInv(plan: MultipartPlan, e: End, reader: Reader, channel: seq<Chunk>, pool: map<nat,
                            Transfer>, uploaded: seq<UploadedPart>) {
    && (e.phase.Working? ==> e.inFlight.None?)
    && (e.inFlight.Some? ==>
          && reader.Done? && reader.result.Ok? && channel == [] && pool == map[]
          && Canonical(Values(Inserted(uploaded))) == Ok(e.inFlight.value)
          && Accepts(plan, e.inFlight.value))
  }

  ghost predicate FlowInv(c: Stream, s: Flow)
    requires c.Valid()
  {
    && EndInv(c.session, s.end)
    && SentInv(c.Plan(), c.input, s.sent)
    && ReaderInv(c.Plan(), c.input, s.reader, s.position, s.remaining, s.number, |s.sent|)
    && ChannelInv(c.channelSize, s.sent, s.channel)
    && TakenInv(c.concurrency, |s.sent| - |s.channel|, s.pool, s.uploaded)
    && PoolInv(c.Plan(), c.input, c.maxAttempts, s.end.server, s.bodies, s.pool)
    && UploadedInv(c.Plan(), c.input, s.end.server, s.uploaded)
    && ReportInv(c.Plan(), s.uploaded, s.completed, s.transferred, s.callbacks)
    && CommitInv(c.Plan(), s.end, s.reader, s.channel, s.pool, s.uploaded)
  }

  // ----- The store moves on -----

  lemma {:induction false} EvolvingStore(plan: MultipartPlan, input: Bytes, attempts: nat, s: Server, t: Server,
                                         bodies: set<(nat, Bytes)>, pool: map<nat, Transfer>,
                                         uploaded: seq<UploadedPart>)
    requires plan.Valid() && PoolInv(plan, input, attempts, s, bodies, pool)
             && UploadedInv(plan, input, s, uploaded) && Evolves(s, t)
    ensures PoolInv(plan, input, attempts, t, bodies, pool) && UploadedInv(plan, input, t, uploaded)
  {
    hide FromInput;
    forall n | n in pool
      ensures TransferOk(plan, input, attempts, t, bodies, n, pool[n])
    {
      assert TransferOk(plan, input, attempts, s, bodies, n, pool[n]);
    }
    forall i | 0 <= i < |uploaded|
      ensures StoredOk(plan, input, t, uploaded[i])
    {
      assert StoredOk(plan, input, s, uploaded[i]);
    }
  }

  /** Only the end of the session moved, and no completion was sent by that. */
  lemma {:induction false} OnlyEndKeeps(c: Stream, s: Flow, end: End)
    requires c.Valid() && FlowInv(c, s) && EndInv(c.session, end)
    requires Evolves(s.end.server, end.server) && end.inFlight == s.end.inFlight && (end.phase.Working?
             ==> s.end.phase.Working?)
    ensures FlowInv(c, s.(end := end))
  {
    hide EndInv, SentInv, ReaderInv, ChannelInv, TakenInv, PoolInv, UploadedInv, ReportInv, Evolves;
    EvolvingStore(c.Plan(), c.input, c.maxAttempts, s.end.server, end.server, s.bodies, s.pool, s.uploaded);
  }

  lemma {:induction false} TailKeepsFlow(c: Stream, s: Flow, step: EndStep)
    requires c.Valid() && FlowInv(c, s) && CanMove(c, s, Tail(step))
    ensures FlowInv(c, Moved(c, s, Tail(step)))
  {
    EndStepKeeps(c.abortOnError, c.session, s.end, step);
    OnlyEndKeeps(c, s, DoEnd(c.abortOnError, c.session, s.end, step));
  }

  lemma {:induction false} RequestKeepsFlow(c: Stream, s: Flow, request: Request)
    requires c.Valid() && FlowInv(c, s) && CanServe(s.end.server, request)
    ensures FlowInv(c, s.(end := s.end.(server := Serve(s.end.server, request))))
  {
    EndStepKeeps(c.abortOnError, c.session, s.end, Others(request));
    OnlyEndKeeps(c, s, DoEnd(c.abortOnError, c.session, s.end, Others(request)));
  }

  lemma {:induction false} LateCopyKeepsFlow(c: Stream, s: Flow, n: nat, bytes: Bytes, etag: ETag)
    requires c.Valid() && FlowInv(c, s) && CanMove(c, s, LateCopy(n, bytes, etag))
    ensures FlowInv(c, Moved(c, s, LateCopy(n, bytes, etag)))
  {
    RequestKeepsFlow(c, s, StorePart(n, bytes, etag));
  }

  // ----- The reader -----

  lemma {:induction false} BufferIsThePart(plan: MultipartPlan, n: nat)
    requires plan.Valid() && Planned(plan, n)
    ensures EndOf(plan, n - 1) == Offset(plan, n)
    ensures var remaining := plan.fileSize - EndOf(plan, n - 1);
            && Length(plan, n) == (if remaining < plan.partSize then remaining else plan.partSize) <= remaining
            && remaining - Length(plan, n) == plan.fileSize - EndOf(plan, n)
            && (remaining == Length(plan, n) <==> n == plan.partCount)
  {
    EndIsNextOffset(plan, n - 1);
    PartsTouch(plan, n);
    if n < plan.partCount { StartMono(plan.partSize, n + 1, plan.partCount); }
  }

  lemma {:induction false} ReadFills(c: Stream, s: Flow)
    requires c.Valid() && FlowInv(c, s) && CanRead(c, s)
    ensures var t := ReadBuffer(c, s);
            && t.reader.Holding?
            && ReaderInv(c.Plan(), c.input, t.reader, t.position, t.remaining, t.number, |t.sent|)
  {
    hide EndInv, SentInv, ChannelInv, TakenInv, PoolInv, UploadedInv, ReportInv, CommitInv, EndOf, Length,
      MultipartPlan.Valid;
    BufferIsThePart(c.Plan(), s.number);
    assert c.Plan().partCount <= MAX_PARTS by { MultipartPlanCount(c.Plan()); }
  }

  lemma {:induction false} MultipartPlanCount(plan: MultipartPlan)
    requires plan.Valid()
    ensures 1 <= plan.partCount <= MAX_PARTS
  {
  }

  lemma {:induction false} ReadKeepsFlow(c: Stream, s: Flow)
    requires c.Valid() && FlowInv(c, s) && CanMove(c, s, ReadOk)
    ensures FlowInv(c, Moved(c, s, ReadOk))
  {
    hide EndInv, SentInv, ReaderInv, ChannelInv, TakenInv, PoolInv, UploadedInv, ReportInv;
    ReadFills(c, s);
  }

  lemma {:induction false} ReadErrKeepsFlow(c: Stream, s: Flow)
    requires c.Valid() && FlowInv(c, s) && CanMove(c, s, ReadErr)
    ensures FlowInv(c, Moved(c, s, ReadErr))
  {
    hide EndInv, SentInv, ChannelInv, TakenInv, PoolInv, UploadedInv, ReportInv;
  }

  lemma {:induction false} SendAppends(plan: MultipartPlan, input: Bytes, sent: seq<Chunk>, chunk: Chunk)
    requires plan.Valid() && SentInv(plan, input, sent) && chunk.number == |sent| + 1
             && FromInput(plan, input, |sent| + 1, chunk.bytes)
    ensures SentInv(plan, input, sent + [chunk])
  {
    hide Length, Offset;
  }

  lemma {:induction false} SendQueues(capacity: nat, sent: seq<Chunk>, channel: seq<Chunk>, chunk: Chunk)
    requires ChannelInv(capacity, sent, channel) && |channel| < capacity
    ensures ChannelInv(capacity, sent + [chunk], channel + [chunk])
  {
  }

  lemma {:induction false} SendGoesOn(c: Stream, s: Flow)
    requires c.Valid() && FlowInv(c, s) && CanSend(c, s)
    ensures var t := SendChunk(c, s);
            && SentInv(c.Plan(), c.input, t.sent)
            && ReaderInv(c.Plan(), c.input, t.reader, t.position, t.remaining, t.number, |t.sent|)
  {
    hide EndInv, ChannelInv, TakenInv, PoolInv, UploadedInv, ReportInv, CommitInv, EndOf, Length, FromInput;
    SendAppends(c.Plan(), c.input, s.sent, s.reader.chunk);
    BufferIsThePart(c.Plan(), s.number);
    if s.number < c.Plan().partCount { BufferIsThePart(c.Plan(), s.number + 1); }
  }

  lemma {:induction false} SendKeepsFlow(c: Stream, s: Flow)
    requires c.Valid() && FlowInv(c, s) && CanMove(c, s, Send)
    ensures FlowInv(c, Moved(c, s, Send))
  {
    hide EndInv, SentInv, ReaderInv, ChannelInv, TakenInv, PoolInv, UploadedInv, ReportInv;
    SendGoesOn(c, s);
    SendQueues(c.channelSize, s.sent, s.channel, s.reader.chunk);
  }

  // ----- The pool -----

  lemma {:induction false} ChannelHead(plan: MultipartPlan, input: Bytes, capacity: nat, sent: seq<Chunk>,
                                       channel: seq<Chunk>)
    requires plan.Valid() && SentInv(plan, input, sent) && ChannelInv(capacity, sent, channel) && channel != []
    ensures ChannelInv(capacity, sent, channel[1..])
    ensures channel[0].number == |sent| - |channel| + 1 && FromInput(plan, input, channel[0].number, channel[0].bytes)
  {
    hide FromInput;
    assert channel[0] == sent[|sent| - |channel|];
    assert sent[|sent| - |channel|..][1..] == sent[|sent| - |channel| + 1..];
  }

  lemma {:induction false} AddKey(pool: map<nat, Transfer>, n: nat, t: Transfer)
    requires n !in pool
    ensures pool[n := t].Keys == pool.Keys + {n} && |pool[n := t]| == |pool| + 1
  {
    assert |pool[n := t].Keys| == |pool.Keys| + 1;
  }

  lemma {:induction false} NextNumber(keys: set<nat>, done: set<nat>, taken: nat)
    requires keys + done == UpTo(taken) && keys !! done
    ensures taken + 1 !in keys && (keys + {taken + 1}) + done == UpTo(taken + 1) && keys + {taken + 1} !! done
  {
    assert taken + 1 !in keys + done;
  }

  lemma {:induction false} TakeNext(concurrency: nat, taken: nat, pool: map<nat, Transfer>,
                                    uploaded: seq<UploadedPart>, t: Transfer)
    requires TakenInv(concurrency, taken, pool, uploaded) && |pool| < concurrency
    ensures TakenInv(concurrency, taken + 1, pool[taken + 1 := t], uploaded)
  {
    hide Numbers, Distinct, UpTo;
    NextNumber(pool.Keys, Numbers(uploaded), taken);
    AddKey(pool, taken + 1, t);
  }

  lemma {:induction false} PoolGrows(plan: MultipartPlan, input: Bytes, attempts: nat, server: Server,
                                     bodies: set<(nat, Bytes)>,
                                     pool: map<nat, Transfer>, n: nat, bytes: Bytes)
    requires plan.Valid() && PoolInv(plan, input, attempts, server, bodies, pool)
             && FromInput(plan, input, n, bytes) && attempts >= 1
    ensures PoolInv(plan, input, attempts, server, bodies + {(n, bytes)}, pool[n := Transfer(bytes, 1, {})])
  {
    hide FromInput;
    var more, wider := pool[n := Transfer(bytes, 1, {})], bodies + {(n, bytes)};
    forall m | m in more
      ensures TransferOk(plan, input, attempts, server, wider, m, more[m])
    {
      if m != n { assert TransferOk(plan, input, attempts, server, bodies, m, pool[m]); }
    }
  }

  lemma {:induction false} PullKeepsFlow(c: Stream, s: Flow)
    requires c.Valid() && FlowInv(c, s) && CanMove(c, s, Pull)
    ensures FlowInv(c, Moved(c, s, Pull))
  {
    hide EndInv, SentInv, ReaderInv, ChannelInv, TakenInv, PoolInv, UploadedInv, ReportInv;
    var chunk := s.channel[0];
    ChannelHead(c.Plan(), c.input, c.channelSize, s.sent, s.channel);
    TakeNext(c.concurrency, |s.sent| - |s.channel|, s.pool, s.uploaded, Transfer(chunk.bytes, 1, {}));
    PoolGrows(c.Plan(), c.input, c.maxAttempts, s.end.server, s.bodies, s.pool, chunk.number, chunk.bytes);
  }

  lemma {:induction false} PoolMember(plan: MultipartPlan, input: Bytes, attempts: nat, server: Server,
                                      bodies: set<(nat, Bytes)>, pool: map<nat, Transfer>, n: nat)
    requires plan.Valid() && PoolInv(plan, input, attempts, server, bodies, pool) && n in pool
    ensures TransferOk(plan, input, attempts, server, bodies, n, pool[n])
  {
  }

  lemma {:induction false} TakenIgnoresTransfers(concurrency: nat, taken: nat, pool: map<nat, Transfer>,
                                                 uploaded: seq<UploadedPart>, n: nat, t: Transfer)
    requires TakenInv(concurrency, taken, pool, uploaded) && n in pool
    ensures TakenInv(concurrency, taken, pool[n := t], uploaded)
  {
    hide Numbers, Distinct, UpTo;
    assert pool[n := t].Keys == pool.Keys;
  }

  /** One transfer changed its attempt or its replies. */
  lemma {:induction false} OneTransfer(c: Stream, s: Flow, n: nat, t: Transfer)
    requires c.Valid() && FlowInv(c, s) && Outstanding(s, n)
    requires TransferOk(c.Plan(), c.input, c.maxAttempts, s.end.server, s.bodies, n, t)
    ensures FlowInv(c, s.(pool := s.pool[n := t]))
  {
    hide EndInv, SentInv, ReaderInv, TakenInv, TransferOk, UploadedInv, ReportInv;
    TakenIgnoresTransfers(c.concurrency, |s.sent| - |s.channel|, s.pool, s.uploaded, n, t);
  }

  lemma {:induction false} AnswerKeepsFlow(c: Stream, s: Flow, n: nat, etag: ETag)
    requires c.Valid() && FlowInv(c, s) && CanMove(c, s, Answer(n, etag))
    ensures FlowInv(c, Moved(c, s, Answer(n, etag)))
  {
    hide FlowInv, EndInv, FromInput;
    var request := StorePart(n, s.pool[n].bytes, etag);
    RequestKeepsFlow(c, s, request);
    var served := s.(end := s.end.(server := Serve(s.end.server, request)));
    PoolStays(c, s, served, n, etag);
    OneTransfer(c, served, n, s.pool[n].(replies := s.pool[n].replies + {etag}));
  }

  lemma {:induction false} PoolStays(c: Stream, s: Flow, t: Flow, n: nat, etag: ETag)
    requires c.Valid() && FlowInv(c, t) && t.pool == s.pool && n in s.pool
    requires etag in t.end.server.issued && t.end.server.issued[etag] == s.pool[n].bytes && n in t.end.server.parts
    ensures TransferOk(c.Plan(), c.input, c.maxAttempts, t.end.server, t.bodies, n,
                       s.pool[n].(replies := s.pool[n].replies + {etag}))
  {
    hide EndInv, SentInv, ReaderInv, ChannelInv, TakenInv, UploadedInv, ReportInv, CommitInv, PoolInv, FromInput;
    PoolMember(c.Plan(), c.input, c.maxAttempts, t.end.server, t.bodies, t.pool, n);
  }

  lemma {:induction false} RetryKeepsFlow(c: Stream, s: Flow, n: nat)
    requires c.Valid() && FlowInv(c, s) && CanMove(c, s, Retry(n))
    ensures FlowInv(c, Moved(c, s, Retry(n)))
  {
    hide EndInv, SentInv, ReaderInv, ChannelInv, TakenInv, UploadedInv, ReportInv, CommitInv, PoolInv, FromInput;
    PoolMember(c.Plan(), c.input, c.maxAttempts, s.end.server, s.bodies, s.pool, n);
    OneTransfer(c, s, n, Transfer(s.pool[n].bytes, s.pool[n].attempt + 1, {}));
  }

  // ----- A part is confirmed -----

  lemma {:induction false} Settle(concurrency: nat, taken: nat, pool: map<nat, Transfer>,
                                  uploaded: seq<UploadedPart>, part: UploadedPart)
    requires TakenInv(concurrency, taken, pool, uploaded) && part.number as nat in pool
    ensures TakenInv(concurrency, taken, pool - {part.number as nat}, uploaded + [part])
    ensures part.number as nat !in Numbers(uploaded)
  {
    hide Numbers, Distinct, UpTo;
    var n: nat := part.number;
    var rest := pool - {n};
    NumbersAppend(uploaded, part);
    assert n in pool.Keys;
    DistinctAppend(uploaded, part);
    assert rest.Keys == pool.Keys - {n};
    SubsetSize(rest.Keys, pool.Keys);
  }

  lemma {:induction false} ConfirmedIsStored(plan: MultipartPlan, input: Bytes, attempts: nat, server: Server,
                                             bodies: set<(nat, Bytes)>,
                                             pool: map<nat, Transfer>, uploaded: seq<UploadedPart>, part: UploadedPart)
    requires plan.Valid() && PoolInv(plan, input, attempts, server, bodies, pool)
             && UploadedInv(plan, input, server, uploaded)
    requires part.number as nat in pool && part.etag in pool[part.number].replies && part.etag != ""
    ensures PoolInv(plan, input, attempts, server, bodies, pool - {part.number as nat})
    ensures UploadedInv(plan, input, server, uploaded + [part])
  {
    hide FromInput;
    PoolMember(plan, input, attempts, server, bodies, pool, part.number);
  }

  lemma {:induction false} PlannedBody(plan: MultipartPlan, input: Bytes, attempts: nat, server: Server,
                                       bodies: set<(nat, Bytes)>, n: nat, t: Transfer)
    requires plan.Valid() && TransferOk(plan, input, attempts, server, bodies, n, t)
    ensures Planned(plan, n) && |t.bytes| == Length(plan, n)
  {
  }

  lemma {:induction false} ReportsGrow(plan: MultipartPlan, uploaded: seq<UploadedPart>, part: UploadedPart,
                                       completed: nat, transferred: nat, callbacks: seq<Progress>)
    requires plan.Valid() && ReportInv(plan, uploaded, completed, transferred, callbacks)
    requires Planned(plan, part.number) && part.number as nat !in Numbers(uploaded)
    ensures var bytes := transferred + Length(plan, part.number);
            ReportInv(plan, uploaded + [part], completed + 1, bytes, callbacks + [Progress(completed + 1, bytes)])
  {
    hide Numbers, Length, TotalBytes;
    NoNumbers();
    NextReport(plan, [], uploaded, part);
  }

  lemma {:induction false} DeliverKeepsFlow(c: Stream, s: Flow, n: nat, etag: ETag)
    requires c.Valid() && FlowInv(c, s) && CanMove(c, s, Deliver(n, etag))
    ensures FlowInv(c, Moved(c, s, Deliver(n, etag)))
  {
    hide EndInv, SentInv, ReaderInv, TakenInv, PoolInv, UploadedInv, ReportInv, Length, TransferOk;
    var part := UploadedPart(n, etag);
    Settle(c.concurrency, |s.sent| - |s.channel|, s.pool, s.uploaded, part);
    ConfirmedIsStored(c.Plan(), c.input, c.maxAttempts, s.end.server, s.bodies, s.pool, s.uploaded, part);
    PoolMember(c.Plan(), c.input, c.maxAttempts, s.end.server, s.bodies, s.pool, n);
    PlannedBody(c.Plan(), c.input, c.maxAttempts, s.end.server, s.bodies, n, s.pool[n]);
    ReportsGrow(c.Plan(), s.uploaded, part, s.completed, s.transferred, s.callbacks);
  }

  // ----- The end of the stream -----

  /** With everything read, sent and uploaded, the local checks of the manifest pass. */
  lemma {:induction false} FullStreamPasses(plan: MultipartPlan, concurrency: nat, pool: map<nat, Transfer>,
                                            uploaded: seq<UploadedPart>)
    requires plan.Valid() && TakenInv(concurrency, plan.partCount, pool, uploaded) && pool == map[]
    ensures Canonical(Values(Inserted(uploaded))).Ok?
    ensures Accepts(plan, Canonical(Values(Inserted(uploaded))).value)
  {
    hide Canonical, Values, Inserted, Accepts, Numbers, Distinct;
    assert pool.Keys == {};
    assert Numbers(uploaded) == AllParts(plan);
    FullManifestPasses(plan, uploaded);
  }

  lemma {:induction false} FinishKeepsEnd(c: Stream, s: Flow)
    requires c.Valid() && EndInv(c.session, s.end) && CanMove(c, s, Finish)
    ensures EndInv(c.session, FinishStream(c, s).end) && FinishStream(c, s).end.server == s.end.server
  {
    hide Canonical, Values, Inserted, Accepts, OneEnding, Matches, Bodies;
  }

  lemma {:induction false} FinishKeepsFlow(c: Stream, s: Flow)
    requires c.Valid() && FlowInv(c, s) && CanMove(c, s, Finish)
    ensures FlowInv(c, Moved(c, s, Finish))
  {
    hide EndInv, SentInv, TakenInv, PoolInv, UploadedInv, ReportInv,
      Canonical, Values, Inserted, Accepts;
    if s.reader.result.Ok? { FullStreamPasses(c.Plan(), c.concurrency, s.pool, s.uploaded); }
    FinishKeepsEnd(c, s);
  }

  // ----- Whole runs -----

  ghost predicate Startable(c: Stream, server: Server) {
    c.Valid() && Sound(server)
  }

  lemma {:induction false} NothingReported(plan: MultipartPlan)
    requires plan.Valid()
    ensures ReportInv(plan, [], 0, 0, [])
  {
    NoNumbers();
    assert Numbers([]) + Numbers([]) == {};
    NothingCounts(plan, plan.partCount);
  }

  lemma {:induction false} NothingCounts(plan: MultipartPlan, k: nat)
    requires plan.Valid() && k <= plan.partCount
    ensures SumLengths(plan, {}, k) == 0
  {
    if k > 0 { NothingCounts(plan, k - 1); }
  }

  lemma {:induction false} BeginKeeps(c: Stream, server: Server)
    requires Startable(c, server)
    ensures FlowInv(c, Begin(c, server))
  {
    hide ReportInv;
    NoNumbers();
    NothingReported(c.Plan());
  }

  lemma {:induction false} MoveKeeps(c: Stream, s: Flow, move: Move)
    requires c.Valid() && FlowInv(c, s) && CanMove(c, s, move)
    ensures FlowInv(c, Moved(c, s, move))
  {
    hide FlowInv, CanMove, Moved;
    match move
    case Tail(t) => TailKeepsFlow(c, s, t);
    case LateCopy(n, bytes, etag) => LateCopyKeepsFlow(c, s, n, bytes, etag);
    case Answer(n, etag) => AnswerKeepsFlow(c, s, n, etag);
    case ReadOk => ReadKeepsFlow(c, s);
    case ReadErr => ReadErrKeepsFlow(c, s);
    case Send => SendKeepsFlow(c, s);
    case Pull => PullKeepsFlow(c, s);
    case Retry(n) => RetryKeepsFlow(c, s, n);
    case Deliver(n, etag) => DeliverKeepsFlow(c, s, n, etag);
    case Finish => FinishKeepsFlow(c, s);
  }

  lemma {:induction false} FlowKeeps(c: Stream, s: Flow, moves: seq<Move>)
    requires c.Valid() && FlowInv(c, s) && Flows(c, s, moves)
    ensures FlowInv(c, Reached(c, s, moves))
    decreases |moves|
  {
    if moves != [] {
      MoveKeeps(c, s, moves[0]);
      FlowKeeps(c, Moved(c, s, moves[0]), moves[1..]);
    }
  }
}

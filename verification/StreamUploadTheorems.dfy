/** What every run of the stream upload guarantees. */
module StreamUploadTheorems {
  import opened Basics
  import opened Plan
  import opened Manifest
  import opened Accounting
  import opened Remote
  import opened Objects
  import opened Sessions
  import opened SessionEnd
  import opened StreamUpload
  import opened StreamUploadInv

  lemma {:induction false} FlowReachable(c: Stream, server: Server, moves: seq<Move>)
    requires Startable(c, server) && Flows(c, Begin(c, server), moves)
    ensures FlowInv(c, Reached(c, Begin(c, server), moves))
  {
    BeginKeeps(c, server);
    FlowKeeps(c, Begin(c, server), moves);
  }

  // ----- The pipeline delivers the planned parts -----

  ghost predicate SentInOrder(c: Stream, s: Flow)
    requires c.Valid()
  {
    && (forall k :: 0 <= k < |s.sent| ==>
                      s.sent[k].number == k + 1 && FromInput(c.Plan(), c.input, k + 1, s.sent[k].bytes))
    && |s.channel| <= |s.sent| && s.channel == s.sent[|s.sent| - |s.channel|..]
    && s.number <= c.Plan().partCount + 1 <= U16_MAX
  }

  /** In every interleaving the k-th chunk sent is exactly planned part k of the input, and the
      channel keeps the order; the reader stops early only on a failed read, never for too many
      parts. */
  lemma {:induction false} ChunksArePlannedParts(c: Stream, server: Server, moves: seq<Move>)
    requires Startable(c, server) && Flows(c, Begin(c, server), moves)
    ensures var s := Reached(c, Begin(c, server), moves);
            SentInOrder(c, s) && (s.reader.Done? && s.reader.result.Err? ==> s.reader.result.error == Io)
  {
    hide EndInv, TakenInv, PoolInv, UploadedInv, ReportInv, CommitInv, FromInput;
    FlowReachable(c, server, moves);
  }

  /** A completion is sent only when the reader has delivered all bytes and every planned part is
      uploaded; for an input that is too short none is ever sent. */
  lemma {:induction false} CompletionNeedsAllBytes(c: Stream, server: Server, moves: seq<Move>)
    requires Startable(c, server) && Flows(c, Begin(c, server), moves)
    requires Reached(c, Begin(c, server), moves).end.inFlight.Some?
    ensures var s := Reached(c, Begin(c, server), moves);
            && s.position == c.Plan().fileSize <= |c.input|
            && |s.sent| == c.Plan().partCount && Numbers(s.uploaded) == AllParts(c.Plan())
  {
    FlowReachable(c, server, moves);
    EverythingIn(c, Reached(c, Begin(c, server), moves));
  }

  lemma {:induction false} EverythingIn(c: Stream, s: Flow)
    requires c.Valid() && FlowInv(c, s) && s.end.inFlight.Some?
    ensures s.position == c.Plan().fileSize <= |c.input|
    ensures |s.sent| == c.Plan().partCount && Numbers(s.uploaded) == AllParts(c.Plan())
  {
    hide EndInv, SentInv, ChannelInv, PoolInv, UploadedInv, ReportInv, Numbers, Canonical, Values, Inserted, Accepts;
    InputIsLongEnough(c.Plan(), c.input, s.sent);
    assert s.pool.Keys == {};
  }

  lemma {:induction false} InputIsLongEnough(plan: MultipartPlan, input: Bytes, sent: seq<Chunk>)
    requires plan.Valid() && SentInv(plan, input, sent) && |sent| == plan.partCount
    ensures plan.fileSize <= |input|
  {
    assert FromInput(plan, input, plan.partCount, sent[plan.partCount - 1].bytes);
    PartsTouch(plan, plan.partCount);
  }

  // ----- The object is the stream -----

  lemma {:induction false} SliceOfPrefix(plan: MultipartPlan, input: Bytes, n: nat, bytes: Bytes)
    requires plan.Valid() && FromInput(plan, input, n, bytes) && plan.fileSize <= |input|
    ensures bytes == Slice(plan, input[..plan.fileSize], n)
  {
  }

  lemma {:induction false} UploadedHoldTheInput(plan: MultipartPlan, input: Bytes, server: Server,
                                                uploaded: seq<UploadedPart>, part: UploadedPart)
    requires plan.Valid() && plan.fileSize <= |input| && UploadedInv(plan, input, server, uploaded)
             && part in multiset(uploaded)
    ensures HoldsSlice(plan, server, input[..plan.fileSize], part)
  {
    var i := IndexOf(uploaded, part);
    assert StoredOk(plan, input, server, uploaded[i]);
    SliceOfPrefix(plan, input, part.number, server.issued[part.etag]);
  }

  lemma {:induction false} StreamIsSealed(plan: MultipartPlan, input: Bytes, server: Server,
                                          uploaded: seq<UploadedPart>, manifest: seq<UploadedPart>)
    requires plan.Valid() && plan.fileSize <= |input| && UploadedInv(plan, input, server, uploaded)
    requires Accepts(plan, manifest) && multiset(manifest) == multiset(uploaded)
    ensures Sealed(plan, server, input[..plan.fileSize], manifest, [])
  {
    hide UploadedInv;
    forall i | 0 <= i < |manifest|
      ensures HoldsSlice(plan, server, input[..plan.fileSize], manifest[i])
    {
      assert manifest[i] in multiset(manifest);
      UploadedHoldTheInput(plan, input, server, uploaded, manifest[i]);
    }
  }

  lemma {:induction false} ManifestIsUploaded(plan: MultipartPlan, uploaded: seq<UploadedPart>,
                                              manifest: seq<UploadedPart>)
    requires plan.Valid() && Distinct(uploaded) && Numbers(uploaded) == AllParts(plan)
    requires Canonical(Values(Inserted(uploaded))) == Ok(manifest)
    ensures multiset(manifest) == multiset(uploaded)
  {
    hide Distinct, Numbers, Canonical, Values, Inserted;
    FullManifestPasses(plan, uploaded);
  }

  lemma {:induction false} CommittedParts(c: Stream, s: Flow)
    requires c.Valid() && FlowInv(c, s) && s.end.inFlight.Some?
    ensures c.Plan().fileSize <= |c.input| && Accepts(c.Plan(), s.end.inFlight.value)
    ensures multiset(s.end.inFlight.value) == multiset(s.uploaded)
  {
    hide EndInv, SentInv, PoolInv, UploadedInv, ReportInv, Numbers, Distinct, Canonical, Values, Inserted, Accepts;
    InputIsLongEnough(c.Plan(), c.input, s.sent);
    assert s.pool.Keys == {};
    ManifestIsUploaded(c.Plan(), s.uploaded, s.end.inFlight.value);
  }

  /** When a stream upload returns Ok, the object is exactly the first `file_size` bytes of the
      reader, whatever the interleaving and whatever was lost, applied late or retried. */
  lemma {:induction false} OkMeansTheStream(c: Stream, server: Server, moves: seq<Move>)
    requires Startable(c, server) && Flows(c, Begin(c, server), moves)
    requires Reached(c, Begin(c, server), moves).end.phase == Ended(Succeeded)
    ensures c.Plan().fileSize <= |c.input|
    ensures Reached(c, Begin(c, server), moves).end.server.status == Completed(c.input[..c.Plan().fileSize])
  {
    FlowReachable(c, server, moves);
    SuccessIsTheStream(c, Reached(c, Begin(c, server), moves));
  }

  lemma {:induction false} SuccessIsTheStream(c: Stream, s: Flow)
    requires c.Valid() && FlowInv(c, s) && s.end.phase == Ended(Succeeded)
    ensures c.Plan().fileSize <= |c.input| && s.end.server.status == Completed(c.input[..c.Plan().fileSize])
  {
    hide EndInv, SentInv, ReaderInv, ChannelInv, TakenInv, PoolInv, UploadedInv, ReportInv, CommitInv, MeantObject,
      HoldsSlice, Sealed, Accepts;
    AnsweredObject(c.session, s.end);
    CommittedParts(c, s);
    var content := c.input[..c.Plan().fileSize];
    StreamIsSealed(c.Plan(), c.input, s.end.server, s.uploaded, s.end.inFlight.value);
    SealedObject(c.Plan(), s.end.server, content, s.end.inFlight.value, []);
  }

  // ----- Accounting -----

  /** Every report counts exactly the parts uploaded so far with their planned bytes; reports
      strictly increase, and on Ok the last one shows the whole stream. */
  lemma {:induction false} StreamProgressIsExact(c: Stream, server: Server, moves: seq<Move>)
    requires Startable(c, server) && Flows(c, Begin(c, server), moves)
    ensures var s := Reached(c, Begin(c, server), moves);
            && |s.callbacks| == |s.uploaded|
            && (forall k :: 0 <= k < |s.callbacks| ==> s.callbacks[k] == ProgressAfter(c.Plan(), [], s.uploaded, k + 1))
            && (forall j, k :: 0 <= j < k < |s.callbacks| ==>
                                 s.callbacks[j].completedParts < s.callbacks[k].completedParts
                                 && s.callbacks[j].transferredBytes < s.callbacks[k].transferredBytes)
            && (s.end.inFlight.Some? ==>
                  |s.uploaded| == c.Plan().partCount
                  && s.callbacks[|s.uploaded| - 1] == Progress(c.Plan().partCount, c.Plan().fileSize))
  {
    FlowReachable(c, server, moves);
    var s := Reached(c, Begin(c, server), moves);
    ReportsIncrease(c, s);
    if s.end.inFlight.Some? {
      EverythingIn(c, s);
      LastReport(c, s);
    }
  }

  lemma {:induction false} TakenArePlanned(c: Stream, s: Flow)
    requires c.Valid() && FlowInv(c, s)
    ensures Numbers(s.uploaded) <= AllParts(c.Plan()) && Distinct(s.uploaded)
  {
    hide EndInv, ReaderInv, PoolInv, UploadedInv, ReportInv, CommitInv, FromInput, Numbers, Distinct;
    forall n | n in Numbers(s.uploaded)
      ensures n in AllParts(c.Plan())
    {
      assert n in UpTo(|s.sent| - |s.channel|);
    }
  }

  lemma {:induction false} ReportsIncrease(c: Stream, s: Flow)
    requires c.Valid() && FlowInv(c, s)
    ensures forall j, k :: 0 <= j < k < |s.callbacks| ==>
                             s.callbacks[j].completedParts < s.callbacks[k].completedParts
                             && s.callbacks[j].transferredBytes < s.callbacks[k].transferredBytes
  {
    hide EndInv, SentInv, ReaderInv, ChannelInv, TakenInv, PoolInv, UploadedInv, CommitInv, Numbers, Distinct,
      AllParts, TotalBytes;
    TakenArePlanned(c, s);
    NoNumbers();
    forall j, k | 0 <= j < k < |s.callbacks|
      ensures s.callbacks[j].completedParts < s.callbacks[k].completedParts
      ensures s.callbacks[j].transferredBytes < s.callbacks[k].transferredBytes
    {
      MorePartsMoreBytes(c.Plan(), Numbers([]), s.uploaded, j + 1, k + 1);
    }
  }

  lemma {:induction false} LastReport(c: Stream, s: Flow)
    requires c.Valid() && FlowInv(c, s) && Numbers(s.uploaded) == AllParts(c.Plan())
    ensures |s.uploaded| == |s.callbacks| == c.Plan().partCount
    ensures s.callbacks[|s.uploaded| - 1] == Progress(c.Plan().partCount, c.Plan().fileSize)
  {
    hide EndInv, SentInv, ReaderInv, ChannelInv, TakenInv, PoolInv, UploadedInv, CommitInv, Numbers, Distinct,
      TotalBytes;
    TakenArePlanned(c, s);
    NumbersCount(s.uploaded);
    NoNumbers();
    AllPartsSum(c.Plan());
    assert s.uploaded[..|s.uploaded|] == s.uploaded;
    assert Numbers([]) + Numbers(s.uploaded) == AllParts(c.Plan());
  }

  // ----- How a run ends -----

  lemma {:induction false} MoveEvolves(c: Stream, s: Flow, move: Move)
    requires c.Valid() && FlowInv(c, s) && CanMove(c, s, move)
    ensures Evolves(s.end.server, Moved(c, s, move).end.server)
  {
    hide EndInv, SentInv, ReaderInv, ChannelInv, TakenInv, PoolInv, UploadedInv, ReportInv, CommitInv, FinishStream;
    match move
    case Tail(t) => EndStepKeeps(c.abortOnError, c.session, s.end, t);
    case LateCopy(n, bytes, etag) => EndStepKeeps(c.abortOnError, c.session, s.end, Others(StorePart(n, bytes, etag)));
    case Answer(n, etag) => EndStepKeeps(c.abortOnError, c.session, s.end, Others(StorePart(n, s.pool[n].bytes, etag)));
    case Finish => FinishKeepsEnd(c, s);
    case _ =>
  }

  lemma {:induction false} FlowEvolves(c: Stream, s: Flow, moves: seq<Move>)
    requires c.Valid() && FlowInv(c, s) && Flows(c, s, moves)
    ensures Evolves(s.end.server, Reached(c, s, moves).end.server)
    decreases |moves|
  {
    hide FlowInv, Evolves, CanMove, Moved;
    if moves == [] {
      EvolvesReflexive(s.end.server);
    } else {
      var t := Moved(c, s, moves[0]);
      MoveKeeps(c, s, moves[0]);
      MoveEvolves(c, s, moves[0]);
      FlowEvolves(c, t, moves[1..]);
      EvolvesTransitive(s.end.server, t.end.server, Reached(c, t, moves[1..]).end.server);
    }
  }

  /** A stream upload ends Ok with an object, or aborted with nothing to resume, or failed with the
      snapshot of its session; the snapshot is accepted by the bucket, rebuilds the session, and survives
      its record exactly when the upload id is not empty. */
  lemma {:induction false} StreamEndings(c: Stream, server: Server, moves: seq<Move>)
    requires Startable(c, server) && Flows(c, Begin(c, server), moves)
    requires Reached(c, Begin(c, server), moves).end.phase.Ended?
    ensures var s := Reached(c, Begin(c, server), moves);
            match s.end.phase.outcome
            case Succeeded => s.end.server.status.Completed?
            case Failed(_, snapshot, aborted) =>
              if aborted then snapshot.None? && s.end.server.status.Aborted?
              else
                && snapshot.Some? && Resume(c.session.bucket, snapshot.value) == Ok(c.session)
                && (FromRecord(IntoRecord(snapshot.value)) == Ok(snapshot.value) <==> c.session.uploadId != [])
  {
    FlowReachable(c, server, moves);
    ResumeRebuildsSession(c.session, c.session.bucket);
    RecordRoundTrip(c.session);
  }

  /** Once a stream upload is reported aborted, its session had no object at any earlier moment and will
      never have one, whatever is still in flight. */
  lemma {:induction false} AbortedStreamNeverMadeAnObject(c: Stream, server: Server, earlier: seq<Move>,
                                                          between: seq<Move>, later: seq<Move>)
    requires Startable(c, server) && Flows(c, Begin(c, server), earlier)
    requires Flows(c, Reached(c, Begin(c, server), earlier), between)
    requires var t := Reached(c, Reached(c, Begin(c, server), earlier), between);
             && t.end.phase.Ended? && t.end.phase.outcome.Failed? && t.end.phase.outcome.aborted && Flows(c, t, later)
    ensures var s := Reached(c, Begin(c, server), earlier);
            && !s.end.server.status.Completed?
            && !Reached(c, Reached(c, s, between), later).end.server.status.Completed?
  {
    hide CanMove, Moved;
    FlowReachable(c, server, earlier);
    var s := Reached(c, Begin(c, server), earlier);
    FlowKeeps(c, s, between);
    FlowEvolves(c, s, between);
    var t := Reached(c, s, between);
    assert t.end.server.status.Aborted?;
    FlowEvolves(c, t, later);
  }

  // ----- Abort and error of a failed run -----

  predicate AbortUnconfirmedIn(moves: seq<Move>) {
    Tail(AbortUnconfirmed(true)) in moves || Tail(AbortUnconfirmed(false)) in moves
  }

  lemma {:induction false} InOrAfter(moves: seq<Move>, move: Move)
    requires moves != []
    ensures move in moves <==> move == moves[0] || move in moves[1..]
  {
    assert moves == [moves[0]] + moves[1..];
  }

  lemma {:induction false} FirstMove(moves: seq<Move>)
    requires moves != []
    ensures Tail(AbortConfirmed) in moves <==> moves[0] == Tail(AbortConfirmed) || Tail(AbortConfirmed) in moves[1..]
    ensures AbortUnconfirmedIn(moves) <==>
            (moves[0].Tail? && moves[0].step.AbortUnconfirmed?) || AbortUnconfirmedIn(moves[1..])
  {
    InOrAfter(moves, Tail(AbortConfirmed));
    InOrAfter(moves, Tail(AbortUnconfirmed(true)));
    InOrAfter(moves, Tail(AbortUnconfirmed(false)));
  }

  /** What one step does to the phase. */
  lemma {:induction false} MovePhase(c: Stream, s: Flow, move: Move)
    requires c.Valid() && CanMove(c, s, move)
    ensures !move.Tail? && !move.Finish? ==> Moved(c, s, move).end.phase == s.end.phase
    ensures move.Finish? ==> s.end.phase.Working? && !Moved(c, s, move).end.phase.Ended?
    ensures move.Tail? ==> CanEnd(c.abortOnError, s.end, move.step)
    ensures move.Tail? ==> Moved(c, s, move).end == DoEnd(c.abortOnError, c.session, s.end, move.step)
  {
    hide Canonical, Values, Inserted, Accepts, Serve, CanServe;
  }

  lemma {:induction false} NoAbortIn(moves: seq<Move>)
    requires moves == []
    ensures !AbortUnconfirmedIn(moves)
  {
  }

  /** A run that has ended aborted its session only as `abort_on_error` asks. */
  lemma {:induction false} AbortsMatch(c: Stream, s: Flow, moves: seq<Move>)
    requires c.Valid() && Flows(c, s, moves) && Reached(c, s, moves).end.phase.Ended?
    ensures var t := Reached(c, s, moves);
            if s.end.phase.Ended? then
              t.end.phase == s.end.phase && Tail(AbortConfirmed) !in moves && !AbortUnconfirmedIn(moves)
            else
              CleanedUpAsAsked(c.abortOnError, t.end.phase.outcome,
                               Tail(AbortConfirmed) in moves, AbortUnconfirmedIn(moves))
    decreases |moves|
  {
    hide CanMove, Moved, AbortUnconfirmedIn, Serve, CanServe;
    if moves != [] {
      FirstMove(moves);
      MovePhase(c, s, moves[0]);
      AbortsMatch(c, Moved(c, s, moves[0]), moves[1..]);
    } else {
      assert Tail(AbortConfirmed) !in moves;
      NoAbortIn(moves);
    }
  }

  /** The error with which this step makes the run fail, if it does: giving up, or a reader whose read
      failed, once everything it sent is uploaded. */
  function Failure(c: Stream, s: Flow, move: Move): Option<Error>
    requires c.Valid() && CanMove(c, s, move)
  {
    match move
    case Tail(GiveUp(error)) => Some(error)
    case Finish => if |s.sent| < c.Plan().partCount then Some(Io) else None
    case _ => None
  }

  function FirstFailure(c: Stream, s: Flow, moves: seq<Move>): Option<Error>
    requires c.Valid() && Flows(c, s, moves)
    decreases |moves|
  {
    if moves == [] then None
    else if Failure(c, s, moves[0]).Some? then Failure(c, s, moves[0])
    else FirstFailure(c, Moved(c, s, moves[0]), moves[1..])
  }

  lemma {:induction false} StreamFinishes(c: Stream, s: Flow)
    requires c.Valid() && FlowInv(c, s) && s.end.phase.Working? && s.channel == [] && s.pool == map[]
    requires s.reader.Done? && s.reader.result.Ok?
    ensures FinishStream(c, s).end.phase.Completing?
  {
    hide FlowInv, TakenInv, Canonical, Values, Inserted, Accepts;
    EverythingTaken(c, s);
    FullStreamPasses(c.Plan(), c.concurrency, s.pool, s.uploaded);
  }

  lemma {:induction false} EverythingTaken(c: Stream, s: Flow)
    requires c.Valid() && FlowInv(c, s) && s.channel == [] && s.reader.Done? && s.reader.result.Ok?
    ensures TakenInv(c.concurrency, c.Plan().partCount, s.pool, s.uploaded)
  {
    hide EndInv, SentInv, ChannelInv, TakenInv, PoolInv, UploadedInv, ReportInv, CommitInv, EndOf, FromInput;
    assert |s.sent| - |s.channel| == c.Plan().partCount;
  }

  lemma {:induction false} ReaderSays(c: Stream, s: Flow)
    requires c.Valid() && FlowInv(c, s) && s.reader.Done?
    ensures |s.sent| == c.Plan().partCount <==> s.reader.result.Ok?
    ensures s.reader.result.Err? ==> s.reader.result.error == Io && |s.sent| < c.Plan().partCount
  {
    hide EndInv, SentInv, ChannelInv, TakenInv, PoolInv, UploadedInv, ReportInv, CommitInv, EndOf;
  }

  lemma {:induction false} FinishAfterError(c: Stream, s: Flow)
    requires c.Valid() && s.end.phase.Working? && s.reader.Done? && s.reader.result.Err?
    ensures FinishStream(c, s).end.phase == CleaningUp(s.reader.result.error)
  {
  }

  lemma {:induction false} FinishFails(c: Stream, s: Flow)
    requires c.Valid() && FlowInv(c, s) && s.end.phase.Working? && s.channel == [] && s.pool == map[] && s.reader.Done?
    ensures |s.sent| <= c.Plan().partCount
    ensures |s.sent| < c.Plan().partCount ==> FinishStream(c, s).end.phase == CleaningUp(Io)
    ensures |s.sent| == c.Plan().partCount ==> FinishStream(c, s).end.phase.Completing?
  {
    hide FlowInv, FinishStream;
    ReaderSays(c, s);
    SentFits(c, s);
    if s.reader.result.Ok? { StreamFinishes(c, s); } else { FinishAfterError(c, s); }
  }

  lemma {:induction false} SentFits(c: Stream, s: Flow)
    requires c.Valid() && FlowInv(c, s)
    ensures |s.sent| <= c.Plan().partCount
  {
    hide EndInv, ReaderInv, ChannelInv, TakenInv, PoolInv, UploadedInv, ReportInv, CommitInv;
  }

  /** A step leaves the run working or completing, or makes it fail with exactly its error. */
  lemma {:induction false} MoveFails(c: Stream, s: Flow, move: Move)
    requires c.Valid() && FlowInv(c, s) && CanMove(c, s, move) && (s.end.phase.Working? || s.end.phase.Completing?)
    ensures match Failure(c, s, move)
            case Some(error) => Moved(c, s, move).end.phase == CleaningUp(error)
            case None => !Moved(c, s, move).end.phase.CleaningUp?
                         && (Moved(c, s, move).end.phase.Ended? ==> Moved(c, s, move).end.phase.outcome.Succeeded?)
  {
    hide EndInv, SentInv, ReaderInv, ChannelInv, TakenInv, PoolInv, UploadedInv, ReportInv, CommitInv,
      FinishStream, Serve, CanServe;
    if move.Finish? { FinishFails(c, s); }
  }

  lemma {:induction false} EndedNeverFails(c: Stream, s: Flow, move: Move)
    requires c.Valid() && CanMove(c, s, move) && s.end.phase.Ended?
    ensures Failure(c, s, move).None?
  {
    hide Serve, CanServe;
  }

  /** A run that has ended failed reports the error that first made it fail: the one it was given up
      with, or that of a reader that did not yield the whole stream. */
  lemma {:induction false} ReportsItsFailure(c: Stream, s: Flow, moves: seq<Move>)
    requires c.Valid() && FlowInv(c, s) && Flows(c, s, moves) && Reached(c, s, moves).end.phase.Ended?
    ensures var outcome := Reached(c, s, moves).end.phase.outcome;
            match s.end.phase
            case Ended(before) => outcome == before && FirstFailure(c, s, moves).None?
            case CleaningUp(error) => outcome.Failed? && outcome.error == error
            case _ => FirstFailure(c, s, moves) == if outcome.Failed? then Some(outcome.error) else None
    decreases |moves|
  {
    hide FlowInv, CanMove, Moved, Failure, Serve, CanServe;
    if moves != [] {
      MovePhase(c, s, moves[0]);
      MoveKeeps(c, s, moves[0]);
      if s.end.phase.Working? || s.end.phase.Completing? { MoveFails(c, s, moves[0]); }
      if s.end.phase.Ended? { EndedNeverFails(c, s, moves[0]); }
      ReportsItsFailure(c, Moved(c, s, moves[0]), moves[1..]);
    }
  }
}

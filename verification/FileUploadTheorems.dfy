/** What every run of the file upload guarantees, over any number of failed and resumed runs. */
module FileUploadTheorems {
  import opened Basics
  import opened Plan
  import opened Sizing
  import opened Manifest
  import opened Accounting
  import opened Remote
  import opened Reconcile
  import opened Listings
  import opened Objects
  import opened Sessions
  import opened SessionEnd
  import opened FileUpload
  import opened FileUploadInv

  lemma {:induction false} Reachable(c: Config, source: Source, server: Server, resumed: bool, steps: seq<Step>)
    requires Starts(c, source, server) && Runs(c, Init(c, source, server, resumed), steps)
    ensures Inv(c, After(c, Init(c, source, server, resumed), steps))
  {
    InitKeeps(c, source, server, resumed);
    RunKeeps(c, Init(c, source, server, resumed), steps);
  }

  // ----- The object is the file -----

  /** The ETags of the reused parts stand for the file's own bytes. */
  ghost predicate ReusedHoldTheFile(c: Config, s: State)
    requires c.Valid() && FileInv(c, s)
  {
    forall i :: 0 <= i < |s.reused| ==> HoldsSlice(c.Plan(), s.end.server, s.start.content, s.reused[i])
  }

  lemma {:induction false} ManifestIsTheParts(c: Config, s: State)
    requires c.Valid() && PartitionInv(c, s) && CompletionInv(c, s)
    requires s.work.Transferring? && s.end.phase == Ended(Succeeded)
    ensures s.end.inFlight.Some? && Accepts(c.Plan(), s.end.inFlight.value)
    ensures multiset(s.end.inFlight.value) == multiset(s.reused + s.uploaded)
  {
    hide Numbers, Distinct, AllParts, Canonical, Values, Inserted, Accepts;
    DistinctConcat(s.reused, s.uploaded);
    assert s.tasks.Keys == {};
    FullManifestPasses(c.Plan(), s.reused + s.uploaded);
  }

  lemma {:induction false} ManifestPartIsKnown(c: Config, s: State, i: nat)
    requires c.Valid() && FileInv(c, s) && PartsInv(c, s) && s.end.phase == Ended(Succeeded) && s.end.inFlight.Some?
    requires multiset(s.end.inFlight.value) == multiset(s.reused + s.uploaded) && i < |s.end.inFlight.value|
    ensures var part := s.end.inFlight.value[i];
            && KnownPart(c.Plan(), s.end.server, part)
            && (part in s.reused || HoldsSlice(c.Plan(), s.end.server, s.start.content, part))
  {
    var manifest, parts := s.end.inFlight.value, s.reused + s.uploaded;
    assert manifest[i] in multiset(manifest);
    var j := IndexOf(parts, manifest[i]);
    if j >= |s.reused| {
      assert UploadedOk(c, s.start.content, Trusted(s), s.end.server, s.uploaded[j - |s.reused|]);
    }
  }

  lemma {:induction false} ReusedIsInManifest(s: State, j: nat)
    requires s.end.inFlight.Some? && multiset(s.end.inFlight.value) == multiset(s.reused + s.uploaded) && j < |s.reused|
    ensures s.reused[j] in s.end.inFlight.value
  {
    assert (s.reused + s.uploaded)[j] == s.reused[j];
    assert s.reused[j] in multiset(s.reused + s.uploaded);
    var i := IndexOf(s.end.inFlight.value, s.reused[j]);
  }

  lemma {:induction false} SuccessIsSealed(c: Config, s: State)
    requires c.Valid() && FileInv(c, s) && PartsInv(c, s) && PartitionInv(c, s) && CompletionInv(c, s)
    requires s.work.Transferring? && s.end.phase == Ended(Succeeded)
    ensures Sealed(c.Plan(), s.end.server, s.start.content, s.end.inFlight.value, s.reused)
  {
    hide KnownPart, HoldsSlice, PartsInv, PartitionInv, CompletionInv, Sealed;
    ManifestIsTheParts(c, s);
    SealManifest(c, s);
  }

  lemma {:induction false} SealManifest(c: Config, s: State)
    requires c.Valid() && FileInv(c, s) && PartsInv(c, s) && s.end.phase == Ended(Succeeded)
    requires s.end.inFlight.Some? && Accepts(c.Plan(), s.end.inFlight.value)
    requires multiset(s.end.inFlight.value) == multiset(s.reused + s.uploaded)
    ensures Sealed(c.Plan(), s.end.server, s.start.content, s.end.inFlight.value, s.reused)
  {
    hide KnownPart, HoldsSlice, PartsInv;
    var manifest := s.end.inFlight.value;
    forall i | 0 <= i < |manifest|
      ensures KnownPart(c.Plan(), s.end.server, manifest[i])
      ensures manifest[i] in s.reused || HoldsSlice(c.Plan(), s.end.server, s.start.content, manifest[i])
    {
      ManifestPartIsKnown(c, s, i);
    }
    forall j | 0 <= j < |s.reused|
      ensures s.reused[j] in manifest
    {
      ReusedIsInManifest(s, j);
    }
  }

  /** End-to-end safety. When a run returns Ok, the session's object has the planned size, and it is
      byte for byte the file whose fingerprint the run took and found unchanged at its end, if and
      only if the ETags of the reused parts stood for that file's bytes. */
  lemma {:induction false} OkMeansTheFile(c: Config, source: Source, server: Server, resumed: bool, steps: seq<Step>)
    requires Starts(c, source, server) && Runs(c, Init(c, source, server, resumed), steps)
    requires After(c, Init(c, source, server, resumed), steps).end.phase == Ended(Succeeded)
    ensures var s := After(c, Init(c, source, server, resumed), steps);
            && Inv(c, s)
            && s.end.server.status.Completed? && |s.end.server.status.content| == c.Plan().fileSize
            && (s.end.server.status.content == s.start.content <==> ReusedHoldTheFile(c, s))
  {
    Reachable(c, source, server, resumed, steps);
    SuccessIsExact(c, After(c, Init(c, source, server, resumed), steps));
  }

  lemma {:induction false} SuccessIsExact(c: Config, s: State)
    requires c.Valid() && Inv(c, s) && s.end.phase == Ended(Succeeded)
    ensures s.end.server.status.Completed? && |s.end.server.status.content| == c.Plan().fileSize
    ensures s.end.server.status.content == s.start.content <==> ReusedHoldTheFile(c, s)
  {
    hide EndInv, TasksInv, AccountInv, AcknowledgedInv, PartitionInv, CompletionInv, PartsInv, MeantObject,
      HoldsSlice, Sealed;
    AnsweredObject(c.session, s.end);
    SuccessIsSealed(c, s);
    SealedObject(c.Plan(), s.end.server, s.start.content, s.end.inFlight.value, s.reused);
  }

  // ----- Accounting -----

  /** Reused, sent and outstanding parts partition the plan at every moment; no listed part is sent
      again; the k-th progress report counts the reused parts and the first k uploads with their
      planned bytes; reports strictly increase. On Ok the counts add up to the plan and the last
      report shows the whole file. */
  lemma {:induction false} ProgressIsExact(c: Config, source: Source, server: Server, resumed: bool, steps: seq<Step>)
    requires Starts(c, source, server) && Runs(c, Init(c, source, server, resumed), steps)
    requires After(c, Init(c, source, server, resumed), steps).work.Transferring?
    ensures Accounted(c, After(c, Init(c, source, server, resumed), steps))
  {
    Reachable(c, source, server, resumed, steps);
    var s := After(c, Init(c, source, server, resumed), steps);
    hide EndInv, FileInv, TasksInv, PartsInv, PartitionInv, AccountInv, ListInv, AcknowledgedInv, CompletionInv,
      Accounted;
    CountsAreExact(c, s);
  }

  ghost predicate Accounted(c: Config, s: State)
    requires c.Valid()
  {
    && Numbers(s.reused) + Numbers(s.uploaded) + s.tasks.Keys == AllParts(c.Plan())
    && Numbers(s.reused) !! Numbers(s.uploaded) !! s.tasks.Keys
    && |s.callbacks| == |s.uploaded| + 1
    && (forall k :: 0 <= k < |s.callbacks| ==> s.callbacks[k] == ProgressAfter(c.Plan(), s.reused, s.uploaded, k))
    && (forall j, k :: 0 <= j < k < |s.callbacks| ==>
                         s.callbacks[j].completedParts < s.callbacks[k].completedParts
                         && s.callbacks[j].transferredBytes < s.callbacks[k].transferredBytes)
    && (s.end.phase == Ended(Succeeded) ==>
          |s.reused| + |s.uploaded| == c.Plan().partCount
          && s.callbacks[|s.uploaded|] == Progress(c.Plan().partCount, c.Plan().fileSize))
  }

  lemma {:induction false} CountsAreExact(c: Config, s: State)
    requires c.Valid() && PartitionInv(c, s) && AccountInv(c, s) && CompletionInv(c, s) && s.work.Transferring?
    ensures Accounted(c, s)
  {
    hide Numbers, Distinct, AllParts, TotalBytes, CompletionInv;
    CallbacksIncrease(c, s);
    if s.end.phase == Ended(Succeeded) {
      LastCallback(c, s);
    }
  }

  lemma {:induction false} CallbacksIncrease(c: Config, s: State)
    requires c.Valid() && PartitionInv(c, s) && AccountInv(c, s) && s.work.Transferring?
    ensures forall j, k :: 0 <= j < k < |s.callbacks| ==>
                             s.callbacks[j].completedParts < s.callbacks[k].completedParts
                             && s.callbacks[j].transferredBytes < s.callbacks[k].transferredBytes
  {
    hide Numbers, Distinct, AllParts, TotalBytes;
    forall j, k | 0 <= j < k < |s.callbacks|
      ensures s.callbacks[j].completedParts < s.callbacks[k].completedParts
      ensures s.callbacks[j].transferredBytes < s.callbacks[k].transferredBytes
    {
      MorePartsMoreBytes(c.Plan(), Numbers(s.reused), s.uploaded, j, k);
    }
  }

  lemma {:induction false} LastCallback(c: Config, s: State)
    requires c.Valid() && PartitionInv(c, s) && AccountInv(c, s) && CompletionInv(c, s) && s.work.Transferring?
    requires s.end.phase == Ended(Succeeded)
    ensures |s.reused| + |s.uploaded| == c.Plan().partCount
    ensures s.callbacks[|s.uploaded|] == Progress(c.Plan().partCount, c.Plan().fileSize)
  {
    hide Numbers, Distinct, TotalBytes;
    assert s.tasks.Keys == {};
    NumbersCount(s.reused);
    NumbersCount(s.uploaded);
    assert |Numbers(s.reused) + Numbers(s.uploaded)| == |Numbers(s.reused)| + |Numbers(s.uploaded)|;
    assert s.uploaded[..|s.uploaded|] == s.uploaded;
    assert Numbers(s.reused) + Numbers(s.uploaded) == AllParts(c.Plan());
    AllPartsSum(c.Plan());
  }

  // ----- No confirmed part is ever sent again -----

  function Confirmations(steps: seq<Step>): nat {
    if steps == [] then 0 else Confirmations(steps[1..]) + if steps[0].Deliver? then 1 else 0
  }

  lemma {:induction false} EachConfirmationIsNew(c: Config, s: State, steps: seq<Step>)
    requires c.Valid() && Inv(c, s) && Runs(c, s, steps)
    ensures |After(c, s, steps).acknowledged| == |s.acknowledged| + Confirmations(steps)
    decreases |steps|
  {
    if steps != [] {
      var t := Do(c, s, steps[0]);
      StepKeeps(c, s, steps[0]);
      OneConfirmation(c, s, steps[0]);
      EachConfirmationIsNew(c, t, steps[1..]);
    }
  }

  lemma {:induction false} OneConfirmation(c: Config, s: State, step: Step)
    requires c.Valid() && AcknowledgedInv(c, s) && Can(c, s, step)
    ensures |Do(c, s, step).acknowledged| == |s.acknowledged| + if step.Deliver? then 1 else 0
  {
    hide FinishRun, TakePage, TotalBytes, Numbers, DoEnd, CanEnd, PageOf, Serve, CanServe;
    match step
    case Deliver(n, _) => assert n in s.tasks.Keys && n !in s.acknowledged;
    case Finish => FinishConfirmsNothing(c, s);
    case ListPage(page) => ListingConfirmsNothing(c, s, page);
    case _ =>
  }

  lemma {:induction false} FinishConfirmsNothing(c: Config, s: State)
    requires c.Valid() && Transfers(s)
    ensures FinishRun(c, s).acknowledged == s.acknowledged
  {
    hide Canonical, Values, Inserted, Accepts;
  }

  lemma {:induction false} ListingConfirmsNothing(c: Config, s: State, page: Response)
    requires c.Valid() && CanList(s, page) && SlotsFit(c.Plan(), s.work.slots)
    ensures TakePage(c, s, page).acknowledged == s.acknowledged
  {
    hide Absorb, Split, TotalBytes, Numbers;
  }

  /** Progress over any number of failed and resumed runs: a part whose upload was ever confirmed is
      never taken up again, so at most `part_count` uploads are ever confirmed. */
  lemma {:induction false} ConfirmedPartsStay(c: Config, source: Source, server: Server, resumed: bool,
                                              steps: seq<Step>, next: Step)
    requires Starts(c, source, server) && Runs(c, Init(c, source, server, resumed), steps)
    requires Can(c, After(c, Init(c, source, server, resumed), steps), next)
    ensures var s := After(c, Init(c, source, server, resumed), steps);
            && Confirmations(steps) == |s.acknowledged| <= c.Plan().partCount
            && (next.Admit? || next.Send? || next.Retry? || next.Answer? ==>
                  next.number !in s.acknowledged && (s.work.Transferring? ==> next.number !in Numbers(s.reused)))
  {
    var init := Init(c, source, server, resumed);
    InitKeeps(c, source, server, resumed);
    RunKeeps(c, init, steps);
    EachConfirmationIsNew(c, init, steps);
    var s := After(c, init, steps);
    assert AcknowledgedInv(c, s) && PartitionInv(c, s);
    SubsetSize(s.acknowledged, AllParts(c.Plan()));
    if next.Admit? || next.Send? || next.Retry? || next.Answer? {
      assert next.number in s.tasks.Keys;
    }
  }

  // ----- Memory -----

  /** A task past the queue owns one buffer of its part's full planned length. */
  function BufferedBytes(plan: MultipartPlan, s: State): nat
    requires plan.Valid()
  {
    TotalBytes(plan, Active(s.tasks))
  }

  /** In every reachable state the pool holds at most `concurrency` part buffers, and with accepted
      settings those never exceed the memory budget. */
  lemma {:induction false} MemoryStaysInBudget(c: Config, settings: Settings, source: Source, server: Server,
                                               resumed: bool, steps: seq<Step>)
    requires Starts(c, source, server) && Runs(c, Init(c, source, server, resumed), steps)
    requires Accepted(settings) && settings.concurrency == c.concurrency && settings.partSize == c.Plan().partSize
    ensures var s := After(c, Init(c, source, server, resumed), steps);
            |Active(s.tasks)| <= c.concurrency && BufferedBytes(c.Plan(), s) <= settings.maxBufferedBytes
  {
    Reachable(c, source, server, resumed, steps);
    var s := After(c, Init(c, source, server, resumed), steps);
    assert |Active(s.tasks)| <= c.concurrency;
    PoolFits(c.Plan(), Active(s.tasks), c.concurrency);
  }

  // ----- How a run ends -----

  lemma {:induction false} StepEvolves(c: Config, s: State, step: Step)
    requires c.Valid() && EndInv(c.session, s.end) && Can(c, s, step)
    ensures Evolves(s.end.server, Do(c, s, step).end.server)
  {
    hide EndInv, Evolves, FinishRun, TakePage, Serve, CanServe, PageOf, CanEnd, DoEnd, TotalBytes;
    EvolvesReflexive(s.end.server);
    match step
    case Tail(t) => EndStepKeeps(c.abortOnError, c.session, s.end, t);
    case LateCopy(n, bytes, etag) => RequestEvolves(c.session, s.end, StorePart(n, bytes, etag));
    case Answer(n, etag) => RequestEvolves(c.session, s.end, StorePart(n, s.tasks[n].bytes, etag));
    case Finish => FinishLeavesServer(c, s);
    case ListPage(page) => ListingLeavesServer(c, s, page);
    case _ =>
  }

  lemma {:induction false} RequestEvolves(session: Session, e: End, request: Request)
    requires EndInv(session, e) && CanServe(e.server, request)
    ensures Evolves(e.server, Serve(e.server, request))
  {
    ServeEvolves(e.server, request);
  }

  lemma {:induction false} FinishLeavesServer(c: Config, s: State)
    requires c.Valid() && Transfers(s)
    ensures FinishRun(c, s).end.server == s.end.server
  {
    hide Canonical, Values, Inserted, Accepts;
  }

  lemma {:induction false} ListingLeavesServer(c: Config, s: State, page: Response)
    requires c.Valid() && CanList(s, page) && SlotsFit(c.Plan(), s.work.slots)
    ensures TakePage(c, s, page).end.server == s.end.server
  {
    hide Absorb, Split, TotalBytes, Numbers;
  }

  lemma {:induction false} RunEvolves(c: Config, s: State, steps: seq<Step>)
    requires c.Valid() && Inv(c, s) && Runs(c, s, steps)
    ensures Evolves(s.end.server, After(c, s, steps).end.server)
    decreases |steps|
  {
    if steps != [] {
      var t := Do(c, s, steps[0]);
      StepKeeps(c, s, steps[0]);
      StepEvolves(c, s, steps[0]);
      RunEvolves(c, t, steps[1..]);
      EvolvesTransitive(s.end.server, t.end.server, After(c, t, steps[1..]).end.server);
    }
  }

  /** A run that has ended is either Ok with an object, or aborted with nothing to resume, or failed
      with this session's snapshot; the snapshot is accepted by the bucket, rebuilds the session and
      its plan, and survives its persisted record exactly when the upload id is not empty. */
  lemma {:induction false} OneOfThreeEndings(c: Config, source: Source, server: Server, resumed: bool, steps: seq<Step>)
    requires Starts(c, source, server) && Runs(c, Init(c, source, server, resumed), steps)
    requires After(c, Init(c, source, server, resumed), steps).end.phase.Ended?
    ensures var s := After(c, Init(c, source, server, resumed), steps);
            match s.end.phase.outcome
            case Succeeded => s.end.server.status.Completed?
            case Failed(_, snapshot, aborted) =>
              if aborted then snapshot.None? && s.end.server.status.Aborted?
              else
                && snapshot.Some? && Sessions.Resume(c.session.bucket, snapshot.value) == Ok(c.session)
                && (FromRecord(IntoRecord(snapshot.value)) == Ok(snapshot.value) <==> c.session.uploadId != [])
  {
    Reachable(c, source, server, resumed, steps);
    ResumeRebuildsSession(c.session, c.session.bucket);
    RecordRoundTrip(c.session);
  }

  /** `aborted` implies that this session never produced an object: none before, although a
      completion may have been in flight, and none after, whatever anybody still sends. */
  lemma {:induction false} AbortedNeverMadeAnObject(c: Config, source: Source, server: Server, resumed: bool,
                                                    earlier: seq<Step>, between: seq<Step>, later: seq<Step>)
    requires Starts(c, source, server) && Runs(c, Init(c, source, server, resumed), earlier)
    requires var s := After(c, Init(c, source, server, resumed), earlier); Runs(c, s, between)
    requires var t := After(c, After(c, Init(c, source, server, resumed), earlier), between);
             && t.end.phase.Ended? && t.end.phase.outcome.Failed? && t.end.phase.outcome.aborted && Runs(c, t, later)
    ensures var s := After(c, Init(c, source, server, resumed), earlier);
            !s.end.server.status.Completed? && !After(c, After(c, s, between), later).end.server.status.Completed?
  {
    Reachable(c, source, server, resumed, earlier);
    var s := After(c, Init(c, source, server, resumed), earlier);
    RunKeeps(c, s, between);
    RunEvolves(c, s, between);
    var t := After(c, s, between);
    assert t.end.server.status.Aborted?;
    RunEvolves(c, t, later);
  }

  // ----- Abort and error of a failed run -----

  predicate AbortUnconfirmedIn(steps: seq<Step>) {
    Tail(AbortUnconfirmed(true)) in steps || Tail(AbortUnconfirmed(false)) in steps
  }

  lemma {:induction false} InOrAfter(steps: seq<Step>, step: Step)
    requires steps != []
    ensures step in steps <==> step == steps[0] || step in steps[1..]
  {
    assert steps == [steps[0]] + steps[1..];
  }

  lemma {:induction false} FirstStep(steps: seq<Step>)
    requires steps != []
    ensures Resume in steps <==> steps[0] == Resume || Resume in steps[1..]
    ensures Tail(AbortConfirmed) in steps <==> steps[0] == Tail(AbortConfirmed) || Tail(AbortConfirmed) in steps[1..]
    ensures AbortUnconfirmedIn(steps) <==>
            (steps[0].Tail? && steps[0].step.AbortUnconfirmed?) || AbortUnconfirmedIn(steps[1..])
  {
    InOrAfter(steps, Resume);
    InOrAfter(steps, Tail(AbortConfirmed));
    InOrAfter(steps, Tail(AbortUnconfirmed(true)));
    InOrAfter(steps, Tail(AbortUnconfirmed(false)));
  }

  /** What one step does to the phase. */
  lemma {:induction false} StepPhase(c: Config, s: State, step: Step)
    requires c.Valid() && Can(c, s, step) && !step.Resume?
    ensures !step.Tail? && !step.Finish? && !step.ListPage? ==> Do(c, s, step).end.phase == s.end.phase
    ensures step.Finish? || step.ListPage? ==> s.end.phase.Working? && !Do(c, s, step).end.phase.Ended?
    ensures step.Tail? ==> Do(c, s, step).end == DoEnd(c.abortOnError, c.session, s.end, step.step)
  {
    hide Absorb, Split, Canonical, Values, Inserted, Accepts, TotalBytes, PageOf, Serve, CanServe;
  }

  /** A run that has ended failed aborted its session only as `abort_on_error` asks. */
  lemma {:induction false} AbortsMatch(c: Config, s: State, steps: seq<Step>)
    requires c.Valid() && Runs(c, s, steps) && Resume !in steps && After(c, s, steps).end.phase.Ended?
    ensures var t := After(c, s, steps);
            if s.end.phase.Ended? then
              t.end.phase == s.end.phase && Tail(AbortConfirmed) !in steps && !AbortUnconfirmedIn(steps)
            else
              CleanedUpAsAsked(c.abortOnError, t.end.phase.outcome,
                               Tail(AbortConfirmed) in steps, AbortUnconfirmedIn(steps))
    decreases |steps|
  {
    hide Can, Do, AbortUnconfirmedIn, Serve, CanServe;
    if steps != [] {
      FirstStep(steps);
      StepPhase(c, s, steps[0]);
      TailIsPossible(c, s, steps[0]);
      AbortsMatch(c, Do(c, s, steps[0]), steps[1..]);
    } else {
      assert Tail(AbortConfirmed) !in steps;
      NoAbortIn(steps);
    }
  }

  lemma {:induction false} NoAbortIn(steps: seq<Step>)
    requires steps == []
    ensures !AbortUnconfirmedIn(steps)
  {
  }

  lemma {:induction false} TailIsPossible(c: Config, s: State, step: Step)
    requires c.Valid() && Can(c, s, step)
    ensures step.Tail? ==> CanEnd(c.abortOnError, s.end, step.step)
  {
  }

  /** The error with which this step makes the run fail, if it does. */
  ghost function Failure(c: Config, s: State, step: Step): Option<Error>
    requires c.Valid() && Can(c, s, step)
  {
    match step
    case Tail(GiveUp(error)) => Some(error)
    case Finish => if FingerprintOf(s.source) != FingerprintOf(s.start) then Some(SourceChanged) else None
    case ListPage(page) =>
      (match Walk(c.Plan(), s.work.slots, [page])
       case Finished(Err(error)) => Some(error)
       case _ => None)
    case _ => None
  }

  ghost function FirstFailure(c: Config, s: State, steps: seq<Step>): Option<Error>
    requires c.Valid() && Runs(c, s, steps)
    decreases |steps|
  {
    if steps == [] then None
    else if Failure(c, s, steps[0]).Some? then Failure(c, s, steps[0])
    else FirstFailure(c, Do(c, s, steps[0]), steps[1..])
  }

  lemma {:induction false} PageFails(c: Config, s: State, page: Response)
    requires c.Valid() && CanList(s, page) && SlotsFit(c.Plan(), s.work.slots)
    ensures var walked := Walk(c.Plan(), s.work.slots, [page]);
            TakePage(c, s, page).end.phase ==
            if walked.Finished? && walked.result.Err? then CleaningUp(walked.result.error) else Working
  {
    hide Absorb, Split, TotalBytes, Numbers;
    assert [page][1..] == [];
  }

  lemma {:induction false} FinishFails(c: Config, s: State)
    requires c.Valid() && FileInv(c, s) && PartitionInv(c, s) && Can(c, s, Finish)
    ensures FinishRun(c, s).end.phase ==
            if FingerprintOf(s.source) != FingerprintOf(s.start) then CleaningUp(SourceChanged) else Completing
  {
    hide Canonical, Values, Inserted, Accepts, PartitionInv;
    FinishSends(c, s);
  }

  /** A step leaves the run working or completing, or makes it fail with exactly its error. */
  lemma {:induction false} StepFails(c: Config, s: State, step: Step)
    requires c.Valid() && Inv(c, s) && Can(c, s, step) && !step.Resume?
    requires s.end.phase.Working? || s.end.phase.Completing?
    ensures match Failure(c, s, step)
            case Some(error) => Do(c, s, step).end.phase == CleaningUp(error)
            case None => !Do(c, s, step).end.phase.CleaningUp?
                         && (Do(c, s, step).end.phase.Ended? ==> Do(c, s, step).end.phase.outcome.Succeeded?)
  {
    hide EndInv, FileInv, TasksInv, PartsInv, PartitionInv, AccountInv, ListInv, AcknowledgedInv, CompletionInv,
      TakePage, FinishRun, Walk, PageOf, Serve, CanServe;
    if step.ListPage? { PageFails(c, s, step.page); }
    if step.Finish? { FinishFails(c, s); }
  }

  lemma {:induction false} EndedNeverFails(c: Config, s: State, step: Step)
    requires c.Valid() && Can(c, s, step) && s.end.phase.Ended?
    ensures Failure(c, s, step).None?
  {
    hide Walk, PageOf, Serve, CanServe;
  }

  /** A run that has ended failed reports the error that first made it fail. */
  lemma {:induction false} ReportsItsFailure(c: Config, s: State, steps: seq<Step>)
    requires c.Valid() && Inv(c, s) && Runs(c, s, steps) && Resume !in steps && After(c, s, steps).end.phase.Ended?
    ensures var outcome := After(c, s, steps).end.phase.outcome;
            match s.end.phase
            case Ended(before) => outcome == before && FirstFailure(c, s, steps).None?
            case CleaningUp(error) => outcome.Failed? && outcome.error == error
            case _ => FirstFailure(c, s, steps) == if outcome.Failed? then Some(outcome.error) else None
    decreases |steps|
  {
    hide Inv, Can, Do, Failure, Serve, CanServe;
    if steps != [] {
      FirstStep(steps);
      StepPhase(c, s, steps[0]);
      TailIsPossible(c, s, steps[0]);
      StepKeeps(c, s, steps[0]);
      if s.end.phase.Working? || s.end.phase.Completing? { StepFails(c, s, steps[0]); }
      if s.end.phase.Ended? { EndedNeverFails(c, s, steps[0]); }
      ReportsItsFailure(c, Do(c, s, steps[0]), steps[1..]);
    }
  }
}

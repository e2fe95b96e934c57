/** The inductive invariant of the file upload and its preservation by every step. */
module FileUploadInv {
  import opened Basics
  import opened Plan
  import opened Manifest
  import opened Accounting
  import opened Remote
  import opened Reconcile
  import opened Listings
  import opened SessionEnd
  import opened FileUpload

  // ----- The parts of the invariant -----

  predicate SameSource(s: State) {
    s.source.modified == s.start.modified
  }

  predicate FileInv(c: Config, s: State) {
    && |s.start.content| == c.Plan().fileSize
    && s.start.modified <= s.source.modified
    && (SameSource(s) ==> s.source == s.start)
  }

  /** What a task holds: pieces of the right length, of the starting content while the file is
      unchanged, and only answers that stand for its own body. */
  predicate TaskOk(c: Config, start: Bytes, same: bool, server: Server, bodies: set<(nat, Bytes)>, n: nat, t: Task)
    requires c.Valid() && |start| == c.Plan().fileSize
  {
    && Planned(c.Plan(), n)
    && match t
       case Queued => true
       case Reading(got) =>
         |got| <= Length(c.Plan(), n) && (same ==> got == Slice(c.Plan(), start, n)[..|got|])
       case Sending(bytes, attempt, replies) =>
         && |bytes| == Length(c.Plan(), n) && (n, bytes) in bodies
         && 1 <= attempt <= c.maxAttempts
         && (same ==> bytes == Slice(c.Plan(), start, n))
         && forall e :: e in replies ==> e in server.issued && server.issued[e] == bytes && n in server.parts
  }

  ghost predicate TasksInv(c: Config, s: State)
    requires c.Valid() && FileInv(c, s)
  {
    && (forall n :: n in s.tasks ==> TaskOk(c, s.start.content, SameSource(s), s.end.server, s.bodies, n, s.tasks[n]))
    && |Active(s.tasks)| <= c.concurrency
  }

  predicate Trusted(s: State) {
    SameSource(s) || s.end.phase.Completing? || s.end.phase == Ended(Succeeded)
  }

  predicate UploadedOk(c: Config, start: Bytes, trusted: bool, server: Server, part: UploadedPart)
    requires c.Valid() && |start| == c.Plan().fileSize
  {
    && KnownPart(c.Plan(), server, part)
    && (trusted ==> server.issued[part.etag] == Slice(c.Plan(), start, part.number))
  }

  ghost predicate PartsInv(c: Config, s: State)
    requires c.Valid() && FileInv(c, s)
  {
    && (forall i :: 0 <= i < |s.reused| ==> KnownPart(c.Plan(), s.end.server, s.reused[i]))
    && (forall i :: 0 <= i < |s.uploaded| ==>
                      UploadedOk(c, s.start.content, Trusted(s), s.end.server, s.uploaded[i]))
  }

  /** Reused, uploaded and outstanding parts partition the plan. */
  ghost predicate PartitionInv(c: Config, s: State)
    requires c.Valid()
  {
    s.work.Transferring? ==>
      && Numbers(s.reused) + Numbers(s.uploaded) + s.tasks.Keys == AllParts(c.Plan())
      && Numbers(s.reused) !! Numbers(s.uploaded) !! s.tasks.Keys
      && Distinct(s.reused) && Distinct(s.uploaded)
  }

  ghost predicate AccountInv(c: Config, s: State)
    requires c.Valid()
  {
    s.work.Transferring? ==>
      && |s.callbacks| == |s.uploaded| + 1
      && (forall k :: 0 <= k < |s.callbacks| ==> s.callbacks[k] == ProgressAfter(c.Plan(), s.reused, s.uploaded, k))
      && Progress(s.completed, s.transferred) == s.callbacks[|s.uploaded|]
  }

  ghost predicate ListInv(c: Config, s: State)
    requires c.Valid()
  {
    s.work.Listing? ==>
      && SlotsFit(c.Plan(), s.work.slots) && Known(c.Plan(), s.end.server, s.work.slots)
      && Caught(s.acknowledged, s.work.slots, s.work.marker) && Within(s.work.slots, s.work.marker)
      && s.reused == s.uploaded == [] && s.tasks == map[]
      && !s.end.phase.Completing? && s.end.phase != Ended(Succeeded)
  }

  /** Confirmed parts are stored and never among the parts a later run sends. */
  ghost predicate AcknowledgedInv(c: Config, s: State)
    requires c.Valid()
  {
    && s.acknowledged <= AllParts(c.Plan())
    && s.acknowledged <= s.end.server.parts.Keys
    && s.acknowledged !! s.tasks.Keys
  }

  /** When the completion is sent it lists exactly the reused and uploaded parts. */
  ghost predicate CompletionInv(c: Config, s: State)
    requires c.Valid()
  {
    s.end.phase.Completing? || s.end.phase == Ended(Succeeded) ==>
      && s.tasks == map[] && s.end.inFlight.Some?
      && Canonical(Values(Inserted(s.reused + s.uploaded))) == Ok(s.end.inFlight.value)
      && Accepts(c.Plan(), s.end.inFlight.value)
  }

  ghost predicate Inv(c: Config, s: State)
    requires c.Valid()
  {
    && EndInv(c.session, s.end)
    && FileInv(c, s)
    && TasksInv(c, s)
    && PartsInv(c, s)
    && PartitionInv(c, s)
    && AccountInv(c, s)
    && ListInv(c, s)
    && AcknowledgedInv(c, s)
    && CompletionInv(c, s)
  }

  // ----- Steps of the environment and of the session's end -----

  /** Nothing but the source and the end of the session changed, and those only forward. */
  ghost predicate Onward(c: Config, s: State, t: State) {
    && t == s.(source := t.source, end := t.end)
    && Evolves(s.end.server, t.end.server)
    && s.source.modified <= t.source.modified && (s.source.modified == t.source.modified ==> s.source == t.source)
    && t.end.inFlight == s.end.inFlight
    && (t.end.phase.Working? ==> s.end.phase.Working?)
    && (t.end.phase.Completing? ==> s.end.phase.Completing?)
    && (t.end.phase == Ended(Succeeded) ==> s.end.phase.Completing? || s.end.phase == Ended(Succeeded))
  }

  lemma {:induction false} OnwardKeeps(c: Config, s: State, t: State)
    requires c.Valid() && Inv(c, s) && Onward(c, s, t) && EndInv(c.session, t.end)
    ensures Inv(c, t)
  {
    OnwardTasks(c, s, t);
    OnwardParts(c, s, t);
    assert ListInv(c, t);
  }

  lemma {:induction false} OnwardTasks(c: Config, s: State, t: State)
    requires c.Valid() && FileInv(c, s) && TasksInv(c, s) && Onward(c, s, t)
    ensures FileInv(c, t) && TasksInv(c, t)
  {
    forall n | n in t.tasks
      ensures TaskOk(c, t.start.content, SameSource(t), t.end.server, t.bodies, n, t.tasks[n])
    {
      assert TaskOk(c, s.start.content, SameSource(s), s.end.server, s.bodies, n, s.tasks[n]);
    }
  }

  lemma {:induction false} OnwardParts(c: Config, s: State, t: State)
    requires c.Valid() && FileInv(c, s) && PartsInv(c, s) && Onward(c, s, t) && FileInv(c, t)
    ensures PartsInv(c, t)
  {
    forall i | 0 <= i < |t.uploaded|
      ensures UploadedOk(c, t.start.content, Trusted(t), t.end.server, t.uploaded[i])
    {
      assert UploadedOk(c, s.start.content, Trusted(s), s.end.server, s.uploaded[i]);
    }
    forall i | 0 <= i < |t.reused|
      ensures KnownPart(c.Plan(), t.end.server, t.reused[i])
    {
      assert KnownPart(c.Plan(), s.end.server, s.reused[i]);
    }
  }

  lemma {:induction false} TouchKeeps(c: Config, s: State, source: Source)
    requires c.Valid() && Inv(c, s) && Can(c, s, Touch(source))
    ensures Inv(c, Do(c, s, Touch(source)))
  {
    hide EndInv, FileInv, TasksInv, PartsInv, PartitionInv, AccountInv, ListInv, AcknowledgedInv, CompletionInv;
    OnwardKeeps(c, s, Do(c, s, Touch(source)));
  }

  lemma {:induction false} TailKeeps(c: Config, s: State, step: EndStep)
    requires c.Valid() && Inv(c, s) && Can(c, s, Tail(step))
    ensures Inv(c, Do(c, s, Tail(step)))
  {
    hide EndInv, FileInv, TasksInv, PartsInv, PartitionInv, AccountInv, ListInv, AcknowledgedInv, CompletionInv;
    EndStepKeeps(c.abortOnError, c.session, s.end, step);
    OnwardKeeps(c, s, Do(c, s, Tail(step)));
  }

  lemma {:induction false} LateCopyKeeps(c: Config, s: State, n: nat, bytes: Bytes, etag: ETag)
    requires c.Valid() && Inv(c, s) && Can(c, s, LateCopy(n, bytes, etag))
    ensures Inv(c, Do(c, s, LateCopy(n, bytes, etag)))
  {
    hide EndInv, FileInv, TasksInv, PartsInv, PartitionInv, AccountInv, ListInv, AcknowledgedInv, CompletionInv;
    EndStepKeeps(c.abortOnError, c.session, s.end, Others(StorePart(n, bytes, etag)));
    OnwardKeeps(c, s, Do(c, s, LateCopy(n, bytes, etag)));
  }

  // ----- Steps of the pool -----

  /** One task changed, the store perhaps evolved, bodies perhaps grew. */
  ghost predicate OneTask(c: Config, s: State, t: State, n: nat)
    requires c.Valid() && FileInv(c, s)
  {
    && n in s.tasks && n in t.tasks && Transfers(s)
    && t == s.(end := s.end.(server := t.end.server), tasks := s.tasks[n := t.tasks[n]], bodies := t.bodies)
    && Evolves(s.end.server, t.end.server) && s.bodies <= t.bodies
    && TaskOk(c, s.start.content, SameSource(s), t.end.server, t.bodies, n, t.tasks[n])
    && (Holding(s.tasks[n]) || |Active(s.tasks)| < c.concurrency)
    && Holding(t.tasks[n])
  }

  lemma {:induction false} TaskStepKeepsTasks(c: Config, s: State, t: State, n: nat)
    requires c.Valid() && FileInv(c, s) && TasksInv(c, s) && OneTask(c, s, t, n)
    ensures FileInv(c, t) && TasksInv(c, t)
  {
    assert Active(t.tasks) == Active(s.tasks) + {n};
    forall m | m in t.tasks
      ensures TaskOk(c, t.start.content, SameSource(t), t.end.server, t.bodies, m, t.tasks[m])
    {
      if m != n {
        assert TaskOk(c, s.start.content, SameSource(s), s.end.server, s.bodies, m, s.tasks[m]);
      }
    }
  }

  lemma {:induction false} TaskStepKeepsParts(c: Config, s: State, t: State, n: nat)
    requires c.Valid() && FileInv(c, s) && PartsInv(c, s) && OneTask(c, s, t, n) && FileInv(c, t)
    ensures PartsInv(c, t)
  {
    OnwardParts(c, s, s.(end := t.end));
  }

  lemma {:induction false} TaskStepKeepsRest(c: Config, s: State, t: State, n: nat)
    requires c.Valid() && FileInv(c, s) && OneTask(c, s, t, n)
    requires PartitionInv(c, s) && AccountInv(c, s) && AcknowledgedInv(c, s)
    ensures PartitionInv(c, t) && AccountInv(c, t) && ListInv(c, t) && AcknowledgedInv(c, t) && CompletionInv(c, t)
  {
    assert t.tasks.Keys == s.tasks.Keys;
  }

  lemma {:induction false} TaskStepKeeps(c: Config, s: State, t: State, n: nat)
    requires c.Valid() && Inv(c, s) && OneTask(c, s, t, n) && EndInv(c.session, t.end)
    ensures Inv(c, t)
  {
    hide EndInv, FileInv, TasksInv, PartsInv, PartitionInv, AccountInv, ListInv, AcknowledgedInv, CompletionInv,
      OneTask;
    TaskStepKeepsTasks(c, s, t, n);
    TaskStepKeepsParts(c, s, t, n);
    TaskStepKeepsRest(c, s, t, n);
  }

  lemma {:induction false} AnswerKeeps(c: Config, s: State, n: nat, etag: ETag)
    requires c.Valid() && Inv(c, s) && Can(c, s, Answer(n, etag))
    ensures Inv(c, Do(c, s, Answer(n, etag)))
  {
    hide EndInv, PartsInv, PartitionInv, AccountInv, ListInv, AcknowledgedInv, CompletionInv;
    var t := Do(c, s, Answer(n, etag));
    var request := StorePart(n, s.tasks[n].bytes, etag);
    EndStepKeeps(c.abortOnError, c.session, s.end, Others(request));
    assert TaskOk(c, s.start.content, SameSource(s), s.end.server, s.bodies, n, s.tasks[n]);
    TaskStepKeeps(c, s, t, n);
  }

  lemma {:induction false} ReadKeeps(c: Config, s: State, n: nat, count: nat)
    requires c.Valid() && Inv(c, s) && Can(c, s, Read(n, count))
    ensures Inv(c, Do(c, s, Read(n, count)))
  {
    hide EndInv, PartsInv, PartitionInv, AccountInv, ListInv, AcknowledgedInv, CompletionInv;
    var t := Do(c, s, Read(n, count));
    var got := s.tasks[n].got;
    assert TaskOk(c, s.start.content, SameSource(s), s.end.server, s.bodies, n, s.tasks[n]);
    if SameSource(s) {
      NextPiece(c.Plan(), s.start.content, n, |got|, count);
    }
    TaskStepKeeps(c, s, t, n);
  }

  lemma {:induction false} NextPiece(plan: MultipartPlan, content: Bytes, n: nat, got: nat, count: nat)
    requires plan.Valid() && Planned(plan, n) && |content| == plan.fileSize && got + count <= Length(plan, n)
    ensures var slice := Slice(plan, content, n);
            slice[..got] + content[Offset(plan, n) + got..Offset(plan, n) + got + count] == slice[..got + count]
  {
    PieceOfPiece(content, Offset(plan, n), Length(plan, n), got, count);
  }

  lemma {:induction false} PieceOfPiece(content: Bytes, from: nat, length: nat, got: nat, count: nat)
    requires from + length <= |content| && got + count <= length
    ensures content[from..from + length][..got] + content[from + got..from + got + count] ==
            content[from..from + length][..got + count]
  {
    var whole := content[from..from + length];
    assert whole[..got] == content[from..from + got];
    assert whole[..got + count] == content[from..from + got + count];
  }

  lemma {:induction false} SendKeeps(c: Config, s: State, n: nat)
    requires c.Valid() && Inv(c, s) && Can(c, s, Send(n))
    ensures Inv(c, Do(c, s, Send(n)))
  {
    hide EndInv, PartsInv, PartitionInv, AccountInv, ListInv, AcknowledgedInv, CompletionInv;
    var t := Do(c, s, Send(n));
    assert TaskOk(c, s.start.content, SameSource(s), s.end.server, s.bodies, n, s.tasks[n]);
    if SameSource(s) {
      var slice := Slice(c.Plan(), s.start.content, n);
      assert slice[..|slice|] == slice;
    }
    TaskStepKeeps(c, s, t, n);
  }

  lemma {:induction false} AdmitOrRetryKeeps(c: Config, s: State, step: Step)
    requires c.Valid() && Inv(c, s) && Can(c, s, step) && (step.Admit? || step.Retry?)
    ensures Inv(c, Do(c, s, step))
  {
    hide EndInv, PartsInv, PartitionInv, AccountInv, ListInv, AcknowledgedInv, CompletionInv;
    var n := step.number;
    assert TaskOk(c, s.start.content, SameSource(s), s.end.server, s.bodies, n, s.tasks[n]);
    TaskStepKeeps(c, s, Do(c, s, step), n);
  }

  // ----- A part is confirmed -----

  lemma {:induction false} DeliverKeepsTasks(c: Config, s: State, n: nat, etag: ETag)
    requires c.Valid() && FileInv(c, s) && TasksInv(c, s) && CanDeliver(c, s, n, etag)
    ensures FileInv(c, DeliverPart(c, s, n, etag)) && TasksInv(c, DeliverPart(c, s, n, etag))
  {
    var t := DeliverPart(c, s, n, etag);
    forall m | m in t.tasks
      ensures TaskOk(c, t.start.content, SameSource(t), t.end.server, t.bodies, m, t.tasks[m])
    {
      assert TaskOk(c, s.start.content, SameSource(s), s.end.server, s.bodies, m, s.tasks[m]);
    }
    assert Active(t.tasks) == Active(s.tasks) - {n};
  }

  lemma {:induction false} DeliverKeepsParts(c: Config, s: State, n: nat, etag: ETag)
    requires c.Valid() && FileInv(c, s) && TasksInv(c, s) && PartsInv(c, s) && CanDeliver(c, s, n, etag)
    ensures PartsInv(c, DeliverPart(c, s, n, etag))
    ensures n in s.end.server.parts
  {
    var t := DeliverPart(c, s, n, etag);
    assert TaskOk(c, s.start.content, SameSource(s), s.end.server, s.bodies, n, s.tasks[n]);
    forall i | 0 <= i < |t.uploaded|
      ensures UploadedOk(c, t.start.content, Trusted(t), t.end.server, t.uploaded[i])
    {
      if i < |s.uploaded| {
        assert UploadedOk(c, s.start.content, Trusted(s), s.end.server, s.uploaded[i]);
      }
    }
  }

  lemma {:induction false} DeliverKeepsPartition(c: Config, s: State, n: nat, etag: ETag)
    requires c.Valid() && PartitionInv(c, s) && CanDeliver(c, s, n, etag)
    ensures PartitionInv(c, DeliverPart(c, s, n, etag))
  {
    hide Numbers, Distinct, AllParts, TotalBytes;
    var t := DeliverPart(c, s, n, etag);
    NumbersAppend(s.uploaded, UploadedPart(n, etag));
    DistinctAppend(s.uploaded, UploadedPart(n, etag));
    assert t.tasks.Keys == s.tasks.Keys - {n};
  }

  lemma {:induction false} DeliverKeepsAccount(c: Config, s: State, n: nat, etag: ETag)
    requires c.Valid() && PartitionInv(c, s) && AccountInv(c, s) && CanDeliver(c, s, n, etag)
    ensures AccountInv(c, DeliverPart(c, s, n, etag))
  {
    hide Numbers, Distinct, AllParts, TotalBytes, Length;
    assert n in s.tasks.Keys;
    NextReport(c.Plan(), s.reused, s.uploaded, UploadedPart(n, etag));
  }

  lemma {:induction false} DeliverKeepsRest(c: Config, s: State, n: nat, etag: ETag)
    requires c.Valid() && AcknowledgedInv(c, s) && CanDeliver(c, s, n, etag) && n in s.end.server.parts
    ensures var t := DeliverPart(c, s, n, etag); AcknowledgedInv(c, t) && ListInv(c, t) && CompletionInv(c, t)
  {
  }

  lemma {:induction false} DeliverKeeps(c: Config, s: State, n: nat, etag: ETag)
    requires c.Valid() && Inv(c, s) && Can(c, s, Deliver(n, etag))
    ensures Inv(c, Do(c, s, Deliver(n, etag)))
  {
    hide EndInv, FileInv, TasksInv, PartsInv, PartitionInv, AccountInv, ListInv, AcknowledgedInv, CompletionInv;
    DeliverKeepsTasks(c, s, n, etag);
    DeliverKeepsParts(c, s, n, etag);
    DeliverKeepsPartition(c, s, n, etag);
    DeliverKeepsAccount(c, s, n, etag);
    DeliverKeepsRest(c, s, n, etag);
  }

  // ----- The run ends its transfers -----

  /** The two ends of the transfers: the source changed, or the completion is sent with a manifest
      of exactly the reused and uploaded parts. */
  ghost predicate FinishedAs(c: Config, s: State, t: State)
    requires c.Valid()
  {
    if FingerprintOf(s.source) != FingerprintOf(s.start) then t == s.(end := s.end.(phase := CleaningUp(SourceChanged)))
    else SameSource(s) && exists manifest :: SendsManifest(c, s, t, manifest)
  }

  predicate SendsManifest(c: Config, s: State, t: State, manifest: seq<UploadedPart>)
    requires c.Valid()
  {
    && s.end.phase.Working? && t == s.(end := Complete(s.end, manifest)) && Accepts(c.Plan(), manifest)
    && Canonical(Values(Inserted(s.reused + s.uploaded))) == Ok(manifest)
  }

  /** A run fails with a changed source exactly if the file now differs from the file at the start in
      length, modification time, device or inode, whatever the parts are. */
  lemma {:induction false} ChangesAreSeen(c: Config, s: State)
    requires c.Valid() && Transfers(s)
    ensures FinishRun(c, s).end.phase == CleaningUp(SourceChanged) <==>
            || |s.source.content| != |s.start.content| || s.source.modified != s.start.modified
            || s.source.device != s.start.device || s.source.inode != s.start.inode
  {
    hide Accepts, Values, Inserted, Distinct;
  }

  lemma {:induction false} FinishSends(c: Config, s: State)
    requires c.Valid() && FileInv(c, s) && PartitionInv(c, s) && Can(c, s, Finish)
    ensures FinishedAs(c, s, FinishRun(c, s))
  {
    hide Numbers, Distinct, AllParts, Accepts, Canonical, Values, Inserted;
    DistinctConcat(s.reused, s.uploaded);
    assert s.tasks.Keys == {};
    assert Numbers(s.reused + s.uploaded) == AllParts(c.Plan());
    FullManifestPasses(c.Plan(), s.reused + s.uploaded);
    if FingerprintOf(s.source) == FingerprintOf(s.start) {
      assert SendsManifest(c, s, FinishRun(c, s), Canonical(Values(Inserted(s.reused + s.uploaded))).value);
    }
  }

  lemma {:induction false} FinishEnds(c: Config, s: State, t: State)
    requires c.Valid() && EndInv(c.session, s.end) && s.end.phase.Working? && s.tasks == map[] && FinishedAs(c, s, t)
    ensures EndInv(c.session, t.end) && CompletionInv(c, t) && t == s.(end := t.end) && t.end.server == s.end.server
    ensures Trusted(t) ==> Trusted(s)
  {
    hide Accepts, Canonical, Values, Inserted;
  }

  lemma {:induction false} FinishKeeps(c: Config, s: State)
    requires c.Valid() && Inv(c, s) && Can(c, s, Finish)
    ensures Inv(c, Do(c, s, Finish))
  {
    hide FinishRun, FinishedAs, EndInv, FileInv, TasksInv, PartsInv, PartitionInv, AccountInv, ListInv,
      AcknowledgedInv, CompletionInv;
    var t := FinishRun(c, s);
    FinishSends(c, s);
    FinishEnds(c, s, t);
    FinishLeaves(c, s, t);
    FinishTasks(c, s, t);
    FinishParts(c, s, t);
  }

  lemma {:induction false} FinishLeaves(c: Config, s: State, t: State)
    requires c.Valid() && PartitionInv(c, s) && AccountInv(c, s) && AcknowledgedInv(c, s)
    requires s.work.Transferring? && t == s.(end := t.end) && t.end.server == s.end.server
    ensures PartitionInv(c, t) && AccountInv(c, t) && ListInv(c, t) && AcknowledgedInv(c, t)
  {
  }

  lemma {:induction false} FinishTasks(c: Config, s: State, t: State)
    requires c.Valid() && FileInv(c, s) && TasksInv(c, s)
    requires t == s.(end := t.end) && t.end.server == s.end.server
    ensures FileInv(c, t) && TasksInv(c, t)
  {
    forall n | n in t.tasks
      ensures TaskOk(c, t.start.content, SameSource(t), t.end.server, t.bodies, n, t.tasks[n])
    {
      assert TaskOk(c, s.start.content, SameSource(s), s.end.server, s.bodies, n, s.tasks[n]);
    }
  }

  lemma {:induction false} FinishParts(c: Config, s: State, t: State)
    requires c.Valid() && FileInv(c, s) && PartsInv(c, s) && FileInv(c, t)
    requires t == s.(end := t.end) && t.end.server == s.end.server && (Trusted(t) ==> Trusted(s))
    ensures PartsInv(c, t)
  {
    forall i | 0 <= i < |t.uploaded|
      ensures UploadedOk(c, t.start.content, Trusted(t), t.end.server, t.uploaded[i])
    {
      assert UploadedOk(c, s.start.content, Trusted(s), s.end.server, s.uploaded[i]);
    }
  }

  // ----- The listing of a resumed run -----

  /** The parts a listing found: known, distinct, within the plan, and all confirmed ones. */
  ghost predicate Reusable(c: Config, s: State, reused: seq<UploadedPart>)
    requires c.Valid()
  {
    && (forall i :: 0 <= i < |reused| ==> KnownPart(c.Plan(), s.end.server, reused[i]))
    && Distinct(reused) && Numbers(reused) <= AllParts(c.Plan())
    && s.acknowledged <= Numbers(reused)
  }

  lemma {:induction false} ListingIsKnown(c: Config, s: State, filled: Slots, i: nat)
    requires c.Valid() && SlotsFit(c.Plan(), filled) && Known(c.Plan(), s.end.server, filled)
    requires i < |Split(filled).uploaded|
    ensures KnownPart(c.Plan(), s.end.server, Split(filled).uploaded[i])
  {
    hide KnownPart, Split;
    var part := Split(filled).uploaded[i];
    assert part in Split(filled).uploaded;
    SplitMembers(c.Plan(), filled, part);
    assert filled[part.number - 1].Some?;
  }

  lemma {:induction false} ListingIsReusable(c: Config, s: State, filled: Slots)
    requires c.Valid() && SlotsFit(c.Plan(), filled) && Known(c.Plan(), s.end.server, filled)
    requires forall n :: n in s.acknowledged ==> Filled(filled, n)
    ensures Reusable(c, s, Split(filled).uploaded)
  {
    hide KnownPart, Known, Numbers, Filled, MissingNumbers, UploadedIn, MissingIn;
    var plan := c.Plan();
    var reused := Split(filled).uploaded;
    UploadedUpTo(plan, filled, |filled|);
    SplitCovers(plan, filled);
    forall i | 0 <= i < |reused|
      ensures KnownPart(plan, s.end.server, reused[i])
    {
      ListingIsKnown(c, s, filled, i);
    }
    forall n | n in s.acknowledged
      ensures n in Numbers(reused)
    {
      SplitNumbers(plan, filled, n);
    }
  }

  lemma {:induction false} BeginTransferParts(c: Config, s: State, reused: seq<UploadedPart>)
    requires c.Valid() && Reusable(c, s, reused)
    ensures var t := BeginTransfer(c.Plan(), s, reused); PartitionInv(c, t) && t.acknowledged !! t.tasks.Keys
  {
    hide TotalBytes, KnownPart, Numbers, Distinct, UpTo;
    var t := BeginTransfer(c.Plan(), s, reused);
    NoNumbers();
    assert t.tasks.Keys == AllParts(c.Plan()) - Numbers(reused);
  }

  lemma {:induction false} BeginTransferCounts(c: Config, s: State, reused: seq<UploadedPart>)
    requires c.Valid()
    ensures AccountInv(c, BeginTransfer(c.Plan(), s, reused))
  {
    hide TotalBytes, Numbers;
    NoNumbers();
    assert Numbers(reused) + Numbers([]) == Numbers(reused);
    assert BeginTransfer(c.Plan(), s, reused).uploaded[..0] == [];
  }

  lemma {:induction false} BeginTransferTasks(c: Config, s: State, reused: seq<UploadedPart>)
    requires c.Valid() && FileInv(c, s) && Reusable(c, s, reused)
    ensures var t := BeginTransfer(c.Plan(), s, reused);
            FileInv(c, t) && TasksInv(c, t) && PartsInv(c, t)
  {
    hide TotalBytes, KnownPart, Numbers;
    assert Active(BeginTransfer(c.Plan(), s, reused).tasks) == {};
  }

  lemma {:induction false} BeginTransferKeeps(c: Config, s: State, reused: seq<UploadedPart>)
    requires c.Valid() && Inv(c, s) && s.end.phase.Working? && Reusable(c, s, reused)
    ensures Inv(c, BeginTransfer(c.Plan(), s, reused))
  {
    hide Reusable, EndInv, FileInv, TasksInv, PartsInv, PartitionInv, AccountInv;
    BeginTransferParts(c, s, reused);
    BeginTransferCounts(c, s, reused);
    BeginTransferTasks(c, s, reused);
  }

  lemma {:induction false} ListPageKeeps(c: Config, s: State, page: Response)
    requires c.Valid() && Inv(c, s) && Can(c, s, ListPage(page))
    ensures Inv(c, Do(c, s, ListPage(page)))
  {
    var absorbed := Absorb(c.Plan(), s.work.slots, page.parts);
    if absorbed.Ok? {
      AbsorbKnows(c.Plan(), s.end.server, s.work.slots, page.parts, s.work.marker);
      FilledGrows(c.Plan(), s.work.slots, page.parts);
      if page.truncated != Some(true) {
        forall n | n in s.acknowledged
          ensures Filled(absorbed.value, n)
        {
          assert n in s.end.server.parts;
        }
        ListingIsReusable(c, s, absorbed.value);
        BeginTransferKeeps(c, s, Split(absorbed.value).uploaded);
      } else {
        forall n | n in s.acknowledged && 1 <= n <= page.next.value
          ensures Filled(absorbed.value, n)
        {
          assert n in s.end.server.parts;
        }
        assert Inv(c, Do(c, s, ListPage(page)));
      }
    } else {
      assert Inv(c, Do(c, s, ListPage(page)));
    }
  }

  lemma {:induction false} ListingBeginsKeeps(c: Config, s: State)
    requires c.Valid() && EndInv(c.session, s.end) && FileInv(c, s) && AcknowledgedInv(c, s)
    requires s.work == Listing(0, NoSlots(c.Plan())) && s.end.phase.Working?
    requires s.reused == s.uploaded == [] && s.tasks == map[]
    ensures Inv(c, s)
  {
    assert Active(s.tasks) == {};
  }

  lemma {:induction false} ResumeKeeps(c: Config, s: State)
    requires c.Valid() && Inv(c, s) && Can(c, s, Resume)
    ensures Inv(c, Do(c, s, Resume))
  {
    ListingBeginsKeeps(c, ResumeRun(c, s));
  }

  // ----- Whole runs -----

  /** The source has its planned size when its fingerprint is taken. */
  ghost predicate Starts(c: Config, source: Source, server: Server) {
    c.Valid() && |source.content| == c.Plan().fileSize && Sound(server)
  }

  lemma {:induction false} InitKeeps(c: Config, source: Source, server: Server, resumed: bool)
    requires Starts(c, source, server)
    ensures Inv(c, Init(c, source, server, resumed))
  {
    var s := Init(c, source, server, true);
    ListingBeginsKeeps(c, s);
    if !resumed {
      NoNumbers();
      BeginTransferKeeps(c, s, []);
    }
  }

  lemma {:induction false} StepKeeps(c: Config, s: State, step: Step)
    requires c.Valid() && Inv(c, s) && Can(c, s, step)
    ensures Inv(c, Do(c, s, step))
  {
    hide Inv, Can, Do;
    match step
    case Touch(source) => TouchKeeps(c, s, source);
    case Tail(t) => TailKeeps(c, s, t);
    case LateCopy(n, bytes, etag) => LateCopyKeeps(c, s, n, bytes, etag);
    case Answer(n, etag) => AnswerKeeps(c, s, n, etag);
    case ListPage(page) => ListPageKeeps(c, s, page);
    case Admit(n) => AdmitOrRetryKeeps(c, s, step);
    case Read(n, count) => ReadKeeps(c, s, n, count);
    case Send(n) => SendKeeps(c, s, n);
    case Retry(n) => AdmitOrRetryKeeps(c, s, step);
    case Deliver(n, etag) => DeliverKeeps(c, s, n, etag);
    case Finish => FinishKeeps(c, s);
    case Resume => ResumeKeeps(c, s);
  }

  lemma {:induction false} RunKeeps(c: Config, s: State, steps: seq<Step>)
    requires c.Valid() && Inv(c, s) && Runs(c, s, steps)
    ensures Inv(c, After(c, s, steps))
    decreases |steps|
  {
    if steps != [] {
      StepKeeps(c, s, steps[0]);
      RunKeeps(c, Do(c, s, steps[0]), steps[1..]);
    }
  }
}

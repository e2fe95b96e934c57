/**
  Sessions in which the file keeps its content and other clients store only the file's own bytes: the
  condition on reused parts then holds by itself, over any number of failed and resumed runs.
  */
module UndisturbedRuns {
  import opened Basics
  import opened Plan
  import opened Manifest
  import opened Accounting
  import opened Remote
  import opened Reconcile
  import opened Listings
  import opened Objects
  import opened Sessions
  import opened SessionEnd
  import opened FileUpload
  import opened FileUploadInv
  import opened FileUploadTheorems
  import opened StaysComplete

  predicate QuietStep(c: Config, content: Bytes, step: Step)
    requires c.Valid() && |content| == c.Plan().fileSize
  {
    match step
    case Touch(source) => source.content == content
    case Tail(Others(StorePart(n, bytes, _))) => Planned(c.Plan(), n) ==> bytes == Slice(c.Plan(), content, n)
    case _ => true
  }

  /** Every body sent and every planned part stored is the file's slice. */
  predicate TaskHolds(plan: MultipartPlan, content: Bytes, n: nat, t: Task)
    requires plan.Valid() && |content| == plan.fileSize
  {
    Planned(plan, n) &&
    match t
    case Queued => true
    case Reading(got) => |got| <= Length(plan, n) && got == Slice(plan, content, n)[..|got|]
    case Sending(bytes, _, _) => bytes == Slice(plan, content, n)
  }

  ghost predicate StoreHolds(plan: MultipartPlan, content: Bytes, server: Server)
    requires plan.Valid() && |content| == plan.fileSize
  {
    forall n :: n in server.parts && Planned(plan, n) ==> server.parts[n].bytes == Slice(plan, content, n)
  }

  ghost predicate SlotsHold(plan: MultipartPlan, content: Bytes, server: Server, slots: Slots)
    requires plan.Valid() && |content| == plan.fileSize
  {
    forall i :: 0 <= i < |slots| && slots[i].Some? ==> HoldsSlice(plan, server, content, slots[i].value)
  }

  ghost predicate BodiesHold(plan: MultipartPlan, content: Bytes, bodies: set<(nat, Bytes)>)
    requires plan.Valid() && |content| == plan.fileSize
  {
    forall n, b :: (n, b) in bodies ==> Planned(plan, n) && b == Slice(plan, content, n)
  }

  ghost predicate Quiet(c: Config, content: Bytes, s: State)
    requires c.Valid() && |content| == c.Plan().fileSize
  {
    && s.source.content == content == s.start.content
    && StoreHolds(c.Plan(), content, s.end.server)
    && BodiesHold(c.Plan(), content, s.bodies)
    && (forall n :: n in s.tasks ==> TaskHolds(c.Plan(), content, n, s.tasks[n]))
    && (forall i :: 0 <= i < |s.reused| ==> HoldsSlice(c.Plan(), s.end.server, content, s.reused[i]))
    && (s.work.Listing? ==> SlotsHold(c.Plan(), content, s.end.server, s.work.slots))
  }

  /** Only the store and source moved on; the store still holds slices. */
  lemma {:induction false} OnwardStaysQuiet(c: Config, content: Bytes, s: State, t: State)
    requires c.Valid() && |content| == c.Plan().fileSize && Quiet(c, content, s)
    requires t == s.(source := t.source, end := t.end) && t.source.content == content
    requires Evolves(s.end.server, t.end.server) && StoreHolds(c.Plan(), content, t.end.server)
    ensures Quiet(c, content, t)
  {
    hide Slice, TaskHolds, StoreHolds, BodiesHold;
    forall i | 0 <= i < |t.reused|
      ensures HoldsSlice(c.Plan(), t.end.server, content, t.reused[i])
    {
      StillHolds(c.Plan(), content, s.end.server, t.end.server, s.reused[i]);
    }
    if s.work.Listing? {
      forall i | 0 <= i < |s.work.slots| && s.work.slots[i].Some?
        ensures HoldsSlice(c.Plan(), t.end.server, content, s.work.slots[i].value)
      {
        StillHolds(c.Plan(), content, s.end.server, t.end.server, s.work.slots[i].value);
      }
    }
  }

  lemma {:induction false} StillHolds(plan: MultipartPlan, content: Bytes, s: Server, t: Server, part: UploadedPart)
    requires plan.Valid() && |content| == plan.fileSize && HoldsSlice(plan, s, content, part) && Evolves(s, t)
    ensures HoldsSlice(plan, t, content, part)
  {
  }

  lemma {:induction false} StoreStaysQuiet(plan: MultipartPlan, content: Bytes, s: Server, r: Request)
    requires plan.Valid() && |content| == plan.fileSize && StoreHolds(plan, content, s) && CanServe(s, r)
    requires r.StorePart? && Planned(plan, r.number) ==> r.bytes == Slice(plan, content, r.number)
    ensures StoreHolds(plan, content, Serve(s, r))
  {
    hide Slice, Join;
  }

  lemma {:induction false} EndStaysQuiet(c: Config, content: Bytes, s: State, step: EndStep)
    requires c.Valid() && |content| == c.Plan().fileSize && Quiet(c, content, s) && Inv(c, s)
    requires Can(c, s, Tail(step)) && QuietStep(c, content, Tail(step))
    ensures Quiet(c, content, Do(c, s, Tail(step)))
  {
    EndStepKeeps(c.abortOnError, c.session, s.end, step);
    match step {
      case Others(r) => StoreStaysQuiet(c.Plan(), content, s.end.server, r);
      case ApplyComplete => StoreStaysQuiet(c.Plan(), content, s.end.server, CompleteWith(s.end.inFlight.value));
      case AbortConfirmed => StoreStaysQuiet(c.Plan(), content, s.end.server, AbortSession);
      case AbortUnconfirmed(applied) => if applied { StoreStaysQuiet(c.Plan(), content, s.end.server, AbortSession); }
      case _ =>
    }
    OnwardStaysQuiet(c, content, s, Do(c, s, Tail(step)));
  }

  lemma {:induction false} LateCopyStaysQuiet(c: Config, content: Bytes, s: State, n: nat, bytes: Bytes, etag: ETag)
    requires c.Valid() && |content| == c.Plan().fileSize && Quiet(c, content, s) && Inv(c, s)
    requires Can(c, s, LateCopy(n, bytes, etag))
    ensures Quiet(c, content, Do(c, s, LateCopy(n, bytes, etag)))
  {
    EndStepKeeps(c.abortOnError, c.session, s.end, Others(StorePart(n, bytes, etag)));
    StoreStaysQuiet(c.Plan(), content, s.end.server, StorePart(n, bytes, etag));
    OnwardStaysQuiet(c, content, s, Do(c, s, LateCopy(n, bytes, etag)));
  }

  lemma {:induction false} RepliesStayQuiet(c: Config, content: Bytes, s: State, n: nat, replies: set<ETag>)
    requires c.Valid() && |content| == c.Plan().fileSize && Quiet(c, content, s)
    requires n in s.tasks && s.tasks[n].Sending?
    ensures Quiet(c, content, s.(tasks := s.tasks[n := s.tasks[n].(replies := replies)]))
  {
    hide Slice, Length, StoreHolds, BodiesHold, SlotsHold, HoldsSlice;
    assert TaskHolds(c.Plan(), content, n, s.tasks[n]);
  }

  lemma {:induction false} AnswerStaysQuiet(c: Config, content: Bytes, s: State, n: nat, etag: ETag)
    requires c.Valid() && |content| == c.Plan().fileSize && Quiet(c, content, s) && Inv(c, s)
    requires Can(c, s, Answer(n, etag))
    ensures Quiet(c, content, Do(c, s, Answer(n, etag)))
  {
    hide Slice, Length, StoreHolds, SlotsHold, BodiesHold, HoldsSlice, Serve, CanServe,
      EndInv, FileInv, TasksInv, PartsInv, PartitionInv, AccountInv, ListInv, AcknowledgedInv, CompletionInv;
    var request := StorePart(n, s.tasks[n].bytes, etag);
    var server := Serve(s.end.server, request);
    assert TaskHolds(c.Plan(), content, n, s.tasks[n]);
    EndStepKeeps(c.abortOnError, c.session, s.end, Others(request));
    StoreStaysQuiet(c.Plan(), content, s.end.server, request);
    var served := s.(end := s.end.(server := server));
    OnwardStaysQuiet(c, content, s, served);
    RepliesStayQuiet(c, content, served, n, s.tasks[n].replies + {etag});
  }

  lemma {:induction false} ReadStaysQuiet(c: Config, content: Bytes, s: State, n: nat, count: nat)
    requires c.Valid() && |content| == c.Plan().fileSize && Quiet(c, content, s) && Can(c, s, Read(n, count))
    ensures Quiet(c, content, Do(c, s, Read(n, count)))
  {
    hide StoreHolds, BodiesHold, HoldsSlice;
    assert TaskHolds(c.Plan(), content, n, s.tasks[n]);
    NextPiece(c.Plan(), content, n, |s.tasks[n].got|, count);
  }

  lemma {:induction false} SendStaysQuiet(c: Config, content: Bytes, s: State, n: nat)
    requires c.Valid() && |content| == c.Plan().fileSize && Quiet(c, content, s) && Can(c, s, Send(n))
    ensures Quiet(c, content, Do(c, s, Send(n)))
  {
    hide StoreHolds, HoldsSlice;
    assert TaskHolds(c.Plan(), content, n, s.tasks[n]);
    var slice := Slice(c.Plan(), content, n);
    assert slice[..|slice|] == slice;
  }

  lemma {:induction false} PoolStaysQuiet(c: Config, content: Bytes, s: State, step: Step)
    requires c.Valid() && |content| == c.Plan().fileSize && Quiet(c, content, s) && Can(c, s, step)
    requires step.Admit? || step.Retry? || step.Deliver? || step.Finish? || step.Resume?
    ensures Quiet(c, content, Do(c, s, step))
  {
    hide Slice, StoreHolds, BodiesHold, HoldsSlice, Canonical, Values, Inserted, Accepts, TotalBytes;
    if step.Admit? || step.Retry? {
      assert TaskHolds(c.Plan(), content, step.number, s.tasks[step.number]);
    }
  }

  lemma {:induction false} AbsorbHolds(plan: MultipartPlan, content: Bytes, s: Server, slots: Slots,
                                       entries: seq<RemotePart>, marker: nat)
    requires plan.Valid() && |content| == plan.fileSize && SlotsFit(plan, slots) && Sound(s)
    requires StoreHolds(plan, content, s) && SlotsHold(plan, content, s, slots)
    requires forall i :: 0 <= i < |entries| ==> Shows(s, marker, entries[i])
    requires Absorb(plan, slots, entries).Ok?
    ensures SlotsHold(plan, content, s, Absorb(plan, slots, entries).value)
    decreases |entries|
  {
    if entries != [] {
      var part := CheckEntry(plan, entries[0]).value;
      assert Shows(s, marker, entries[0]);
      assert HoldsSlice(plan, s, content, part);
      hide HoldsSlice, Slice, Length;
      AbsorbHolds(plan, content, s, slots[part.number - 1 := Some(part)], entries[1..], marker);
    }
  }

  lemma {:induction false} ListPageStaysQuiet(c: Config, content: Bytes, s: State, page: Response)
    requires c.Valid() && |content| == c.Plan().fileSize && Quiet(c, content, s) && Inv(c, s)
    requires Can(c, s, ListPage(page))
    ensures Quiet(c, content, Do(c, s, ListPage(page)))
  {
    hide Slice, StoreHolds, BodiesHold, TaskHolds, HoldsSlice, TasksInv, PartsInv, PartitionInv, AccountInv,
      CompletionInv, TotalBytes;
    var plan, server := c.Plan(), s.end.server;
    var absorbed := Absorb(plan, s.work.slots, page.parts);
    if absorbed.Ok? {
      AbsorbHolds(plan, content, server, s.work.slots, page.parts, s.work.marker);
      if page.truncated != Some(true) {
        var t := Do(c, s, ListPage(page));
        forall i | 0 <= i < |t.reused|
          ensures HoldsSlice(plan, server, content, t.reused[i])
        {
          assert t.reused[i] in Split(absorbed.value).uploaded;
          SplitMembers(plan, absorbed.value, t.reused[i]);
        }
        forall n | n in t.tasks
          ensures TaskHolds(plan, content, n, t.tasks[n])
        {
          QueuedHolds(plan, content, n);
        }
      }
    }
  }

  lemma {:induction false} QueuedHolds(plan: MultipartPlan, content: Bytes, n: nat)
    requires plan.Valid() && |content| == plan.fileSize && n in AllParts(plan)
    ensures TaskHolds(plan, content, n, Queued)
  {
  }

  lemma {:induction false} TouchStaysQuiet(c: Config, content: Bytes, s: State, source: Source)
    requires c.Valid() && |content| == c.Plan().fileSize && Quiet(c, content, s)
    requires Can(c, s, Touch(source)) && source.content == content
    ensures Quiet(c, content, Do(c, s, Touch(source)))
  {
    OnwardStaysQuiet(c, content, s, Do(c, s, Touch(source)));
  }

  lemma {:induction false} StepStaysQuiet(c: Config, content: Bytes, s: State, step: Step)
    requires c.Valid() && |content| == c.Plan().fileSize && Quiet(c, content, s) && Inv(c, s)
    requires Can(c, s, step) && QuietStep(c, content, step)
    ensures Quiet(c, content, Do(c, s, step))
  {
    hide Inv, Quiet, Can, Do;
    match step
    case Touch(source) => TouchStaysQuiet(c, content, s, source);
    case Tail(t) => EndStaysQuiet(c, content, s, t);
    case LateCopy(n, bytes, etag) => LateCopyStaysQuiet(c, content, s, n, bytes, etag);
    case Answer(n, etag) => AnswerStaysQuiet(c, content, s, n, etag);
    case ListPage(page) => ListPageStaysQuiet(c, content, s, page);
    case Read(n, count) => ReadStaysQuiet(c, content, s, n, count);
    case Send(n) => SendStaysQuiet(c, content, s, n);
    case _ => PoolStaysQuiet(c, content, s, step);
  }

  lemma {:induction false} RunStaysQuiet(c: Config, content: Bytes, s: State, steps: seq<Step>)
    requires c.Valid() && |content| == c.Plan().fileSize && Quiet(c, content, s) && Inv(c, s)
    requires Runs(c, s, steps) && forall i :: 0 <= i < |steps| ==> QuietStep(c, content, steps[i])
    ensures Quiet(c, content, After(c, s, steps))
    decreases |steps|
  {
    if steps != [] {
      StepStaysQuiet(c, content, s, steps[0]);
      StepKeeps(c, s, steps[0]);
      RunStaysQuiet(c, content, Do(c, s, steps[0]), steps[1..]);
    }
  }

  lemma {:induction false} InitIsQuiet(c: Config, source: Source, server: Server, resumed: bool)
    requires Starts(c, source, server) && StoreHolds(c.Plan(), source.content, server)
    ensures Quiet(c, source.content, Init(c, source, server, resumed))
  {
    hide StoreHolds, TotalBytes;
  }

  /** Resumed or not, over any number of failed runs, with requests lost, applied late, retried and
      completed in any order: if the file's content stays and others store only its bytes, a run that
      returns Ok has made exactly the file. */
  lemma {:induction false} UndisturbedOkIsTheFile(c: Config, source: Source, server: Server, resumed: bool,
                                                  steps: seq<Step>)
    requires Starts(c, source, server) && StoreHolds(c.Plan(), source.content, server)
    requires Runs(c, Init(c, source, server, resumed), steps)
    requires forall i :: 0 <= i < |steps| ==> QuietStep(c, source.content, steps[i])
    requires After(c, Init(c, source, server, resumed), steps).end.phase == Ended(Succeeded)
    ensures After(c, Init(c, source, server, resumed), steps).end.server.status == Completed(source.content)
  {
    var init := Init(c, source, server, resumed);
    InitKeeps(c, source, server, resumed);
    InitIsQuiet(c, source, server, resumed);
    RunKeeps(c, init, steps);
    RunStaysQuiet(c, source.content, init, steps);
    SuccessIsExact(c, After(c, init, steps));
  }

  // ----- Without that condition -----

  /** A session for one part of one byte in bucket `aaa`. */
  function OneByteConfig(): (c: Config)
    ensures c.Valid() && c.Plan() == OneByte()
  {
    Config(Session([97, 97, 97], [107], [117], OneByte()), 1, 1, true)
  }

  /** The store holds the byte 1 under ETag "a", the file is the byte 0. */
  function OtherByte(): Server {
    Serve(Fresh(), StorePart(1, [1], "a"))
  }

  function ZeroFile(): Source {
    Source([0], 1, 1, 1)
  }

  function ReusingRun(): seq<Step> {
    [ListPage(OnePart(1, "a")), Finish, Tail(ApplyComplete), Tail(AcceptAnswer)]
  }

  lemma {:induction false} WitnessStarts()
    ensures Starts(OneByteConfig(), ZeroFile(), OtherByte())
    ensures PageOf(OtherByte(), 0, OnePart(1, "a"))
  {
    hide PageOf;
    OnePageOf(OtherByte(), 1, "a");
  }

  lemma {:induction false} TakesThePart(c: Config, s: State)
    requires c == OneByteConfig() && CanList(s, OnePart(1, "a")) && s.work == Listing(0, NoSlots(OneByte()))
    ensures SlotsFit(OneByte(), s.work.slots)
    ensures TakePage(c, s, OnePart(1, "a")) == BeginTransfer(OneByte(), s, [UploadedPart(1, "a")])
  {
    hide Absorb, Split, BeginTransfer;
    AbsorbOnePage("a");
    OneSlot(UploadedPart(1, "a"));
  }

  lemma {:induction false} ReusedPartIsTaken()
    ensures var c, init := OneByteConfig(), Init(OneByteConfig(), ZeroFile(), OtherByte(), true);
            && Can(c, init, ListPage(OnePart(1, "a")))
            && Do(c, init, ListPage(OnePart(1, "a"))) == BeginTransfer(c.Plan(), init, [UploadedPart(1, "a")])
  {
    hide TakePage, BeginTransfer, PageOf, Serve, NoSlots, SlotsFit;
    WitnessStarts();
    TakesThePart(OneByteConfig(), Init(OneByteConfig(), ZeroFile(), OtherByte(), true));
  }

  lemma {:induction false} NothingIsMissing(s: State)
    requires Numbers([UploadedPart(1, "a")]) == {1}
    ensures BeginTransfer(OneByte(), s, [UploadedPart(1, "a")]).tasks == map[]
  {
    assert AllParts(OneByte()) - {1} == {};
  }

  lemma {:induction false} OnlyPart()
    ensures Numbers([UploadedPart(1, "a")]) == {1}
    ensures Canonical(Values(Inserted([UploadedPart(1, "a")]))) == Ok([UploadedPart(1, "a")])
  {
    hide Canonical, Values, Inserted;
    var part := UploadedPart(1, "a");
    NumbersAppend([], part);
    NoNumbers();
    assert [] + [part] == [part] && {} + {1} == {1};
    assert UpTo(1) == {1};
    FullManifestPasses(OneByte(), [part]);
    var manifest := Canonical(Values(Inserted([part]))).value;
    assert |manifest| == |multiset(manifest)| == 1;
    assert manifest[0] in multiset(manifest) && multiset([part]) == multiset{part};
    assert manifest == [part];
  }

  /** A resumed run that finds its part reuses it without looking at its bytes: this one returns Ok, and
      the object is another byte than the file, which never changed. */
  lemma {:induction false} OkCanBeAnotherFile()
    ensures var c, init := OneByteConfig(), Init(OneByteConfig(), ZeroFile(), OtherByte(), true);
            && Starts(c, ZeroFile(), OtherByte()) && Runs(c, init, ReusingRun())
            && var s := After(c, init, ReusingRun());
            && s.end.phase == Ended(Succeeded) && s.source == s.start == ZeroFile()
            && s.end.server.status == Completed([1]) && [1] != ZeroFile().content
  {
    hide Starts, Can, Do, TotalBytes, MissingTasks, Canonical, Values, Inserted, Serve, Join;
    var c, init := OneByteConfig(), Init(OneByteConfig(), ZeroFile(), OtherByte(), true);
    var part := UploadedPart(1, "a");
    WitnessStarts();
    ReusedPartIsTaken();
    OnlyPart();
    var begun := BeginTransfer(c.Plan(), init, [part]);
    NothingIsMissing(init);
    RunsToTheEnd(c, begun);
    assert ReusingRun()[1..] == [Finish, Tail(ApplyComplete), Tail(AcceptAnswer)];
  }

  lemma {:induction false} RunsToTheEnd(c: Config, s: State)
    requires c == OneByteConfig() && Transfers(s) && s.tasks == map[] && s.source == s.start
    requires s.reused == [UploadedPart(1, "a")] && s.uploaded == [] && s.end == End(OtherByte(), Working, None, false)
    requires Canonical(Values(Inserted([UploadedPart(1, "a")]))) == Ok([UploadedPart(1, "a")])
    ensures var steps := [Finish, Tail(ApplyComplete), Tail(AcceptAnswer)];
            && Runs(c, s, steps)
            && After(c, s, steps).end.phase == Ended(Succeeded) && After(c, s, steps).source == s.source
            && After(c, s, steps).start == s.start
            && After(c, s, steps).end.server.status == Completed([1])
  {
    hide Canonical, Values, Inserted;
    var manifest := [UploadedPart(1, "a")];
    assert s.reused + s.uploaded == manifest;
    var sent := Do(c, s, Finish);
    assert sent == s.(end := Complete(s.end, manifest));
    var applied := Do(c, sent, Tail(ApplyComplete));
    assert Bodies(OtherByte(), manifest) == [[1]];
    assert Join([[1]]) == [1] by { assert [[1]][..0] == []; }
    var done := Do(c, applied, Tail(AcceptAnswer));
    var steps := [Finish, Tail(ApplyComplete), Tail(AcceptAnswer)];
    assert steps[1..] == [Tail(ApplyComplete), Tail(AcceptAnswer)] && steps[1..][1..] == [Tail(AcceptAnswer)];
    assert steps[1..][1..][1..] == [];
  }
}

/**
  The managed upload of a local file, as a step relation over all interleavings of the upload pool,
  the store, other clients, writers of the source file, cancellation and later resumes.
  */
module FileUpload {
  import opened Basics
  import opened Plan
  import opened Manifest
  import opened Accounting
  import opened Remote
  import opened Reconcile
  import opened Listings
  import opened Sessions
  import opened SessionEnd

  /** The source file. Whoever changes it moves its modification time forward. */
  datatype Source = Source(content: Bytes, modified: nat, device: nat, inode: nat)

  datatype Fingerprint = Fingerprint(len: nat, modified: nat, device: nat, inode: nat)

  function FingerprintOf(s: Source): Fingerprint {
    Fingerprint(|s.content|, s.modified, s.device, s.inode)
  }

  datatype Config = Config(session: Session, concurrency: nat, maxAttempts: nat, abortOnError: bool) {
    predicate Valid() { session.Valid() && concurrency >= 1 && maxAttempts >= 1 }

    function Plan(): MultipartPlan { session.plan }
  }

  /** One future of the upload pool. A reading task opens the file and may read it in pieces while
      the file changes. */
  datatype Task =
    | Queued
    | Reading(got: Bytes)
    | Sending(bytes: Bytes, attempt: nat, replies: set<ETag>)

  datatype Work = Listing(marker: nat, slots: Slots) | Transferring

  /** `start` is the source when its fingerprint was taken, `reused` the parts found by a resume,
      `uploaded` the parts of this run in order of completion, `tasks` the parts still missing.
      Over all runs of the session, `bodies` are the part bodies ever sent and `acknowledged` the
      numbers of the parts whose upload was ever confirmed. */
  datatype State = State(
    source: Source, start: Source, end: End, work: Work,
    reused: seq<UploadedPart>, uploaded: seq<UploadedPart>, tasks: map<nat, Task>,
    completed: nat, transferred: nat, callbacks: seq<Progress>,
    bodies: set<(nat, Bytes)>, acknowledged: set<nat>)

  datatype Step =
    | Touch(source: Source)
    | Tail(step: EndStep)
    | LateCopy(number: nat, bytes: Bytes, etag: ETag)
    | Answer(number: nat, etag: ETag)
    | ListPage(page: Response)
    | Admit(number: nat)
    | Read(number: nat, count: nat)
    | Send(number: nat)
    | Retry(number: nat)
    | Deliver(number: nat, etag: ETag)
    | Finish
    | Resume

  // ----- Beginning a run -----

  /** The parts still to upload, in the order the pool takes them. */
  function MissingTasks(plan: MultipartPlan, reused: set<nat>): map<nat, Task> {
    map n | n in AllParts(plan) - reused :: Queued
  }

  /** `run` after its listing: counters, the first progress report and the missing parts. */
  function BeginTransfer(plan: MultipartPlan, s: State, reused: seq<UploadedPart>): State
    requires plan.Valid()
  {
    var bytes := TotalBytes(plan, Numbers(reused));
    s.(work := Transferring, reused := reused, uploaded := [], tasks := MissingTasks(plan, Numbers(reused)),
       completed := |reused|, transferred := bytes, callbacks := [Progress(|reused|, bytes)])
  }

  function Init(c: Config, source: Source, server: Server, resumed: bool): State
    requires c.Valid()
  {
    var s := State(source, source, End(server, Working, None, false), Listing(0, NoSlots(c.Plan())),
                   [], [], map[], 0, 0, [], {}, {});
    if resumed then s else BeginTransfer(c.Plan(), s, [])
  }

  // ----- Steps -----

  predicate Holding(t: Task) { !t.Queued? }

  function Active(tasks: map<nat, Task>): set<nat> {
    set n | n in tasks && Holding(tasks[n])
  }

  predicate Transfers(s: State) {
    s.end.phase.Working? && s.work.Transferring?
  }

  predicate CanAdmit(c: Config, s: State, n: nat) {
    && Transfers(s) && n in s.tasks && s.tasks[n].Queued?
    && |Active(s.tasks)| < c.concurrency
    && forall m :: m in s.tasks && s.tasks[m].Queued? ==> n <= m
  }

  /** A piece of the file as it is at this moment, behind what was read before. */
  predicate CanRead(c: Config, s: State, n: nat, count: nat)
    requires c.Valid()
  {
    && Transfers(s) && n in s.tasks && s.tasks[n].Reading? && Planned(c.Plan(), n)
    && count > 0 && |s.tasks[n].got| + count <= Length(c.Plan(), n)
    && Offset(c.Plan(), n) + |s.tasks[n].got| + count <= |s.source.content|
  }

  function ReadMore(c: Config, s: State, n: nat, count: nat): State
    requires c.Valid() && CanRead(c, s, n, count)
  {
    var from := Offset(c.Plan(), n) + |s.tasks[n].got|;
    s.(tasks := s.tasks[n := Reading(s.tasks[n].got + s.source.content[from..from + count])])
  }

  predicate CanSend(c: Config, s: State, n: nat)
    requires c.Valid()
  {
    && Transfers(s) && n in s.tasks && s.tasks[n].Reading? && Planned(c.Plan(), n)
    && |s.tasks[n].got| == Length(c.Plan(), n)
  }

  function SendPart(s: State, n: nat): State
    requires n in s.tasks && s.tasks[n].Reading?
  {
    var bytes := s.tasks[n].got;
    s.(tasks := s.tasks[n := Sending(bytes, 1, {})], bodies := s.bodies + {(n, bytes)})
  }

  predicate InFlight(s: State, n: nat) {
    Transfers(s) && n in s.tasks && s.tasks[n].Sending?
  }

  /** The store applies the current attempt; the answer is on its way. */
  function AnswerPart(s: State, n: nat, etag: ETag): State
    requires InFlight(s, n) && CanServe(s.end.server, StorePart(n, s.tasks[n].bytes, etag))
  {
    var t := s.tasks[n];
    s.(end := s.end.(server := Serve(s.end.server, StorePart(n, t.bytes, etag))),
       tasks := s.tasks[n := t.(replies := t.replies + {etag})])
  }

  /** The answer arrives: both counters and the callback move in one step. */
  predicate CanDeliver(c: Config, s: State, n: nat, etag: ETag)
    requires c.Valid()
  {
    InFlight(s, n) && Planned(c.Plan(), n) && etag in s.tasks[n].replies && etag != ""
  }

  function DeliverPart(c: Config, s: State, n: nat, etag: ETag): State
    requires c.Valid() && CanDeliver(c, s, n, etag)
  {
    var parts := s.completed + 1;
    var bytes := s.transferred + Length(c.Plan(), n);
    s.(tasks := s.tasks - {n}, uploaded := s.uploaded + [UploadedPart(n, etag)],
       completed := parts, transferred := bytes, callbacks := s.callbacks + [Progress(parts, bytes)],
       acknowledged := s.acknowledged + {n})
  }

  /** All parts are in: check the source, build the manifest from the tree of reused and uploaded
      parts, check it locally, send the completion. */
  function FinishRun(c: Config, s: State): State
    requires c.Valid() && Transfers(s)
  {
    if FingerprintOf(s.source) != FingerprintOf(s.start) then s.(end := s.end.(phase := CleaningUp(SourceChanged)))
    else
      match Canonical(Values(Inserted(s.reused + s.uploaded)))
      case Err(e) => s.(end := s.end.(phase := CleaningUp(e)))
      case Ok(manifest) =>
        if !Accepts(c.Plan(), manifest) then s.(end := s.end.(phase := CleaningUp(NotEveryPlannedPart)))
        else s.(end := Complete(s.end, manifest))
  }

  predicate CanList(s: State, page: Response) {
    s.end.phase.Working? && s.work.Listing? && page.Page?
  }

  /** One page of the listing that a resumed run starts with. */
  function TakePage(c: Config, s: State, page: Response): State
    requires c.Valid() && CanList(s, page) && SlotsFit(c.Plan(), s.work.slots)
  {
    match Absorb(c.Plan(), s.work.slots, page.parts)
    case Err(e) => s.(end := s.end.(phase := CleaningUp(e)))
    case Ok(filled) =>
      if page.truncated != Some(true) then BeginTransfer(c.Plan(), s, Split(filled).uploaded)
      else if page.next.None? then s.(end := s.end.(phase := CleaningUp(Service)))
      else s.(work := Listing(page.next.value, filled))
  }

  /** A new run from the snapshot a failed run returned; the file must have its planned size. */
  predicate CanResume(c: Config, s: State) {
    && s.end.phase.Ended? && s.end.phase.outcome.Failed? && s.end.phase.outcome.snapshot.Some?
    && |s.source.content| == c.Plan().fileSize
  }

  function ResumeRun(c: Config, s: State): State {
    s.(start := s.source, end := End(s.end.server, Working, None, false), work := Listing(0, NoSlots(c.Plan())),
       reused := [], uploaded := [], tasks := map[], completed := 0, transferred := 0, callbacks := [])
  }

  ghost predicate Can(c: Config, s: State, step: Step)
    requires c.Valid()
  {
    match step
    case Touch(source) => source.modified > s.source.modified
    case Tail(t) => CanEnd(c.abortOnError, s.end, t)
    case LateCopy(n, bytes, etag) => (n, bytes) in s.bodies && CanServe(s.end.server, StorePart(n, bytes, etag))
    case Answer(n, etag) => InFlight(s, n) && CanServe(s.end.server, StorePart(n, s.tasks[n].bytes, etag))
    case ListPage(page) =>
      CanList(s, page) && SlotsFit(c.Plan(), s.work.slots) && PageOf(s.end.server, s.work.marker, page)
    case Admit(n) => CanAdmit(c, s, n)
    case Read(n, count) => CanRead(c, s, n, count)
    case Send(n) => CanSend(c, s, n)
    case Retry(n) => InFlight(s, n) && s.tasks[n].attempt < c.maxAttempts
    case Deliver(n, etag) => CanDeliver(c, s, n, etag)
    case Finish => Transfers(s) && s.tasks == map[]
    case Resume => CanResume(c, s)
  }

  ghost function Do(c: Config, s: State, step: Step): State
    requires c.Valid() && Can(c, s, step)
  {
    match step
    case Touch(source) => s.(source := source)
    case Tail(t) => s.(end := DoEnd(c.abortOnError, c.session, s.end, t))
    case LateCopy(n, bytes, etag) => s.(end := s.end.(server := Serve(s.end.server, StorePart(n, bytes, etag))))
    case Answer(n, etag) => AnswerPart(s, n, etag)
    case ListPage(page) => TakePage(c, s, page)
    case Admit(n) => s.(tasks := s.tasks[n := Reading([])])
    case Read(n, count) => ReadMore(c, s, n, count)
    case Send(n) => SendPart(s, n)
    case Retry(n) => s.(tasks := s.tasks[n := Sending(s.tasks[n].bytes, s.tasks[n].attempt + 1, {})])
    case Deliver(n, etag) => DeliverPart(c, s, n, etag)
    case Finish => FinishRun(c, s)
    case Resume => ResumeRun(c, s)
  }

  /** All steps of a run are possible one after the other. */
  ghost predicate Runs(c: Config, s: State, steps: seq<Step>)
    requires c.Valid()
    decreases |steps|
  {
    steps == [] || (Can(c, s, steps[0]) && Runs(c, Do(c, s, steps[0]), steps[1..]))
  }

  ghost function After(c: Config, s: State, steps: seq<Step>): State
    requires c.Valid() && Runs(c, s, steps)
    decreases |steps|
  {
    if steps == [] then s else After(c, Do(c, s, steps[0]), steps[1..])
  }
}

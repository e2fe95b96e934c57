/**
  A run of the file upload takes a bounded number of steps of its own, and while its file stays and its
  session is open it can always still be completed.
  */
module FileUploadProgress {
  import opened Basics
  import opened Plan
  import opened Manifest
  import opened Accounting
  import opened Remote
  import opened Reconcile
  import opened Listings
  import opened SessionEnd
  import opened FileUpload
  import opened FileUploadInv

  // ----- A measure -----

  /** Steps of the store, of other clients and of whoever writes the file. */
  predicate Outside(step: Step) {
    step.Touch? || step.LateCopy? || step.Answer? || (step.Tail? && Environment(step.step))
  }

  /** A listing page that shows nothing and promises more; only the store bounds how many there are. */
  predicate EmptyPage(step: Step) {
    step.ListPage? && step.page.Page? && step.page.parts == [] && step.page.truncated == Some(true)
  }

  function PartBytes(plan: MultipartPlan, n: nat): nat
    requires plan.Valid()
  {
    if Planned(plan, n) then Length(plan, n) else 0
  }

  /** What part `n` still has ahead of it at most: admission, reads, sending and its attempts. */
  function Ahead(c: Config, tasks: map<nat, Task>, n: nat): nat
    requires c.Valid()
  {
    if n !in tasks then 0
    else
      match tasks[n]
      case Queued => PartBytes(c.Plan(), n) + c.maxAttempts + 2
      case Reading(got) =>
        (if |got| < PartBytes(c.Plan(), n) then PartBytes(c.Plan(), n) - |got| else 0) + c.maxAttempts + 1
      case Sending(_, attempt, _) => if attempt > c.maxAttempts then 1 else c.maxAttempts + 1 - attempt
  }

  function Work(c: Config, tasks: map<nat, Task>): nat -> nat
    requires c.Valid()
  {
    n => Ahead(c, tasks, n)
  }

  function AllWork(c: Config): nat -> nat
    requires c.Valid()
  {
    n => PartBytes(c.Plan(), n) + c.maxAttempts + 2
  }

  function Measure(c: Config, s: State): nat
    requires c.Valid()
  {
    match s.end.phase
    case Working =>
      (match s.work
       case Transferring => 3 + SumUpTo(Work(c, s.tasks), c.Plan().partCount)
       case Listing(_, slots) => 4 + EmptySlots(slots) + SumUpTo(AllWork(c), c.Plan().partCount))
    case Completing => 2
    case CleaningUp(_) => 1
    case Ended(_) => 0
  }

  /** Part `n` got ahead and no part fell back. */
  ghost predicate Advances(c: Config, before: map<nat, Task>, after: map<nat, Task>, n: nat)
    requires c.Valid()
  {
    && Planned(c.Plan(), n) && Ahead(c, after, n) < Ahead(c, before, n)
    && forall m: nat :: m != n ==> Ahead(c, after, m) <= Ahead(c, before, m)
  }

  lemma {:induction false} AdvancingDrops(c: Config, s: State, t: State, n: nat)
    requires c.Valid() && Transfers(s) && Transfers(t) && Advances(c, s.tasks, t.tasks, n)
    ensures Measure(c, t) < Measure(c, s)
  {
    hide Ahead;
    SumDrops(Work(c, s.tasks), Work(c, t.tasks), n, c.Plan().partCount);
  }

  lemma {:induction false} TaskAdvances(c: Config, s: State, n: nat, t: Task)
    requires c.Valid() && Planned(c.Plan(), n) && n in s.tasks
    requires Ahead(c, s.tasks[n := t], n) < Ahead(c, s.tasks, n)
    ensures Advances(c, s.tasks, s.tasks[n := t], n)
  {
  }

  lemma {:induction false} PoolAdvances(c: Config, s: State, step: Step)
    requires c.Valid() && TaskPlanned(c, s) && Can(c, s, step)
    requires step.Admit? || step.Read? || step.Send? || step.Retry?
    ensures Measure(c, Do(c, s, step)) < Measure(c, s)
  {
    hide Measure, Length;
    var n := step.number;
    TaskAdvances(c, s, n, Do(c, s, step).tasks[n]);
    assert Do(c, s, step).tasks == s.tasks[n := Do(c, s, step).tasks[n]];
    AdvancingDrops(c, s, Do(c, s, step), n);
  }

  predicate TaskPlanned(c: Config, s: State) {
    forall n :: n in s.tasks ==> Planned(c.Plan(), n)
  }

  lemma {:induction false} TasksArePlanned(c: Config, s: State)
    requires c.Valid() && FileInv(c, s) && TasksInv(c, s)
    ensures TaskPlanned(c, s)
  {
    forall n | n in s.tasks
      ensures Planned(c.Plan(), n)
    {
      assert TaskOk(c, s.start.content, SameSource(s), s.end.server, s.bodies, n, s.tasks[n]);
    }
  }

  lemma {:induction false} DeliverAdvances(c: Config, s: State, n: nat, etag: ETag)
    requires c.Valid() && Can(c, s, Deliver(n, etag))
    ensures Measure(c, Do(c, s, Deliver(n, etag))) < Measure(c, s)
  {
    hide Measure, Length;
    assert Advances(c, s.tasks, s.tasks - {n}, n);
    AdvancingDrops(c, s, Do(c, s, Deliver(n, etag)), n);
  }

  lemma {:induction false} FinishLowers(c: Config, s: State)
    requires c.Valid() && Transfers(s)
    ensures Measure(c, FinishRun(c, s)) < Measure(c, s)
  {
    hide Canonical, Values, Inserted, Accepts, SumUpTo;
  }

  lemma {:induction false} BeginningCosts(c: Config, s: State, reused: seq<UploadedPart>)
    requires c.Valid() && s.end.phase.Working? && s.work.Listing?
    ensures Measure(c, BeginTransfer(c.Plan(), s, reused)) < Measure(c, s)
  {
    hide TotalBytes, Numbers, AllParts, Length;
    SumDrops(AllWork(c), Work(c, MissingTasks(c.Plan(), Numbers(reused))), 0, c.Plan().partCount);
  }

  lemma {:induction false} PageLowers(c: Config, s: State, page: Response)
    requires c.Valid() && CanList(s, page) && SlotsFit(c.Plan(), s.work.slots)
    ensures Measure(c, TakePage(c, s, page)) <= Measure(c, s)
    ensures !EmptyPage(ListPage(page)) ==> Measure(c, TakePage(c, s, page)) < Measure(c, s)
  {
    hide SumUpTo, AllWork, Work, BeginTransfer, EmptySlots, Absorb, Split;
    var absorbed := Absorb(c.Plan(), s.work.slots, page.parts);
    if absorbed.Ok? {
      PageFills(c.Plan(), s.work.slots, page.parts);
      if page.truncated != Some(true) {
        BeginningCosts(c, s, Split(absorbed.value).uploaded);
      }
    }
  }

  lemma {:induction false} SameWork(c: Config, s: State, t: State)
    requires c.Valid() && t.end.phase == s.end.phase && t.work == s.work && t.tasks.Keys == s.tasks.Keys
    requires forall n :: n in s.tasks ==>
                           t.tasks[n] == s.tasks[n]
                           || (s.tasks[n].Sending? && t.tasks[n].Sending? && t.tasks[n].attempt == s.tasks[n].attempt)
    ensures Measure(c, t) == Measure(c, s)
  {
    hide PartBytes;
    assert forall n: nat :: n in s.tasks <==> n in s.tasks.Keys;
    assert forall n: nat :: n in t.tasks <==> n in t.tasks.Keys;
    SumDrops(Work(c, s.tasks), Work(c, t.tasks), 0, c.Plan().partCount);
    SumDrops(Work(c, t.tasks), Work(c, s.tasks), 0, c.Plan().partCount);
  }

  lemma {:induction false} TailLowers(c: Config, s: State, step: EndStep)
    requires c.Valid() && Can(c, s, Tail(step))
    ensures Measure(c, Do(c, s, Tail(step))) <= Measure(c, s)
    ensures !Environment(step) ==> Measure(c, Do(c, s, Tail(step))) < Measure(c, s)
  {
    hide Serve, CanServe, SumUpTo, EmptySlots;
  }

  /** Within a run every step of the uploader itself, except an empty listing page, strictly lowers the
      measure, and no step of anybody else raises it. */
  lemma {:induction false} MeasureDecreases(c: Config, s: State, step: Step)
    requires c.Valid() && Inv(c, s) && Can(c, s, step) && !step.Resume?
    ensures Measure(c, Do(c, s, step)) <= Measure(c, s)
    ensures !Outside(step) && !EmptyPage(step) ==> Measure(c, Do(c, s, step)) < Measure(c, s)
  {
    hide EndInv, FileInv, TasksInv, PartsInv, PartitionInv, AccountInv, ListInv, AcknowledgedInv, CompletionInv,
      Measure, Serve, CanServe, PageOf, TakePage, FinishRun, Length;
    TasksArePlanned(c, s);
    match step
    case Touch(_) => SameWork(c, s, Do(c, s, step));
    case LateCopy(_, _, _) => SameWork(c, s, Do(c, s, step));
    case Answer(n, _) => SameWork(c, s, Do(c, s, step));
    case Tail(t) => TailLowers(c, s, t);
    case ListPage(page) => PageLowers(c, s, page);
    case Deliver(n, etag) => DeliverAdvances(c, s, n, etag);
    case Finish => FinishLowers(c, s);
    case _ => PoolAdvances(c, s, step);
  }

  function OwnSteps(steps: seq<Step>): nat {
    if steps == [] then 0 else OwnSteps(steps[1..]) + if Outside(steps[0]) || EmptyPage(steps[0]) then 0 else 1
  }

  lemma {:induction false} OwnStepsAreCounted(c: Config, s: State, steps: seq<Step>)
    requires c.Valid() && Inv(c, s) && Runs(c, s, steps) && Resume !in steps
    ensures OwnSteps(steps) + Measure(c, After(c, s, steps)) <= Measure(c, s)
    decreases |steps|
  {
    hide Inv, Can, Do, Measure, Outside, EmptyPage;
    if steps != [] {
      assert steps[0] in steps && forall i :: 0 <= i < |steps[1..]| ==> steps[1..][i] == steps[i + 1];
      StepKeeps(c, s, steps[0]);
      MeasureDecreases(c, s, steps[0]);
      OwnStepsAreCounted(c, Do(c, s, steps[0]), steps[1..]);
    }
  }

  lemma {:induction false} AllWorkIs(c: Config, k: nat)
    requires c.Valid() && k <= c.Plan().partCount
    ensures SumUpTo(AllWork(c), k) == EndOf(c.Plan(), k) + k * (c.maxAttempts + 2)
  {
    if k > 0 {
      AllWorkIs(c, k - 1);
      EndIsNextOffset(c.Plan(), k - 1);
      assert k * (c.maxAttempts + 2) == (k - 1) * (c.maxAttempts + 2) + (c.maxAttempts + 2);
    }
  }

  lemma {:induction false} InitMeasure(c: Config, source: Source, server: Server, resumed: bool)
    requires c.Valid()
    ensures Measure(c, Init(c, source, server, resumed)) <=
            4 + c.Plan().partCount + SumUpTo(AllWork(c), c.Plan().partCount)
  {
    hide SumUpTo, AllWork, BeginTransfer, EmptySlots;
    AllEmpty(c.Plan().partCount);
    var listing := Init(c, source, server, true);
    assert listing.work.slots == seq(c.Plan().partCount, _ => None);
    if !resumed { BeginningCosts(c, listing, []); }
  }

  /** A run, resumed or not, never goes on forever by itself: besides empty listing pages it takes at most
      one step per byte of the file, `max_attempts + 3` per part, and four more. */
  lemma {:induction false} OwnStepsAreBounded(c: Config, source: Source, server: Server, resumed: bool,
                                              steps: seq<Step>)
    requires Starts(c, source, server) && Runs(c, Init(c, source, server, resumed), steps) && Resume !in steps
    ensures OwnSteps(steps) <= c.Plan().fileSize + c.Plan().partCount * (c.maxAttempts + 3) + 4
  {
    hide Inv, Measure;
    InitKeeps(c, source, server, resumed);
    OwnStepsAreCounted(c, Init(c, source, server, resumed), steps);
    InitMeasure(c, source, server, resumed);
    AllWorkIs(c, c.Plan().partCount);
    assert c.Plan().partCount * (c.maxAttempts + 3) == c.Plan().partCount * (c.maxAttempts + 2) + c.Plan().partCount;
  }

  // ----- A run can always be completed -----

  /** No failure: the pool takes parts up, reads them, sends them, and is answered. */
  predicate Smooth(step: Step) {
    step.Admit? || step.Read? || step.Send? || step.Answer? || step.Deliver? || step.Finish?
  }

  ghost predicate SmoothRun(c: Config, s: State, steps: seq<Step>)
    requires c.Valid()
  {
    Runs(c, s, steps) && forall i :: 0 <= i < |steps| ==> Smooth(steps[i])
  }

  predicate Undisturbed(s: State) {
    Transfers(s) && s.end.server.status.Open? && SameSource(s)
  }

  lemma {:induction false} RunsOn(c: Config, s: State, a: seq<Step>, b: seq<Step>)
    requires c.Valid() && SmoothRun(c, s, a) && SmoothRun(c, After(c, s, a), b)
    ensures SmoothRun(c, s, a + b) && After(c, s, a + b) == After(c, After(c, s, a), b)
    decreases |a|
  {
    hide Can, Do, Smooth;
    if a == [] {
      assert a + b == b;
    } else {
      assert (a + b)[0] == a[0] && (a + b)[1..] == a[1..] + b;
      RunsOn(c, Do(c, s, a[0]), a[1..], b);
    }
  }

  lemma {:induction false} StepOn(c: Config, s: State, steps: seq<Step>, next: Step)
    requires c.Valid() && SmoothRun(c, s, steps) && Can(c, After(c, s, steps), next) && Smooth(next)
    ensures SmoothRun(c, s, steps + [next]) && After(c, s, steps + [next]) == Do(c, After(c, s, steps), next)
  {
    hide Can, Do, Smooth;
    var t := After(c, s, steps);
    assert [next][1..] == [] && Runs(c, Do(c, t, next), []);
    RunsOn(c, s, steps, [next]);
  }

  // ----- One part from queue to confirmation -----

  lemma {:induction false} LeastQueued(tasks: map<nat, Task>) returns (n: nat)
    requires tasks != map[] && Active(tasks) == {}
    ensures n in tasks && tasks[n].Queued? && forall m :: m in tasks && tasks[m].Queued? ==> n <= m
  {
    assert tasks.Keys != {};
    n :| n in tasks;
    var rest := tasks.Keys - {n};
    while rest != {}
      invariant n in tasks && rest <= tasks.Keys
      invariant forall m :: m in tasks && m !in rest ==> n <= m
      decreases rest
    {
      var m :| m in rest;
      if m < n { n := m; }
      rest := rest - {m};
    }
    assert n in Active(tasks) || tasks[n].Queued?;
  }

  /** A task that is being worked on, taking one up if there is none. */
  lemma {:induction false} TakeUp(c: Config, s: State) returns (steps: seq<Step>, n: nat)
    requires c.Valid() && Inv(c, s) && Undisturbed(s) && s.tasks != map[]
    ensures SmoothRun(c, s, steps)
    ensures var t := After(c, s, steps);
            Undisturbed(t) && t.tasks.Keys == s.tasks.Keys && n in t.tasks && Holding(t.tasks[n])
  {
    hide Inv;
    if Active(s.tasks) == {} {
      n := LeastQueued(s.tasks);
      StepOn(c, s, [], Admit(n));
      steps := [] + [Admit(n)];
    } else {
      n :| n in Active(s.tasks);
      steps := [];
    }
  }

  lemma {:induction false} ReadRest(c: Config, s: State, n: nat) returns (count: nat)
    requires c.Valid() && FileInv(c, s) && TasksInv(c, s) && Undisturbed(s) && n in s.tasks && s.tasks[n].Reading?
    ensures Planned(c.Plan(), n) && |s.tasks[n].got| + count == Length(c.Plan(), n)
    ensures count > 0 ==> CanRead(c, s, n, count)
  {
    assert TaskOk(c, s.start.content, SameSource(s), s.end.server, s.bodies, n, s.tasks[n]);
    count := Length(c.Plan(), n) - |s.tasks[n].got|;
    assert s.source == s.start;
    assert Offset(c.Plan(), n) + |s.tasks[n].got| + count <= |s.source.content|;
    assert Transfers(s);
  }

  lemma {:induction false} SendIt(c: Config, s: State, n: nat) returns (steps: seq<Step>)
    requires c.Valid() && Inv(c, s) && Undisturbed(s) && n in s.tasks && Holding(s.tasks[n])
    ensures SmoothRun(c, s, steps)
    ensures var t := After(c, s, steps);
            Undisturbed(t) && t.tasks.Keys == s.tasks.Keys && n in t.tasks && t.tasks[n].Sending?
  {
    if s.tasks[n].Sending? {
      steps := [];
    } else {
      steps := ReadAndSend(c, s, n);
    }
  }

  lemma {:induction false} ReadAndSend(c: Config, s: State, n: nat) returns (steps: seq<Step>)
    requires c.Valid() && Inv(c, s) && Undisturbed(s) && n in s.tasks && s.tasks[n].Reading?
    ensures SmoothRun(c, s, steps)
    ensures var t := After(c, s, steps);
            Undisturbed(t) && t.tasks.Keys == s.tasks.Keys && n in t.tasks && t.tasks[n].Sending?
  {
    hide EndInv, FileInv, TasksInv, PartsInv, PartitionInv, AccountInv, ListInv, AcknowledgedInv, CompletionInv, Length;
    var count := ReadRest(c, s, n);
    var read := s;
    steps := [];
    if count > 0 {
      StepOn(c, s, [], Read(n, count));
      read := Do(c, s, Read(n, count));
      assert read.tasks.Keys == s.tasks.Keys;
      steps := [] + [Read(n, count)];
    }
    StepOn(c, s, steps, Send(n));
    assert Do(c, read, Send(n)).tasks.Keys == read.tasks.Keys;
    steps := steps + [Send(n)];
  }

  lemma {:induction false} CanAnswer(c: Config, s: State, n: nat, etag: ETag)
    requires c.Valid() && Undisturbed(s) && n in s.tasks && s.tasks[n].Sending? && etag !in s.end.server.issued
    ensures Can(c, s, Answer(n, etag))
    ensures var t := Do(c, s, Answer(n, etag));
            && Undisturbed(t) && t.tasks.Keys == s.tasks.Keys
            && n in t.tasks && t.tasks[n].Sending? && etag in t.tasks[n].replies
  {
    var t := AnswerPart(s, n, etag);
    assert t.tasks.Keys == s.tasks.Keys;
  }

  lemma {:induction false} Delivers(c: Config, s: State, n: nat, etag: ETag)
    requires c.Valid() && Undisturbed(s) && CanDeliver(c, s, n, etag)
    ensures Can(c, s, Deliver(n, etag))
    ensures var t := Do(c, s, Deliver(n, etag)); Undisturbed(t) && t.tasks.Keys == s.tasks.Keys - {n}
  {
    hide Length;
    assert DeliverPart(c, s, n, etag).tasks.Keys == s.tasks.Keys - {n};
  }

  lemma {:induction false} AnswerAndDeliver(c: Config, s: State, n: nat) returns (steps: seq<Step>)
    requires c.Valid() && Inv(c, s) && Undisturbed(s) && n in s.tasks && s.tasks[n].Sending?
    ensures SmoothRun(c, s, steps)
    ensures var t := After(c, s, steps); Undisturbed(t) && t.tasks.Keys == s.tasks.Keys - {n}
  {
    hide Inv, Can, Do, Runs, After;
    PlannedTask(c, s, n);
    NoSteps(c, s);
    var etag := UnusedETag(s.end.server.issued.Keys);
    CanAnswer(c, s, n, etag);
    StepOn(c, s, [], Answer(n, etag));
    Delivers(c, Do(c, s, Answer(n, etag)), n, etag);
    StepOn(c, s, [] + [Answer(n, etag)], Deliver(n, etag));
    steps := [] + [Answer(n, etag)] + [Deliver(n, etag)];
  }

  lemma {:induction false} PlannedTask(c: Config, s: State, n: nat)
    requires c.Valid() && Inv(c, s) && n in s.tasks
    ensures Planned(c.Plan(), n)
  {
    assert TaskOk(c, s.start.content, SameSource(s), s.end.server, s.bodies, n, s.tasks[n]);
  }

  lemma {:induction false} RunKeepsAll(c: Config, s: State, steps: seq<Step>)
    requires c.Valid() && Inv(c, s) && SmoothRun(c, s, steps)
    ensures Inv(c, After(c, s, steps))
  {
    RunKeeps(c, s, steps);
  }

  /** One missing part goes all the way. */
  lemma {:induction false} OnePartGoesOn(c: Config, s: State) returns (steps: seq<Step>)
    requires c.Valid() && Inv(c, s) && Undisturbed(s) && s.tasks != map[]
    ensures SmoothRun(c, s, steps) && Undisturbed(After(c, s, steps))
    ensures |After(c, s, steps).tasks.Keys| < |s.tasks.Keys|
  {
    hide Inv, Runs, After, Undisturbed, Holding, Smooth;
    var first, n := TakeUp(c, s);
    var taken := After(c, s, first);
    RunKeepsAll(c, s, first);
    var second := SendIt(c, taken, n);
    RunsOn(c, s, first, second);
    var sent := After(c, taken, second);
    RunKeepsAll(c, taken, second);
    var third := AnswerAndDeliver(c, sent, n);
    RunsOn(c, s, first + second, third);
    steps := first + second + third;
  }

  lemma {:induction false} FinishCompletes(c: Config, s: State)
    requires c.Valid() && Inv(c, s) && Undisturbed(s) && s.tasks == map[]
    ensures Can(c, s, Finish) && Do(c, s, Finish).end.phase.Completing?
  {
    hide EndInv, TasksInv, PartsInv, PartitionInv, AccountInv, ListInv, AcknowledgedInv, CompletionInv, Canonical,
      Values, Inserted, Accepts;
    AllPartsPass(c, s);
  }

  lemma {:induction false} AllPartsPass(c: Config, s: State)
    requires c.Valid() && PartitionInv(c, s) && s.work.Transferring? && s.tasks == map[]
    ensures Canonical(Values(Inserted(s.reused + s.uploaded))).Ok?
    ensures Accepts(c.Plan(), Canonical(Values(Inserted(s.reused + s.uploaded))).value)
  {
    hide Numbers, Distinct, Canonical, Values, Inserted, Accepts, AllParts;
    DistinctConcat(s.reused, s.uploaded);
    assert s.tasks.Keys == {};
    FullManifestPasses(c.Plan(), s.reused + s.uploaded);
  }

  /** From every reachable state of the transfers, while the file is unchanged and the session open,
      some continuation without any failure uploads what is missing and sends the completion: the
      pool never blocks itself. */
  lemma {:induction false} CanAlwaysComplete(c: Config, s: State) returns (steps: seq<Step>)
    requires c.Valid() && Inv(c, s) && Undisturbed(s)
    ensures SmoothRun(c, s, steps) && After(c, s, steps).end.phase.Completing?
    decreases |s.tasks.Keys|
  {
    hide Inv, Runs, After, Undisturbed, Can, Do;
    if s.tasks == map[] {
      FinishCompletes(c, s);
      NoSteps(c, s);
      StepOn(c, s, [], Finish);
      steps := [] + [Finish];
    } else {
      var first := OnePartGoesOn(c, s);
      RunKeepsAll(c, s, first);
      var rest := CanAlwaysComplete(c, After(c, s, first));
      RunsOn(c, s, first, rest);
      steps := first + rest;
    }
  }

  lemma {:induction false} NoSteps(c: Config, s: State)
    requires c.Valid()
    ensures SmoothRun(c, s, []) && After(c, s, []) == s
  {
  }

  lemma {:induction false} ReachableRunCanComplete(c: Config, source: Source, server: Server, resumed: bool,
                                                   steps: seq<Step>)
    requires Starts(c, source, server) && Runs(c, Init(c, source, server, resumed), steps)
    requires Undisturbed(After(c, Init(c, source, server, resumed), steps))
    ensures var s := After(c, Init(c, source, server, resumed), steps);
            exists more :: SmoothRun(c, s, more) && After(c, s, more).end.phase.Completing?
  {
    hide Inv, SmoothRun, Undisturbed, Runs, After;
    InitKeeps(c, source, server, resumed);
    RunKeeps(c, Init(c, source, server, resumed), steps);
    var more := CanAlwaysComplete(c, After(c, Init(c, source, server, resumed), steps));
  }
}

/** How the pool of a file upload uses its limits: in which order it takes parts, how full it gets, how
    often it tries. */
module FileUploadPool {
  import opened Basics
  import opened Plan
  import opened Manifest
  import opened Accounting
  import opened Remote
  import opened Reconcile
  import opened Listings
  import opened SessionEnd
  import opened FileUpload
  import opened FileUploadInv
  import opened FileUploadProgress

  // ----- Parts are taken in ascending order -----

  /** Everything taken up or confirmed in this run lies before everything still queued. */
  ghost predicate InOrder(s: State) {
    s.work.Transferring? ==>
      forall m :: m in s.tasks && s.tasks[m].Queued? ==>
                    && (forall n :: n in s.tasks && Holding(s.tasks[n]) ==> n < m)
                    && forall i :: 0 <= i < |s.uploaded| ==> s.uploaded[i].number < m
  }

  lemma {:induction false} BeginsInOrder(plan: MultipartPlan, s: State, reused: seq<UploadedPart>)
    requires plan.Valid()
    ensures InOrder(BeginTransfer(plan, s, reused))
  {
    hide TotalBytes, Numbers;
  }

  lemma {:induction false} PageKeepsOrder(c: Config, s: State, page: Response)
    requires c.Valid() && CanList(s, page) && SlotsFit(c.Plan(), s.work.slots)
    ensures InOrder(TakePage(c, s, page))
  {
    hide Absorb, Split, BeginTransfer;
    var absorbed := Absorb(c.Plan(), s.work.slots, page.parts);
    if absorbed.Ok? { BeginsInOrder(c.Plan(), s, Split(absorbed.value).uploaded); }
  }

  lemma {:induction false} FinishKeepsOrder(c: Config, s: State)
    requires c.Valid() && Transfers(s) && InOrder(s)
    ensures InOrder(FinishRun(c, s))
  {
    hide Canonical, Values, Inserted, Accepts;
  }

  lemma {:induction false} DeliverKeepsOrder(c: Config, s: State, n: nat, etag: ETag)
    requires c.Valid() && InOrder(s) && CanDeliver(c, s, n, etag)
    ensures InOrder(DeliverPart(c, s, n, etag))
  {
    hide Length;
    var t := DeliverPart(c, s, n, etag);
    forall m | m in t.tasks && t.tasks[m].Queued?
      ensures forall i :: 0 <= i < |t.uploaded| ==> t.uploaded[i].number < m
    {
      assert Holding(s.tasks[n]);
    }
  }

  lemma {:induction false} StepKeepsOrder(c: Config, s: State, step: Step)
    requires c.Valid() && InOrder(s) && Can(c, s, step)
    ensures InOrder(Do(c, s, step))
  {
    hide Length, FinishRun, TakePage, DeliverPart, PageOf, Serve, CanServe, CanEnd, DoEnd;
    match step
    case ListPage(page) => PageKeepsOrder(c, s, page);
    case Finish => FinishKeepsOrder(c, s);
    case Deliver(n, etag) => DeliverKeepsOrder(c, s, n, etag);
    case _ =>
  }

  lemma {:induction false} RunKeepsOrder(c: Config, s: State, steps: seq<Step>)
    requires c.Valid() && InOrder(s) && Runs(c, s, steps)
    ensures InOrder(After(c, s, steps))
    decreases |steps|
  {
    hide InOrder, Can, Do;
    if steps != [] {
      StepKeepsOrder(c, s, steps[0]);
      RunKeepsOrder(c, Do(c, s, steps[0]), steps[1..]);
    }
  }

  /** In every run the pool takes up the missing parts in ascending order. */
  lemma {:induction false} PartsAreTakenInOrder(c: Config, source: Source, server: Server, resumed: bool,
                                                steps: seq<Step>, n: nat)
    requires Starts(c, source, server) && Runs(c, Init(c, source, server, resumed), steps)
    requires Can(c, After(c, Init(c, source, server, resumed), steps), Admit(n))
    ensures var s := After(c, Init(c, source, server, resumed), steps);
            && (forall m :: m in s.tasks && m < n ==> Holding(s.tasks[m]))
            && (forall m :: m in s.tasks && m > n ==> s.tasks[m].Queued?)
            && forall i :: 0 <= i < |s.uploaded| ==> s.uploaded[i].number < n
  {
    hide Runs, After;
    var init := Init(c, source, server, resumed);
    if !resumed { BeginsInOrder(c.Plan(), Init(c, source, server, true), []); }
    RunKeepsOrder(c, init, steps);
  }

  // ----- The pool fills up -----

  lemma {:induction false} NextQueued(tasks: map<nat, Task>) returns (n: nat)
    requires Active(tasks) != tasks.Keys
    ensures n in tasks && tasks[n].Queued? && forall m :: m in tasks && tasks[m].Queued? ==> n <= m
  {
    var queued := tasks - Active(tasks);
    assert forall m :: m in tasks && m !in Active(tasks) ==> m in queued;
    assert queued != map[];
    assert Active(queued) == {};
    n := LeastQueued(queued);
  }

  /** The missing parts are worked on `concurrency` at a time if there are that many: from every state of
      the transfers the pool can fill up to its limit, and by `PoolFits` never beyond. */
  lemma {:induction false} PoolFillsUp(c: Config, s: State) returns (steps: seq<Step>)
    requires c.Valid() && Transfers(s) && |Active(s.tasks)| <= c.concurrency
    ensures Runs(c, s, steps)
    ensures |Active(After(c, s, steps).tasks)| == Min(c.concurrency, |s.tasks.Keys|)
    ensures After(c, s, steps) == s.(tasks := After(c, s, steps).tasks) && After(c, s, steps).tasks.Keys == s.tasks.Keys
    decreases c.concurrency - |Active(s.tasks)|
  {
    SubsetSize(Active(s.tasks), s.tasks.Keys);
    if |Active(s.tasks)| == c.concurrency || Active(s.tasks) == s.tasks.Keys {
      steps := [];
    } else {
      SmallerSubset(Active(s.tasks), s.tasks.Keys);
      var n := NextQueued(s.tasks);
      var t := Do(c, s, Admit(n));
      assert Active(t.tasks) == Active(s.tasks) + {n};
      assert t.tasks.Keys == s.tasks.Keys;
      var rest := PoolFillsUp(c, t);
      steps := [Admit(n)] + rest;
      assert steps[0] == Admit(n) && steps[1..] == rest;
    }
  }

  lemma {:induction false} SmallerSubset(small: set<nat>, large: set<nat>)
    requires small <= large && small != large
    ensures |small| < |large|
  {
    var x :| x in large && x !in small;
    SubsetSize(small, large - {x});
  }

  // ----- Attempts -----

  /** A part request can be retried until all of its attempts are used, and not once more; an answer to
      an attempt that was given up is not taken for one to the next. */
  lemma {:induction false} AttemptsCanBeUsedUp(c: Config, s: State, n: nat) returns (steps: seq<Step>)
    requires c.Valid() && InFlight(s, n) && s.tasks[n].attempt <= c.maxAttempts
    ensures Runs(c, s, steps) && |steps| == c.maxAttempts - s.tasks[n].attempt
    ensures forall i :: 0 <= i < |steps| ==> steps[i] == Retry(n)
    ensures var t := After(c, s, steps);
            && InFlight(t, n) && t.tasks[n].attempt == c.maxAttempts && t.tasks[n].bytes == s.tasks[n].bytes
            && !Can(c, t, Retry(n)) && (steps != [] ==> forall etag :: !Can(c, t, Deliver(n, etag)))
    decreases c.maxAttempts - s.tasks[n].attempt
  {
    if s.tasks[n].attempt == c.maxAttempts {
      steps := [];
    } else {
      var rest := AttemptsCanBeUsedUp(c, Do(c, s, Retry(n)), n);
      steps := [Retry(n)] + rest;
      assert steps[0] == Retry(n) && steps[1..] == rest;
    }
  }

  // ----- Requests that arrive late -----

  lemma {:induction false} BodiesStay(c: Config, s: State, steps: seq<Step>)
    requires c.Valid() && Runs(c, s, steps)
    ensures s.bodies <= After(c, s, steps).bodies
    decreases |steps|
  {
    if steps != [] {
      OneStepBodies(c, s, steps[0]);
      hide Can, Do;
      BodiesStay(c, Do(c, s, steps[0]), steps[1..]);
    }
  }

  lemma {:induction false} OneStepBodies(c: Config, s: State, step: Step)
    requires c.Valid() && Can(c, s, step)
    ensures s.bodies <= Do(c, s, step).bodies
  {
    hide Canonical, Values, Inserted, Accepts, Absorb, Split, TotalBytes, Numbers, PageOf,
      Serve, CanServe, CanEnd, DoEnd;
  }

  /** A part request that was ever sent can still be applied at any later moment of this or a later run,
      as long as the session is open. */
  lemma {:induction false} SentPartsCanArriveLate(c: Config, s: State, n: nat, steps: seq<Step>)
    requires c.Valid() && Can(c, s, Send(n)) && Runs(c, Do(c, s, Send(n)), steps)
    requires After(c, Do(c, s, Send(n)), steps).end.server.status.Open?
    ensures exists etag :: etag != "" && Can(c, After(c, Do(c, s, Send(n)), steps), LateCopy(n, s.tasks[n].got, etag))
  {
    hide Runs, After, Length;
    var sent := Do(c, s, Send(n));
    BodiesStay(c, sent, steps);
    var t := After(c, sent, steps);
    var etag := UnusedETag(t.end.server.issued.Keys);
    assert Can(c, t, LateCopy(n, s.tasks[n].got, etag));
  }

  // ----- What others can change -----

  /** The store, other clients and whoever writes the file change nothing of the run itself: only the
      file, the store, and which answers are on their way. */
  lemma {:induction false} OthersLeaveTheRun(c: Config, s: State, step: Step)
    requires c.Valid() && Can(c, s, step) && Outside(step)
    ensures var t := Do(c, s, step);
            && t == s.(source := t.source, end := t.end, tasks := t.tasks) && t.tasks.Keys == s.tasks.Keys
            && t.end == s.end.(server := t.end.server, answered := t.end.answered)
            && forall n :: n in s.tasks ==>
                 t.tasks[n] == s.tasks[n] ||
                 (s.tasks[n].Sending? && t.tasks[n].Sending?
                  && t.tasks[n] == s.tasks[n].(replies := t.tasks[n].replies))
  {
    hide Serve, CanServe, Length;
  }

  /** The file is newer than at the start and no completion has been sent. */
  predicate Outdated(s: State) {
    s.start.modified < s.source.modified && s.end.inFlight.None? && !s.end.phase.Completing?
    && s.end.phase != Ended(Succeeded)
  }

  lemma {:induction false} StaysOutdated(c: Config, s: State, step: Step)
    requires c.Valid() && Can(c, s, step) && Outdated(s) && !step.Resume?
    ensures Outdated(Do(c, s, step))
  {
    hide Absorb, Split, SlotsFit, TotalBytes, Numbers, Canonical, Accepts, PageOf, Serve, CanServe;
  }

  lemma {:induction false} RunStaysOutdated(c: Config, s: State, steps: seq<Step>)
    requires c.Valid() && Runs(c, s, steps) && Outdated(s) && Resume !in steps
    ensures Outdated(After(c, s, steps))
    decreases |steps|
  {
    if steps != [] {
      StaysOutdated(c, s, steps[0]);
      hide Can, Do;
      RunStaysOutdated(c, Do(c, s, steps[0]), steps[1..]);
    }
  }

  /** The file can be changed at any moment. If that happens before all parts are in and checked, this run
      never sends a completion and does not succeed, whatever else happens. */
  lemma {:induction false} ChangedFileIsNotCompleted(c: Config, s: State, source: Source, steps: seq<Step>)
    requires c.Valid() && Inv(c, s) && source.modified > s.source.modified
    ensures Can(c, s, Touch(source)) && Do(c, s, Touch(source)) == s.(source := source)
    ensures s.end.phase.Working? && Runs(c, s.(source := source), steps) && Resume !in steps ==>
              var e := After(c, s.(source := source), steps).end;
              e.inFlight.None? && e.phase != Ended(Succeeded)
  {
    hide Runs, After;
    var t := s.(source := source);
    if s.end.phase.Working? && Runs(c, t, steps) && Resume !in steps {
      RunStaysOutdated(c, t, steps);
    }
  }
}

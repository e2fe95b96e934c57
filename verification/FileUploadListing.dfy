/** The listing with which a resumed run starts is the reconcile loop, whatever happens in between. */
module FileUploadListing {
  import opened Basics
  import opened Plan
  import opened Manifest
  import opened Remote
  import opened Reconcile
  import opened Listings
  import opened StaysComplete
  import opened SessionEnd
  import opened FileUpload
  import opened FileUploadInv
  import opened FileUploadProgress

  // ----- A run's pages and the walk over them -----

  /** The listing pages among the steps of a run, in order. */
  function PagesOf(steps: seq<Step>): seq<Response> {
    if steps == [] then []
    else (if steps[0].ListPage? then [steps[0].page] else []) + PagesOf(steps[1..])
  }

  /** The marker of the next request: the last page's next marker. */
  function MarkerAfter(marker: nat, pages: seq<Response>): nat
    decreases |pages|
  {
    if pages == [] then marker
    else MarkerAfter(if pages[0].Page? && pages[0].next.Some? then pages[0].next.value else marker, pages[1..])
  }

  lemma {:induction false} NoResumeAfter(steps: seq<Step>)
    requires steps != [] && Resume !in steps
    ensures !steps[0].Resume? && Resume !in steps[1..]
  {
    assert steps[0] in steps && forall i :: 0 <= i < |steps[1..]| ==> steps[1..][i] == steps[i + 1];
  }

  /** Only a listing page changes which work is done and which parts are reused. */
  lemma {:induction false} OtherStepsKeepWork(c: Config, s: State, step: Step)
    requires c.Valid() && Can(c, s, step) && !step.ListPage? && !step.Resume?
    ensures Do(c, s, step).work == s.work && Do(c, s, step).reused == s.reused
  {
    hide Canonical, Values, Inserted, Accepts, Serve, CanServe, DoEnd, CanEnd;
  }

  predicate GivenUpWith(e: End, error: Error) {
    e.phase == CleaningUp(error) || (e.phase.Ended? && e.phase.outcome.Failed? && e.phase.outcome.error == error)
  }

  lemma {:induction false} GivenUpStays(c: Config, s: State, step: Step, error: Error)
    requires c.Valid() && Can(c, s, step) && !step.Resume? && GivenUpWith(s.end, error)
    ensures !step.ListPage? && GivenUpWith(Do(c, s, step).end, error)
  {
    hide Serve, CanServe;
  }

  lemma {:induction false} ListingIsOver(c: Config, s: State, steps: seq<Step>)
    requires c.Valid() && Runs(c, s, steps) && Resume !in steps && s.work.Transferring?
    ensures PagesOf(steps) == [] && After(c, s, steps).work.Transferring? && After(c, s, steps).reused == s.reused
    decreases |steps|
  {
    if steps != [] {
      NoResumeAfter(steps);
      OtherStepsKeepWork(c, s, steps[0]);
      hide Can, Do;
      ListingIsOver(c, Do(c, s, steps[0]), steps[1..]);
    }
  }

  lemma {:induction false} ListingFailed(c: Config, s: State, steps: seq<Step>, error: Error)
    requires c.Valid() && Runs(c, s, steps) && Resume !in steps && s.work.Listing? && GivenUpWith(s.end, error)
    ensures PagesOf(steps) == [] && After(c, s, steps).work == s.work && GivenUpWith(After(c, s, steps).end, error)
    decreases |steps|
  {
    hide Can, Do, GivenUpWith;
    if steps != [] {
      NoResumeAfter(steps);
      GivenUpStays(c, s, steps[0], error);
      OtherStepsKeepWork(c, s, steps[0]);
      ListingFailed(c, Do(c, s, steps[0]), steps[1..], error);
    }
  }

  /** One page does to the run what it does to the walk. */
  lemma {:induction false} PageIsOneRound(c: Config, s: State, page: Response, more: seq<Response>)
    requires c.Valid() && CanList(s, page) && SlotsFit(c.Plan(), s.work.slots)
    ensures var t, walked := TakePage(c, s, page), Walk(c.Plan(), s.work.slots, [page] + more);
            if t.end.phase.CleaningUp? then
              t.work == s.work && walked == Finished(Err(t.end.phase.error))
            else if t.work.Transferring? then
              t.end == s.end && exists r :: walked == Finished(Ok(r)) && t.reused == r.uploaded
            else
              && t.end == s.end && page.next.Some? && t.work.marker == page.next.value
              && SlotsFit(c.Plan(), t.work.slots) && walked == Walk(c.Plan(), t.work.slots, more)
  {
    hide Absorb, Split, TotalBytes, Numbers;
    assert ([page] + more)[0] == page && ([page] + more)[1..] == more;
  }

  /** What the walk says, the run did. */
  ghost predicate Follows(c: Config, s: State, pages: seq<Response>, t: State)
    requires c.Valid() && s.work.Listing? && SlotsFit(c.Plan(), s.work.slots)
  {
    match Walk(c.Plan(), s.work.slots, pages)
    case Waiting => t.work.Listing? && t.work.marker == MarkerAfter(s.work.marker, pages)
    case Finished(Ok(r)) => t.work.Transferring? && t.reused == r.uploaded
    case Finished(Err(error)) => t.work.Listing? && GivenUpWith(t.end, error)
  }

  lemma {:induction false} OnePageFollows(c: Config, s: State, page: Response, steps: seq<Step>)
    requires c.Valid() && CanList(s, page) && SlotsFit(c.Plan(), s.work.slots) && Resume !in steps
    requires Runs(c, TakePage(c, s, page), steps)
    requires var t := TakePage(c, s, page);
             t.end.phase.Working? && t.work.Listing? && SlotsFit(c.Plan(), t.work.slots) ==>
               Follows(c, t, PagesOf(steps), After(c, t, steps))
    ensures Follows(c, s, [page] + PagesOf(steps), After(c, TakePage(c, s, page), steps))
  {
    hide Walk, TakePage, Runs, After, Can, Do, SlotsFit;
    var t := TakePage(c, s, page);
    var pages := PagesOf(steps);
    PageIsOneRound(c, s, page, pages);
    assert ([page] + pages)[0] == page && ([page] + pages)[1..] == pages;
    if t.end.phase.CleaningUp? {
      ListingFailed(c, t, steps, t.end.phase.error);
    } else if t.work.Transferring? {
      ListingIsOver(c, t, steps);
    }
  }

  /** In any run the listing does what the reconcile loop says of the pages taken so far, whatever
      happens between them: it waits at the last page's marker, or fails with the loop's error, or goes
      over to the transfers with exactly the loop's uploaded parts. */
  lemma {:induction false} ListingFollowsWalk(c: Config, s: State, steps: seq<Step>)
    requires c.Valid() && Inv(c, s) && s.work.Listing? && Runs(c, s, steps) && Resume !in steps
    ensures SlotsFit(c.Plan(), s.work.slots) && Follows(c, s, PagesOf(steps), After(c, s, steps))
    decreases |steps|
  {
    ListingHasSlots(c, s);
    if steps != [] {
      NoResumeAfter(steps);
      StepKeeps(c, s, steps[0]);
      if steps[0].ListPage? {
        PageStep(c, s, steps);
      } else {
        OtherStep(c, s, steps);
      }
    }
  }

  lemma {:induction false} ListingHasSlots(c: Config, s: State)
    requires c.Valid() && Inv(c, s) && s.work.Listing?
    ensures SlotsFit(c.Plan(), s.work.slots)
  {
    hide EndInv, FileInv, TasksInv, PartsInv, PartitionInv, AccountInv, AcknowledgedInv, CompletionInv;
  }

  lemma {:induction false} PageStep(c: Config, s: State, steps: seq<Step>)
    requires c.Valid() && Inv(c, s) && s.work.Listing? && SlotsFit(c.Plan(), s.work.slots)
    requires steps != [] && Runs(c, s, steps) && Resume !in steps && steps[0].ListPage? && Inv(c, Do(c, s, steps[0]))
    ensures Follows(c, s, PagesOf(steps), After(c, s, steps))
    decreases |steps|, 0
  {
    hide Inv, Follows, TakePage, PageOf;
    NoResumeAfter(steps);
    var t := Do(c, s, steps[0]);
    assert t == TakePage(c, s, steps[0].page);
    if t.work.Listing? { ListingFollowsWalk(c, t, steps[1..]); }
    OnePageFollows(c, s, steps[0].page, steps[1..]);
  }

  lemma {:induction false} OtherStep(c: Config, s: State, steps: seq<Step>)
    requires c.Valid() && Inv(c, s) && s.work.Listing? && SlotsFit(c.Plan(), s.work.slots)
    requires steps != [] && Runs(c, s, steps) && Resume !in steps && !steps[0].ListPage? && Inv(c, Do(c, s, steps[0]))
    ensures Follows(c, s, PagesOf(steps), After(c, s, steps))
    decreases |steps|, 0
  {
    hide Inv, Can, Do;
    NoResumeAfter(steps);
    OtherStepsKeepWork(c, s, steps[0]);
    ListingFollowsWalk(c, Do(c, s, steps[0]), steps[1..]);
    assert PagesOf(steps) == PagesOf(steps[1..]);
  }

  /** The same from the start of a resumed run. */
  lemma {:induction false} ResumedRunReconciles(c: Config, source: Source, server: Server, steps: seq<Step>)
    requires Starts(c, source, server) && Runs(c, Init(c, source, server, true), steps) && Resume !in steps
    ensures var t, pages := After(c, Init(c, source, server, true), steps), PagesOf(steps);
            match Walk(c.Plan(), NoSlots(c.Plan()), pages)
            case Waiting => t.work.Listing? && t.work.marker == MarkerAfter(0, pages)
            case Finished(Ok(r)) => t.work.Transferring? && t.reused == r.uploaded
            case Finished(Err(error)) => t.work.Listing? && GivenUpWith(t.end, error)
  {
    hide Inv, Walk, Runs, After;
    InitKeeps(c, source, server, true);
    ListingFollowsWalk(c, Init(c, source, server, true), steps);
  }

  // ----- A listing can always be finished -----

  /** The entries of the stored parts after the marker, up to number `k`. */
  function Entries(s: Server, marker: nat, k: nat): seq<RemotePart> {
    if k <= marker then []
    else
      Entries(s, marker, k - 1) +
      if k in s.parts then [RemotePart(Some(k), Some(|s.parts[k].bytes|), Some(s.parts[k].etag))] else []
  }

  lemma {:induction false} EntriesShow(s: Server, marker: nat, k: nat)
    ensures forall i :: 0 <= i < |Entries(s, marker, k)| ==>
                          Shows(s, marker, Entries(s, marker, k)[i]) && Entries(s, marker, k)[i].number.value <= k
    ensures AscendingEntries(Entries(s, marker, k))
  {
    if k > marker { EntriesShow(s, marker, k - 1); }
  }

  lemma {:induction false} EntriesCover(s: Server, marker: nat, k: nat, n: nat)
    requires n in s.parts && marker < n <= k
    ensures ListsNumber(Entries(s, marker, k), n)
  {
    var entries := Entries(s, marker, k);
    if n == k {
      assert entries[|entries| - 1].number == Some(n);
    } else {
      EntriesCover(s, marker, k - 1, n);
      var fewer := Entries(s, marker, k - 1);
      var i :| 0 <= i < |fewer| && fewer[i].number == Some(n);
      assert entries[i].number == Some(n);
    }
  }

  /** The page that shows everything left. */
  function LastPage(plan: MultipartPlan, s: Server, marker: nat): Response {
    Page(Entries(s, marker, plan.partCount), Some(false), None)
  }

  lemma {:induction false} LastPageIsPossible(plan: MultipartPlan, s: Server, marker: nat)
    requires plan.Valid() && Conforms(plan, s)
    ensures PageOf(s, marker, LastPage(plan, s, marker))
    ensures WindowConforms(plan, s, marker, LastPage(plan, s, marker))
  {
    hide Length, Shows;
    EntriesShow(s, marker, plan.partCount);
    forall n | n in s.parts && marker < n
      ensures ListsNumber(LastPage(plan, s, marker).parts, n)
    {
      assert PartConforms(plan, s, n);
      EntriesCover(s, marker, plan.partCount, n);
    }
  }

  lemma {:induction false} LastPageIsTaken(c: Config, s: State)
    requires c.Valid() && s.work.Listing? && SlotsFit(c.Plan(), s.work.slots) && Within(s.work.slots, s.work.marker)
    requires s.end.phase.Working? && Conforms(c.Plan(), s.end.server)
    ensures var page := LastPage(c.Plan(), s.end.server, s.work.marker);
            && Can(c, s, ListPage(page)) && Do(c, s, ListPage(page)).work.Transferring?
            && Do(c, s, ListPage(page)).end == s.end && Do(c, s, ListPage(page)).source == s.source
            && Do(c, s, ListPage(page)).start == s.start
  {
    hide PageOf, WindowConforms, Conforms, Absorb, Split, Entries, TotalBytes, Numbers;
    var page := LastPage(c.Plan(), s.end.server, s.work.marker);
    LastPageIsPossible(c.Plan(), s.end.server, s.work.marker);
    ConformingPageIsAccepted(c.Plan(), s.work.slots, page, s.work.marker, s.end.server);
  }

  /** While the file is unchanged, the session open and what it stores fits the plan, a run that is still
      listing can finish the listing, reuse what is there, upload the rest and send the completion. */
  lemma {:induction false} ListingCanComplete(c: Config, s: State) returns (page: Response, steps: seq<Step>)
    requires c.Valid() && Inv(c, s) && s.work.Listing? && s.end.phase.Working?
    requires s.end.server.status.Open? && SameSource(s) && Conforms(c.Plan(), s.end.server)
    ensures Runs(c, s, [ListPage(page)] + steps) && (forall i :: 0 <= i < |steps| ==> Smooth(steps[i]))
    ensures After(c, s, [ListPage(page)] + steps).end.phase.Completing?
  {
    hide Can, Do, EndInv, FileInv, TasksInv, PartsInv, PartitionInv, AccountInv, AcknowledgedInv, CompletionInv;
    page := LastPage(c.Plan(), s.end.server, s.work.marker);
    LastPageIsTaken(c, s);
    StepKeeps(c, s, ListPage(page));
    steps := CanAlwaysComplete(c, Do(c, s, ListPage(page)));
    assert ([ListPage(page)] + steps)[0] == ListPage(page) && ([ListPage(page)] + steps)[1..] == steps;
  }

  lemma {:induction false} ResumedRunCanComplete(c: Config, source: Source, server: Server, steps: seq<Step>)
    requires Starts(c, source, server) && Runs(c, Init(c, source, server, true), steps)
    requires var s := After(c, Init(c, source, server, true), steps);
             && s.work.Listing? && s.end.phase.Working? && s.end.server.status.Open? && SameSource(s)
             && Conforms(c.Plan(), s.end.server)
    ensures var s := After(c, Init(c, source, server, true), steps);
            exists more :: Runs(c, s, more) && After(c, s, more).end.phase.Completing?
  {
    hide Inv, Conforms, Runs, After;
    InitKeeps(c, source, server, true);
    RunKeeps(c, Init(c, source, server, true), steps);
    var page, rest := ListingCanComplete(c, After(c, Init(c, source, server, true), steps));
  }
}

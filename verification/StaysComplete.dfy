/** Whether a session that was reported complete stays complete while other clients go on. */
module StaysComplete {
  import opened Basics
  import opened Plan
  import opened Manifest
  import opened Remote
  import opened Reconcile
  import opened Listings

  // ----- No part is missed again -----

  lemma {:induction false} CompleteIsStored(plan: MultipartPlan, log: seq<Exchange>, end: Server)
    requires plan.Valid() && Racing(log, 0, end)
    requires var walked := Walk(plan, NoSlots(plan), Responses(log));
             walked.Finished? && walked.result.Ok? && walked.result.value.IsComplete()
    ensures AllParts(plan) <= end.parts.Keys
  {
    var r := Walk(plan, NoSlots(plan), Responses(log)).result.value;
    if log != [] { NothingKnown(plan, log[0].server); }
    RacingKnows(plan, NoSlots(plan), log, 0, end, {});
    ReconcileIsExact(plan, Responses(log));
    CompleteListsAll(plan, r);
    forall n | n in AllParts(plan)
      ensures n in end.parts
    {
      assert n in Numbers(r.uploaded);
      var i :| 0 <= i < |r.uploaded| && r.uploaded[i].number as nat == n;
      assert r.uploaded[i] in r.uploaded;
    }
  }

  /** Once `reconcile` has reported a session complete, no later `reconcile` of it ever reports a
      part missing: what is stored stays stored. */
  lemma {:induction false} CompleteNeverMissesAgain(plan: MultipartPlan, log: seq<Exchange>, between: Server,
                                                    later: seq<Exchange>, end: Server)
    requires plan.Valid() && Racing(log, 0, between) && Racing(later, 0, end)
    requires later != [] ==> Evolves(between, later[0].server)
    requires var walked := Walk(plan, NoSlots(plan), Responses(log));
             walked.Finished? && walked.result.Ok? && walked.result.value.IsComplete()
    requires var again := Walk(plan, NoSlots(plan), Responses(later)); again.Finished? && again.result.Ok?
    ensures Walk(plan, NoSlots(plan), Responses(later)).result.value.IsComplete()
  {
    hide Walk, Racing, Partitions, Known, Caught;
    CompleteIsStored(plan, log, between);
    if later != [] { NothingKnown(plan, later[0].server); }
    assert Caught(AllParts(plan), NoSlots(plan), 0) by { NothingCaught(plan, AllParts(plan)); }
    RacingKnows(plan, NoSlots(plan), later, 0, end, AllParts(plan));
    ReconcileIsExact(plan, Responses(later));
    CompleteListsAll(plan, Walk(plan, NoSlots(plan), Responses(later)).result.value);
  }

  lemma {:induction false} NothingCaught(plan: MultipartPlan, expected: set<nat>)
    ensures Caught(expected, NoSlots(plan), 0)
  {
  }

  // ----- When the next listing reports it complete -----

  /** The stored part fits the plan. */
  predicate PartConforms(plan: MultipartPlan, s: Server, n: nat)
    requires plan.Valid() && n in s.parts
  {
    Planned(plan, n) && |s.parts[n].bytes| == Length(plan, n) && s.parts[n].etag != ""
  }

  /** The page speaks of this number: it lies after the marker and not after the next one. */
  predicate InWindow(marker: nat, page: Response, n: nat)
    requires page.Page?
  {
    marker < n && (page.truncated == Some(true) && page.next.Some? ==> n <= page.next.value)
  }

  /** What was stored between the page's marker and its next marker at the moment of the answer. */
  ghost predicate WindowConforms(plan: MultipartPlan, s: Server, marker: nat, page: Response)
    requires plan.Valid() && page.Page?
  {
    forall n :: n in s.parts && InWindow(marker, page, n) ==> PartConforms(plan, s, n)
  }

  /** On every page, each number stored at that moment between its marker and its next marker fits
      the plan. */
  ghost predicate PagesConform(plan: MultipartPlan, log: seq<Exchange>, marker: nat)
    requires plan.Valid()
    decreases |log|
  {
    log != [] && log[0].response.Page? ==>
      && WindowConforms(plan, log[0].server, marker, log[0].response)
      && (log[0].response.truncated == Some(true) && log[0].response.next.Some? ==>
            PagesConform(plan, log[1..], log[0].response.next.value))
  }

  lemma {:induction false} AcceptedPageConforms(plan: MultipartPlan, slots: Slots, page: Response, marker: nat,
                                                s: Server)
    requires plan.Valid() && SlotsFit(plan, slots) && PageOf(s, marker, page) && Absorb(plan, slots, page.parts).Ok?
    ensures WindowConforms(plan, s, marker, page)
  {
    AbsorbIsExact(plan, slots, page.parts);
    forall n | n in s.parts && InWindow(marker, page, n)
      ensures PartConforms(plan, s, n)
    {
      assert ListsNumber(page.parts, n);
      var i :| 0 <= i < |page.parts| && page.parts[i].number == Some(n);
      assert Shows(s, marker, page.parts[i]);
    }
  }

  lemma {:induction false} ConformingPageIsAccepted(plan: MultipartPlan, slots: Slots, page: Response,
                                                    marker: nat, s: Server)
    requires plan.Valid() && SlotsFit(plan, slots) && Within(slots, marker) && PageOf(s, marker, page)
    requires WindowConforms(plan, s, marker, page)
    ensures Absorb(plan, slots, page.parts).Ok?
  {
    forall i | 0 <= i < |page.parts|
      ensures CheckEntry(plan, page.parts[i]).Ok? && !Filled(slots, CheckEntry(plan, page.parts[i]).value.number)
    {
      assert Shows(s, marker, page.parts[i]);
      assert PartConforms(plan, s, page.parts[i].number.value);
    }
    AbsorbIsExact(plan, slots, page.parts);
  }

  lemma {:induction false} AcceptedPagesConform(plan: MultipartPlan, slots: Slots, log: seq<Exchange>,
                                                marker: nat, end: Server)
    requires plan.Valid() && SlotsFit(plan, slots) && Racing(log, marker, end)
    requires var walked := Walk(plan, slots, Responses(log)); walked.Finished? && walked.result.Ok?
    ensures PagesConform(plan, log, marker)
    decreases |log|
  {
    hide WindowConforms;
    var page := log[0].response;
    AcceptedPageConforms(plan, slots, page, marker, log[0].server);
    if page.truncated == Some(true) {
      assert Responses(log)[1..] == Responses(log[1..]);
      AcceptedPagesConform(plan, Absorb(plan, slots, page.parts).value, log[1..], page.next.value, end);
    }
  }

  lemma {:induction false} ConformingPagesAreAccepted(plan: MultipartPlan, slots: Slots, log: seq<Exchange>,
                                                      marker: nat, end: Server, k: nat)
    requires plan.Valid() && SlotsFit(plan, slots) && Racing(log, marker, end) && Within(slots, marker)
    requires EndsAt(Responses(log), k) && PagesConform(plan, log, marker)
    ensures var walked := Walk(plan, slots, Responses(log)); walked.Finished? && walked.result.Ok?
    decreases |log|
  {
    hide WindowConforms;
    var page := log[0].response;
    ConformingPageIsAccepted(plan, slots, page, marker, log[0].server);
    if k > 0 {
      assert Responses(log)[1..] == Responses(log[1..]);
      FilledGrows(plan, slots, page.parts);
      assert EndsAt(Responses(log[1..]), k - 1);
      ConformingPagesAreAccepted(plan, Absorb(plan, slots, page.parts).value, log[1..], page.next.value, end, k - 1);
    }
  }

  lemma {:induction false} NothingMissed(plan: MultipartPlan, log: seq<Exchange>, end: Server)
    requires plan.Valid() && Racing(log, 0, end) && (log != [] ==> AllParts(plan) <= log[0].server.parts.Keys)
    requires var walked := Walk(plan, NoSlots(plan), Responses(log)); walked.Finished? && walked.result.Ok?
    ensures Walk(plan, NoSlots(plan), Responses(log)).result.value.IsComplete()
  {
    hide Walk, Racing, Partitions, Known;
    if log != [] { NothingKnown(plan, log[0].server); }
    NothingCaught(plan, AllParts(plan));
    RacingKnows(plan, NoSlots(plan), log, 0, end, AllParts(plan));
    ReconcileIsExact(plan, Responses(log));
    CompleteListsAll(plan, Walk(plan, NoSlots(plan), Responses(log)).result.value);
  }

  /** Where every planned number is stored, a listing that ends reports the session complete if and
      only if every page showed only fitting parts, whatever others do between the pages. */
  lemma {:induction false} CompleteExactly(plan: MultipartPlan, log: seq<Exchange>, end: Server, k: nat)
    requires plan.Valid() && Racing(log, 0, end) && EndsAt(Responses(log), k)
    requires AllParts(plan) <= log[0].server.parts.Keys
    ensures var walked := Walk(plan, NoSlots(plan), Responses(log));
            walked.Finished? &&
            (PagesConform(plan, log, 0) <==> walked.result.Ok? && walked.result.value.IsComplete())
  {
    hide Walk, Racing, PagesConform;
    var walked := Walk(plan, NoSlots(plan), Responses(log));
    WalkIsOneListing(plan, NoSlots(plan), Responses(log), k);
    NothingKnown(plan, log[0].server);
    if PagesConform(plan, log, 0) {
      ConformingPagesAreAccepted(plan, NoSlots(plan), log, 0, end, k);
    }
    if walked.result.Ok? {
      AcceptedPagesConform(plan, NoSlots(plan), log, 0, end);
      NothingMissed(plan, log, end);
    }
  }

  /** The exact condition: after a listing that reported the session complete, a later one that ends
      reports it complete again if and only if, on every later page, each number stored at that moment
      between its marker and its next marker is planned and has its planned size and an ETag. Others
      may act at any moment of both listings. */
  lemma {:induction false} StaysCompleteExactly(plan: MultipartPlan, log: seq<Exchange>, between: Server,
                                                later: seq<Exchange>, end: Server, k: nat)
    requires plan.Valid() && Racing(log, 0, between) && Racing(later, 0, end) && EndsAt(Responses(later), k)
    requires Evolves(between, later[0].server)
    requires var walked := Walk(plan, NoSlots(plan), Responses(log));
             walked.Finished? && walked.result.Ok? && walked.result.value.IsComplete()
    ensures var again := Walk(plan, NoSlots(plan), Responses(later));
            again.Finished? &&
            (PagesConform(plan, later, 0) <==> again.result.Ok? && again.result.value.IsComplete())
  {
    hide Walk, Racing, PagesConform;
    CompleteIsStored(plan, log, between);
    CompleteExactly(plan, later, end, k);
  }

  // ----- What a caller can ask of the other clients -----

  /** A part request that keeps to the plan; completion and abort do not change what is stored. */
  predicate RequestConforms(plan: MultipartPlan, r: Request)
    requires plan.Valid()
  {
    r.StorePart? ==> Planned(plan, r.number) && |r.bytes| == Length(plan, r.number) && r.etag != ""
  }

  /** The store went on, and whatever changed fits the plan. */
  ghost predicate Gently(plan: MultipartPlan, s: Server, t: Server)
    requires plan.Valid()
  {
    && Evolves(s, t)
    && forall n :: n in t.parts ==> PartConforms(plan, t, n) || (n in s.parts && t.parts[n] == s.parts[n])
  }

  lemma {:induction false} GentlyTransitive(plan: MultipartPlan, s: Server, t: Server, u: Server)
    requires plan.Valid() && Gently(plan, s, t) && Gently(plan, t, u)
    ensures Gently(plan, s, u)
  {
    EvolvesTransitive(s, t, u);
    forall n | n in u.parts && !PartConforms(plan, u, n)
      ensures n in s.parts && u.parts[n] == s.parts[n]
    {
      assert n in t.parts && u.parts[n] == t.parts[n];
      assert !PartConforms(plan, t, n);
    }
  }

  /** Any number of conforming requests leave the store gently changed. */
  lemma {:induction false} ConformingRequestsAreGentle(plan: MultipartPlan, s: Server, requests: seq<Request>)
    requires plan.Valid() && Sound(s) && CanServeAll(s, requests)
    requires forall i :: 0 <= i < |requests| ==> RequestConforms(plan, requests[i])
    ensures Gently(plan, s, ServeAll(s, requests))
    decreases |requests|
  {
    if requests != [] {
      var t := Serve(s, requests[0]);
      ServeEvolves(s, requests[0]);
      OneGentleRequest(plan, s, requests[0]);
      ConformingRequestsAreGentle(plan, t, requests[1..]);
      GentlyTransitive(plan, s, t, ServeAll(t, requests[1..]));
    }
  }

  lemma {:induction false} OneGentleRequest(plan: MultipartPlan, s: Server, r: Request)
    requires plan.Valid() && Sound(s) && CanServe(s, r) && RequestConforms(plan, r)
    ensures Gently(plan, s, Serve(s, r))
  {
    ServeEvolves(s, r);
  }

  /** From each answer of the listing to the next, and from the last one to `end`, others stored only
      fitting parts. */
  ghost predicate Calm(plan: MultipartPlan, log: seq<Exchange>, end: Server)
    requires plan.Valid()
    decreases |log|
  {
    log != [] ==>
      && Gently(plan, log[0].server, if |log| > 1 then log[1].server else end)
      && Calm(plan, log[1..], end)
  }

  ghost predicate ConformsUpTo(plan: MultipartPlan, s: Server, marker: nat)
    requires plan.Valid()
  {
    forall n :: n in s.parts && 0 < n <= marker ==> PartConforms(plan, s, n)
  }

  ghost predicate Conforms(plan: MultipartPlan, s: Server)
    requires plan.Valid()
  {
    forall n :: n in s.parts && 0 < n ==> PartConforms(plan, s, n)
  }

  lemma {:induction false} GentlyConforms(plan: MultipartPlan, s: Server, t: Server, marker: nat)
    requires plan.Valid() && Gently(plan, s, t)
    ensures ConformsUpTo(plan, s, marker) ==> ConformsUpTo(plan, t, marker)
    ensures Conforms(plan, s) ==> Conforms(plan, t)
  {
    forall n | n in t.parts && !PartConforms(plan, t, n)
      ensures n in s.parts && !PartConforms(plan, s, n)
    {
    }
  }

  lemma {:induction false} CalmKeepsConforming(plan: MultipartPlan, log: seq<Exchange>, end: Server)
    requires plan.Valid() && log != [] && Calm(plan, log, end) && Conforms(plan, log[0].server)
    ensures Conforms(plan, end)
    decreases |log|
  {
    hide Gently, Conforms;
    GentlyConforms(plan, log[0].server, if |log| > 1 then log[1].server else end, 0);
    if |log| > 1 { CalmKeepsConforming(plan, log[1..], end); }
  }

  /** A listing with fitting pages during which others stored only fitting parts ends with a store
      that fits the plan. */
  lemma {:induction false} CalmListingConforms(plan: MultipartPlan, log: seq<Exchange>, marker: nat, end: Server,
                                               k: nat)
    requires plan.Valid() && Calm(plan, log, end) && EndsAt(Responses(log), k) && PagesConform(plan, log, marker)
    requires ConformsUpTo(plan, log[0].server, marker)
    ensures Conforms(plan, end)
    decreases |log|
  {
    var s, page := log[0].server, log[0].response;
    if k == 0 {
      assert Conforms(plan, s);
      CalmKeepsConforming(plan, log, end);
    } else {
      assert ConformsUpTo(plan, s, page.next.value);
      assert Responses(log)[1..] == Responses(log[1..]);
      assert EndsAt(Responses(log[1..]), k - 1);
      assert Responses(log)[1].Page?;
      GentlyConforms(plan, s, log[1].server, page.next.value);
      CalmListingConforms(plan, log[1..], page.next.value, end, k - 1);
    }
  }

  /** While the store fits the plan and others keep to it, every page does. */
  lemma {:induction false} CalmPagesConform(plan: MultipartPlan, log: seq<Exchange>, marker: nat, end: Server)
    requires plan.Valid() && Calm(plan, log, end) && (log != [] ==> Conforms(plan, log[0].server))
    ensures PagesConform(plan, log, marker)
    decreases |log|
  {
    if log != [] && log[0].response.Page? {
      var page := log[0].response;
      assert WindowConforms(plan, log[0].server, marker, page);
      if page.truncated == Some(true) && page.next.Some? {
        if |log| > 1 { GentlyConforms(plan, log[0].server, log[1].server, 0); }
        CalmPagesConform(plan, log[1..], page.next.value, end);
      }
    }
  }

  /** The caller's form: a session that was reported complete is reported complete by every later
      listing that ends, if from the first page of the first listing on the other clients store only
      planned numbers with their planned sizes and an ETag. */
  lemma {:induction false} StaysCompleteIfOthersConform(plan: MultipartPlan, log: seq<Exchange>, between: Server,
                                                        later: seq<Exchange>, end: Server, k: nat)
    requires plan.Valid() && Racing(log, 0, between) && Racing(later, 0, end) && EndsAt(Responses(later), k)
    requires Calm(plan, log, between) && Gently(plan, between, later[0].server) && Calm(plan, later, end)
    requires var walked := Walk(plan, NoSlots(plan), Responses(log));
             walked.Finished? && walked.result.Ok? && walked.result.value.IsComplete()
    ensures var again := Walk(plan, NoSlots(plan), Responses(later));
            again.Finished? && again.result.Ok? && again.result.value.IsComplete()
  {
    hide Walk, Racing, PagesConform, Calm, Conforms, ConformsUpTo, EndsAt;
    var j := SuccessEnds(plan, NoSlots(plan), Responses(log));
    AcceptedPagesConform(plan, NoSlots(plan), log, 0, between);
    NothingUpToZero(plan, log, j);
    CalmListingConforms(plan, log, 0, between, j);
    NothingUpToZero(plan, later, k);
    GentlyConforms(plan, between, later[0].server, 0);
    CalmPagesConform(plan, later, 0, end);
    StaysCompleteExactly(plan, log, between, later, end, k);
  }

  lemma {:induction false} NothingUpToZero(plan: MultipartPlan, log: seq<Exchange>, k: nat)
    requires plan.Valid() && EndsAt(Responses(log), k)
    ensures log != [] && ConformsUpTo(plan, log[0].server, 0)
  {
  }

  // ----- A session that stops being complete -----

  /** A plan of one part of one byte, and a listing of that part. */
  function OneByte(): (plan: MultipartPlan)
    ensures plan.Valid()
  {
    MultipartPlan(1, MIN_PART_SIZE, 1)
  }

  function OnePart(size: nat, etag: ETag): Response {
    Page([RemotePart(Some(1), Some(size), Some(etag))], Some(false), None)
  }

  lemma {:induction false} OneEntry(size: nat, etag: ETag)
    requires etag != ""
    ensures CheckEntry(OneByte(), OnePart(size, etag).parts[0]) ==
            if size == 1 then Ok(UploadedPart(1, etag)) else Err(UnexpectedSize)
  {
    var length := PartLength(OneByte(), 1);
  }

  lemma {:induction false} OneSlot(part: UploadedPart)
    requires part.number == 1
    ensures Split([Some(part)]) == Reconciliation([part], [])
  {
    var slots: Slots := [Some(part)];
    assert UploadedIn(slots, 0) == [] && MissingIn(slots, 0) == [];
  }

  lemma {:induction false} AbsorbOnePage(etag: ETag)
    requires etag != ""
    ensures Absorb(OneByte(), NoSlots(OneByte()), OnePart(1, etag).parts) == Ok([Some(UploadedPart(1, etag))])
  {
    hide CheckEntry, Length;
    OneEntry(1, etag);
    var part, parts := UploadedPart(1, etag), OnePart(1, etag).parts;
    var filled: Slots := [Some(part)];
    assert parts[1..] == [];
    assert NoSlots(OneByte())[0 := Some(part)] == filled && NoSlots(OneByte())[0].None?;
    assert Absorb(OneByte(), filled, []) == Ok(filled);
  }

  lemma {:induction false} WalkOnePage(size: nat, etag: ETag)
    requires etag != ""
    ensures Walk(OneByte(), NoSlots(OneByte()), [OnePart(size, etag)]) ==
            Finished(if size == 1 then Ok(Reconciliation([UploadedPart(1, etag)], [])) else Err(UnexpectedSize))
  {
    hide CheckEntry, Split, Length;
    OneEntry(size, etag);
    if size == 1 {
      OneSlot(UploadedPart(1, etag));
      AbsorbOnePage(etag);
    }
  }

  /** That condition can fail: a session reported complete stops being complete, while still open,
      when another client replaces a part by one of another size. */
  lemma {:induction false} CompleteCanStop()
    ensures var plan := OneByte();
            var before := Serve(Fresh(), StorePart(1, [0], "a"));
            var after := Serve(before, StorePart(1, [0, 0], "b"));
            && PageOf(before, 0, OnePart(1, "a")) && PageOf(after, 0, OnePart(2, "b"))
            && after.status.Open?
            && Walk(plan, NoSlots(plan), [OnePart(1, "a")]) == Finished(Ok(Reconciliation([UploadedPart(1, "a")], [])))
            && Walk(plan, NoSlots(plan), [OnePart(2, "b")]) == Finished(Err(UnexpectedSize))
  {
    hide Walk, PageOf, OnePart, NoSlots;
    var before := Serve(Fresh(), StorePart(1, [0], "a"));
    OnePageOf(before, 1, "a");
    OnePageOf(Serve(before, StorePart(1, [0, 0], "b")), 2, "b");
    WalkOnePage(1, "a");
    WalkOnePage(2, "b");
  }

  lemma {:induction false} OnePageOf(s: Server, size: nat, etag: ETag)
    requires s.parts.Keys == {1} && |s.parts[1].bytes| == size && s.parts[1].etag == etag
    ensures PageOf(s, 0, OnePart(size, etag))
  {
    var page := OnePart(size, etag);
    assert page.parts[0].number == Some(1);
    assert ListsNumber(page.parts, 1);
    assert forall n :: n in s.parts <==> n in s.parts.Keys;
  }
}

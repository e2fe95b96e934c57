/**
  What `reconcile` and `complete_verified` guarantee when the store answers while other clients keep
  changing the session.
  */
module Listings {
  import opened Basics
  import opened Plan
  import opened Manifest
  import opened Remote
  import opened Reconcile

  // ----- Page boundaries do not matter -----

  /** Page `k` is the first one that is not truncated, and every page before it has a cursor. */
  ghost predicate EndsAt(tape: seq<Response>, k: nat) {
    && k < |tape|
    && (forall j :: 0 <= j < k ==> tape[j].Page? && tape[j].truncated == Some(true) && tape[j].next.Some?)
    && tape[k].Page? && tape[k].truncated != Some(true)
  }

  /** All entries of pages 0 to `k`. */
  function Listed(tape: seq<Response>, k: nat): seq<RemotePart>
    requires k < |tape| && forall j :: 0 <= j <= k ==> tape[j].Page?
  {
    tape[0].parts + if k == 0 then [] else Listed(tape[1..], k - 1)
  }

  lemma {:induction false} AbsorbConcat(plan: MultipartPlan, slots: Slots, a: seq<RemotePart>, b: seq<RemotePart>)
    requires plan.Valid() && SlotsFit(plan, slots)
    ensures Absorb(plan, slots, a + b) ==
            match Absorb(plan, slots, a)
            case Err(e) => Err(e)
            case Ok(filled) => Absorb(plan, filled, b)
    decreases |a|
  {
    if a == [] {
      assert a + b == b;
    } else {
      assert (a + b)[0] == a[0] && (a + b)[1..] == a[1..] + b;
      match CheckEntry(plan, a[0])
      case Err(_) =>
      case Ok(part) =>
        if slots[part.number - 1].None? {
          AbsorbConcat(plan, slots[part.number - 1 := Some(part)], a[1..], b);
        }
    }
  }

  /** Any paging of a listing gives what the listing in one page gives. */
  lemma {:induction false} WalkIsOneListing(plan: MultipartPlan, slots: Slots, tape: seq<Response>, k: nat)
    requires plan.Valid() && SlotsFit(plan, slots) && EndsAt(tape, k)
    ensures Walk(plan, slots, tape) ==
            match Absorb(plan, slots, Listed(tape, k))
            case Err(e) => Finished(Err(e))
            case Ok(filled) => Finished(Ok(Split(filled)))
    decreases k
  {
    if k == 0 {
      assert tape[0].parts + [] == tape[0].parts;
    } else {
      AbsorbConcat(plan, slots, tape[0].parts, Listed(tape[1..], k - 1));
      var first := Absorb(plan, slots, tape[0].parts);
      if first.Ok? {
        assert EndsAt(tape[1..], k - 1);
        WalkIsOneListing(plan, first.value, tape[1..], k - 1);
      }
    }
  }

  lemma {:induction false} SuccessEnds(plan: MultipartPlan, slots: Slots, tape: seq<Response>) returns (k: nat)
    requires plan.Valid() && SlotsFit(plan, slots)
    requires Walk(plan, slots, tape).Finished? && Walk(plan, slots, tape).result.Ok?
    ensures EndsAt(tape, k)
    decreases |tape|
  {
    if tape[0].truncated != Some(true) {
      k := 0;
    } else {
      var rest := SuccessEnds(plan, Absorb(plan, slots, tape[0].parts).value, tape[1..]);
      k := rest + 1;
    }
  }

  /** `reconcile` succeeds exactly when the listing ends and all its entries are well formed,
      planned, of their planned size and distinct; then the result partitions the plan and its
      uploaded parts are exactly the listed ones. */
  lemma {:induction false} ReconcileIsExact(plan: MultipartPlan, tape: seq<Response>)
    requires plan.Valid()
    ensures var walked := Walk(plan, NoSlots(plan), tape);
            && (walked.Finished? && walked.result.Ok? <==>
                exists k :: EndsAt(tape, k) && Absorbable(plan, NoSlots(plan), Listed(tape, k)))
            && (walked.Finished? && walked.result.Ok? ==> Partitions(plan, walked.result.value))
            && forall k, p: UploadedPart :: EndsAt(tape, k) && walked.Finished? && walked.result.Ok? ==>
                (p in walked.result.value.uploaded <==> Lists(plan, Listed(tape, k), p))
  {
    var none := NoSlots(plan);
    var walked := Walk(plan, none, tape);
    forall k | EndsAt(tape, k)
      ensures walked.Finished? && (walked.result.Ok? <==> Absorbable(plan, none, Listed(tape, k)))
      ensures walked.result.Ok? ==> Partitions(plan, walked.result.value)
      ensures forall p: UploadedPart :: walked.result.Ok? ==>
        (p in walked.result.value.uploaded <==> Lists(plan, Listed(tape, k), p))
    {
      WalkIsOneListing(plan, none, tape, k);
      AbsorbIsExact(plan, none, Listed(tape, k));
      if walked.result.Ok? {
        var filled := Absorb(plan, none, Listed(tape, k)).value;
        SplitPartitions(plan, filled);
        forall p: UploadedPart
          ensures p in walked.result.value.uploaded <==> Lists(plan, Listed(tape, k), p)
        {
          SplitMembers(plan, filled, p);
          if Planned(plan, p.number) { AbsorbContents(plan, none, Listed(tape, k), p); }
        }
      }
    }
    if walked.Finished? && walked.result.Ok? {
      var k := SuccessEnds(plan, none, tape);
    }
  }

  lemma {:induction false} CompleteListsAll(plan: MultipartPlan, r: Reconciliation)
    requires plan.Valid() && Partitions(plan, r)
    ensures r.IsComplete() <==> AllParts(plan) <= Numbers(r.uploaded)
  {
    NumbersCount(r.uploaded);
    if r.IsComplete() {
      assert MissingNumbers(r) == {};
    } else {
      assert r.missing[0] as nat in MissingNumbers(r);
    }
  }

  /** `into_completion_manifest`. */
  function IntoManifest(r: Reconciliation): Result<seq<UploadedPart>, Error> {
    if r.missing != [] then Err(MissingParts) else Canonical(r.uploaded)
  }

  /** A result of a listing makes a manifest exactly when it is complete; the manifest is then its
      uploaded list as it stands, and `complete` accepts it. */
  lemma {:induction false} CompleteResultIsAccepted(plan: MultipartPlan, r: Reconciliation)
    requires plan.Valid() && Partitions(plan, r)
    ensures IntoManifest(r).Ok? <==> r.IsComplete()
    ensures !r.IsComplete() ==> IntoManifest(r) == Err(MissingParts)
    ensures r.IsComplete() ==> IntoManifest(r) == Ok(r.uploaded) && Accepts(plan, r.uploaded)
  {
    if r.IsComplete() {
      assert MissingNumbers(r) == {};
      AcceptsIsExact(plan, r.uploaded);
      CanonicalSorts(r.uploaded);
      AscendingUnique(Canonical(r.uploaded).value, r.uploaded);
    }
  }

  // ----- The loop ends -----

  function EmptySlots(slots: Slots): nat {
    if slots == [] then 0 else EmptySlots(slots[1..]) + if slots[0].None? then 1 else 0
  }

  lemma {:induction false} FillOne(slots: Slots, i: nat, part: UploadedPart)
    requires i < |slots| && slots[i].None?
    ensures EmptySlots(slots[i := Some(part)]) == EmptySlots(slots) - 1
    decreases i
  {
    if i == 0 {
      assert slots[0 := Some(part)][1..] == slots[1..];
    } else {
      assert slots[i := Some(part)][1..] == slots[1..][i - 1 := Some(part)];
      FillOne(slots[1..], i - 1, part);
    }
  }

  /** An accepted page takes away as many empty slots as it has entries. */
  lemma {:induction false} PageFills(plan: MultipartPlan, slots: Slots, entries: seq<RemotePart>)
    requires plan.Valid() && SlotsFit(plan, slots) && Absorb(plan, slots, entries).Ok?
    ensures EmptySlots(Absorb(plan, slots, entries).value) == EmptySlots(slots) - |entries|
    decreases |entries|
  {
    if entries != [] {
      var part := CheckEntry(plan, entries[0]).value;
      FillOne(slots, part.number - 1, part);
      PageFills(plan, slots[part.number - 1 := Some(part)], entries[1..]);
    }
  }

  lemma {:induction false} AllEmpty(n: nat)
    ensures EmptySlots(seq(n, _ => None)) == n
  {
    if n > 0 {
      assert seq(n, _ => Option<UploadedPart>.None)[1..] == seq(n - 1, _ => None);
      AllEmpty(n - 1);
    }
  }

  /** While truncated pages are not empty, the loop asks for at most one page more than there are
      empty slots, whatever the pages say. */
  lemma {:induction false} WalkEnds(plan: MultipartPlan, slots: Slots, tape: seq<Response>)
    requires plan.Valid() && SlotsFit(plan, slots)
    requires forall j :: 0 <= j < |tape| && tape[j].Page? && tape[j].truncated == Some(true) ==> tape[j].parts != []
    ensures Walk(plan, slots, tape).Waiting? ==> |tape| <= EmptySlots(slots)
    decreases |tape|
  {
    if tape != [] && Walk(plan, slots, tape).Waiting? {
      PageFills(plan, slots, tape[0].parts);
      WalkEnds(plan, Absorb(plan, slots, tape[0].parts).value, tape[1..]);
    }
  }

  lemma {:induction false} ReconcileTerminates(plan: MultipartPlan, tape: seq<Response>)
    requires plan.Valid() && |tape| > plan.partCount
    requires forall j :: 0 <= j < |tape| && tape[j].Page? && tape[j].truncated == Some(true) ==> tape[j].parts != []
    ensures Walk(plan, NoSlots(plan), tape).Finished?
  {
    AllEmpty(plan.partCount);
    WalkEnds(plan, NoSlots(plan), tape);
  }

  // ----- Pages of a store that others keep changing -----

  /** A ListParts answer given in state `s`: ascending, after the marker, what is stored now, and
      nothing skipped up to the next marker. */
  ghost predicate PageOf(s: Server, marker: nat, page: Response) {
    && page.Page?
    && (forall i :: 0 <= i < |page.parts| ==> Shows(s, marker, page.parts[i]))
    && AscendingEntries(page.parts)
    && (page.truncated == Some(true) ==>
          && page.next.Some? && marker <= page.next.value
          && forall i :: 0 <= i < |page.parts| ==> page.parts[i].number.value <= page.next.value)
    && (forall n :: n in s.parts && marker < n && (page.truncated == Some(true) ==> n <= page.next.value) ==>
                      ListsNumber(page.parts, n))
  }

  predicate Shows(s: Server, marker: nat, e: RemotePart) {
    && e.number.Some? && e.size.Some? && e.etag.Some?
    && e.number.value > marker && e.number.value in s.parts
    && e.size.value == |s.parts[e.number.value].bytes|
    && e.etag.value == s.parts[e.number.value].etag
  }

  predicate AscendingEntries(parts: seq<RemotePart>) {
    && (forall i :: 0 <= i < |parts| ==> parts[i].number.Some?)
    && forall i, j :: 0 <= i < j < |parts| ==> parts[i].number.value < parts[j].number.value
  }

  ghost predicate ListsNumber(parts: seq<RemotePart>, n: nat) {
    exists i :: 0 <= i < |parts| && parts[i].number == Some(n)
  }

  /** One request of the loop: the state in which the store answered, and the answer. */
  datatype Exchange = Exchange(server: Server, response: Response)

  function Responses(log: seq<Exchange>): (tape: seq<Response>)
    ensures |tape| == |log| && forall i :: 0 <= i < |log| ==> tape[i] == log[i].response
  {
    seq(|log|, i requires 0 <= i < |log| => log[i].response)
  }

  /** The exchanges follow the cursors while the store evolves from each to the next and at last
      into state `end`; a request may also fail. */
  ghost predicate Racing(log: seq<Exchange>, marker: nat, end: Server)
    decreases |log|
  {
    if log == [] then true
    else
      && Sound(log[0].server) && Evolves(log[0].server, end)
      && (log[0].response.Failed? || PageOf(log[0].server, marker, log[0].response))
      && (|log| > 1 ==> Evolves(log[0].server, log[1].server))
      && (log[0].response.Page? && log[0].response.next.Some? ==> Racing(log[1..], log[0].response.next.value, end))
  }

  /** Nothing after the marker is filled yet. */
  ghost predicate Within(slots: Slots, marker: nat) {
    forall n :: Filled(slots, n) ==> n <= marker
  }

  lemma {:induction false} AscendingNeverDuplicates(plan: MultipartPlan, slots: Slots, entries: seq<RemotePart>,
                                                    marker: nat)
    requires plan.Valid() && SlotsFit(plan, slots) && Within(slots, marker) && AscendingEntries(entries)
    requires forall i :: 0 <= i < |entries| ==> entries[i].number.value > marker
    ensures Absorb(plan, slots, entries) != Err(DuplicatePart)
    decreases |entries|
  {
    if entries != [] && CheckEntry(plan, entries[0]).Ok? {
      var part := CheckEntry(plan, entries[0]).value;
      assert part.number == entries[0].number.value > marker;
      assert !Filled(slots, part.number);
      var next := slots[part.number - 1 := Some(part)];
      forall n | Filled(next, n)
        ensures n <= part.number
      {
        assert n != part.number ==> Filled(slots, n);
      }
      AscendingNeverDuplicates(plan, next, entries[1..], part.number);
    }
  }

  /** After a page every filled number is an old one or a listed one. */
  lemma {:induction false} FilledGrows(plan: MultipartPlan, slots: Slots, entries: seq<RemotePart>)
    requires plan.Valid() && SlotsFit(plan, slots) && Absorb(plan, slots, entries).Ok?
    ensures forall n :: Filled(Absorb(plan, slots, entries).value, n) ==>
                          n >= 0 && (Filled(slots, n) || ListsNumber(entries, n))
    ensures forall n: nat :: Filled(slots, n) || ListsNumber(entries, n) ==>
                               Filled(Absorb(plan, slots, entries).value, n)
    decreases |entries|
  {
    if entries != [] {
      var part := CheckEntry(plan, entries[0]).value;
      var next := slots[part.number - 1 := Some(part)];
      FilledGrows(plan, next, entries[1..]);
      forall n: nat
        ensures ListsNumber(entries, n) <==> n == part.number || ListsNumber(entries[1..], n)
        ensures Filled(next, n) <==> n == part.number || Filled(slots, n)
      {
        assert entries[0].number == Some(part.number);
        if ListsNumber(entries, n) {
          var i :| 0 <= i < |entries| && entries[i].number == Some(n);
          if i > 0 { assert entries[1..][i - 1].number == Some(n); }
        }
        if ListsNumber(entries[1..], n) {
          var i :| 0 <= i < |entries[1..]| && entries[1..][i].number == Some(n);
          assert entries[i + 1].number == Some(n);
        }
      }
    }
  }

  /** With ascending pages after the marker the duplicate branch never fires, however the parts
      change between the pages. */
  lemma {:induction false} RacingNeverDuplicates(plan: MultipartPlan, slots: Slots, log: seq<Exchange>, marker: nat,
                                                 end: Server)
    requires plan.Valid() && SlotsFit(plan, slots) && Within(slots, marker) && Racing(log, marker, end)
    ensures Walk(plan, slots, Responses(log)) != Finished(Err(DuplicatePart))
    decreases |log|
  {
    if log != [] && log[0].response.Page? {
      var page := log[0].response;
      AscendingNeverDuplicates(plan, slots, page.parts, marker);
      if Absorb(plan, slots, page.parts).Ok? && page.truncated == Some(true) {
        FilledGrows(plan, slots, page.parts);
        assert Responses(log)[1..] == Responses(log[1..]);
        RacingNeverDuplicates(plan, Absorb(plan, slots, page.parts).value, log[1..], page.next.value, end);
      }
    }
  }

  // ----- What a finished listing knows about the store -----

  /** The slot's part is stored under that number, its ETag is known, and it stands for a body of
      the planned length. */
  predicate KnownPart(plan: MultipartPlan, s: Server, part: UploadedPart)
    requires plan.Valid()
  {
    && Planned(plan, part.number) && part.number in s.parts
    && part.etag != "" && part.etag in s.issued && |s.issued[part.etag]| == Length(plan, part.number)
  }

  ghost predicate Known(plan: MultipartPlan, s: Server, slots: Slots)
    requires plan.Valid() && SlotsFit(plan, slots)
  {
    forall i :: 0 <= i < |slots| && slots[i].Some? ==> KnownPart(plan, s, slots[i].value)
  }

  lemma {:induction false} AbsorbKnows(plan: MultipartPlan, s: Server, slots: Slots, entries: seq<RemotePart>,
                                       marker: nat)
    requires plan.Valid() && SlotsFit(plan, slots) && Known(plan, s, slots) && Sound(s)
    requires forall i :: 0 <= i < |entries| ==> Shows(s, marker, entries[i])
    requires Absorb(plan, slots, entries).Ok?
    ensures Known(plan, s, Absorb(plan, slots, entries).value)
    decreases |entries|
  {
    if entries != [] {
      var part := CheckEntry(plan, entries[0]).value;
      assert Shows(s, marker, entries[0]);
      AbsorbKnows(plan, s, slots[part.number - 1 := Some(part)], entries[1..], marker);
    }
  }

  /** The numbers of `expected` up to the marker are all filled. */
  ghost predicate Caught(expected: set<nat>, slots: Slots, marker: nat) {
    forall n :: n in expected && 1 <= n <= marker ==> Filled(slots, n)
  }

  /** A successful listing of a racing store: every uploaded part is known at the end, and no number
      of `expected` that was stored all along is missed. */
  lemma {:induction false} RacingKnows(plan: MultipartPlan, slots: Slots, log: seq<Exchange>, marker: nat,
                                       end: Server, expected: set<nat>)
    requires plan.Valid() && SlotsFit(plan, slots) && Racing(log, marker, end)
    requires log != [] ==> Known(plan, log[0].server, slots) && expected <= log[0].server.parts.Keys
    requires Caught(expected, slots, marker)
    requires var walked := Walk(plan, slots, Responses(log)); walked.Finished? && walked.result.Ok?
    ensures var r := Walk(plan, slots, Responses(log)).result.value;
            && (forall p :: p in r.uploaded ==> KnownPart(plan, end, p))
            && expected - {0} <= Numbers(r.uploaded)
    decreases |log|
  {
    var s, page := log[0].server, log[0].response;
    var filled := Absorb(plan, slots, page.parts).value;
    AbsorbKnows(plan, s, slots, page.parts, marker);
    FilledGrows(plan, slots, page.parts);
    if page.truncated != Some(true) {
      forall p | p in Split(filled).uploaded
        ensures KnownPart(plan, end, p)
      {
        SplitMembers(plan, filled, p);
      }
      forall n | n in expected - {0}
        ensures n in Numbers(Split(filled).uploaded)
      {
        SplitNumbers(plan, filled, n);
      }
    } else {
      assert Responses(log)[1..] == Responses(log[1..]);
      if |log| > 1 { assert Known(plan, log[1].server, filled); }
      RacingKnows(plan, filled, log[1..], page.next.value, end, expected);
    }
  }

  lemma {:induction false} NothingKnown(plan: MultipartPlan, s: Server)
    requires plan.Valid()
    ensures Known(plan, s, NoSlots(plan)) && Within(NoSlots(plan), 0) && Caught({}, NoSlots(plan), 0)
  {
  }

  // ----- Verified completion -----

  /** What `complete_verified` decides locally after its listing. */
  function Verify(plan: MultipartPlan, walked: Outcome, manifest: seq<UploadedPart>): Result<(), Error>
    requires walked.Finished?
  {
    match walked.result
    case Err(e) => Err(e)
    case Ok(r) =>
      if !r.IsComplete() || r.uploaded != manifest then Err(NotWhatIsStored)
      else if !Accepts(plan, manifest) then Err(NotEveryPlannedPart)
      else Ok(())
  }

  /** After a listing, the manifest passes exactly when it is the listed one and nothing is missing;
      the separate check of `complete` then never fails. */
  lemma {:induction false} VerifyIsExact(plan: MultipartPlan, tape: seq<Response>, manifest: seq<UploadedPart>)
    requires plan.Valid() && Walk(plan, NoSlots(plan), tape).Finished?
    ensures var walked := Walk(plan, NoSlots(plan), tape);
            && (Verify(plan, walked, manifest).Ok? <==>
                walked.result.Ok? && walked.result.value.uploaded == manifest && Numbers(manifest) == AllParts(plan))
            && (Verify(plan, walked, manifest).Err? ==>
                  Verify(plan, walked, manifest).error ==
                  if walked.result.Err? then walked.result.error else NotWhatIsStored)
            && Verify(plan, walked, manifest) != Err(NotEveryPlannedPart)
  {
    var walked := Walk(plan, NoSlots(plan), tape);
    WalkErrors(plan, NoSlots(plan), tape);
    if walked.result.Ok? {
      ReconcileIsExact(plan, tape);
      var r := walked.result.value;
      CompleteListsAll(plan, r);
      if r.IsComplete() { CompleteResultIsAccepted(plan, r); }
    }
  }

  lemma {:induction false} WalkErrors(plan: MultipartPlan, slots: Slots, tape: seq<Response>)
    requires plan.Valid() && SlotsFit(plan, slots)
    ensures Walk(plan, slots, tape) != Finished(Err(NotEveryPlannedPart))
    decreases |tape|
  {
    if tape != [] && tape[0].Page? {
      AbsorbErrors(plan, slots, tape[0].parts);
      var filled := Absorb(plan, slots, tape[0].parts);
      if filled.Ok? { WalkErrors(plan, filled.value, tape[1..]); }
    }
  }

  lemma {:induction false} AbsorbErrors(plan: MultipartPlan, slots: Slots, entries: seq<RemotePart>)
    requires plan.Valid() && SlotsFit(plan, slots)
    ensures Absorb(plan, slots, entries) != Err(NotEveryPlannedPart)
    decreases |entries|
  {
    if entries != [] && CheckEntry(plan, entries[0]).Ok? {
      var part := CheckEntry(plan, entries[0]).value;
      if slots[part.number - 1].None? { AbsorbErrors(plan, slots[part.number - 1 := Some(part)], entries[1..]); }
    }
  }

  lemma {:induction false} JoinLengths(plan: MultipartPlan, bodies: seq<Bytes>, k: nat)
    requires plan.Valid() && k <= |bodies| == plan.partCount
    requires forall i :: 0 <= i < |bodies| ==> |bodies[i]| == Length(plan, i + 1)
    ensures |Join(bodies[..k])| == EndOf(plan, k)
  {
    if k > 0 {
      JoinLengths(plan, bodies, k - 1);
      EndIsNextOffset(plan, k - 1);
      assert bodies[..k][..k - 1] == bodies[..k - 1];
    }
  }

  /** Whatever other clients did between and during the pages and before the completion: if
      `complete_verified` returns Ok, every stored part has its planned length and the object has
      exactly the planned size. */
  lemma {:induction false} VerifiedCompletion(plan: MultipartPlan, manifest: seq<UploadedPart>, log: seq<Exchange>,
                                              end: Server)
    requires plan.Valid() && Racing(log, 0, end) && Sound(end)
    requires var walked := Walk(plan, NoSlots(plan), Responses(log));
             walked.Finished? && Verify(plan, walked, manifest).Ok?
    requires CanServe(end, CompleteWith(manifest))
    ensures var after := Serve(end, CompleteWith(manifest));
            && after.status.Completed? && |after.status.content| == plan.fileSize
            && forall n :: Planned(plan, n) ==> n in after.parts && |after.parts[n].bytes| == Length(plan, n)
  {
    if log != [] { NothingKnown(plan, log[0].server); }
    RacingKnows(plan, NoSlots(plan), log, 0, end, {});
    forall i | 0 <= i < |manifest|
      ensures KnownPart(plan, end, manifest[i])
    {
      assert manifest[i] in manifest;
    }
    KnownPartsMakeTheSize(plan, manifest, end);
  }

  lemma {:induction false} KnownPartsMakeTheSize(plan: MultipartPlan, manifest: seq<UploadedPart>, end: Server)
    requires plan.Valid() && Sound(end) && Accepts(plan, manifest) && CanServe(end, CompleteWith(manifest))
    requires forall i :: 0 <= i < |manifest| ==> KnownPart(plan, end, manifest[i])
    ensures |Serve(end, CompleteWith(manifest)).status.content| == plan.fileSize
    ensures forall n :: Planned(plan, n) ==> n in end.parts && |end.parts[n].bytes| == Length(plan, n)
  {
    var bodies := Bodies(end, manifest);
    forall i | 0 <= i < |manifest|
      ensures |bodies[i]| == Length(plan, i + 1)
    {
      assert KnownPart(plan, end, manifest[i]);
    }
    JoinLengths(plan, bodies, plan.partCount);
    assert bodies[..plan.partCount] == bodies;
    forall n | Planned(plan, n)
      ensures n in end.parts && |end.parts[n].bytes| == Length(plan, n)
    {
      assert manifest[n - 1].number == n;
    }
  }
}

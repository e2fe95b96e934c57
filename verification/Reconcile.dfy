/** Reconciling a session with the parts the store lists, page by page. */
module Reconcile {
  import opened Basics
  import opened Plan
  import opened Manifest

  /** One entry of a ListParts page, as untrusted as it arrives. */
  datatype RemotePart = RemotePart(number: Option<int>, size: Option<int>, etag: Option<ETag>)

  datatype Response =
    | Failed
    | Page(parts: seq<RemotePart>, truncated: Option<bool>, next: Option<nat>)

  type Slots = seq<Option<UploadedPart>>

  datatype Reconciliation = Reconciliation(uploaded: seq<UploadedPart>, missing: seq<PartNumber>) {
    predicate IsComplete() { missing == [] }
  }

  /** `Waiting` says that the loop still wants a page after the responses it was given. */
  datatype Outcome = Waiting | Finished(result: Result<Reconciliation, Error>)

  function CheckEntry(plan: MultipartPlan, e: RemotePart): (r: Result<UploadedPart, Error>)
    requires plan.Valid()
    ensures r.Ok? ==> Planned(plan, r.value.number)
  {
    if e.number.None? then Err(Service)
    else if !(1 <= e.number.value <= MAX_PARTS) then Err(InvalidRemoteNumber)
    else
      match PartLength(plan, e.number.value)
      case Err(_) => Err(OutsidePlan)
      case Ok(expected) =>
        if e.size != Some(expected) then Err(UnexpectedSize)
        else if e.etag.None? then Err(Service)
        else NewUploadedPart(e.number.value, e.etag.value)
  }

  /** An entry is accepted exactly when it names a planned part with its planned size and an ETag,
      and it is that part. */
  lemma {:induction false} EntryIsExact(plan: MultipartPlan, e: RemotePart, p: UploadedPart)
    requires plan.Valid()
    ensures CheckEntry(plan, e) == Ok(p) <==>
            && Planned(plan, p.number) && p.etag != ""
            && e == RemotePart(Some(p.number), Some(Length(plan, p.number)), Some(p.etag))
  {
    if e.number.Some? && 1 <= e.number.value <= MAX_PARTS {
      var length := PartLength(plan, e.number.value);
    }
  }

  /** A refusal says what is really wrong with the entry. */
  lemma {:induction false} RefusedEntryIsWrong(plan: MultipartPlan, e: RemotePart)
    requires plan.Valid() && CheckEntry(plan, e).Err?
    ensures var n := if e.number.Some? then e.number.value else 0;
            match CheckEntry(plan, e).error
            case InvalidRemoteNumber => e.number.Some? && !(1 <= n <= MAX_PARTS)
            case OutsidePlan => plan.partCount < n <= MAX_PARTS
            case UnexpectedSize => Planned(plan, n) && e.size != Some(Length(plan, n))
            case EmptyETag => e.etag == Some("")
            case Service => e.number.None? || e.etag.None?
            case _ => false
  {
    if e.number.Some? && 1 <= e.number.value <= MAX_PARTS {
      var length := PartLength(plan, e.number.value);
    }
  }

  function NoSlots(plan: MultipartPlan): Slots {
    seq(plan.partCount, _ => None)
  }

  predicate SlotsFit(plan: MultipartPlan, slots: Slots) {
    && |slots| == plan.partCount
    && forall i :: 0 <= i < |slots| && slots[i].Some? ==> slots[i].value.number == i + 1
  }

  /** Filling slots with the entries of a page; a slot already filled is an error. */
  function Absorb(plan: MultipartPlan, slots: Slots, entries: seq<RemotePart>): (r: Result<Slots, Error>)
    requires plan.Valid() && SlotsFit(plan, slots)
    ensures r.Ok? ==> SlotsFit(plan, r.value)
    decreases |entries|
  {
    if entries == [] then Ok(slots)
    else
      match CheckEntry(plan, entries[0])
      case Err(e) => Err(e)
      case Ok(part) =>
        if slots[part.number - 1].Some? then Err(DuplicatePart)
        else Absorb(plan, slots[part.number - 1 := Some(part)], entries[1..])
  }

  function UploadedIn(slots: Slots, k: nat): seq<UploadedPart>
    requires k <= |slots|
  {
    if k == 0 then [] else UploadedIn(slots, k - 1) + if slots[k - 1].Some? then [slots[k - 1].value] else []
  }

  function MissingIn(slots: Slots, k: nat): seq<PartNumber>
    requires k <= |slots| <= MAX_PARTS
  {
    if k == 0 then [] else MissingIn(slots, k - 1) + if slots[k - 1].None? then [k] else []
  }

  function Split(slots: Slots): Reconciliation
    requires |slots| <= MAX_PARTS
  {
    Reconciliation(UploadedIn(slots, |slots|), MissingIn(slots, |slots|))
  }

  /** The page loop over the responses the store gives, in order. */
  function Walk(plan: MultipartPlan, slots: Slots, tape: seq<Response>): Outcome
    requires plan.Valid() && SlotsFit(plan, slots)
    decreases |tape|
  {
    if tape == [] then Waiting
    else if tape[0].Failed? then Finished(Err(Error.Remote))
    else
      match Absorb(plan, slots, tape[0].parts)
      case Err(e) => Finished(Err(e))
      case Ok(filled) =>
        if tape[0].truncated != Some(true) then Finished(Ok(Split(filled)))
        else if tape[0].next.None? then Finished(Err(Service))
        else Walk(plan, filled, tape[1..])
  }

  /** The first request has no marker, each later one the next marker of the page before it. */
  predicate FollowsCursors(markers: seq<Option<nat>>, tape: seq<Response>) {
    && 1 <= |markers| <= |tape| + 1
    && markers[0].None?
    && forall k :: 0 <= k < |markers| - 1 ==> tape[k].Page? && tape[k].next.Some? && markers[k + 1] == tape[k].next
  }

  /** `reconcile`: the loop with its slot vector filled in place. `markers` are the part-number
      markers it sent, one per request. */
  method Reconcile(plan: MultipartPlan, tape: seq<Response>) returns (outcome: Outcome, markers: seq<Option<nat>>)
    requires plan.Valid()
    ensures outcome == Walk(plan, NoSlots(plan), tape)
    ensures FollowsCursors(markers, tape)
    ensures outcome.Waiting? ==> |markers| == |tape| + 1
  {
    var uploaded := new Option<UploadedPart>[plan.partCount](_ => None);
    assert uploaded[..] == NoSlots(plan);
    markers := [None];
    var page := 0;
    while page < |tape|
      invariant page <= |tape| && |markers| == page + 1 && FollowsCursors(markers, tape)
      invariant SlotsFit(plan, uploaded[..])
      invariant Walk(plan, uploaded[..], tape[page..]) == Walk(plan, NoSlots(plan), tape)
    {
      var output := tape[page];
      assert tape[page..][0] == output && tape[page..][1..] == tape[page + 1..];
      if output.Failed? {
        return Finished(Err(Error.Remote)), markers;
      }
      var failure := FillSlots(plan, uploaded, output.parts);
      if failure.Some? {
        return Finished(Err(failure.value)), markers;
      }
      if output.truncated != Some(true) {
        var result := Partition(uploaded[..]);
        return Finished(Ok(result)), markers;
      }
      if output.next.None? {
        return Finished(Err(Service)), markers;
      }
      markers := markers + [output.next];
      page := page + 1;
    }
    return Waiting, markers;
  }

  /** The inner loop: one page into the slot vector. */
  method FillSlots(plan: MultipartPlan, uploaded: array<Option<UploadedPart>>, parts: seq<RemotePart>)
    returns (failure: Option<Error>)
    requires plan.Valid() && SlotsFit(plan, uploaded[..])
    modifies uploaded
    ensures failure.Some? ==> Absorb(plan, old(uploaded[..]), parts) == Err(failure.value)
    ensures failure.None? ==> Absorb(plan, old(uploaded[..]), parts) == Ok(uploaded[..])
  {
    for i := 0 to |parts|
      invariant SlotsFit(plan, uploaded[..])
      invariant Absorb(plan, uploaded[..], parts[i..]) == Absorb(plan, old(uploaded[..]), parts)
    {
      assert parts[i..][0] == parts[i] && parts[i..][1..] == parts[i + 1..];
      ghost var before := uploaded[..];
      match CheckEntry(plan, parts[i])
      case Err(e) =>
        return Some(e);
      case Ok(part) =>
        var replaced := uploaded[part.number - 1];
        if replaced.Some? {
          return Some(DuplicatePart);
        }
        uploaded[part.number - 1] := Some(part);
        assert uploaded[..] == before[part.number - 1 := Some(part)];
    }
    return None;
  }

  /** The closing loop: filled slots and empty ones, by index. */
  method Partition(slots: Slots) returns (r: Reconciliation)
    requires |slots| <= MAX_PARTS
    ensures r == Split(slots)
  {
    var uploaded: seq<UploadedPart>, missing: seq<PartNumber> := [], [];
    for index := 0 to |slots|
      invariant uploaded == UploadedIn(slots, index) && missing == MissingIn(slots, index)
    {
      match slots[index]
      case Some(part) => uploaded := uploaded + [part];
      case None => missing := missing + [index + 1];
    }
    return Reconciliation(uploaded, missing);
  }

  // ----- What success means -----

  predicate AscendingNumbers(numbers: seq<PartNumber>) {
    forall i, j :: 0 <= i < j < |numbers| ==> numbers[i] < numbers[j]
  }

  ghost predicate Filled(slots: Slots, n: int) {
    1 <= n <= |slots| && slots[n - 1].Some?
  }

  lemma {:induction false} UploadedAreSlots(plan: MultipartPlan, slots: Slots, k: nat)
    requires plan.Valid() && SlotsFit(plan, slots) && k <= |slots|
    ensures forall i :: 0 <= i < |UploadedIn(slots, k)| ==>
                          var p := UploadedIn(slots, k)[i]; p.number <= k && slots[p.number - 1] == Some(p)
  {
    if k > 0 { UploadedAreSlots(plan, slots, k - 1); }
  }

  lemma {:induction false} UploadedAscend(plan: MultipartPlan, slots: Slots, k: nat)
    requires plan.Valid() && SlotsFit(plan, slots) && k <= |slots|
    ensures Ascending(UploadedIn(slots, k))
  {
    if k > 0 {
      UploadedAscend(plan, slots, k - 1);
      UploadedAreSlots(plan, slots, k - 1);
    }
  }

  lemma {:induction false} SlotsAreUploaded(slots: Slots, k: nat)
    requires k <= |slots|
    ensures forall i :: 0 <= i < k && slots[i].Some? ==> slots[i].value in UploadedIn(slots, k)
  {
    if k > 0 { SlotsAreUploaded(slots, k - 1); }
  }

  lemma {:induction false} UploadedUpTo(plan: MultipartPlan, slots: Slots, k: nat)
    requires plan.Valid() && SlotsFit(plan, slots) && k <= |slots|
    ensures Ascending(UploadedIn(slots, k))
    ensures forall i :: 0 <= i < |UploadedIn(slots, k)| ==>
                          var p := UploadedIn(slots, k)[i]; p.number <= k && slots[p.number - 1] == Some(p)
    ensures forall i :: 0 <= i < k && slots[i].Some? ==> slots[i].value in UploadedIn(slots, k)
  {
    hide UploadedIn, Ascending, SlotsFit;
    UploadedAscend(plan, slots, k);
    UploadedAreSlots(plan, slots, k);
    SlotsAreUploaded(slots, k);
  }

  lemma {:induction false} MissingUpTo(slots: Slots, k: nat)
    requires k <= |slots| <= MAX_PARTS
    ensures AscendingNumbers(MissingIn(slots, k))
    ensures forall i :: 0 <= i < |MissingIn(slots, k)| ==>
                          var n := MissingIn(slots, k)[i]; n <= k && slots[n - 1].None?
    ensures forall i :: 0 <= i < k && slots[i].None? ==> i + 1 in MissingIn(slots, k)
    ensures |UploadedIn(slots, k)| + |MissingIn(slots, k)| == k
  {
    if k > 0 { MissingUpTo(slots, k - 1); }
  }

  function MissingNumbers(r: Reconciliation): set<nat> {
    set i | 0 <= i < |r.missing| :: r.missing[i] as nat
  }

  /** The numbers of a result partition the plan: uploaded and missing parts are strictly
      ascending, disjoint, together 1 to the part count, and their planned lengths add up to the
      file's size. */
  ghost predicate Partitions(plan: MultipartPlan, r: Reconciliation)
    requires plan.Valid()
  {
    && Ascending(r.uploaded) && AscendingNumbers(r.missing)
    && Numbers(r.uploaded) !! MissingNumbers(r)
    && Numbers(r.uploaded) + MissingNumbers(r) == AllParts(plan)
    && TotalBytes(plan, Numbers(r.uploaded)) + TotalBytes(plan, MissingNumbers(r)) == plan.fileSize
    && |r.uploaded| + |r.missing| == plan.partCount
  }

  lemma {:induction false} SplitNumbers(plan: MultipartPlan, slots: Slots, n: nat)
    requires plan.Valid() && SlotsFit(plan, slots)
    ensures n in Numbers(Split(slots).uploaded) <==> Filled(slots, n)
  {
    var uploaded := UploadedIn(slots, |slots|);
    UploadedUpTo(plan, slots, |slots|);
    if n in Numbers(uploaded) {
      var i :| 0 <= i < |uploaded| && uploaded[i].number as nat == n;
    }
    if Filled(slots, n) {
      assert slots[n - 1].value in uploaded;
      var i :| 0 <= i < |uploaded| && uploaded[i] == slots[n - 1].value;
      assert uploaded[i].number as nat in Numbers(uploaded);
    }
  }

  lemma {:induction false} SplitMissing(plan: MultipartPlan, slots: Slots, n: nat)
    requires plan.Valid() && SlotsFit(plan, slots)
    ensures n in MissingNumbers(Split(slots)) <==> Planned(plan, n) && !Filled(slots, n)
  {
    var missing := MissingIn(slots, |slots|);
    MissingUpTo(slots, |slots|);
    if n in MissingNumbers(Split(slots)) {
      var i :| 0 <= i < |missing| && missing[i] as nat == n;
    }
    if Planned(plan, n) && !Filled(slots, n) {
      assert slots[n - 1].None?;
      var i :| 0 <= i < |missing| && missing[i] == n;
      assert missing[i] as nat in MissingNumbers(Split(slots));
    }
  }

  lemma {:induction false} SplitCovers(plan: MultipartPlan, slots: Slots)
    requires plan.Valid() && SlotsFit(plan, slots)
    ensures Numbers(Split(slots).uploaded) !! MissingNumbers(Split(slots))
    ensures Numbers(Split(slots).uploaded) + MissingNumbers(Split(slots)) == AllParts(plan)
  {
    forall n: nat
      ensures n in Numbers(Split(slots).uploaded) <==> Filled(slots, n)
      ensures n in MissingNumbers(Split(slots)) <==> Planned(plan, n) && !Filled(slots, n)
    {
      SplitNumbers(plan, slots, n);
      SplitMissing(plan, slots, n);
    }
  }

  lemma {:induction false} SplitPartitions(plan: MultipartPlan, slots: Slots)
    requires plan.Valid() && SlotsFit(plan, slots)
    ensures Partitions(plan, Split(slots))
  {
    var r := Split(slots);
    UploadedUpTo(plan, slots, |slots|);
    MissingUpTo(slots, |slots|);
    SplitCovers(plan, slots);
    DisjointSum(plan, Numbers(r.uploaded), MissingNumbers(r), plan.partCount);
    AllPartsSum(plan);
  }

  /** The uploaded list holds exactly the filled slots. */
  lemma {:induction false} SplitMembers(plan: MultipartPlan, slots: Slots, p: UploadedPart)
    requires plan.Valid() && SlotsFit(plan, slots)
    ensures p in Split(slots).uploaded <==> Planned(plan, p.number) && slots[p.number - 1] == Some(p)
  {
    UploadedUpTo(plan, slots, |slots|);
    if Planned(plan, p.number) && slots[p.number - 1] == Some(p) {
      assert slots[p.number - 1].Some?;
    }
  }

  lemma {:induction false} DisjointSum(plan: MultipartPlan, a: set<nat>, b: set<nat>, k: nat)
    requires plan.Valid() && k <= plan.partCount && a !! b
    ensures SumLengths(plan, a, k) + SumLengths(plan, b, k) == SumLengths(plan, a + b, k)
  {
    if k > 0 { DisjointSum(plan, a, b, k - 1); }
  }

  /** Each entry is well formed, its slot is free, and no number comes twice. */
  ghost predicate Absorbable(plan: MultipartPlan, slots: Slots, entries: seq<RemotePart>)
    requires plan.Valid() && SlotsFit(plan, slots)
  {
    && (forall i :: 0 <= i < |entries| ==>
                      CheckEntry(plan, entries[i]).Ok? && !Filled(slots, CheckEntry(plan, entries[i]).value.number))
    && forall i, j :: 0 <= i < j < |entries| ==> entries[i].number != entries[j].number
  }

  /** A page is taken in exactly when it is `Absorbable`. */
  lemma {:induction false} AbsorbIsExact(plan: MultipartPlan, slots: Slots, entries: seq<RemotePart>)
    requires plan.Valid() && SlotsFit(plan, slots)
    ensures Absorb(plan, slots, entries).Ok? <==> Absorbable(plan, slots, entries)
    decreases |entries|
  {
    if entries != [] && CheckEntry(plan, entries[0]).Ok? {
      var part := CheckEntry(plan, entries[0]).value;
      if slots[part.number - 1].None? {
        AbsorbIsExact(plan, slots[part.number - 1 := Some(part)], entries[1..]);
        AbsorbableStep(plan, slots, entries);
      } else {
        assert !Absorbable(plan, slots, entries);
      }
    }
  }

  lemma {:induction false} AbsorbableStep(plan: MultipartPlan, slots: Slots, entries: seq<RemotePart>)
    requires plan.Valid() && SlotsFit(plan, slots) && entries != []
    requires CheckEntry(plan, entries[0]).Ok?
    requires slots[CheckEntry(plan, entries[0]).value.number - 1].None?
    ensures var part := CheckEntry(plan, entries[0]).value;
            Absorbable(plan, slots, entries) <==>
            Absorbable(plan, slots[part.number - 1 := Some(part)], entries[1..])
  {
    var part := CheckEntry(plan, entries[0]).value;
    var next := slots[part.number - 1 := Some(part)];
    var rest := entries[1..];
    assert forall i :: 0 <= i < |rest| ==> rest[i] == entries[i + 1];
    if Absorbable(plan, next, rest) {
      forall i | 0 <= i < |entries|
        ensures CheckEntry(plan, entries[i]).Ok? && !Filled(slots, CheckEntry(plan, entries[i]).value.number)
      {
        if i > 0 { assert entries[i] == rest[i - 1]; }
      }
      forall i, j | 0 <= i < j < |entries|
        ensures entries[i].number != entries[j].number
      {
        assert entries[j] == rest[j - 1];
        if i > 0 { assert entries[i] == rest[i - 1]; }
      }
    }
  }

  ghost predicate Lists(plan: MultipartPlan, entries: seq<RemotePart>, p: UploadedPart)
    requires plan.Valid()
  {
    exists i :: 0 <= i < |entries| && CheckEntry(plan, entries[i]) == Ok(p)
  }

  /** After a page, a slot holds exactly what it held before or what the page listed for it. */
  lemma {:induction false} AbsorbContents(plan: MultipartPlan, slots: Slots, entries: seq<RemotePart>, p: UploadedPart)
    requires plan.Valid() && SlotsFit(plan, slots) && Planned(plan, p.number)
    requires Absorb(plan, slots, entries).Ok?
    ensures Absorb(plan, slots, entries).value[p.number - 1] == Some(p) <==>
            slots[p.number - 1] == Some(p) || Lists(plan, entries, p)
    decreases |entries|
  {
    if entries != [] {
      var part := CheckEntry(plan, entries[0]).value;
      var rest := entries[1..];
      AbsorbContents(plan, slots[part.number - 1 := Some(part)], rest, p);
      assert forall i :: 0 <= i < |rest| ==> rest[i] == entries[i + 1];
      assert Lists(plan, entries, p) <==> part == p || Lists(plan, rest, p) by {
        if Lists(plan, entries, p) {
          var i :| 0 <= i < |entries| && CheckEntry(plan, entries[i]) == Ok(p);
          if i > 0 { assert entries[i] == rest[i - 1]; }
        }
      }
      if slots[p.number - 1] == Some(p) && part.number == p.number {
        assert false;
      }
    }
  }
}

/**
  The sequential pieces of the two upload runs as they update their variables: the shared counters,
  the loops before and after the transfers, and the reader's loop. Their results are the functions and
  invariants that the step relations use.
  */
module RunLoops {
  import opened Basics
  import opened Plan
  import opened Manifest
  import opened Accounting
  import opened Reconcile
  import opened StreamUpload
  import opened StreamUploadInv

  // ----- The shared counters -----

  /** The two atomic counters and the progress callback that every part future of a run shares. */
  class Counters {
    const plan: MultipartPlan
    const reused: seq<UploadedPart>
    var completedParts: nat
    var transferredBytes: nat
    var callbacks: seq<Progress>
    ghost var uploaded: seq<UploadedPart>

    ghost predicate Valid()
      reads this
    {
      && plan.Valid() && Distinct(reused) && Distinct(uploaded)
      && Numbers(reused) !! Numbers(uploaded) && Numbers(reused) + Numbers(uploaded) <= AllParts(plan)
      && Progress(completedParts, transferredBytes) == ProgressAfter(plan, reused, uploaded, |uploaded|)
      && |callbacks| == |uploaded| + 1
      && forall k :: 0 <= k < |callbacks| ==> callbacks[k] == ProgressAfter(plan, reused, uploaded, k)
    }

    /** Loading the counters and the first report. */
    constructor (plan: MultipartPlan, reused: seq<UploadedPart>, reusedBytes: nat)
      requires plan.Valid() && Distinct(reused) && Numbers(reused) <= AllParts(plan)
      requires reusedBytes == TotalBytes(plan, Numbers(reused))
      ensures Valid() && uploaded == [] && this.plan == plan && this.reused == reused
    {
      this.plan, this.reused := plan, reused;
      completedParts, transferredBytes := |reused|, reusedBytes;
      callbacks := [Progress(|reused|, reusedBytes)];
      uploaded := [];
      NoNumbers();
      assert Numbers(reused) + Numbers([]) == Numbers(reused);
    }

    /** A part's upload is confirmed: both counters move and the callback reports the new values,
        which fit the widths they are kept in. */
    method PartConfirmed(number: PartNumber, length: nat, ghost part: UploadedPart)
      requires Valid() && part.number == number && Planned(plan, number) && length == Length(plan, number)
      requires number as nat !in Numbers(reused) + Numbers(uploaded)
      modifies this
      ensures Valid() && uploaded == old(uploaded) + [part]
      ensures completedParts == old(completedParts) + 1 <= U16_MAX
      ensures transferredBytes == old(transferredBytes) + length <= U64_MAX
      ensures callbacks == old(callbacks) + [Progress(completedParts, transferredBytes)]
    {
      NextReport(plan, reused, uploaded, part);
      CountOne(plan, reused, uploaded, part);
      assert plan.fileSize <= MAX_OBJECT_SIZE && plan.partCount <= MAX_PARTS;
      completedParts := completedParts + 1;
      transferredBytes := transferredBytes + length;
      callbacks := callbacks + [Progress(completedParts, transferredBytes)];
      uploaded := uploaded + [part];
    }
  }

  lemma {:induction false} CountOne(plan: MultipartPlan, reused: seq<UploadedPart>, uploaded: seq<UploadedPart>,
                                    part: UploadedPart)
    requires plan.Valid() && Distinct(reused) && Distinct(uploaded) && Planned(plan, part.number)
    requires Numbers(reused) !! Numbers(uploaded) && Numbers(reused) + Numbers(uploaded) <= AllParts(plan)
    requires part.number as nat !in Numbers(reused) + Numbers(uploaded)
    ensures var longer := uploaded + [part];
            && Distinct(longer) && Numbers(reused) !! Numbers(longer)
            && Numbers(reused) + Numbers(longer) <= AllParts(plan)
            && ProgressAfter(plan, reused, longer, |longer|).completedParts <= plan.partCount
            && ProgressAfter(plan, reused, longer, |longer|).transferredBytes <= plan.fileSize
  {
    hide Numbers, Distinct, AllParts, SumLengths, Length;
    var longer := uploaded + [part];
    NumbersAppend(uploaded, part);
    DistinctAppend(uploaded, part);
    assert longer[..|longer|] == longer;
    PlannedNumber(plan, part.number);
    CountedFits(plan, reused, longer);
  }

  lemma {:induction false} PlannedNumber(plan: MultipartPlan, n: nat)
    requires Planned(plan, n)
    ensures n in AllParts(plan)
  {
  }

  lemma {:induction false} CountedFits(plan: MultipartPlan, reused: seq<UploadedPart>, uploaded: seq<UploadedPart>)
    requires plan.Valid() && Distinct(reused) && Distinct(uploaded)
    requires Numbers(reused) !! Numbers(uploaded) && Numbers(reused) + Numbers(uploaded) <= AllParts(plan)
    ensures |reused| + |uploaded| <= plan.partCount
    ensures TotalBytes(plan, Numbers(reused) + Numbers(uploaded)) <= plan.fileSize
  {
    hide Numbers, Distinct, SumLengths;
    NumbersCount(reused);
    NumbersCount(uploaded);
    SubsetSize(Numbers(reused) + Numbers(uploaded), AllParts(plan));
    SumLengthsMono(plan, Numbers(reused) + Numbers(uploaded), AllParts(plan), plan.partCount);
    AllPartsSum(plan);
  }

  // ----- Before the transfers -----

  /** The planned lengths of a list of parts. */
  function PartBytes(plan: MultipartPlan, parts: seq<UploadedPart>): nat
    requires plan.Valid() && forall i :: 0 <= i < |parts| ==> Planned(plan, parts[i].number)
  {
    if parts == [] then 0
    else PartBytes(plan, parts[..|parts| - 1]) + Length(plan, parts[|parts| - 1].number)
  }

  lemma {:induction false} PartBytesGrow(plan: MultipartPlan, parts: seq<UploadedPart>, k: nat)
    requires plan.Valid() && k <= |parts| && forall i :: 0 <= i < |parts| ==> Planned(plan, parts[i].number)
    ensures PartBytes(plan, parts[..k]) <= PartBytes(plan, parts)
  {
    if k < |parts| {
      PartBytesGrow(plan, parts[..|parts| - 1], k);
      assert parts[..|parts| - 1][..k] == parts[..k];
    } else {
      assert parts[..k] == parts;
    }
  }

  lemma {:induction false} PartBytesAreTotal(plan: MultipartPlan, parts: seq<UploadedPart>)
    requires plan.Valid() && Distinct(parts) && forall i :: 0 <= i < |parts| ==> Planned(plan, parts[i].number)
    ensures PartBytes(plan, parts) == TotalBytes(plan, Numbers(parts))
  {
    if parts == [] {
      NoNumbers();
      NothingCounts(plan, plan.partCount);
    } else {
      var rest, last := parts[..|parts| - 1], parts[|parts| - 1];
      assert parts == rest + [last];
      PartBytesAreTotal(plan, rest);
      NotAmongEarlier(parts, |parts| - 1);
      NumbersAppend(rest, last);
      SumLengthsAdd(plan, Numbers(rest), last.number, plan.partCount);
    }
  }

  lemma {:induction false} InsertOne(parts: seq<UploadedPart>, i: nat)
    requires i < |parts|
    ensures Inserted(parts[..i + 1]) == Inserted(parts[..i])[parts[i].number := parts[i]]
  {
    assert parts[..i + 1][..i] == parts[..i];
  }

  lemma {:induction false} AddOne(plan: MultipartPlan, parts: seq<UploadedPart>, i: nat)
    requires plan.Valid() && i < |parts| && forall j :: 0 <= j <= i ==> Planned(plan, parts[j].number)
    ensures PartBytes(plan, parts[..i + 1]) == PartBytes(plan, parts[..i]) + Length(plan, parts[i].number)
  {
    assert parts[..i + 1][..i] == parts[..i];
  }

  lemma {:induction false} NothingCollected(plan: MultipartPlan, parts: seq<UploadedPart>)
    requires plan.Valid()
    ensures Inserted(parts[..0]) == map[] && PartBytes(plan, parts[..0]) == 0
  {
  }

  /** The first part that is not planned or whose bytes, with those of the parts before it, do not fit a
      `u64`. */
  predicate StopsAt(plan: MultipartPlan, parts: seq<UploadedPart>, i: nat)
    requires plan.Valid() && i < |parts|
  {
    && (forall j :: 0 <= j < i ==> Planned(plan, parts[j].number))
    && PartBytes(plan, parts[..i]) <= U64_MAX
    && (Planned(plan, parts[i].number) ==> PartBytes(plan, parts[..i + 1]) > U64_MAX)
  }

  /** Collecting the parts found by the listing. It goes ahead exactly when every part is planned and
      their bytes fit a `u64`. */
  method CollectReused(plan: MultipartPlan, existing: seq<UploadedPart>)
    returns (failure: Option<Error>, manifest: map<PartNumber, UploadedPart>, reusedBytes: nat)
    requires plan.Valid()
    ensures failure.None? <==>
            && (forall i :: 0 <= i < |existing| ==> Planned(plan, existing[i].number))
            && PartBytes(plan, existing) <= U64_MAX
    ensures failure.Some? ==>
              exists i :: 0 <= i < |existing| && StopsAt(plan, existing, i) &&
                          failure.value == if Planned(plan, existing[i].number) then Service else OutsidePlan
    ensures failure.None? ==> manifest == Inserted(existing) && reusedBytes == PartBytes(plan, existing)
  {
    hide Inserted, PartBytes, Length;
    manifest, reusedBytes := map[], 0;
    NothingCollected(plan, existing);
    for i := 0 to |existing|
      invariant forall j :: 0 <= j < i ==> Planned(plan, existing[j].number)
      invariant manifest == Inserted(existing[..i])
      invariant reusedBytes == PartBytes(plan, existing[..i]) <= U64_MAX
    {
      var expected := PartLength(plan, existing[i].number);
      if expected.Err? {
        return Some(expected.error), manifest, reusedBytes;
      }
      InsertOne(existing, i);
      AddOne(plan, existing, i);
      if reusedBytes + expected.value > U64_MAX {
        if forall j :: 0 <= j < |existing| ==> Planned(plan, existing[j].number) {
          PartBytesGrow(plan, existing, i + 1);
        }
        return Some(Service), manifest, reusedBytes;
      }
      reusedBytes := reusedBytes + expected.value;
      manifest := manifest[existing[i].number := existing[i]];
    }
    assert existing[..|existing|] == existing;
    failure := None;
  }

  /** The planned numbers that are not in the tree, in ascending order. */
  method ListMissing(plan: MultipartPlan, manifest: map<PartNumber, UploadedPart>) returns (missing: seq<PartNumber>)
    requires plan.Valid()
    ensures AscendingNumbers(missing)
    ensures forall n: PartNumber :: n in missing <==> Planned(plan, n) && n !in manifest
  {
    missing := [];
    for n := 1 to plan.partCount + 1
      invariant AscendingNumbers(missing)
      invariant forall k :: 0 <= k < |missing| ==> missing[k] < n
      invariant forall m: PartNumber :: m in missing <==> m < n && m !in manifest
    {
      if n !in manifest {
        missing := missing + [n];
      }
    }
  }

  /** What a finished listing reports always goes ahead, without overflow, and leaves exactly its
      missing parts: reused and missing parts are the plan. */
  lemma {:induction false} ListingPrepares(plan: MultipartPlan, existing: seq<UploadedPart>)
    requires plan.Valid() && Distinct(existing) && Numbers(existing) <= AllParts(plan)
    ensures forall i :: 0 <= i < |existing| ==> Planned(plan, existing[i].number)
    ensures PartBytes(plan, existing) == TotalBytes(plan, Numbers(existing)) <= plan.fileSize <= U64_MAX
    ensures forall n: PartNumber :: n in Inserted(existing) <==> n as nat in Numbers(existing)
  {
    forall i | 0 <= i < |existing|
      ensures Planned(plan, existing[i].number)
    {
      assert existing[i].number as nat in Numbers(existing);
    }
    PartBytesAreTotal(plan, existing);
    SumLengthsMono(plan, Numbers(existing), AllParts(plan), plan.partCount);
    AllPartsSum(plan);
  }

  // ----- After the transfers -----

  /** The finished uploads join the tree of reused parts; the order in which they finished is lost. */
  method CollectUploaded(reused: seq<UploadedPart>, uploaded: seq<UploadedPart>, prepared: map<PartNumber,
                         UploadedPart>)
    returns (manifest: map<PartNumber, UploadedPart>, count: nat)
    requires prepared == Inserted(reused)
    ensures manifest == Inserted(reused + uploaded) && count == |uploaded|
  {
    hide Inserted;
    manifest, count := prepared, 0;
    ghost var all := reused + uploaded;
    assert all[..|reused|] == reused;
    for i := 0 to |uploaded|
      invariant manifest == Inserted(all[..|reused| + i]) && count == i
    {
      count := count + 1;
      manifest := manifest[uploaded[i].number := uploaded[i]];
      InsertOne(all, |reused| + i);
    }
    assert all[..|all|] == all;
  }

  // ----- The reader's loop -----

  /** The reader task with a channel that always has room: it sends planned part after planned part,
      all of them if the input is long enough, and otherwise those that lie wholly inside it. */
  method ReadAll(plan: MultipartPlan, input: Bytes) returns (sent: seq<Chunk>, result: Result<(), Error>)
    requires plan.Valid()
    ensures SentInv(plan, input, sent)
    ensures result.Ok? <==> plan.fileSize <= |input|
    ensures result.Ok? ==> |sent| == plan.partCount
    ensures result.Err? ==> result.error == Io && |sent| < plan.partCount && EndOf(plan, |sent| + 1) > |input|
  {
    var remaining, number, position := plan.fileSize, 1, 0;
    sent := [];
    while remaining > 0
      invariant SentInv(plan, input, sent) && number == |sent| + 1
      invariant remaining == plan.fileSize - EndOf(plan, |sent|) && position == EndOf(plan, |sent|) <= |input|
      decreases remaining
    {
      BufferIsThePart(plan, number);
      var length := if remaining < plan.partSize then remaining else plan.partSize;
      if position + length > |input| {
        return sent, Err(Io);
      }
      var chunk := Chunk(number, input[position..position + length]);
      SendAppends(plan, input, sent, chunk);
      sent := sent + [chunk];
      remaining, number, position := remaining - length, number + 1, position + length;
    }
    if |sent| < plan.partCount { BufferIsThePart(plan, |sent| + 1); }
    return sent, Ok(());
  }
}

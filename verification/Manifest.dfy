/** Completion manifests: the canonical list of uploaded parts that ends a session. */
module Manifest {
  import opened Basics
  import opened Plan

  datatype UploadedPart = UploadedPart(number: PartNumber, etag: ETag)

  function NewUploadedPart(number: PartNumber, etag: ETag): (r: Result<UploadedPart, Error>)
    ensures r.Ok? <==> etag != ""
    ensures r.Ok? ==> r.value.number == number && r.value.etag == etag
    ensures r.Err? ==> r.error == EmptyETag
  {
    if etag == "" then Err(EmptyETag) else Ok(UploadedPart(number, etag))
  }

  /** A `BTreeMap` from part number to part: every part sits under its own number. */
  ghost predicate Keyed(m: map<PartNumber, UploadedPart>) {
    forall n :: n in m ==> m[n].number == n
  }

  /** `into_values`: the parts numbered at most `k`, in ascending order of number. */
  function ValuesUpTo(m: map<PartNumber, UploadedPart>, k: nat): seq<UploadedPart>
    requires k <= MAX_PARTS
  {
    if k == 0 then [] else ValuesUpTo(m, k - 1) + if k in m then [m[k]] else []
  }

  function Values(m: map<PartNumber, UploadedPart>): seq<UploadedPart> {
    ValuesUpTo(m, MAX_PARTS)
  }

  predicate Ascending(parts: seq<UploadedPart>) {
    forall i, j :: 0 <= i < j < |parts| ==> parts[i].number < parts[j].number
  }

  predicate Distinct(parts: seq<UploadedPart>) {
    forall i, j :: 0 <= i < j < |parts| ==> parts[i].number != parts[j].number
  }

  function Numbers(parts: seq<UploadedPart>): set<nat> {
    set i | 0 <= i < |parts| :: parts[i].number as nat
  }

  lemma {:induction false} NumbersAppend(parts: seq<UploadedPart>, part: UploadedPart)
    ensures Numbers(parts + [part]) == Numbers(parts) + {part.number as nat}
  {
    var longer := parts + [part];
    assert longer[|parts|] == part;
    forall n | n in Numbers(longer)
      ensures n in Numbers(parts) + {part.number as nat}
    {
      var i :| 0 <= i < |longer| && longer[i].number as nat == n;
      assert i < |parts| ==> longer[i] == parts[i];
    }
    forall n | n in Numbers(parts)
      ensures n in Numbers(longer)
    {
      var i :| 0 <= i < |parts| && parts[i].number as nat == n;
      assert longer[i] == parts[i];
    }
  }

  /** Inserting the parts one after the other into an empty tree. */
  function Inserted(parts: seq<UploadedPart>): (m: map<PartNumber, UploadedPart>)
    ensures Keyed(m)
    ensures forall n: PartNumber :: n in m <==> exists i :: 0 <= i < |parts| && parts[i].number == n
  {
    if parts == [] then map[]
    else
      var rest, last := parts[..|parts| - 1], parts[|parts| - 1];
      assert forall i :: 0 <= i < |rest| ==> rest[i] == parts[i];
      Inserted(rest)[last.number := last]
  }

  lemma {:induction false} ValuesAscend(m: map<PartNumber, UploadedPart>, k: nat)
    requires k <= MAX_PARTS && Keyed(m)
    ensures Ascending(ValuesUpTo(m, k))
    ensures forall i :: 0 <= i < |ValuesUpTo(m, k)| ==>
                          var part := ValuesUpTo(m, k)[i];
                          part.number <= k && part.number in m && m[part.number] == part
    ensures forall n: PartNumber :: n in m && n <= k ==> m[n] in ValuesUpTo(m, k)
  {
    if k > 0 {
      ValuesAscend(m, k - 1);
    }
  }

  lemma {:induction false} ValuesInsert(m: map<PartNumber, UploadedPart>, part: UploadedPart, k: nat)
    requires k <= MAX_PARTS && part.number !in m
    ensures multiset(ValuesUpTo(m[part.number := part], k)) ==
            multiset(ValuesUpTo(m, k)) + if part.number <= k then multiset{part} else multiset{}
  {
    if k > 0 {
      ValuesInsert(m, part, k - 1);
    }
  }

  /** `try_from_parts`. */
  function Canonical(parts: seq<UploadedPart>): Result<seq<UploadedPart>, Error> {
    if !Distinct(parts) then Err(DuplicatePart)
    else if parts == [] then Err(NoParts)
    else Ok(Values(Inserted(parts)))
  }

  /** Builds the tree by insertion; the first number met twice ends it. */
  method TryFromParts(parts: seq<UploadedPart>) returns (r: Result<seq<UploadedPart>, Error>)
    ensures r == Canonical(parts)
  {
    var canonical: map<PartNumber, UploadedPart> := map[];
    for i := 0 to |parts|
      invariant Distinct(parts[..i]) && canonical == Inserted(parts[..i])
    {
      var number := parts[i].number;
      if number in canonical {
        assert exists j :: 0 <= j < i && parts[..i][j].number == number;
        return Err(DuplicatePart);
      }
      canonical := canonical[number := parts[i]];
      assert parts[..i + 1][..i] == parts[..i];
    }
    assert parts[..|parts|] == parts;
    if canonical == map[] {
      assert parts != [] ==> parts[0].number in Inserted(parts);
      return Err(NoParts);
    }
    return Ok(Values(canonical));
  }

  lemma {:induction false} InsertedKeepsAll(parts: seq<UploadedPart>)
    requires Distinct(parts)
    ensures multiset(Values(Inserted(parts))) == multiset(parts)
  {
    if parts == [] {
      NoValues(MAX_PARTS);
    } else {
      var rest, last := parts[..|parts| - 1], parts[|parts| - 1];
      InsertedKeepsAll(rest);
      assert parts == rest + [last];
      assert last.number !in Inserted(rest);
      ValuesInsert(Inserted(rest), last, MAX_PARTS);
    }
  }

  lemma {:induction false} NoValues(k: nat)
    requires k <= MAX_PARTS
    ensures ValuesUpTo(map[], k) == []
  {
    if k > 0 { NoValues(k - 1); }
  }

  /** Canonicalisation succeeds exactly on non-empty input without duplicate numbers, and then
      returns the strictly sorted rearrangement of that input. */
  lemma {:induction false} CanonicalSorts(parts: seq<UploadedPart>)
    ensures Canonical(parts).Ok? <==> parts != [] && Distinct(parts)
    ensures parts == [] ==> Canonical(parts) == Err(NoParts)
    ensures !Distinct(parts) ==> Canonical(parts) == Err(DuplicatePart)
    ensures Canonical(parts).Ok? ==>
              Ascending(Canonical(parts).value) && multiset(Canonical(parts).value) == multiset(parts)
  {
    if Canonical(parts).Ok? {
      ValuesAscend(Inserted(parts), MAX_PARTS);
      InsertedKeepsAll(parts);
    }
  }

  /** Two strictly sorted lists with the same members are the same list. */
  lemma {:induction false} AscendingUnique(a: seq<UploadedPart>, b: seq<UploadedPart>)
    requires Ascending(a) && Ascending(b) && multiset(a) == multiset(b)
    ensures a == b
  {
    assert |multiset(a)| == |multiset(b)|;
    AgreeUpTo(a, b, |a|);
  }

  lemma {:induction false} AgreeUpTo(a: seq<UploadedPart>, b: seq<UploadedPart>, k: nat)
    requires Ascending(a) && Ascending(b) && multiset(a) == multiset(b) && k <= |a| == |b|
    ensures forall i :: 0 <= i < k ==> a[i] == b[i]
  {
    if k > 0 {
      AgreeUpTo(a, b, k - 1);
      assert a[k - 1] in multiset(a) && b[k - 1] in multiset(b);
      var j := IndexOf(b, a[k - 1]);
      var l := IndexOf(a, b[k - 1]);
    }
  }

  lemma {:induction false} IndexOf(parts: seq<UploadedPart>, part: UploadedPart) returns (i: nat)
    requires part in multiset(parts)
    ensures i < |parts| && parts[i] == part
  {
    i :| 0 <= i < |parts| && parts[i] == part;
  }

  lemma {:induction false} DistinctIsOrderFree(a: seq<UploadedPart>, b: seq<UploadedPart>)
    requires multiset(a) == multiset(b) && Distinct(a)
    ensures Distinct(b)
  {
    InsertedKeepsAll(a);
    var sorted := Values(Inserted(a));
    ValuesAscend(Inserted(a), MAX_PARTS);
    forall i, j | 0 <= i < j < |b|
      ensures b[i].number != b[j].number
    {
      if b[i].number == b[j].number {
        // Equal numbers in an ascending list are one entry, yet `b` holds two.
        var n := b[i].number;
        var p := IndexOf(sorted, b[i]);
        var q := IndexOf(sorted, b[j]);
        assert p == q;
        TwoOccurrences(b, i, j);
        OneOccurrence(sorted, b[i]);
      }
    }
  }

  lemma {:induction false} TwoOccurrences(parts: seq<UploadedPart>, i: nat, j: nat)
    requires i < j < |parts| && parts[i] == parts[j]
    ensures multiset(parts)[parts[i]] >= 2
  {
    assert parts == parts[..j] + parts[j..];
    assert parts[..j][i] in multiset(parts[..j]);
    assert parts[j..][0] in multiset(parts[j..]);
  }

  lemma {:induction false} OneOccurrence(parts: seq<UploadedPart>, part: UploadedPart)
    requires Ascending(parts)
    ensures multiset(parts)[part] <= 1
  {
    if parts != [] {
      var rest, last := parts[..|parts| - 1], parts[|parts| - 1];
      assert parts == rest + [last];
      OneOccurrence(rest, part);
      if last == part && part in multiset(rest) {
        var i := IndexOf(rest, part);
        assert false;
      }
    }
  }

  /** The order in which parts complete does not matter. */
  lemma {:induction false} CanonicalIgnoresOrder(a: seq<UploadedPart>, b: seq<UploadedPart>)
    requires multiset(a) == multiset(b)
    ensures Canonical(a) == Canonical(b)
  {
    assert |multiset(a)| == |multiset(b)|;
    if Distinct(a) || Distinct(b) {
      if Distinct(a) { DistinctIsOrderFree(a, b); } else { DistinctIsOrderFree(b, a); }
      CanonicalSorts(a);
      CanonicalSorts(b);
      if a != [] {
        AscendingUnique(Canonical(a).value, Canonical(b).value);
      }
    }
  }

  /** Canonical output is a fixed point. */
  lemma {:induction false} CanonicalIsIdempotent(parts: seq<UploadedPart>)
    requires Canonical(parts).Ok?
    ensures Canonical(Canonical(parts).value) == Canonical(parts)
  {
    CanonicalSorts(parts);
    CanonicalIgnoresOrder(Canonical(parts).value, parts);
  }

  /** The local check `complete` makes before it sends anything. */
  predicate Accepts(plan: MultipartPlan, manifest: seq<UploadedPart>) {
    && |manifest| == plan.partCount
    && forall i :: 0 <= i < |manifest| ==> manifest[i].number == i + 1
  }

  /** Among strictly sorted manifests, `complete` accepts exactly those whose numbers are
      1 to the planned part count. */
  lemma {:induction false} AcceptsIsExact(plan: MultipartPlan, manifest: seq<UploadedPart>)
    requires Ascending(manifest)
    ensures Accepts(plan, manifest) <==> Numbers(manifest) == UpTo(plan.partCount)
  {
    if Accepts(plan, manifest) {
      forall n: nat | n in UpTo(plan.partCount)
        ensures n in Numbers(manifest)
      {
        assert manifest[n - 1].number == n;
      }
    }
    if Numbers(manifest) == UpTo(plan.partCount) {
      NumbersCount(manifest);
      forall k | 0 <= k < |manifest|
        ensures manifest[k].number <= plan.partCount
      {
        assert manifest[k].number as nat in Numbers(manifest);
      }
      forall i | 0 <= i < |manifest|
        ensures manifest[i].number == i + 1
      {
        AscendingFloor(manifest, i);
        AscendingCeiling(plan, manifest, i);
      }
    }
  }

  lemma {:induction false} NumbersCount(parts: seq<UploadedPart>)
    requires Distinct(parts)
    ensures |Numbers(parts)| == |parts|
  {
    if parts != [] {
      var rest, last := parts[..|parts| - 1], parts[|parts| - 1];
      NumbersCount(rest);
      assert parts == rest + [last];
      NumbersAppend(rest, last);
      assert last.number as nat !in Numbers(rest);
    }
  }

  lemma {:induction false} AscendingFloor(manifest: seq<UploadedPart>, i: nat)
    requires Ascending(manifest) && i < |manifest|
    ensures manifest[i].number >= i + 1
  {
    if i > 0 { AscendingFloor(manifest, i - 1); }
  }

  lemma {:induction false} AscendingCeiling(plan: MultipartPlan, manifest: seq<UploadedPart>, i: nat)
    requires Ascending(manifest) && i < |manifest| == plan.partCount
    requires forall k :: 0 <= k < |manifest| ==> manifest[k].number <= plan.partCount
    ensures manifest[i].number <= i + 1
    decreases |manifest| - i
  {
    if i + 1 < |manifest| { AscendingCeiling(plan, manifest, i + 1); }
  }
}

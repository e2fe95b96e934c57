/** What file and stream uploads share: progress reports, sums of part lengths, full manifests. */
module Accounting {
  import opened Plan
  import opened Manifest

  datatype Progress = Progress(completedParts: nat, transferredBytes: nat)

  /** The progress after `k` uploads of this run: reused and uploaded parts, and their planned bytes. */
  function ProgressAfter(plan: MultipartPlan, reused: seq<UploadedPart>, uploaded: seq<UploadedPart>, k: nat): Progress
    requires plan.Valid() && k <= |uploaded|
  {
    Progress(|reused| + k, TotalBytes(plan, Numbers(reused) + Numbers(uploaded[..k])))
  }

  /** One more upload counts one part and its planned bytes, and changes no earlier report. */
  lemma {:induction false} NextReport(plan: MultipartPlan, reused: seq<UploadedPart>, uploaded: seq<UploadedPart>,
                                      part: UploadedPart)
    requires plan.Valid() && Planned(plan, part.number) && part.number as nat !in Numbers(reused) + Numbers(uploaded)
    ensures var before := ProgressAfter(plan, reused, uploaded, |uploaded|);
            var after := ProgressAfter(plan, reused, uploaded + [part], |uploaded| + 1);
            && after.completedParts == before.completedParts + 1
            && after.transferredBytes == before.transferredBytes + Length(plan, part.number)
    ensures forall k: nat ::
              k <= |uploaded| ==>
                ProgressAfter(plan, reused, uploaded + [part], k) == ProgressAfter(plan, reused, uploaded, k)
  {
    hide Numbers, SumLengths, Length;
    var longer, counted := uploaded + [part], Numbers(reused) + Numbers(uploaded);
    NumbersAppend(uploaded, part);
    assert uploaded[..|uploaded|] == uploaded && longer[..|longer|] == longer;
    assert Numbers(reused) + Numbers(longer) == counted + {part.number as nat};
    SumLengthsAdd(plan, counted, part.number, plan.partCount);
    assert forall k: nat :: k <= |uploaded| ==> longer[..k] == uploaded[..k];
  }

  lemma {:induction false} SubsetSize(small: set<nat>, large: set<nat>)
    requires small <= large
    ensures |small| <= |large|
  {
    assert large == small + (large - small);
  }

  lemma {:induction false} OneMorePart(plan: MultipartPlan, before: set<nat>, after: set<nat>, n: nat)
    requires plan.Valid() && Planned(plan, n) && n !in before && after == before + {n}
    ensures TotalBytes(plan, before) < TotalBytes(plan, after)
  {
    SumLengthsAdd(plan, before, n, plan.partCount);
  }

  lemma {:induction false} NotAmongEarlier(uploaded: seq<UploadedPart>, k: nat)
    requires Distinct(uploaded) && k < |uploaded|
    ensures uploaded[k].number as nat !in Numbers(uploaded[..k])
  {
    assert forall i :: 0 <= i < k ==> uploaded[..k][i] == uploaded[i];
  }

  lemma {:induction false} MorePartsMoreBytes(plan: MultipartPlan, reused: set<nat>, uploaded: seq<UploadedPart>,
                                              j: nat, k: nat)
    requires plan.Valid() && j < k <= |uploaded| && Distinct(uploaded)
    requires Numbers(uploaded) <= AllParts(plan) && reused !! Numbers(uploaded)
    ensures TotalBytes(plan, reused + Numbers(uploaded[..j])) < TotalBytes(plan, reused + Numbers(uploaded[..k]))
    decreases k
  {
    var part := uploaded[k - 1];
    var earlier := uploaded[..k - 1];
    assert uploaded[..k] == earlier + [part];
    NumbersAppend(earlier, part);
    assert part.number as nat in Numbers(uploaded);
    NotAmongEarlier(uploaded, k - 1);
    OneMorePart(plan, reused + Numbers(earlier), reused + Numbers(uploaded[..k]), part.number);
    if j < k - 1 {
      MorePartsMoreBytes(plan, reused, uploaded, j, k - 1);
    }
  }

  // ----- Bytes of a pool -----

  lemma {:induction false} SumIgnoresLarger(plan: MultipartPlan, chosen: set<nat>, n: nat, k: nat)
    requires plan.Valid() && k <= plan.partCount && k < n
    ensures SumLengths(plan, chosen - {n}, k) == SumLengths(plan, chosen, k)
  {
    if k > 0 { SumIgnoresLarger(plan, chosen, n, k - 1); }
  }

  lemma {:induction false} SumIsBounded(plan: MultipartPlan, chosen: set<nat>, k: nat)
    requires plan.Valid() && k <= plan.partCount
    ensures SumLengths(plan, chosen, k) <= Start(plan.partSize, |chosen| + 1)
  {
    if k > 0 {
      if k in chosen {
        SumIgnoresLarger(plan, chosen, k, k - 1);
        SumIsBounded(plan, chosen - {k}, k - 1);
      } else {
        SumIsBounded(plan, chosen, k - 1);
      }
    }
  }

  lemma {:induction false} FullParts(partSize: nat, count: nat)
    ensures Start(partSize, count + 1) == partSize * count
  {
    StartIsProduct(partSize, count + 1);
  }

  lemma {:induction false} PoolFits(plan: MultipartPlan, active: set<nat>, concurrency: nat)
    requires plan.Valid() && |active| <= concurrency
    ensures TotalBytes(plan, active) <= plan.partSize * concurrency
  {
    hide SumLengths, Start;
    SumIsBounded(plan, active, plan.partCount);
    StartMono(plan.partSize, |active| + 1, concurrency + 1);
    FullParts(plan.partSize, concurrency);
  }

  // ----- Distinct parts and their manifest -----

  lemma {:induction false} NoNumbers()
    ensures Numbers([]) == {} && Distinct([])
  {
  }

  lemma {:induction false} DistinctAppend(parts: seq<UploadedPart>, part: UploadedPart)
    requires Distinct(parts) && part.number as nat !in Numbers(parts)
    ensures Distinct(parts + [part])
  {
    forall i | 0 <= i < |parts|
      ensures parts[i].number != part.number
    {
      assert parts[i].number as nat in Numbers(parts);
    }
  }

  lemma {:induction false} NumbersConcat(a: seq<UploadedPart>, b: seq<UploadedPart>)
    ensures Numbers(a + b) == Numbers(a) + Numbers(b)
  {
    if b == [] {
      assert a + b == a;
    } else {
      var rest, last := b[..|b| - 1], b[|b| - 1];
      assert b == rest + [last] && a + b == (a + rest) + [last];
      NumbersConcat(a, rest);
      NumbersAppend(rest, last);
      NumbersAppend(a + rest, last);
    }
  }

  lemma {:induction false} DistinctConcat(a: seq<UploadedPart>, b: seq<UploadedPart>)
    requires Distinct(a) && Distinct(b) && Numbers(a) !! Numbers(b)
    ensures Distinct(a + b) && Numbers(a + b) == Numbers(a) + Numbers(b)
  {
    var both := a + b;
    forall i, j | 0 <= i < j < |both|
      ensures both[i].number != both[j].number
    {
      if i < |a| <= j {
        assert a[i].number as nat in Numbers(a);
        assert b[j - |a|].number as nat in Numbers(b);
      }
    }
    NumbersConcat(a, b);
  }

  lemma {:induction false} NumbersWithin(a: seq<UploadedPart>, b: seq<UploadedPart>)
    requires multiset(a) == multiset(b)
    ensures Numbers(a) <= Numbers(b)
  {
    forall n | n in Numbers(a)
      ensures n in Numbers(b)
    {
      var i :| 0 <= i < |a| && a[i].number as nat == n;
      assert a[i] in multiset(a);
      var j := IndexOf(b, a[i]);
    }
  }

  lemma {:induction false} SameNumbers(a: seq<UploadedPart>, b: seq<UploadedPart>)
    requires multiset(a) == multiset(b)
    ensures Numbers(a) == Numbers(b)
  {
    NumbersWithin(a, b);
    NumbersWithin(b, a);
  }

  /** With every part in, the local checks of the manifest pass. */
  lemma {:induction false} FullManifestPasses(plan: MultipartPlan, parts: seq<UploadedPart>)
    requires plan.Valid() && Distinct(parts) && Numbers(parts) == AllParts(plan)
    ensures Canonical(Values(Inserted(parts))).Ok?
    ensures Accepts(plan, Canonical(Values(Inserted(parts))).value)
    ensures multiset(Canonical(Values(Inserted(parts))).value) == multiset(parts)
  {
    assert 1 in Numbers(parts);
    CanonicalSorts(parts);
    CanonicalIsIdempotent(parts);
    var manifest := Canonical(parts).value;
    SameNumbers(manifest, parts);
    AcceptsIsExact(plan, manifest);
  }

  // ----- Sums of weights -----

  function SumUpTo(weight: nat -> nat, k: nat): nat {
    if k == 0 then 0 else SumUpTo(weight, k - 1) + weight(k)
  }

  /** A sum of which no term grows does not grow, and drops when a term does. */
  lemma {:induction false} SumDrops(before: nat -> nat, after: nat -> nat, n: nat, k: nat)
    requires forall m: nat :: m <= k ==> after(m) <= before(m)
    ensures SumUpTo(after, k) <= SumUpTo(before, k)
    ensures 1 <= n <= k && after(n) < before(n) ==> SumUpTo(after, k) < SumUpTo(before, k)
  {
    if k > 0 { SumDrops(before, after, n, k - 1); }
  }
}

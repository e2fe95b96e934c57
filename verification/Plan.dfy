/** Multipart plans: how a file of a given size is cut into numbered parts. */
module Plan {
  import opened Basics

  const MIN_PART_SIZE: nat := 5 * 1024 * 1024
  const MAX_PART_SIZE: nat := 5 * 1024 * 1024 * 1024 - MIN_PART_SIZE
  const MAX_OBJECT_SIZE: nat := 5 * 1024 * 1024 * 1024 * 1024 - 5 * 1024 * 1024 * 1024
  const MAX_PARTS: nat := 10_000

  type PartNumber = n: nat | 1 <= n <= MAX_PARTS witness 1

  function TryPartNumber(value: nat): (r: Result<PartNumber, Error>)
    ensures r.Ok? <==> 1 <= value <= MAX_PARTS
    ensures r.Ok? ==> r.value == value
    ensures r.Err? ==> r.error == PartNumberOutOfRange
  {
    if value == 0 || value > MAX_PARTS then Err(PartNumberOutOfRange) else Ok(value)
  }

  predicate PartSizeAllowed(partSize: nat) {
    MIN_PART_SIZE <= partSize <= MAX_PART_SIZE
  }

  /** Division rounding up, as `u64::div_ceil` computes it. */
  function CeilDiv(a: nat, b: nat): nat
    requires b > 0
  {
    a / b + if a % b > 0 then 1 else 0
  }

  /** Rounding up gives the least quotient whose product covers the dividend. */
  lemma {:induction false} CeilDivIsLeast(a: nat, b: nat, q: nat)
    requires b > 0
    ensures CeilDiv(a, b) <= q <==> a <= q * b
  {
    var d, m := a / b, a % b;
    assert a == d * b + m;
    if d + 1 <= q {
      MulMono(d + 1, q, b);
      assert (d + 1) * b == d * b + b;
    }
    if q <= d {
      MulMono(q, d, b);
    }
  }

  lemma {:induction false} MulMono(x: nat, y: nat, b: nat)
    requires x <= y
    ensures x * b <= y * b
  {
    assert y * b == x * b + (y - x) * b;
  }

  /** The product `(n - 1) * partSize`, as a sum: linear, so that proofs stay cheap. */
  function Start(partSize: nat, n: nat): nat {
    if n <= 1 then 0 else Start(partSize, n - 1) + partSize
  }

  lemma {:induction false} StartIsProduct(partSize: nat, n: nat)
    requires n >= 1
    ensures Start(partSize, n) == (n - 1) * partSize
  {
    if n > 1 {
      StartIsProduct(partSize, n - 1);
      assert (n - 1) * partSize == (n - 2) * partSize + partSize;
    }
  }

  lemma {:induction false} StartMono(partSize: nat, m: nat, n: nat)
    requires 1 <= m <= n
    ensures Start(partSize, m) <= Start(partSize, n)
    ensures m < n ==> Start(partSize, m) + partSize <= Start(partSize, n)
  {
    if m < n {
      StartMono(partSize, m, n - 1);
    }
  }

  datatype MultipartPlan = MultipartPlan(fileSize: nat, partSize: nat, partCount: nat) {
    /** What `NewPlan` guarantees: the last part starts inside the file and reaches its end. */
    predicate Valid() {
      && 1 <= fileSize <= MAX_OBJECT_SIZE
      && PartSizeAllowed(partSize)
      && 1 <= partCount <= MAX_PARTS
      && Start(partSize, partCount) < fileSize <= Start(partSize, partCount) + partSize
    }
  }

  function NewPlan(fileSize: nat, partSize: nat): (r: Result<MultipartPlan, Error>)
  {
    if fileSize == 0 then Err(FileSizeZero)
    else if fileSize > MAX_OBJECT_SIZE then Err(ObjectTooLarge)
    else if !PartSizeAllowed(partSize) then Err(PartSizeOutOfRange)
    else
      var partCount := CeilDiv(fileSize, partSize);
      if partCount > MAX_PARTS then Err(TooManyParts)
      else Ok(MultipartPlan(fileSize, partSize, partCount))
  }

  /** A plan is accepted exactly within R2's limits, and then it is the only valid plan for
      these two sizes; its part count fits the `u16` it is cast to. */
  lemma {:induction false} NewPlanAccepts(fileSize: nat, partSize: nat)
    ensures NewPlan(fileSize, partSize).Ok? <==>
            1 <= fileSize <= MAX_OBJECT_SIZE && PartSizeAllowed(partSize) && fileSize <= MAX_PARTS * partSize
    ensures NewPlan(fileSize, partSize).Ok? ==>
              var plan := NewPlan(fileSize, partSize).value;
              plan.Valid() && plan.fileSize == fileSize && plan.partSize == partSize && plan.partCount <= U16_MAX
  {
    if 1 <= fileSize && PartSizeAllowed(partSize) {
      var count := CeilDiv(fileSize, partSize);
      CeilDivIsLeast(fileSize, partSize, MAX_PARTS);
      CountReachesEnd(fileSize, partSize, count);
    }
  }

  /** A refusal names a limit that these sizes really break. */
  lemma {:induction false} RefusedPlanBreaksALimit(fileSize: nat, partSize: nat)
    requires NewPlan(fileSize, partSize).Err?
    ensures match NewPlan(fileSize, partSize).error
            case FileSizeZero => fileSize == 0
            case ObjectTooLarge => fileSize > MAX_OBJECT_SIZE
            case PartSizeOutOfRange => !PartSizeAllowed(partSize)
            case TooManyParts => fileSize > MAX_PARTS * partSize
            case _ => false
  {
    if partSize > 0 { CeilDivIsLeast(fileSize, partSize, MAX_PARTS); }
  }

  lemma {:induction false} CountReachesEnd(fileSize: nat, partSize: nat, count: nat)
    requires fileSize > 0 && partSize > 0
    ensures count == CeilDiv(fileSize, partSize) <==>
            count >= 1 && Start(partSize, count) < fileSize <= Start(partSize, count) + partSize
  {
    CeilDivIsLeast(fileSize, partSize, 0);
    CeilDivIsLeast(fileSize, partSize, count);
    if count >= 1 {
      CeilDivIsLeast(fileSize, partSize, count - 1);
      StartIsProduct(partSize, count);
      assert count * partSize == (count - 1) * partSize + partSize;
    }
  }

  /** A valid plan is what `NewPlan` rebuilds from its two sizes. */
  lemma {:induction false} ValidPlanIsRebuilt(plan: MultipartPlan)
    requires plan.Valid()
    ensures NewPlan(plan.fileSize, plan.partSize) == Ok(plan)
  {
    CountReachesEnd(plan.fileSize, plan.partSize, plan.partCount);
  }

  predicate Planned(plan: MultipartPlan, n: int) {
    1 <= n <= plan.partCount
  }

  /** Where part `n` starts in the file. */
  function Offset(plan: MultipartPlan, n: nat): nat {
    Start(plan.partSize, n)
  }

  function PartLength(plan: MultipartPlan, n: PartNumber): (r: Result<nat, Error>)
    requires plan.Valid()
    ensures r.Ok? <==> Planned(plan, n)
    ensures r.Ok? ==> r.value == Length(plan, n)
    ensures r.Err? ==> r.error == OutsidePlan
  {
    if n > plan.partCount then Err(OutsidePlan)
    else
      StartIsProduct(plan.partSize, n);
      StartMono(plan.partSize, n, plan.partCount);
      Ok(Min(plan.fileSize - (n - 1) * plan.partSize, plan.partSize))
  }

  /** The planned length of part `n`. */
  function Length(plan: MultipartPlan, n: nat): (len: nat)
    requires plan.Valid() && Planned(plan, n)
    ensures 1 <= len <= plan.partSize
    ensures Offset(plan, n) + len <= plan.fileSize
  {
    StartMono(plan.partSize, n, plan.partCount);
    Min(plan.fileSize - Offset(plan, n), plan.partSize)
  }

  /** Consecutive parts touch, every part but the last is full, and the last ends the file;
      the offset the code multiplies out is this one and fits a `u64`. */
  lemma {:induction false} PartsTouch(plan: MultipartPlan, n: nat)
    requires plan.Valid() && Planned(plan, n)
    ensures n < plan.partCount ==>
              Length(plan, n) == plan.partSize && Offset(plan, n) + Length(plan, n) == Offset(plan, n + 1)
    ensures n == plan.partCount ==> Offset(plan, n) + Length(plan, n) == plan.fileSize
    ensures (n - 1) * plan.partSize == Offset(plan, n) <= U64_MAX
  {
    StartIsProduct(plan.partSize, n);
    if n < plan.partCount {
      StartMono(plan.partSize, n + 1, plan.partCount);
    }
  }

  predicate Covers(plan: MultipartPlan, n: nat, position: nat)
    requires plan.Valid() && Planned(plan, n)
  {
    Offset(plan, n) <= position < Offset(plan, n) + Length(plan, n)
  }

  /** Every byte of the file lies in exactly one planned part. */
  lemma {:induction false} PlanTilesTheFile(plan: MultipartPlan, position: nat)
    requires plan.Valid() && position < plan.fileSize
    ensures exists n: nat :: Planned(plan, n) && Covers(plan, n, position)
    ensures forall m: nat, n: nat ::
              (Planned(plan, m) && Covers(plan, m, position)) && (Planned(plan, n) && Covers(plan, n, position))
              ==> m == n
  {
    var n := CoveringPart(plan, position, plan.partCount);
    forall m: nat, k: nat | Planned(plan, m) && Planned(plan, k)
                            && Covers(plan, m, position) && Covers(plan, k, position)
      ensures m == k
    {
      if m < k { LaterPartStartsAfter(plan, m, k); }
      if k < m { LaterPartStartsAfter(plan, k, m); }
    }
  }

  lemma {:induction false} CoveringPart(plan: MultipartPlan, position: nat, k: nat) returns (n: nat)
    requires plan.Valid() && Planned(plan, k)
    requires position < Offset(plan, k) + Length(plan, k)
    ensures Planned(plan, n) && Covers(plan, n, position)
  {
    if Offset(plan, k) <= position {
      n := k;
    } else {
      PartsTouch(plan, k - 1);
      n := CoveringPart(plan, position, k - 1);
    }
  }

  lemma {:induction false} LaterPartStartsAfter(plan: MultipartPlan, m: nat, n: nat)
    requires plan.Valid() && Planned(plan, m) && Planned(plan, n) && m < n
    ensures Offset(plan, m) + Length(plan, m) <= Offset(plan, n)
  {
    PartsTouch(plan, m);
    StartMono(plan.partSize, m, n);
  }

  /** The bytes of `content` that belong to part `n`. */
  function Slice(plan: MultipartPlan, content: Bytes, n: nat): (s: Bytes)
    requires plan.Valid() && Planned(plan, n) && |content| >= plan.fileSize
    ensures |s| == Length(plan, n)
  {
    var len := Length(plan, n);
    content[Offset(plan, n)..Offset(plan, n) + len]
  }

  /** How far the first `k` parts reach into the file. */
  function EndOf(plan: MultipartPlan, k: nat): (end: nat)
    requires plan.Valid() && k <= plan.partCount
    ensures end <= plan.fileSize
    ensures k == plan.partCount ==> end == plan.fileSize
  {
    if k == 0 then 0 else Offset(plan, k) + Length(plan, k)
  }

  lemma {:induction false} EndIsNextOffset(plan: MultipartPlan, k: nat)
    requires plan.Valid() && k < plan.partCount
    ensures EndOf(plan, k) == Offset(plan, k + 1)
  {
    if k > 0 {
      PartsTouch(plan, k);
    }
  }

  /** The first `k` slices joined are the file's bytes up to where part `k` ends. */
  lemma {:induction false} SlicesJoin(plan: MultipartPlan, content: Bytes, slices: seq<Bytes>, k: nat)
    requires plan.Valid() && |content| >= plan.fileSize && k <= plan.partCount <= |slices|
    requires forall i :: 0 <= i < plan.partCount ==> slices[i] == Slice(plan, content, i + 1)
    ensures Join(slices[..k]) == content[..EndOf(plan, k)]
  {
    if k > 0 {
      SlicesJoin(plan, content, slices, k - 1);
      EndIsNextOffset(plan, k - 1);
      assert slices[..k][..k - 1] == slices[..k - 1];
    }
  }

  /** Concatenation of a list of byte strings, in order. */
  function Join(pieces: seq<Bytes>): Bytes
  {
    if pieces == [] then [] else Join(pieces[..|pieces| - 1]) + pieces[|pieces| - 1]
  }

  /** Sum of the planned lengths of the parts numbered 1 to `k` that are in `chosen`. */
  function SumLengths(plan: MultipartPlan, chosen: set<nat>, k: nat): nat
    requires plan.Valid() && k <= plan.partCount
  {
    if k == 0 then 0
    else SumLengths(plan, chosen, k - 1) + if k in chosen then Length(plan, k) else 0
  }

  /** The planned bytes of a set of parts. */
  function TotalBytes(plan: MultipartPlan, chosen: set<nat>): nat
    requires plan.Valid()
  {
    SumLengths(plan, chosen, plan.partCount)
  }

  /** The numbers 1 to `k`. */
  function UpTo(k: nat): (s: set<nat>)
    ensures |s| == k
    ensures forall n: nat :: n in s <==> 1 <= n <= k
  {
    if k == 0 then {} else UpTo(k - 1) + {k}
  }

  function AllParts(plan: MultipartPlan): set<nat> {
    UpTo(plan.partCount)
  }

  lemma {:induction false} SumLengthsAdd(plan: MultipartPlan, chosen: set<nat>, n: nat, k: nat)
    requires plan.Valid() && k <= plan.partCount && Planned(plan, n) && n !in chosen
    ensures SumLengths(plan, chosen + {n}, k) == SumLengths(plan, chosen, k) + if n <= k then Length(plan, n) else 0
  {
    if k > 0 {
      SumLengthsAdd(plan, chosen, n, k - 1);
    }
  }

  lemma {:induction false} SumLengthsMono(plan: MultipartPlan, small: set<nat>, large: set<nat>, k: nat)
    requires plan.Valid() && k <= plan.partCount && small <= large
    ensures SumLengths(plan, small, k) <= SumLengths(plan, large, k)
  {
    if k > 0 {
      SumLengthsMono(plan, small, large, k - 1);
    }
  }

  /** The lengths of the parts numbered 1 to `k` add up to where part `k` ends. */
  lemma {:induction false} SumOfPrefix(plan: MultipartPlan, chosen: set<nat>, k: nat)
    requires plan.Valid() && k <= plan.partCount
    requires forall n: nat :: 1 <= n <= k ==> n in chosen
    ensures SumLengths(plan, chosen, k) == EndOf(plan, k)
  {
    if k > 0 {
      SumOfPrefix(plan, chosen, k - 1);
      EndIsNextOffset(plan, k - 1);
    }
  }

  /** All planned parts together have exactly the file's size. */
  lemma {:induction false} AllPartsSum(plan: MultipartPlan)
    requires plan.Valid()
    ensures TotalBytes(plan, AllParts(plan)) == plan.fileSize
  {
    SumOfPrefix(plan, AllParts(plan), plan.partCount);
  }
}

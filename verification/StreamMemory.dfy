/** How much a stream upload buffers, and when that stays within the configured memory budget. */
module StreamMemory {
  import opened Basics
  import opened Plan
  import opened Sizing
  import opened Manifest
  import opened Accounting
  import opened Remote
  import opened Reconcile
  import opened Sessions
  import opened SessionEnd
  import opened StreamUpload
  import opened StreamUploadInv
  import opened StreamUploadTheorems

  // ----- What is held -----

  function PoolBytes(pool: map<nat, Transfer>, k: nat): nat {
    if k == 0 then 0 else PoolBytes(pool, k - 1) + if k in pool then |pool[k].bytes| else 0
  }

  function ChunkBytes(chunks: seq<Chunk>): nat {
    if chunks == [] then 0 else ChunkBytes(chunks[..|chunks| - 1]) + |chunks[|chunks| - 1].bytes|
  }

  function ReaderBytes(c: Stream, s: Flow): nat {
    match s.reader
    case Filling => BufferLength(c, s)
    case Holding(chunk) => |chunk.bytes|
    case Done(_) => 0
  }

  /** All part buffers: the reader's, those in the channel, those of the pool. */
  function HeldBytes(c: Stream, s: Flow): nat {
    ReaderBytes(c, s) + ChunkBytes(s.channel) + PoolBytes(s.pool, c.Plan().partCount)
  }

  function HeldBuffers(s: Flow): nat {
    (if s.reader.Done? then 0 else 1) + |s.channel| + |s.pool|
  }

  /** How many parts have had a buffer so far. */
  function Begun(s: Flow): nat {
    |s.sent| + if s.reader.Done? then 0 else 1
  }

  // ----- Conservation -----

  lemma {:induction false} PoolIsPlanned(plan: MultipartPlan, input: Bytes, attempts: nat, server: Server,
                                         bodies: set<(nat, Bytes)>,
                                         pool: map<nat, Transfer>, k: nat)
    requires plan.Valid() && PoolInv(plan, input, attempts, server, bodies, pool) && k <= plan.partCount
    ensures PoolBytes(pool, k) == SumLengths(plan, pool.Keys, k)
  {
    hide FromInput, PoolInv;
    if k > 0 {
      PoolIsPlanned(plan, input, attempts, server, bodies, pool, k - 1);
      if k in pool {
        PoolMember(plan, input, attempts, server, bodies, pool, k);
        PlannedBody(plan, input, attempts, server, bodies, k, pool[k]);
      }
    }
  }

  lemma {:induction false} SentLength(plan: MultipartPlan, input: Bytes, sent: seq<Chunk>, n: nat)
    requires plan.Valid() && SentInv(plan, input, sent) && 1 <= n <= |sent|
    ensures EndOf(plan, n - 1) + |sent[n - 1].bytes| == EndOf(plan, n)
  {
    assert FromInput(plan, input, n, sent[n - 1].bytes);
    EndIsNextOffset(plan, n - 1);
  }

  /** A stretch of the chunks sent has the bytes between its two ends. */
  lemma {:induction false} StretchBytes(plan: MultipartPlan, input: Bytes, sent: seq<Chunk>, a: nat, b: nat)
    requires plan.Valid() && SentInv(plan, input, sent) && a <= b <= |sent|
    ensures EndOf(plan, a) + ChunkBytes(sent[a..b]) == EndOf(plan, b)
  {
    hide FromInput, EndOf;
    if a < b {
      StretchBytes(plan, input, sent, a, b - 1);
      assert sent[a..b][..b - 1 - a] == sent[a..b - 1];
      SentLength(plan, input, sent, b);
    }
  }

  lemma {:induction false} FirstParts(plan: MultipartPlan, m: nat, k: nat)
    requires plan.Valid() && m <= plan.partCount && k <= plan.partCount
    ensures SumLengths(plan, UpTo(m), k) == EndOf(plan, if m < k then m else k)
  {
    if k > m {
      FirstParts(plan, m, k - 1);
    } else {
      SumOfPrefix(plan, UpTo(m), k);
    }
  }

  lemma {:induction false} ReportedBytes(plan: MultipartPlan, uploaded: seq<UploadedPart>, completed: nat,
                                         transferred: nat, callbacks: seq<Progress>)
    requires plan.Valid() && ReportInv(plan, uploaded, completed, transferred, callbacks)
    ensures transferred == TotalBytes(plan, Numbers(uploaded))
  {
    hide Numbers, TotalBytes;
    NoNumbers();
    assert uploaded[..|uploaded|] == uploaded;
    assert Numbers([]) + Numbers(uploaded) == Numbers(uploaded);
  }

  lemma {:induction false} TakenParts(plan: MultipartPlan, concurrency: nat, taken: nat, pool: map<nat, Transfer>,
                                      uploaded: seq<UploadedPart>)
    requires plan.Valid() && TakenInv(concurrency, taken, pool, uploaded) && taken <= plan.partCount
    ensures SumLengths(plan, pool.Keys, plan.partCount) + TotalBytes(plan, Numbers(uploaded)) == EndOf(plan, taken)
  {
    hide Numbers, Distinct, SumLengths, EndOf;
    DisjointSum(plan, pool.Keys, Numbers(uploaded), plan.partCount);
    FirstParts(plan, taken, plan.partCount);
  }

  /** The pool and the confirmed bytes together are what was taken from the channel. */
  lemma {:induction false} TakenBytes(c: Stream, s: Flow)
    requires c.Valid() && FlowInv(c, s)
    ensures |s.channel| <= |s.sent| <= c.Plan().partCount
    ensures PoolBytes(s.pool, c.Plan().partCount) + s.transferred == EndOf(c.Plan(), |s.sent| - |s.channel|)
  {
    hide EndInv, ReaderInv, UploadedInv, CommitInv, PoolInv, ReportInv, TakenInv, Numbers, SumLengths, EndOf,
      FromInput, PoolBytes;
    PoolIsPlanned(c.Plan(), c.input, c.maxAttempts, s.end.server, s.bodies, s.pool, c.Plan().partCount);
    ReportedBytes(c.Plan(), s.uploaded, s.completed, s.transferred, s.callbacks);
    TakenParts(c.Plan(), c.concurrency, |s.sent| - |s.channel|, s.pool, s.uploaded);
  }

  lemma {:induction false} ReaderHolds(c: Stream, s: Flow)
    requires c.Valid() && FlowInv(c, s)
    ensures |s.sent| <= Begun(s) <= c.Plan().partCount
    ensures EndOf(c.Plan(), |s.sent|) + ReaderBytes(c, s) == EndOf(c.Plan(), Begun(s))
  {
    hide EndInv, ChannelInv, TakenInv, PoolInv, UploadedInv, ReportInv, CommitInv;
    if !s.reader.Done? { BufferIsThePart(c.Plan(), s.number); }
  }

  /** Conservation: in every reachable state the bytes held in buffers and the bytes confirmed are
      together exactly the planned bytes of the parts begun. */
  lemma {:induction false} HeldAndConfirmed(c: Stream, s: Flow)
    requires c.Valid() && FlowInv(c, s)
    ensures Begun(s) <= c.Plan().partCount
    ensures HeldBytes(c, s) + s.transferred == EndOf(c.Plan(), Begun(s))
  {
    hide EndInv, ReaderInv, TakenInv, UploadedInv, CommitInv, PoolInv, ReportInv, Begun, ReaderBytes, EndOf, SentInv;
    TakenBytes(c, s);
    ReaderHolds(c, s);
    StretchBytes(c.Plan(), c.input, s.sent, |s.sent| - |s.channel|, |s.sent|);
    assert s.sent[|s.sent| - |s.channel|..|s.sent|] == s.channel;
  }

  // ----- How many buffers -----

  /** The stream path holds at most `concurrency + channel_size + 1` part buffers: one more than fits
      the budget when the budget has room beyond the pool, two more than the pool when not. */
  lemma {:induction false} BuffersAreBounded(settings: Settings, c: Stream, server: Server, moves: seq<Move>)
    requires Accepted(settings) && c == StreamOf(c.session, settings, c.abortOnError, c.input)
    requires Startable(c, server) && Flows(c, Begin(c, server), moves)
    ensures settings.concurrency <= MaxParts(settings)
    ensures HeldBuffers(Reached(c, Begin(c, server), moves)) <=
            if MaxParts(settings) > settings.concurrency then MaxParts(settings) + 1 else settings.concurrency + 2
  {
    PoolWithinBudget(settings);
    FlowReachable(c, server, moves);
    FewBuffers(c, Reached(c, Begin(c, server), moves));
  }

  lemma {:induction false} PoolWithinBudget(settings: Settings)
    requires Accepted(settings)
    ensures settings.partSize > 0 && settings.concurrency <= MaxParts(settings)
    ensures ChannelSize(settings) ==
            if MaxParts(settings) > settings.concurrency then MaxParts(settings) - settings.concurrency else 1
  {
    QuotientBound(settings.maxBufferedBytes, settings.partSize, settings.concurrency);
  }

  lemma {:induction false} QuotientBound(a: nat, b: nat, q: nat)
    requires b > 0
    ensures b * q <= a <==> q <= a / b
  {
    var d, m := a / b, a % b;
    assert a == d * b + m;
    if q <= d { MulMono(q, d, b); }
    if d + 1 <= q {
      MulMono(d + 1, q, b);
      assert (d + 1) * b == d * b + b;
    }
  }

  lemma {:induction false} FewBuffers(c: Stream, s: Flow)
    requires c.Valid() && FlowInv(c, s)
    ensures HeldBuffers(s) <= c.concurrency + c.channelSize + 1
  {
    hide EndInv, SentInv, ReaderInv, PoolInv, UploadedInv, ReportInv, CommitInv, Numbers, Distinct, UpTo;
  }

  // ----- The bound is reached -----

  lemma {:induction false} FlowsOn(c: Stream, s: Flow, a: seq<Move>, b: seq<Move>)
    requires c.Valid() && Flows(c, s, a) && Flows(c, Reached(c, s, a), b)
    ensures Flows(c, s, a + b) && Reached(c, s, a + b) == Reached(c, Reached(c, s, a), b)
    decreases |a|
  {
    hide CanMove, Moved;
    if a == [] {
      assert a + b == b;
    } else {
      assert (a + b)[0] == a[0] && (a + b)[1..] == a[1..] + b;
      FlowsOn(c, Moved(c, s, a[0]), a[1..], b);
    }
  }

  lemma {:induction false} OneMove(c: Stream, s: Flow, moves: seq<Move>, next: Move)
    requires c.Valid() && Flows(c, s, moves) && CanMove(c, Reached(c, s, moves), next)
    ensures Flows(c, s, moves + [next]) && Reached(c, s, moves + [next]) == Moved(c, Reached(c, s, moves), next)
  {
    hide CanMove, Moved;
    var t := Reached(c, s, moves);
    assert [next][1..] == [] && Flows(c, Moved(c, t, next), []);
    FlowsOn(c, s, moves, [next]);
  }

  /** Nothing confirmed yet, `j` parts sent, the pool as full as it can be. */
  ghost predicate Packed(c: Stream, s: Flow, j: nat) {
    && s.end.phase.Working? && s.uploaded == [] && |s.sent| == j
    && |s.channel| == (if j <= c.concurrency then 0 else j - c.concurrency)
    && !s.reader.Holding? && (s.reader.Done? ==> s.reader.result.Ok?)
  }

  lemma {:induction false} ReadNext(c: Stream, s: Flow, j: nat)
    requires c.Valid() && FlowInv(c, s) && Packed(c, s, j) && j < c.Plan().partCount
    requires EndOf(c.Plan(), j + 1) <= |c.input|
    ensures CanRead(c, s) && ReadBuffer(c, s).reader.Holding?
    ensures var t := ReadBuffer(c, s); t == s.(reader := t.reader, position := t.position)
  {
    hide EndInv, SentInv, ChannelInv, TakenInv, PoolInv, UploadedInv, ReportInv, CommitInv;
    BufferIsThePart(c.Plan(), s.number);
    ReadFills(c, s);
  }

  lemma {:induction false} SendNext(c: Stream, s: Flow)
    requires c.Valid() && FlowInv(c, s) && s.end.phase.Working? && s.reader.Holding? && |s.channel| < c.channelSize
    ensures CanSend(c, s) && !SendChunk(c, s).reader.Holding?
    ensures var t := SendChunk(c, s);
            && t == s.(reader := t.reader, remaining := t.remaining, number := t.number,
                       channel := s.channel + [s.reader.chunk], sent := s.sent + [s.reader.chunk])
            && (t.reader.Done? ==> t.reader.result.Ok?)
  {
    hide EndInv, SentInv, ChannelInv, TakenInv, PoolInv, UploadedInv, ReportInv, CommitInv;
    BufferIsThePart(c.Plan(), s.number);
  }

  lemma {:induction false} PoolSize(c: Stream, s: Flow)
    requires c.Valid() && FlowInv(c, s) && s.uploaded == []
    ensures |s.pool| == |s.sent| - |s.channel|
  {
    hide EndInv, SentInv, ReaderInv, ChannelInv, PoolInv, UploadedInv, ReportInv, CommitInv, Distinct;
    NoNumbers();
    assert s.pool.Keys == UpTo(|s.sent| - |s.channel|);
    assert |s.pool.Keys| == |s.pool|;
  }

  /** The next part goes through the reader and the channel, and into the pool while it has room. */
  lemma {:induction false} PackNext(c: Stream, s0: Flow, moves: seq<Move>, j: nat) returns (more: seq<Move>)
    requires c.Valid() && FlowInv(c, s0) && Flows(c, s0, moves) && Packed(c, Reached(c, s0, moves), j)
    requires j < c.Plan().partCount && j < c.concurrency + c.channelSize && EndOf(c.Plan(), j + 1) <= |c.input|
    ensures Flows(c, s0, more) && Packed(c, Reached(c, s0, more), j + 1)
  {
    hide FlowInv, Flows, Reached;
    FlowKeeps(c, s0, moves);
    var s := Reached(c, s0, moves);
    ReadNext(c, s, j);
    OneMove(c, s0, moves, ReadOk);
    FlowKeeps(c, s0, moves + [ReadOk]);
    var held := Reached(c, s0, moves + [ReadOk]);
    SendNext(c, held);
    more := moves + [ReadOk] + [Send];
    OneMove(c, s0, moves + [ReadOk], Send);
    if j < c.concurrency {
      FlowKeeps(c, s0, more);
      var queued := Reached(c, s0, more);
      PoolSize(c, queued);
      OneMove(c, s0, more, Pull);
      more := more + [Pull];
    }
  }

  lemma {:induction false} EndsAscend(plan: MultipartPlan, a: nat, b: nat)
    requires plan.Valid() && a <= b <= plan.partCount
    ensures EndOf(plan, a) <= EndOf(plan, b)
  {
    if a < b {
      EndsAscend(plan, a, b - 1);
      EndIsNextOffset(plan, b - 1);
    }
  }

  lemma {:induction false} PackedRun(c: Stream, server: Server, j: nat) returns (moves: seq<Move>)
    requires Startable(c, server) && j <= c.Plan().partCount && j <= c.concurrency + c.channelSize
    requires EndOf(c.Plan(), j) <= |c.input|
    ensures Flows(c, Begin(c, server), moves) && Packed(c, Reached(c, Begin(c, server), moves), j)
  {
    if j == 0 {
      moves := [];
    } else {
      EndsAscend(c.Plan(), j - 1, j);
      var fewer := PackedRun(c, server, j - 1);
      BeginKeeps(c, server);
      moves := PackNext(c, Begin(c, server), fewer, j - 1);
    }
  }

  /** How many of the first `k` parts lie wholly inside the input. */
  function Readable(plan: MultipartPlan, input: Bytes, k: nat): (r: nat)
    requires plan.Valid() && k <= plan.partCount
    ensures r <= k && EndOf(plan, r) <= |input| && (r < k ==> EndOf(plan, r + 1) > |input|)
  {
    if k == 0 || EndOf(plan, k) <= |input| then k else Readable(plan, input, k - 1)
  }

  /** The pool, the channel and the reader's buffer, unless there are fewer parts or the input ends
      before. */
  function MostBuffers(c: Stream): nat
    requires c.Valid()
  {
    var plan := c.Plan();
    Min(Min(plan.partCount, c.concurrency + c.channelSize + 1), Readable(plan, c.input, plan.partCount) + 1)
  }

  lemma {:induction false} WholeInputIsReadable(c: Stream)
    requires c.Valid() && c.Plan().fileSize <= |c.input|
    ensures MostBuffers(c) == Min(c.Plan().partCount, c.concurrency + c.channelSize + 1)
  {
  }

  /** Some run does hold that many buffers at once, and they are the first parts. */
  lemma {:induction false} BuffersAreReached(c: Stream, server: Server) returns (moves: seq<Move>)
    requires Startable(c, server)
    ensures Flows(c, Begin(c, server), moves)
    ensures var s := Reached(c, Begin(c, server), moves);
            HeldBuffers(s) == MostBuffers(c) <= c.Plan().partCount && HeldBytes(c, s) == EndOf(c.Plan(), MostBuffers(c))
  {
    hide FlowInv, Flows, Reached, HeldBytes, EndOf;
    var readable := Readable(c.Plan(), c.input, c.Plan().partCount);
    var j := Min(Min(c.Plan().partCount, c.concurrency + c.channelSize), readable);
    EndsAscend(c.Plan(), j, readable);
    moves := PackedRun(c, server, j);
    FlowReachable(c, server, moves);
    PackedHolds(c, Reached(c, Begin(c, server), moves), j);
  }

  lemma {:induction false} PackedHolds(c: Stream, s: Flow, j: nat)
    requires c.Valid() && FlowInv(c, s) && Packed(c, s, j) && j <= c.Plan().partCount
    ensures HeldBuffers(s) == (if j == c.Plan().partCount then j else j + 1) <= c.Plan().partCount
    ensures HeldBytes(c, s) == EndOf(c.Plan(), HeldBuffers(s))
  {
    hide EndInv, SentInv, ChannelInv, TakenInv, PoolInv, UploadedInv, CommitInv, HeldBytes, EndOf, Numbers, SumLengths;
    HeldAndConfirmed(c, s);
    PoolSize(c, s);
    NoNumbers();
    assert Numbers([]) + Numbers([]) == {};
    NothingCounts(c.Plan(), c.Plan().partCount);
    assert s.uploaded[..0] == [];
  }

  // ----- The bytes -----

  lemma {:induction false} FullBuffersAdd(partSize: nat, a: nat, b: nat)
    ensures Start(partSize, a + 1) + Start(partSize, b + 1) == Start(partSize, a + b + 1)
  {
    if b > 0 { FullBuffersAdd(partSize, a, b - 1); }
  }

  lemma {:induction false} ChunksAreBounded(plan: MultipartPlan, input: Bytes, sent: seq<Chunk>, a: nat, b: nat)
    requires plan.Valid() && SentInv(plan, input, sent) && a <= b <= |sent|
    ensures ChunkBytes(sent[a..b]) <= Start(plan.partSize, b - a + 1)
  {
    if a < b {
      ChunksAreBounded(plan, input, sent, a, b - 1);
      assert sent[a..b][..b - 1 - a] == sent[a..b - 1];
      assert FromInput(plan, input, b, sent[b - 1].bytes);
    }
  }

  lemma {:induction false} PoolIsBounded(plan: MultipartPlan, input: Bytes, attempts: nat, server: Server,
                                         bodies: set<(nat, Bytes)>, pool: map<nat, Transfer>)
    requires plan.Valid() && PoolInv(plan, input, attempts, server, bodies, pool)
    ensures PoolBytes(pool, plan.partCount) <= Start(plan.partSize, |pool| + 1)
  {
    hide PoolInv, SumLengths, PoolBytes, Start;
    PoolIsPlanned(plan, input, attempts, server, bodies, pool, plan.partCount);
    SumIsBounded(plan, pool.Keys, plan.partCount);
    assert |pool.Keys| == |pool|;
  }

  /** No buffer is larger than a part. */
  lemma {:induction false} BuffersHoldParts(c: Stream, s: Flow)
    requires c.Valid() && FlowInv(c, s)
    ensures HeldBytes(c, s) <= Start(c.Plan().partSize, HeldBuffers(s) + 1)
  {
    hide EndInv, SentInv, TakenInv, PoolInv, UploadedInv, ReportInv, CommitInv, PoolBytes, ChunkBytes, ReaderBytes;
    var p := c.Plan().partSize;
    ChunksAreBounded(c.Plan(), c.input, s.sent, |s.sent| - |s.channel|, |s.sent|);
    assert s.sent[|s.sent| - |s.channel|..|s.sent|] == s.channel;
    PoolIsBounded(c.Plan(), c.input, c.maxAttempts, s.end.server, s.bodies, s.pool);
    ReaderIsBounded(c, s);
    FullBuffersAdd(p, |s.channel|, |s.pool|);
    FullBuffersAdd(p, if s.reader.Done? then 0 else 1, |s.channel| + |s.pool|);
  }

  lemma {:induction false} ReaderIsBounded(c: Stream, s: Flow)
    requires c.Valid() && FlowInv(c, s)
    ensures ReaderBytes(c, s) <= Start(c.Plan().partSize, if s.reader.Done? then 1 else 2)
  {
    hide EndInv, SentInv, ChannelInv, TakenInv, PoolInv, UploadedInv, ReportInv, CommitInv, EndOf;
  }

  /** The reader never gets further than the first part that does not lie inside the input. */
  lemma {:induction false} BegunIsReadable(c: Stream, s: Flow)
    requires c.Valid() && FlowInv(c, s)
    ensures Begun(s) <= Min(c.Plan().partCount, Readable(c.Plan(), c.input, c.Plan().partCount) + 1)
  {
    hide EndInv, ChannelInv, TakenInv, PoolInv, UploadedInv, ReportInv, CommitInv, EndOf;
    ReaderHolds(c, s);
    var readable := Readable(c.Plan(), c.input, c.Plan().partCount);
    if readable < |s.sent| {
      SentIsInside(c.Plan(), c.input, s.sent);
      EndsAscend(c.Plan(), readable + 1, |s.sent|);
    }
  }

  lemma {:induction false} SentIsInside(plan: MultipartPlan, input: Bytes, sent: seq<Chunk>)
    requires plan.Valid() && SentInv(plan, input, sent)
    ensures EndOf(plan, |sent|) <= |input|
  {
    if sent != [] { assert FromInput(plan, input, |sent|, sent[|sent| - 1].bytes); }
  }

  /** In every reachable state the buffers hold at most the bytes of the first `MostBuffers` parts. */
  lemma {:induction false} HeldIsAtMost(c: Stream, s: Flow)
    requires c.Valid() && FlowInv(c, s)
    ensures MostBuffers(c) <= c.Plan().partCount && HeldBytes(c, s) <= EndOf(c.Plan(), MostBuffers(c))
  {
    hide FlowInv, HeldBytes, HeldBuffers, EndOf, Begun, Start;
    var plan := c.Plan();
    BegunIsReadable(c, s);
    HeldAndConfirmed(c, s);
    FewBuffers(c, s);
    BuffersHoldParts(c, s);
    StartMono(plan.partSize, HeldBuffers(s) + 1, c.concurrency + c.channelSize + 2);
    if MostBuffers(c) == c.concurrency + c.channelSize + 1 < plan.partCount {
      EndIsNextOffset(plan, MostBuffers(c));
    } else {
      EndsAscend(plan, Begun(s), MostBuffers(c));
    }
  }

  /** The largest amount a stream upload ever buffers, for every reader, is exactly that. */
  lemma {:induction false} MostIsExact(c: Stream, server: Server)
    requires Startable(c, server)
    ensures MostBuffers(c) <= c.Plan().partCount
    ensures forall moves :: Flows(c, Begin(c, server), moves) ==>
                              HeldBytes(c, Reached(c, Begin(c, server), moves)) <= EndOf(c.Plan(), MostBuffers(c))
    ensures exists moves :: Flows(c, Begin(c, server), moves) &&
                            HeldBytes(c, Reached(c, Begin(c, server), moves)) == EndOf(c.Plan(), MostBuffers(c))
  {
    hide FlowInv, Flows, Reached, HeldBytes, EndOf, MostBuffers;
    BeginKeeps(c, server);
    HeldIsAtMost(c, Begin(c, server));
    forall moves | Flows(c, Begin(c, server), moves)
      ensures HeldBytes(c, Reached(c, Begin(c, server), moves)) <= EndOf(c.Plan(), MostBuffers(c))
    {
      FlowReachable(c, server, moves);
      HeldIsAtMost(c, Reached(c, Begin(c, server), moves));
    }
    var moves := BuffersAreReached(c, server);
  }

  // ----- The budget -----

  lemma {:induction false} MoreThanTheBudget(settings: Settings, plan: MultipartPlan)
    requires Accepted(settings) && plan.Valid() && plan.partSize == settings.partSize
             && plan.fileSize > settings.maxBufferedBytes
    ensures EndOf(plan, Min(plan.partCount, settings.concurrency + ChannelSize(settings) + 1)) >
            settings.maxBufferedBytes
  {
    hide Accepted, MaxParts, ChannelSize;
    var all := settings.concurrency + ChannelSize(settings) + 1;
    if all < plan.partCount {
      AllBuffersOverrun(settings, all);
      EndIsNextOffset(plan, all);
    }
  }

  lemma {:induction false} AllBuffersOverrun(settings: Settings, all: nat)
    requires Accepted(settings) && all == settings.concurrency + ChannelSize(settings) + 1
    ensures Start(settings.partSize, all + 1) > settings.maxBufferedBytes
  {
    hide Start, Accepted, MaxParts, ChannelSize;
    PoolWithinBudget(settings);
    BeyondMaxParts(settings, all);
    StartIsProduct(settings.partSize, all + 1);
  }

  lemma {:induction false} BeyondMaxParts(settings: Settings, count: nat)
    requires settings.partSize > 0 && count > MaxParts(settings)
    ensures count * settings.partSize > settings.maxBufferedBytes
  {
    QuotientBound(settings.maxBufferedBytes, settings.partSize, count);
  }

  ghost predicate StaysInBudget(c: Stream, server: Server, budget: nat)
    requires c.Valid()
  {
    forall moves :: Flows(c, Begin(c, server), moves) ==> HeldBytes(c, Reached(c, Begin(c, server), moves)) <= budget
  }

  /** The stream path keeps to `max_buffered_bytes` in every reachable state if and only if the parts it
      can hold at once fit that budget. A stream that fits the budget as a whole therefore never overruns
      it; one that does not always can, unless its reader ends early. */
  lemma {:induction false} BudgetHoldsExactly(session: Session, settings: Settings, abortOnError: bool, input: Bytes,
                                              server: Server)
    requires Accepted(settings) && session.Valid() && settings.partSize == session.plan.partSize && Sound(server)
    ensures var c := StreamOf(session, settings, abortOnError, input);
            && c.Valid() && MostBuffers(c) <= session.plan.partCount
            && (StaysInBudget(c, server, settings.maxBufferedBytes) <==>
                EndOf(session.plan, MostBuffers(c)) <= settings.maxBufferedBytes)
            && (session.plan.fileSize <= settings.maxBufferedBytes ==>
                  StaysInBudget(c, server, settings.maxBufferedBytes))
            && (session.plan.fileSize <= |input| ==>
                  (StaysInBudget(c, server, settings.maxBufferedBytes) <==>
                   session.plan.fileSize <= settings.maxBufferedBytes))
  {
    hide Accepted, HeldBytes, EndOf, MaxParts, ChannelSize, FlowInv, Session.Valid, Flows, Reached;
    SettingsMakeAStream(session, settings, abortOnError, input);
    var c := StreamOf(session, settings, abortOnError, input);
    MostIsExact(c, server);
    if session.plan.fileSize > settings.maxBufferedBytes && session.plan.fileSize <= |input| {
      MoreThanTheBudget(settings, session.plan);
    }
  }

  lemma {:induction false} SettingsMakeAStream(session: Session, settings: Settings, abortOnError: bool, input: Bytes)
    requires Accepted(settings) && session.Valid() && settings.partSize == session.plan.partSize
    ensures settings.partSize > 0 && StreamOf(session, settings, abortOnError, input).Valid() && session.plan.Valid()
  {
    hide MaxParts;
  }
}

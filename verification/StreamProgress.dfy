/** The stream pipeline never deadlocks, and its own steps are bounded in number. */
module StreamProgress {
  import opened Basics
  import opened Plan
  import opened Manifest
  import opened Accounting
  import opened Remote
  import opened SessionEnd
  import opened StreamUpload
  import opened StreamUploadInv
  import opened StreamUploadTheorems
  import opened StreamMemory

  // ----- A measure -----

  /** Steps of the store and of other clients. Every other step is the uploader's own, including the
      arrival of an answer and of bytes from the reader. */
  predicate Outside(move: Move) {
    move.LateCopy? || move.Answer? || (move.Tail? && Environment(move.step))
  }

  /** What part `n` still has ahead of it at most: reading, sending, pulling, and its attempts. */
  function Ahead(c: Stream, s: Flow, n: nat): nat {
    if n in s.pool then if s.pool[n].attempt > c.maxAttempts then 1 else c.maxAttempts + 1 - s.pool[n].attempt
    else if n > |s.sent| then
      if s.reader.Done? then 0
      else if s.reader.Holding? && n == |s.sent| + 1 then c.maxAttempts + 3
      else c.maxAttempts + 4
    else if n + |s.channel| > |s.sent| then c.maxAttempts + 2
    else 0
  }

  function Work(c: Stream, s: Flow): nat -> nat {
    n => Ahead(c, s, n)
  }

  function Measure(c: Stream, s: Flow): nat {
    match s.end.phase
    case Working => 3 + SumUpTo(Work(c, s), c.Plan().partCount)
    case Completing => 2
    case CleaningUp(_) => 1
    case Ended(_) => 0
  }

  /** Both sides still work, part `n` got ahead and no part fell back. */
  ghost predicate Advances(c: Stream, s: Flow, t: Flow, n: nat) {
    && s.end.phase.Working? && t.end.phase.Working? && 1 <= n <= c.Plan().partCount
    && Ahead(c, t, n) < Ahead(c, s, n)
    && forall m: nat :: m <= c.Plan().partCount ==> Ahead(c, t, m) <= Ahead(c, s, m)
  }

  lemma {:induction false} AdvancingDrops(c: Stream, s: Flow, t: Flow, n: nat)
    requires Advances(c, s, t, n)
    ensures Measure(c, t) < Measure(c, s)
  {
    hide Ahead;
    SumDrops(Work(c, s), Work(c, t), n, c.Plan().partCount);
  }

  /** Only the reader changed, to a state with less ahead. */
  lemma {:induction false} ReaderAlone(c: Stream, s: Flow, t: Flow)
    requires s.end.phase.Working? && t == s.(reader := t.reader, position := t.position) && s.reader.Filling?
    requires t.reader.Done? || t.reader.Holding?
    requires Planned(c.Plan(), |s.sent| + 1) && |s.sent| + 1 !in s.pool
    ensures Measure(c, t) < Measure(c, s)
  {
    hide Measure;
    assert Advances(c, s, t, |s.sent| + 1);
    AdvancingDrops(c, s, t, |s.sent| + 1);
  }

  lemma {:induction false} SendAdvances(c: Stream, s: Flow)
    requires c.Valid() && CanSend(c, s) && s.number == |s.sent| + 1
    requires Planned(c.Plan(), s.number) && s.number !in s.pool
    requires |s.channel| <= |s.sent|
    ensures Measure(c, SendChunk(c, s)) < Measure(c, s)
  {
    hide Measure;
    assert Advances(c, s, SendChunk(c, s), s.number);
    AdvancingDrops(c, s, SendChunk(c, s), s.number);
  }

  lemma {:induction false} ReaderAdvances(c: Stream, s: Flow, move: Move)
    requires c.Valid() && FlowInv(c, s) && CanMove(c, s, move) && (move.ReadOk? || move.ReadErr? || move.Send?)
    ensures Measure(c, Moved(c, s, move)) < Measure(c, s)
  {
    hide FlowInv, Measure, TryPartNumber;
    ReaderIsBehind(c, s);
    PoolIsTaken(c, s);
    match move
    case ReadOk => ReaderAlone(c, s, Moved(c, s, move));
    case ReadErr => ReaderAlone(c, s, Moved(c, s, move));
    case Send => SendAdvances(c, s);
  }

  /** The part being read is planned and was never taken. */
  lemma {:induction false} ReaderIsBehind(c: Stream, s: Flow)
    requires c.Valid() && FlowInv(c, s) && !s.reader.Done?
    ensures Planned(c.Plan(), s.number) && s.number == |s.sent| + 1
    ensures forall n :: n in s.pool ==> 1 <= n && n + |s.channel| <= |s.sent|
  {
    hide EndInv, PoolInv, UploadedInv, ReportInv, CommitInv, Numbers, Distinct, EndOf, SentInv;
    PoolIsTaken(c, s);
  }

  lemma {:induction false} PoolIsTaken(c: Stream, s: Flow)
    requires c.Valid() && FlowInv(c, s)
    ensures |s.channel| <= |s.sent| <= c.Plan().partCount
    ensures forall n :: n in s.pool ==> 1 <= n && n + |s.channel| <= |s.sent|
  {
    hide EndInv, ReaderInv, PoolInv, UploadedInv, ReportInv, CommitInv, Numbers, Distinct, FromInput;
    forall n | n in s.pool
      ensures 1 <= n && n + |s.channel| <= |s.sent|
    {
      assert n in s.pool.Keys;
      assert n in UpTo(|s.sent| - |s.channel|);
    }
  }

  lemma {:induction false} PullAdvances(c: Stream, s: Flow)
    requires c.Valid() && FlowInv(c, s) && CanMove(c, s, Pull)
    ensures Measure(c, Moved(c, s, Pull)) < Measure(c, s)
  {
    hide EndInv, ReaderInv, TakenInv, PoolInv, UploadedInv, ReportInv, CommitInv, FromInput, Measure, SentInv,
      ChannelInv;
    PoolIsTaken(c, s);
    ChannelHead(c.Plan(), c.input, c.channelSize, s.sent, s.channel);
    var n := s.channel[0].number;
    assert Advances(c, s, PullChunk(s), n);
    AdvancingDrops(c, s, PullChunk(s), n);
  }

  lemma {:induction false} TransferAdvances(c: Stream, s: Flow, move: Move)
    requires c.Valid() && FlowInv(c, s) && CanMove(c, s, move) && (move.Retry? || move.Deliver?)
    ensures Measure(c, Moved(c, s, move)) < Measure(c, s)
  {
    hide EndInv, ReaderInv, TakenInv, PoolInv, UploadedInv, ReportInv, CommitInv, FromInput, Measure, SentInv,
      ChannelInv;
    PoolIsTaken(c, s);
    var t := Moved(c, s, move);
    assert Advances(c, s, t, move.number);
    AdvancingDrops(c, s, t, move.number);
  }

  /** Every step of the uploader itself strictly lowers the measure, and no step of the store or of
      other clients raises it. */
  lemma {:induction false} MeasureDecreases(c: Stream, s: Flow, move: Move)
    requires c.Valid() && FlowInv(c, s) && CanMove(c, s, move)
    ensures Measure(c, Moved(c, s, move)) <= Measure(c, s)
    ensures !Outside(move) ==> Measure(c, Moved(c, s, move)) < Measure(c, s)
  {
    hide FlowInv, Ahead;
    match move
    case ReadOk => ReaderAdvances(c, s, move);
    case ReadErr => ReaderAdvances(c, s, move);
    case Send => ReaderAdvances(c, s, move);
    case Pull => PullAdvances(c, s);
    case Retry(_) => TransferAdvances(c, s, move);
    case Deliver(_, _) => TransferAdvances(c, s, move);
    case Finish => FinishLeavesWorking(c, s);
    case Tail(t) => TailLowers(c, s, t);
    case LateCopy(_, _, _) => SameWork(c, s, Moved(c, s, move));
    case Answer(_, _) => SameWork(c, s, Moved(c, s, move));
  }

  lemma {:induction false} FinishLeavesWorking(c: Stream, s: Flow)
    requires c.Valid() && CanMove(c, s, Finish)
    ensures Measure(c, FinishStream(c, s)) < Measure(c, s)
  {
    hide Canonical, Values, Inserted, Accepts, Ahead;
  }

  /** Every part stands where it stood. */
  lemma {:induction false} SameWork(c: Stream, s: Flow, t: Flow)
    requires t.end.phase == s.end.phase && t.reader == s.reader && t.sent == s.sent && t.channel == s.channel
    requires t.pool.Keys == s.pool.Keys && forall n :: n in s.pool ==> t.pool[n].attempt == s.pool[n].attempt
    ensures Measure(c, t) == Measure(c, s)
  {
    assert forall n: nat :: n in s.pool <==> n in s.pool.Keys;
    assert forall n: nat :: n in t.pool <==> n in t.pool.Keys;
    SumDrops(Work(c, s), Work(c, t), 0, c.Plan().partCount);
    SumDrops(Work(c, t), Work(c, s), 0, c.Plan().partCount);
  }

  lemma {:induction false} TailLowers(c: Stream, s: Flow, step: EndStep)
    requires c.Valid() && CanMove(c, s, Tail(step))
    ensures Measure(c, Moved(c, s, Tail(step))) <= Measure(c, s)
    ensures !Environment(step) ==> Measure(c, Moved(c, s, Tail(step))) < Measure(c, s)
  {
    hide Serve, CanServe, SumUpTo;
    if Environment(step) { SameWork(c, s, Moved(c, s, Tail(step))); }
  }

  /** The store and other clients change nothing of the pipeline itself: only the store, and which answers
      are on their way. */
  lemma {:induction false} OthersLeaveTheFlow(c: Stream, s: Flow, move: Move)
    requires c.Valid() && CanMove(c, s, move) && Outside(move)
    ensures var t := Moved(c, s, move);
            && t == s.(end := t.end, pool := t.pool) && t.pool.Keys == s.pool.Keys
            && t.end == s.end.(server := t.end.server, answered := t.end.answered)
            && forall n :: n in s.pool ==> t.pool[n] == s.pool[n].(replies := t.pool[n].replies)
  {
    hide Serve, CanServe;
  }

  /** A part request can be retried until all of its attempts are used, and not once more; an answer to
      an attempt that was given up is not taken for one to the next. */
  lemma {:induction false} AttemptsCanBeUsedUp(c: Stream, s: Flow, n: nat) returns (moves: seq<Move>)
    requires c.Valid() && Outstanding(s, n) && s.pool[n].attempt <= c.maxAttempts
    ensures Flows(c, s, moves) && |moves| == c.maxAttempts - s.pool[n].attempt
    ensures forall i :: 0 <= i < |moves| ==> moves[i] == Retry(n)
    ensures var t := Reached(c, s, moves);
            && Outstanding(t, n) && t.pool[n].attempt == c.maxAttempts && t.pool[n].bytes == s.pool[n].bytes
            && !CanMove(c, t, Retry(n)) && (moves != [] ==> forall etag :: !CanMove(c, t, Deliver(n, etag)))
    decreases c.maxAttempts - s.pool[n].attempt
  {
    if s.pool[n].attempt == c.maxAttempts {
      moves := [];
    } else {
      var rest := AttemptsCanBeUsedUp(c, Moved(c, s, Retry(n)), n);
      moves := [Retry(n)] + rest;
      assert moves[0] == Retry(n) && moves[1..] == rest;
    }
  }

  lemma {:induction false} OneMoveBodies(c: Stream, s: Flow, move: Move)
    requires c.Valid() && CanMove(c, s, move)
    ensures s.bodies <= Moved(c, s, move).bodies
  {
    hide Canonical, Values, Inserted, Accepts, Serve, CanServe, CanEnd, DoEnd;
  }

  lemma {:induction false} BodiesStay(c: Stream, s: Flow, moves: seq<Move>)
    requires c.Valid() && Flows(c, s, moves)
    ensures s.bodies <= Reached(c, s, moves).bodies
    decreases |moves|
  {
    hide CanMove, Moved;
    if moves != [] {
      OneMoveBodies(c, s, moves[0]);
      BodiesStay(c, Moved(c, s, moves[0]), moves[1..]);
    }
  }

  /** A part request that was ever sent can still be applied at any later moment, as long as the session is
      open. */
  lemma {:induction false} SentChunksCanArriveLate(c: Stream, s: Flow, moves: seq<Move>)
    requires c.Valid() && CanMove(c, s, Pull) && Flows(c, Moved(c, s, Pull), moves)
    requires Reached(c, Moved(c, s, Pull), moves).end.server.status.Open?
    ensures exists etag :: etag != "" &&
                           CanMove(c, Reached(c, Moved(c, s, Pull), moves),
                                   LateCopy(s.channel[0].number, s.channel[0].bytes, etag))
  {
    hide Flows, Reached;
    var pulled := Moved(c, s, Pull);
    BodiesStay(c, pulled, moves);
    var t := Reached(c, pulled, moves);
    var etag := UnusedETag(t.end.server.issued.Keys);
    assert CanMove(c, t, LateCopy(s.channel[0].number, s.channel[0].bytes, etag));
  }

  /** The reader has failed and no completion has been sent. */
  predicate CutOff(s: Flow) {
    s.reader == Done(Err(Io)) && s.end.inFlight.None? && !s.end.phase.Completing? && s.end.phase != Ended(Succeeded)
  }

  lemma {:induction false} StaysCutOff(c: Stream, s: Flow, move: Move)
    requires c.Valid() && CanMove(c, s, move) && CutOff(s)
    ensures CutOff(Moved(c, s, move))
  {
    hide Canonical, Values, Inserted, Accepts, Serve, CanServe;
  }

  lemma {:induction false} FlowStaysCutOff(c: Stream, s: Flow, moves: seq<Move>)
    requires c.Valid() && Flows(c, s, moves) && CutOff(s)
    ensures CutOff(Reached(c, s, moves))
    decreases |moves|
  {
    hide CanMove, Moved;
    if moves != [] {
      StaysCutOff(c, s, moves[0]);
      FlowStaysCutOff(c, Moved(c, s, moves[0]), moves[1..]);
    }
  }

  lemma {:induction false} ReadFails(c: Stream, s: Flow)
    requires c.Valid() && EndInv(c.session, s.end) && s.end.phase.Working? && s.reader.Filling?
    ensures CanMove(c, s, ReadErr) && CutOff(Moved(c, s, ReadErr))
  {
  }

  /** The reader can fail at every read. The run then never sends a completion and does not succeed,
      whatever was uploaded before. */
  lemma {:induction false} FailedReadIsNotCompleted(c: Stream, s: Flow, moves: seq<Move>)
    requires c.Valid() && EndInv(c.session, s.end) && s.end.phase.Working? && s.reader.Filling?
    ensures CanMove(c, s, ReadErr)
    ensures Flows(c, Moved(c, s, ReadErr), moves) ==>
              var e := Reached(c, Moved(c, s, ReadErr), moves).end;
              e.inFlight.None? && e.phase != Ended(Succeeded)
  {
    hide Flows, Reached, CanMove, Moved, EndInv;
    ReadFails(c, s);
    if Flows(c, Moved(c, s, ReadErr), moves) {
      FlowStaysCutOff(c, Moved(c, s, ReadErr), moves);
    }
  }

  function OwnMoves(moves: seq<Move>): nat {
    if moves == [] then 0 else OwnMoves(moves[1..]) + if Outside(moves[0]) then 0 else 1
  }

  lemma {:induction false} OwnMovesAreCounted(c: Stream, s: Flow, moves: seq<Move>)
    requires c.Valid() && FlowInv(c, s) && Flows(c, s, moves)
    ensures OwnMoves(moves) + Measure(c, Reached(c, s, moves)) <= Measure(c, s)
    decreases |moves|
  {
    hide FlowInv, CanMove, Moved, Measure, Outside;
    if moves != [] {
      MoveKeeps(c, s, moves[0]);
      MeasureDecreases(c, s, moves[0]);
      OwnMovesAreCounted(c, Moved(c, s, moves[0]), moves[1..]);
    }
  }

  lemma {:induction false} WorkAtBegin(c: Stream, server: Server, k: nat)
    requires c.Valid() && k <= c.Plan().partCount
    ensures SumUpTo(Work(c, Begin(c, server)), k) == k * (c.maxAttempts + 4)
  {
    if k > 0 {
      WorkAtBegin(c, server, k - 1);
      assert k * (c.maxAttempts + 4) == (k - 1) * (c.maxAttempts + 4) + (c.maxAttempts + 4);
    }
  }

  /** No run of the pipeline goes on forever by itself: every part takes at most one read, one send,
      one pull, `max_attempts` attempts and one confirmation, and three more steps end the run. */
  lemma {:induction false} OwnMovesAreBounded(c: Stream, server: Server, moves: seq<Move>)
    requires Startable(c, server) && Flows(c, Begin(c, server), moves)
    ensures OwnMoves(moves) <= c.Plan().partCount * (c.maxAttempts + 4) + 3
  {
    BeginKeeps(c, server);
    OwnMovesAreCounted(c, Begin(c, server), moves);
    WorkAtBegin(c, server, c.Plan().partCount);
  }

  // ----- No deadlock -----

  /** Nothing is outstanding that the pipeline could be waiting for. */
  predicate Idle(s: Flow) {
    s.end.phase.Working? && !s.reader.Filling? && s.pool == map[]
  }

  /** A step that brings the transfer forward, with no failure, retry or giving up. */
  predicate Forward(move: Move) {
    move.ReadOk? || move.Send? || move.Pull? || move.Deliver? || move.Finish?
  }

  /** The buffer wants more bytes than the input still has. */
  predicate OutOfInput(c: Stream, s: Flow) {
    s.reader.Filling? && s.position + BufferLength(c, s) > |c.input|
  }

  /** A request that has no usable answer yet. */
  ghost predicate Unanswered(s: Flow, n: nat) {
    n in s.pool && forall e :: e in s.pool[n].replies ==> e == ""
  }

  /** In no reachable state do the three stages wait for each other. While the run works, a step can
      bring it forward, unless it waits for the outside: for bytes the input does not have, or for the
      answer to a request. With no read and no request outstanding, a chunk can be sent or pulled or
      the run can finish. */
  lemma {:induction false} PipelineNeverDeadlocks(c: Stream, server: Server, moves: seq<Move>)
    requires Startable(c, server) && Flows(c, Begin(c, server), moves)
    ensures var s := Reached(c, Begin(c, server), moves);
            && (Idle(s) ==> CanMove(c, s, Send) || CanMove(c, s, Pull) || CanMove(c, s, Finish))
            && (s.end.phase.Working? ==>
                  || (exists move :: Forward(move) && CanMove(c, s, move))
                  || OutOfInput(c, s)
                  || (exists n :: Unanswered(s, n)))
  {
    hide FlowInv, Flows, Reached;
    FlowReachable(c, server, moves);
    var s := Reached(c, Begin(c, server), moves);
    if Idle(s) { IdleMoves(c, s); }
    if s.end.phase.Working? {
      if s.pool != map[] {
        AnsweredOrWaiting(c, s);
      } else if s.reader.Filling? {
        assert CanMove(c, s, ReadOk) || OutOfInput(c, s);
      } else {
        var move: Move := if CanMove(c, s, Send) then Send else if CanMove(c, s, Pull) then Pull else Finish;
        assert Forward(move) && CanMove(c, s, move);
      }
    }
  }

  lemma {:induction false} AnsweredOrWaiting(c: Stream, s: Flow)
    requires c.Valid() && FlowInv(c, s) && s.end.phase.Working? && s.pool != map[]
    ensures (exists move :: Forward(move) && CanMove(c, s, move)) || (exists n :: Unanswered(s, n))
  {
    hide FlowInv;
    var n := PoolPart(c, s);
    if !Unanswered(s, n) {
      var etag :| etag in s.pool[n].replies && etag != "";
      assert Forward(Deliver(n, etag)) && CanMove(c, s, Deliver(n, etag));
    }
  }

  lemma {:induction false} IdleMoves(c: Stream, s: Flow)
    requires c.Valid() && FlowInv(c, s) && Idle(s)
    ensures CanMove(c, s, Send) || CanMove(c, s, Pull) || CanMove(c, s, Finish)
  {
    hide EndInv, SentInv, ChannelInv, TakenInv, PoolInv, UploadedInv, ReportInv, CommitInv;
    if s.channel == [] && s.reader.Holding? {
      SendNext(c, s);
    }
  }

  // ----- A run that is not disturbed can always complete -----

  /** No failure: the reader yields, the store applies and answers. */
  predicate Smooth(move: Move) {
    move.ReadOk? || move.Send? || move.Pull? || move.Answer? || move.Deliver? || move.Finish?
  }

  predicate Healthy(c: Stream, s: Flow) {
    && s.end.phase.Working? && s.end.server.status.Open? && c.Plan().fileSize <= |c.input|
    && (s.reader.Done? ==> s.reader.result.Ok?)
  }

  lemma {:induction false} ReaderGoesOn(c: Stream, s: Flow) returns (move: Move)
    requires c.Valid() && FlowInv(c, s) && Healthy(c, s)
    requires s.reader.Filling? || (s.reader.Holding? && |s.channel| < c.channelSize)
    ensures (move.ReadOk? || move.Send?) && CanMove(c, s, move) && Healthy(c, Moved(c, s, move))
  {
    hide EndInv, SentInv, ChannelInv, TakenInv, PoolInv, UploadedInv, ReportInv, CommitInv;
    if s.reader.Filling? {
      move := ReadOk;
      BufferIsThePart(c.Plan(), s.number);
      ReadFills(c, s);
    } else {
      move := Send;
      SendNext(c, s);
    }
  }

  /** A request in the pool is answered and its answer arrives. */
  lemma {:induction false} PoolGoesOn(c: Stream, s: Flow) returns (moves: seq<Move>)
    requires c.Valid() && FlowInv(c, s) && Healthy(c, s) && s.pool != map[]
    ensures Flows(c, s, moves) && (forall i :: 0 <= i < |moves| ==> Smooth(moves[i]))
    ensures Healthy(c, Reached(c, s, moves)) && Measure(c, Reached(c, s, moves)) < Measure(c, s)
  {
    hide FlowInv, Measure;
    var n := PoolPart(c, s);
    var etag := UnusedETag(s.end.server.issued.Keys);
    var answer, deliver := Answer(n, etag), Deliver(n, etag);
    MoveKeeps(c, s, answer);
    MeasureDecreases(c, s, answer);
    var answered := Moved(c, s, answer);
    MeasureDecreases(c, answered, deliver);
    moves := [answer, deliver];
    assert moves[1..] == [deliver] && [deliver][1..] == [];
    var delivered := Moved(c, answered, deliver);
    assert Flows(c, delivered, []);
    assert Flows(c, answered, [deliver]) && Reached(c, answered, [deliver]) == delivered;
  }

  lemma {:induction false} PoolPart(c: Stream, s: Flow) returns (n: nat)
    requires c.Valid() && FlowInv(c, s) && s.pool != map[]
    ensures n in s.pool && 1 <= n <= MAX_PARTS
  {
    hide EndInv, SentInv, ReaderInv, ChannelInv, TakenInv, PoolInv, UploadedInv, ReportInv, CommitInv, Numbers;
    assert s.pool.Keys != {};
    n :| n in s.pool;
    PoolIsTaken(c, s);
  }

  lemma {:induction false} SingleMove(c: Stream, s: Flow, move: Move)
    requires c.Valid() && CanMove(c, s, move)
    ensures Flows(c, s, [move]) && Reached(c, s, [move]) == Moved(c, s, move)
  {
    hide CanMove, Moved;
    assert [move][1..] == [] && Flows(c, Moved(c, s, move), []);
  }

  /** With nothing in the pool, the next step of reader, channel or end. */
  lemma {:induction false} NextMove(c: Stream, s: Flow) returns (move: Move)
    requires c.Valid() && FlowInv(c, s) && Healthy(c, s) && s.pool == map[]
    ensures CanMove(c, s, move) && Smooth(move) && !Outside(move)
    ensures Moved(c, s, move).end.phase.Completing? || Healthy(c, Moved(c, s, move))
  {
    hide FlowInv, FinishStream, ReadBuffer, SendChunk;
    if s.reader.Filling? || (s.reader.Holding? && |s.channel| < c.channelSize) {
      move := ReaderGoesOn(c, s);
    } else if s.channel != [] {
      move := Pull;
    } else {
      move := Finish;
      StreamFinishes(c, s);
    }
  }

  /** One stretch without failures that either sends the completion or gets ahead. */
  lemma {:induction false} GoesOn(c: Stream, s: Flow) returns (moves: seq<Move>)
    requires c.Valid() && FlowInv(c, s) && Healthy(c, s)
    ensures Flows(c, s, moves) && (forall i :: 0 <= i < |moves| ==> Smooth(moves[i]))
    ensures var t := Reached(c, s, moves);
            t.end.phase.Completing? || (Healthy(c, t) && Measure(c, t) < Measure(c, s))
  {
    hide FlowInv, Measure, Flows, Reached, CanMove, Moved, Healthy, Smooth, Outside;
    if s.pool != map[] {
      moves := PoolGoesOn(c, s);
    } else {
      var move := NextMove(c, s);
      MeasureDecreases(c, s, move);
      SingleMove(c, s, move);
      moves := [move];
    }
  }

  /** From every reachable state in which the run still works, the session is open and the reader has
      not failed, some continuation without any failure uploads the rest and sends the completion. */
  lemma {:induction false} AlwaysCanComplete(c: Stream, s: Flow) returns (moves: seq<Move>)
    requires c.Valid() && FlowInv(c, s) && Healthy(c, s)
    ensures Flows(c, s, moves) && (forall i :: 0 <= i < |moves| ==> Smooth(moves[i]))
    ensures Reached(c, s, moves).end.phase.Completing?
    decreases Measure(c, s)
  {
    hide FlowInv, Measure, Flows, Reached, Healthy, Smooth;
    var first := GoesOn(c, s);
    var t := Reached(c, s, first);
    if t.end.phase.Completing? {
      moves := first;
    } else {
      FlowKeeps(c, s, first);
      var rest := AlwaysCanComplete(c, t);
      FlowsOn(c, s, first, rest);
      moves := first + rest;
    }
  }

  lemma {:induction false} ReachableCanComplete(c: Stream, server: Server, moves: seq<Move>)
    requires Startable(c, server) && Flows(c, Begin(c, server), moves)
    requires Healthy(c, Reached(c, Begin(c, server), moves))
    ensures exists more :: Flows(c, Reached(c, Begin(c, server), moves), more)
                           && (forall i :: 0 <= i < |more| ==> Smooth(more[i]))
                           && Reached(c, Reached(c, Begin(c, server), moves), more).end.phase.Completing?
  {
    hide FlowInv, Healthy, Smooth, Flows, Reached;
    FlowReachable(c, server, moves);
    var more := AlwaysCanComplete(c, Reached(c, Begin(c, server), moves));
  }
}

/** Exact retries of one part request with capped exponential full jitter; times in milliseconds. */
module Retry {
  import opened Basics

  const MAX_RETRY_DELAY: nat := 30_000

  function Pow2(e: nat): nat { if e == 0 then 1 else 2 * Pow2(e - 1) }

  /** The exponent is clamped before the shift. */
  function RetryCeiling(attempt: nat): nat {
    var exponent := Min(if attempt == 0 then 0 else attempt - 1, 7);
    Min(250 * Pow2(exponent), MAX_RETRY_DELAY)
  }

  lemma {:induction false} Pow2Grows(e: nat, f: nat)
    requires e <= f
    ensures 1 <= Pow2(e) <= Pow2(f)
  {
    if e < f { Pow2Grows(e, f - 1); } else if e > 0 { Pow2Grows(e - 1, f - 1); }
  }

  /** Clamping the exponent loses nothing: the ceiling doubles from 250 ms until 30 s. */
  lemma {:induction false} CeilingDoublesUntilCap(attempt: nat)
    requires attempt >= 1
    ensures RetryCeiling(attempt) == Min(250 * Pow2(attempt - 1), MAX_RETRY_DELAY)
  {
    assert Pow2(7) == 2 * Pow2(6) == 4 * Pow2(5) == 8 * Pow2(4) == 16 * Pow2(3) == 128;
    if attempt - 1 > 7 { Pow2Grows(7, attempt - 1); }
  }

  /** What the server asked for, capped. */
  function Floor(retryAfter: Option<nat>): nat {
    match retryAfter
    case None => 0
    case Some(delay) => Min(delay, MAX_RETRY_DELAY)
  }

  function RetryDelay(attempt: nat, retryAfter: Option<nat>, random: nat): nat {
    Max(random % (RetryCeiling(attempt) + 1), Floor(retryAfter))
  }

  /** The wait before the next attempt, from the definitions of the policy: a server's request counts up
      to 30 s and is always honoured; the jitter lies between nothing and 250 ms doubled per attempt,
      capped at 30 s; and every delay in that range, or above the server's request in it, can be drawn. */
  lemma {:induction false} DelayBounds(attempt: nat, retryAfter: Option<nat>, random: nat)
    requires attempt >= 1
    ensures var ceiling, delay := Min(250 * Pow2(attempt - 1), 30_000), RetryDelay(attempt, retryAfter, random);
            && (match retryAfter
                case None => delay <= ceiling
                case Some(d) => Min(d, 30_000) <= delay <= Max(Min(d, 30_000), ceiling))
            && delay <= 30_000
            && (random <= ceiling && (retryAfter.Some? ==> random >= retryAfter.value) ==> delay == random)
  {
    CeilingDoublesUntilCap(attempt);
    Jitter(random, RetryCeiling(attempt));
  }

  /** The wait after failed attempt number `attempt`, with this draw. */
  ghost predicate WaitsFor(attempt: nat, retryAfter: Option<nat>, random: nat, delay: nat)
    requires attempt >= 1
  {
    var draw := random % (Min(250 * Pow2(attempt - 1), 30_000) + 1);
    match retryAfter
    case None => delay == draw
    case Some(d) => delay == Max(draw, Min(d, 30_000))
  }

  /** The delay is decided by the draw alone: its remainder, or the server's request if that is longer. */
  lemma {:induction false} DelayIsDrawn(attempt: nat, retryAfter: Option<nat>, random: nat)
    requires attempt >= 1
    ensures WaitsFor(attempt, retryAfter, random, RetryDelay(attempt, retryAfter, random))
  {
    CeilingDoublesUntilCap(attempt);
    Jitter(random, RetryCeiling(attempt));
  }

  lemma {:induction false} Jitter(random: nat, ceiling: nat)
    ensures random % (ceiling + 1) <= ceiling
    ensures random <= ceiling ==> random % (ceiling + 1) == random
  {
  }

  datatype Attempt<T, E> = Success(value: T) | Failure(error: E, retryable: bool, retryAfter: Option<nat>) {
    predicate Again() { Failure? && retryable }

    function Outcome(): Result<T, E> {
      match this
      case Success(v) => Ok(v)
      case Failure(e, _, _) => Err(e)
    }
  }

  /** Call number `calls` is the last one: every earlier call failed retryably, and either this one
      did not or the attempts are used up. Exactly one number fits: the smaller of the attempt limit
      and the index of the first final outcome. */
  ghost predicate StopsAt<T, E>(maxAttempts: nat, operation: nat -> Attempt<T, E>, calls: nat) {
    && 1 <= calls <= Max(1, maxAttempts)
    && (forall k :: 1 <= k < calls ==> operation(k).Again())
    && (calls >= maxAttempts || !operation(calls).Again())
  }

  function Sum(delays: seq<nat>): nat {
    if delays == [] then 0 else Sum(delays[..|delays| - 1]) + delays[|delays| - 1]
  }

  /** The total of two stretches is the sum of their totals, and one delay is its own total. */
  lemma {:induction false} SumAdds(a: seq<nat>, b: seq<nat>)
    ensures Sum(a + b) == Sum(a) + Sum(b)
    ensures b == [] ==> Sum(b) == 0
    ensures |b| == 1 ==> Sum(b) == b[0]
    decreases |b|
  {
    if b == [] {
      assert a + b == a;
    } else {
      var rest := b[..|b| - 1];
      assert (a + b)[..|a + b| - 1] == a + rest;
      SumAdds(a, rest);
      assert |b| == 1 ==> rest == [];
    }
  }

  /** `operation(k)` is what the k-th call yields and `random(k)` the k-th random draw. */
  method RetryWithPolicy<T, E>(maxAttempts: nat, operation: nat -> Attempt<T, E>, random: nat -> nat)
    returns (result: Result<T, E>, calls: nat, delays: seq<nat>)
    requires maxAttempts <= 255
    ensures StopsAt(maxAttempts, operation, calls)
    ensures result == operation(calls).Outcome()
    ensures |delays| == calls - 1
    ensures forall i :: 0 <= i < |delays| ==> WaitsFor(i + 1, operation(i + 1).retryAfter, random(i + 1), delays[i])
    ensures Sum(delays) <= MAX_RETRY_DELAY * (calls - 1)
  {
    hide Sum, Pow2, Floor, RetryCeiling, RetryDelay, WaitsFor;
    var attempt := 1;
    delays := [];
    SumAdds([], []);
    while true
      invariant 1 <= attempt <= Max(1, maxAttempts)
      invariant forall k :: 1 <= k < attempt ==> operation(k).Again()
      invariant |delays| == attempt - 1
      invariant forall i :: 0 <= i < |delays| ==>
                              WaitsFor(i + 1, operation(i + 1).retryAfter, random(i + 1), delays[i])
      invariant Sum(delays) <= MAX_RETRY_DELAY * (attempt - 1)
      decreases maxAttempts - attempt
    {
      match operation(attempt)
      case Success(value) =>
        return Ok(value), attempt, delays;
      case Failure(error, retryable, retryAfter) =>
        if attempt < maxAttempts && retryable {
          var delay := RetryDelay(attempt, retryAfter, random(attempt));
          DelayBounds(attempt, retryAfter, random(attempt));
          DelayIsDrawn(attempt, retryAfter, random(attempt));
          SumAdds(delays, [delay]);
          delays := delays + [delay];
          attempt := attempt + 1;
        } else {
          return Err(error), attempt, delays;
        }
    }
  }
}

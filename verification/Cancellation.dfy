/**
  The cancellation signal: a watch channel, as a value with a version, and any number of clones that
  cancel and wait, in every interleaving.
  */
module Cancellation {

  /** A call of `cancelled`. `seen` is the version its receiver saw last. Inside `changed` it first
      registers for notifications, then compares versions, then parks. */
  datatype Waiter =
    | Subscribed(seen: nat)
    | Looked(seen: nat)
    | Registered(seen: nat, notified: bool)
    | Parked(seen: nat, notified: bool)
    | Changed(seen: nat)
    | Returned

  /** `unnotified` counts the calls of `cancel` that have written the value and not yet notified. */
  datatype Signal = Signal(value: bool, version: nat, unnotified: nat, waiters: map<nat, Waiter>)

  datatype Step =
    | Write
    | Notify
    | Subscribe(waiter: nat)
    | Advance(waiter: nat)

  function New(): Signal {
    Signal(false, 0, 0, map[])
  }

  function Notified(w: Waiter): Waiter {
    match w
    case Registered(seen, _) => Registered(seen, true)
    case Parked(seen, _) => Parked(seen, true)
    case _ => w
  }

  /** The next step of one call of `cancelled`; a parked one needs a notification. */
  predicate CanAdvance(s: Signal, w: Waiter) {
    !w.Returned? && (w.Parked? ==> w.notified)
  }

  /** `borrow_and_update`. */
  function Look(s: Signal): Waiter {
    if s.value then Returned else Looked(s.version)
  }

  function Advanced(s: Signal, w: Waiter): Waiter
    requires CanAdvance(s, w)
  {
    match w
    case Subscribed(_) => Look(s)
    case Looked(seen) => Registered(seen, false)
    case Registered(seen, notified) => if s.version != seen then Changed(s.version) else Parked(seen, notified)
    case Parked(seen, _) => Looked(seen)
    case Changed(_) => Look(s)
  }

  predicate Can(s: Signal, step: Step) {
    match step
    case Write => true
    case Notify => s.unnotified > 0
    case Subscribe(n) => n !in s.waiters
    case Advance(n) => n in s.waiters && CanAdvance(s, s.waiters[n])
  }

  /** `send_replace(true)` writes value and version at once and notifies afterwards. */
  function Do(s: Signal, step: Step): Signal
    requires Can(s, step)
  {
    match step
    case Write => s.(value := true, version := s.version + 1, unnotified := s.unnotified + 1)
    case Notify => s.(unnotified := s.unnotified - 1, waiters := map n | n in s.waiters :: Notified(s.waiters[n]))
    case Subscribe(n) => s.(waiters := s.waiters[n := Subscribed(s.version)])
    case Advance(n) => s.(waiters := s.waiters[n := Advanced(s, s.waiters[n])])
  }

  predicate Runs(s: Signal, steps: seq<Step>)
    decreases |steps|
  {
    steps == [] || (Can(s, steps[0]) && Runs(Do(s, steps[0]), steps[1..]))
  }

  function After(s: Signal, steps: seq<Step>): Signal
    requires Runs(s, steps)
    decreases |steps|
  {
    if steps == [] then s else After(Do(s, steps[0]), steps[1..])
  }

  // ----- The invariant -----

  /** Whoever waits saw the version before any cancellation, and a parked waiter that missed one has
      its notification, or a canceller still owes it. */
  predicate WaiterOk(s: Signal, w: Waiter) {
    match w
    case Subscribed(seen) => seen <= s.version
    case Looked(seen) => seen == 0
    case Registered(seen, _) => seen == 0
    case Parked(seen, notified) => seen == 0 && (s.value ==> notified || s.unnotified > 0)
    case Changed(_) => s.value
    case Returned => s.value
  }

  ghost predicate SignalInv(s: Signal) {
    && (s.value <==> s.version > 0)
    && forall n :: n in s.waiters ==> WaiterOk(s, s.waiters[n])
  }

  lemma {:induction false} StepKeeps(s: Signal, step: Step)
    requires SignalInv(s) && Can(s, step)
    ensures SignalInv(Do(s, step))
  {
    var t := Do(s, step);
    forall n | n in t.waiters
      ensures WaiterOk(t, t.waiters[n])
    {
      if n in s.waiters { assert WaiterOk(s, s.waiters[n]); }
    }
  }

  lemma {:induction false} RunKeeps(s: Signal, steps: seq<Step>)
    requires SignalInv(s) && Runs(s, steps)
    ensures SignalInv(After(s, steps))
    decreases |steps|
  {
    if steps != [] {
      StepKeeps(s, steps[0]);
      RunKeeps(Do(s, steps[0]), steps[1..]);
    }
  }

  // ----- What every interleaving guarantees -----

  /** The flag shows exactly whether anybody has cancelled, so it is never unset. */
  lemma {:induction false} FlagIsCancelled(s: Signal, steps: seq<Step>)
    requires Runs(s, steps)
    ensures After(s, steps).value <==> s.value || Write in steps
    decreases |steps|
  {
    if steps != [] {
      FlagIsCancelled(Do(s, steps[0]), steps[1..]);
      assert Write in steps <==> steps[0] == Write || Write in steps[1..];
    }
  }

  /** No cancellation is lost: in no interleaving is the flag set while a waiter is parked with
      nothing pending; a waiter returns only after a cancellation, and cancelling again is always
      possible. */
  lemma {:induction false} NoLostCancellation(steps: seq<Step>, n: nat)
    requires Runs(New(), steps) && n in After(New(), steps).waiters
    ensures var s := After(New(), steps);
            && (s.value && s.waiters[n].Parked? && !s.waiters[n].notified ==> Can(s, Notify))
            && (s.value && !s.waiters[n].Returned? ==> Can(s, Advance(n)) || Can(s, Notify))
            && (s.waiters[n].Returned? ==> Write in steps)
            && Can(s, Write)
  {
    RunKeeps(New(), steps);
    FlagIsCancelled(New(), steps);
    var s := After(New(), steps);
    assert WaiterOk(s, s.waiters[n]);
  }

  /** How many steps a waiter is from returning once the flag is set. */
  function Distance(w: Waiter): nat {
    match w
    case Parked(_, _) => 4
    case Looked(_) => 3
    case Registered(_, _) => 2
    case Changed(_) => 1
    case Subscribed(_) => 1
    case Returned => 0
  }

  function AdvancesOf(steps: seq<Step>, n: nat): nat {
    if steps == [] then 0 else AdvancesOf(steps[1..], n) + if steps[0] == Advance(n) then 1 else 0
  }

  lemma {:induction false} StepGetsCloser(s: Signal, step: Step, n: nat)
    requires SignalInv(s) && s.value && n in s.waiters && Can(s, step)
    ensures n in Do(s, step).waiters && Do(s, step).value
    ensures Distance(Do(s, step).waiters[n]) + (if step == Advance(n) then 1 else 0) == Distance(s.waiters[n])
  {
    assert WaiterOk(s, s.waiters[n]);
  }

  /** Once cancelled, a waiter neither turns back nor loops: it returns with its own next few steps,
      whatever the others do between them. */
  lemma {:induction false} CancelledWaiterReturns(s: Signal, steps: seq<Step>, n: nat)
    requires SignalInv(s) && s.value && n in s.waiters && Runs(s, steps)
    ensures n in After(s, steps).waiters
    ensures Distance(After(s, steps).waiters[n]) + AdvancesOf(steps, n) == Distance(s.waiters[n])
    ensures After(s, steps).waiters[n].Returned? <==> AdvancesOf(steps, n) == Distance(s.waiters[n])
    decreases |steps|
  {
    if steps != [] {
      StepKeeps(s, steps[0]);
      StepGetsCloser(s, steps[0], n);
      CancelledWaiterReturns(Do(s, steps[0]), steps[1..], n);
    }
  }
}

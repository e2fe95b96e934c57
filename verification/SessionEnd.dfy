/**
  How a started session ends, for file and stream uploads alike: the completion request, whose answer
  may be lost and which may still be applied after the caller has given up, and the cleanup.
  */
module SessionEnd {
  import opened Basics
  import opened Manifest
  import opened Plan
  import opened Remote
  import opened Sessions

  /** A `ManagedUploadError` after the start, or success. */
  datatype Outcome =
    | Succeeded
    | Failed(error: Error, snapshot: Option<Snapshot>, aborted: bool)

  datatype Phase = Working | Completing | CleaningUp(error: Error) | Ended(outcome: Outcome)

  /** `inFlight` is the completion request once sent; it stays in flight when the caller gives up.
      `answered` records that the store has applied it and answered. */
  datatype End = End(server: Server, phase: Phase, inFlight: Option<seq<UploadedPart>>, answered: bool)

  datatype EndStep =
    | Others(request: Request)
    | ApplyComplete
    | AcceptAnswer
    | GiveUp(error: Error)
    | AbortConfirmed
    | AbortUnconfirmed(applied: bool)
    | KeepSession

  predicate Environment(step: EndStep) {
    step.Others? || step.ApplyComplete?
  }

  predicate CanEnd(abortOnError: bool, e: End, step: EndStep) {
    match step
    case Others(r) => CanServe(e.server, r)
    case ApplyComplete => e.inFlight.Some? && CanServe(e.server, CompleteWith(e.inFlight.value))
    case AcceptAnswer => e.phase.Completing? && e.answered
    case GiveUp(_) => e.phase.Working? || e.phase.Completing?
    case AbortConfirmed => e.phase.CleaningUp? && abortOnError && CanServe(e.server, AbortSession)
    case AbortUnconfirmed(applied) =>
      e.phase.CleaningUp? && abortOnError && (applied ==> CanServe(e.server, AbortSession))
    case KeepSession => e.phase.CleaningUp? && !abortOnError
  }

  function DoEnd(abortOnError: bool, session: Session, e: End, step: EndStep): End
    requires CanEnd(abortOnError, e, step)
  {
    match step
    case Others(r) => e.(server := Serve(e.server, r))
    case ApplyComplete => e.(server := Serve(e.server, CompleteWith(e.inFlight.value)), answered := true)
    case AcceptAnswer => e.(phase := Ended(Succeeded))
    case GiveUp(error) => e.(phase := CleaningUp(error))
    case AbortConfirmed =>
      e.(server := Serve(e.server, AbortSession), phase := Ended(Failed(e.phase.error, None, true)))
    case AbortUnconfirmed(applied) =>
      e.(server := if applied then Serve(e.server, AbortSession) else e.server,
         phase := Ended(Failed(e.phase.error, Some(SnapshotOf(session)), false)))
    case KeepSession => e.(phase := Ended(Failed(e.phase.error, Some(SnapshotOf(session)), false)))
  }

  /** Sending the completion. */
  function Complete(e: End, manifest: seq<UploadedPart>): End
    requires e.phase.Working?
  {
    e.(phase := Completing, inFlight := Some(manifest), answered := false)
  }

  /** The two ways to fail after the start exclude each other: aborted and nothing to resume, or not
      known to be aborted and resumable. */
  ghost predicate OneEnding(session: Session, outcome: Outcome) {
    outcome.Failed? ==>
      if outcome.aborted then outcome.snapshot.None? else outcome.snapshot == Some(SnapshotOf(session))
  }

  ghost predicate EndInv(session: Session, e: End) {
    && Sound(e.server)
    && (e.phase.Working? ==> e.inFlight.None? && !e.answered)
    && (e.phase.Completing? ==> e.inFlight.Some?)
    && (e.answered ==>
          && e.inFlight.Some? && Matches(e.server, e.inFlight.value)
          && e.server.status == Completed(Join(Bodies(e.server, e.inFlight.value))))
    && (e.phase.Ended? ==>
          && OneEnding(session, e.phase.outcome)
          && (e.phase.outcome.Succeeded? ==> e.answered)
          && (e.phase.outcome.Failed? && e.phase.outcome.aborted ==> e.server.status.Aborted?))
  }

  lemma {:induction false} EndStepKeeps(abortOnError: bool, session: Session, e: End, step: EndStep)
    requires EndInv(session, e) && CanEnd(abortOnError, e, step)
    ensures var f := DoEnd(abortOnError, session, e, step);
            && EndInv(session, f) && Evolves(e.server, f.server)
            && f.inFlight == e.inFlight
            && (f.phase.Working? ==> e.phase.Working?)
            && (f.phase.Completing? ==> e.phase.Completing?)
            && (f.phase == Ended(Succeeded) ==> e.phase.Completing? || e.phase == Ended(Succeeded))
  {
    match step
    case Others(r) => ServeEvolves(e.server, r);
    case ApplyComplete => ServeEvolves(e.server, CompleteWith(e.inFlight.value));
    case AbortConfirmed => ServeEvolves(e.server, AbortSession);
    case AbortUnconfirmed(applied) => if applied { ServeEvolves(e.server, AbortSession); }
    case _ =>
  }

  /** Nothing the uploader does keeps other clients out: whatever they ask of the session happens at once,
      in every phase. In particular they can end it under the run, and then neither a completion nor an
      abort of the run is ever served. */
  lemma {:induction false} OthersAreNotKeptOut(abortOnError: bool, session: Session, e: End, request: Request)
    requires CanServe(e.server, request)
    ensures CanEnd(abortOnError, e, Others(request))
    ensures var f := DoEnd(abortOnError, session, e, Others(request));
            && f == e.(server := Serve(e.server, request))
            && (!request.StorePart? ==>
                  && !CanEnd(abortOnError, f, ApplyComplete) && !CanEnd(abortOnError, f, AbortConfirmed)
                  && !CanEnd(abortOnError, f, AbortUnconfirmed(true)))
  {
  }

  // ----- What a failed run leaves -----

  /** How the abort attempts of a run match its outcome. Without `abort_on_error` there is none and the
      snapshot is kept. With it there is one: confirmed, and then reported as aborted without snapshot,
      or unconfirmed, and only then a snapshot is returned. */
  predicate CleanedUpAsAsked(abortOnError: bool, outcome: Outcome, confirmed: bool, unconfirmed: bool) {
    match outcome
    case Succeeded => !confirmed && !unconfirmed
    case Failed(_, snapshot, aborted) =>
      && (aborted <==> confirmed) && (snapshot.Some? <==> !confirmed)
      && if abortOnError then confirmed != unconfirmed else !confirmed && !unconfirmed
  }

  /** At any moment before the cleanup a run can be given up with any error, cancellation included; the
      cleanup is then never stuck: it ends the run with that error, by an abort the store confirms if the
      session is open, by one that is not confirmed and may have been applied or not, or by keeping the
      session as it is. A completion request already sent can still be applied meanwhile. */
  lemma {:induction false} GivingUpEnds(abortOnError: bool, session: Session, e: End, error: Error)
    requires e.phase.Working? || e.phase.Completing?
    ensures CanEnd(abortOnError, e, GiveUp(error))
    ensures var f := DoEnd(abortOnError, session, e, GiveUp(error));
            if abortOnError then
              && CanEnd(true, f, AbortUnconfirmed(false))
              && DoEnd(true, session, f, AbortUnconfirmed(false)).phase ==
                 Ended(Failed(error, Some(SnapshotOf(session)), false))
              && DoEnd(true, session, f, AbortUnconfirmed(false)).server == e.server
              && (e.server.status.Open? ==>
                    && CanEnd(true, f, AbortUnconfirmed(true)) && CanEnd(true, f, AbortConfirmed)
                    && DoEnd(true, session, f, AbortUnconfirmed(true)).server.status.Aborted?
                    && DoEnd(true, session, f, AbortConfirmed).server.status.Aborted?
                    && DoEnd(true, session, f, AbortConfirmed).phase == Ended(Failed(error, None, true)))
            else
              && CanEnd(false, f, KeepSession)
              && DoEnd(false, session, f, KeepSession).phase ==
                 Ended(Failed(error, Some(SnapshotOf(session)), false))
              && DoEnd(false, session, f, KeepSession).server == e.server
    ensures e.inFlight.Some? && CanServe(e.server, CompleteWith(e.inFlight.value)) ==>
              CanEnd(abortOnError, DoEnd(abortOnError, session, e, GiveUp(error)), ApplyComplete)
  {
  }
}

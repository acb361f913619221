/** What holds of each session by itself, whatever the other sessions do. */
module Sessions {
  import opened Phases
  import opened ControlPlane

  /** `release_limits` has not yet looked at the session's flags. */
  predicate BeforeRelease(stage: Stage) {
    stage == Open || stage == Emitting || stage == ReleaseFlag
  }

  /** The session is, or has been, in the queue. */
  predicate Entered(x: Session) {
    x.act == Waking || x.act == Active
  }

  /** The reservation: taken once, given back once, never both held and given back. */
  predicate ReservationOk(x: Session) {
    && (x.ticketConsumed <==> x.limitsReserved || x.limitsReleased)
    && (x.limitsReserved ==> BeforeRelease(x.stage) && !x.limitsReleased)
    && (x.limitsReleased ==> !BeforeRelease(x.stage))
    && (x.stage.ReleaseBook? ==> x.limitsReleased)
    && x.releases == (if x.limitsReleased && !x.stage.ReleaseBook? then 1 else 0)
  }

  /** The activation: pending only while reserved, and at most once. */
  predicate ActivationOk(x: Session) {
    && (x.pendingActivation ==> x.limitsReserved && x.act == NotActivated)
    && (x.act != NotActivated ==> x.ticketConsumed)
    && (x.stage == ReleaseBook(true) ==> x.act == NotActivated)
    && (x.assignee.Some? ==> Entered(x))
  }

  /** The completion: flag, phase, assignment and Exit event agree with its stage. */
  predicate CompletionOk(x: Session) {
    && (x.finished <==> x.stage != Open)
    && (x.finished ==> x.assignee.None? && Terminal(x.phase))
    && (x.taken.Some? ==> x.finished)
    && x.exits == (if x.stage == Open || x.stage == Emitting then 0 else 1)
  }

  predicate SessionOk(x: Session) {
    ReservationOk(x) && ActivationOk(x) && CompletionOk(x)
  }

  ghost predicate SessionsOk(info: map<SessionId, Session>) {
    forall id :: id in info ==> SessionOk(info[id])
  }

  /** What no later step undoes: rank of the phase, the finished flag with its phase, the counters. */
  predicate Grows(x: Session, y: Session) {
    && x.visitor == y.visitor && x.ip == y.ip
    && Rank(x.phase) <= Rank(y.phase)
    && (x.finished ==> y.finished && y.phase == x.phase)
    && x.exits <= y.exits && x.releases <= y.releases
    && (x.ticketConsumed ==> y.ticketConsumed)
  }

  lemma ConsumedOk(x: Session)
    requires SessionOk(x) && !x.ticketConsumed && !x.finished
    ensures SessionOk(Consumed(x)) && Grows(x, Consumed(x))
  {
  }

  lemma FlaggedOk(x: Session)
    requires SessionOk(x) && x.pendingActivation && !x.finished
    ensures SessionOk(Flagged(x)) && Grows(x, Flagged(x))
  {
  }

  lemma FinishedOk(x: Session, phase: Phase)
    requires SessionOk(x) && !x.finished && Terminal(phase)
    ensures SessionOk(Finished(x, phase)) && Grows(x, Finished(x, phase))
  {
  }

  lemma AdvancedOk(x: Session)
    requires SessionOk(x)
    ensures SessionOk(Advanced(x)) && Grows(x, Advanced(x))
  {
  }

  lemma ReportedOk(x: Session, phase: Phase)
    requires SessionOk(x)
    ensures SessionOk(Reported(x, phase)) && Grows(x, Reported(x, phase))
  {
  }
}

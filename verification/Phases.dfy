/** Execution phases and exit reasons, and the automaton the API runs over them. */
module Phases {

  datatype Phase =
    | Queued | Compiling | CompileFailed | Running | Exited
    | TimedOut | ResourceLimited | Cancelled | SandboxViolation

  datatype ExitReason =
    | Completed | FailedToCompile | OutOfTime | OutOfResources
    | CancelledByUser | Violation | InternalError

  /** Phase changes a worker may report. */
  predicate ValidTransition(from: Phase, to: Phase) {
    || (from == Queued && to == Compiling)
    || (from == Compiling && to in {CompileFailed, Running, TimedOut, ResourceLimited, Cancelled})
    || (from == Running && to in {Exited, TimedOut, ResourceLimited, Cancelled, SandboxViolation})
    || from == to
  }

  /** The phases a report of `to` may find. */
  function Sources(to: Phase): set<Phase> {
    match to
    case Queued => {Queued}
    case Compiling => {Queued, Compiling}
    case Running => {Compiling, Running}
    case CompileFailed => {Compiling, CompileFailed}
    case Exited => {Running, Exited}
    case SandboxViolation => {Running, SandboxViolation}
    case TimedOut => {Compiling, Running, TimedOut}
    case ResourceLimited => {Compiling, Running, ResourceLimited}
    case Cancelled => {Compiling, Running, Cancelled}
  }

  /** The automaton, read backwards: a report may repeat a phase, and otherwise moves the job on. */
  lemma TransitionMeans(from: Phase, to: Phase)
    ensures ValidTransition(from, to) <==> from in Sources(to)
    ensures ValidTransition(from, to) ==> from == to || Rank(from) < Rank(to)
  {
  }

  /** The phase in which a session that ended for `reason` is left. */
  function PhaseForExit(reason: ExitReason): Phase {
    match reason
    case Completed => Exited
    case FailedToCompile => CompileFailed
    case OutOfTime => TimedOut
    case OutOfResources => ResourceLimited
    case CancelledByUser => Cancelled
    case Violation => SandboxViolation
    case InternalError => Exited
  }

  /** Which reasons a terminal phase stands for; an internal error leaves the session exited. */
  predicate StandsFor(phase: Phase, reason: ExitReason) {
    match phase
    case Exited => reason == Completed || reason == InternalError
    case CompileFailed => reason == FailedToCompile
    case TimedOut => reason == OutOfTime
    case ResourceLimited => reason == OutOfResources
    case Cancelled => reason == CancelledByUser
    case SandboxViolation => reason == Violation
    case Queued | Compiling | Running => false
  }

  /** The API's table leaves every reason in the one phase that stands for it. */
  lemma ExitPhaseStands(reason: ExitReason)
    ensures forall phase :: StandsFor(phase, reason) <==> phase == PhaseForExit(reason)
  {
  }

  /** Progress order: a session only ever moves towards a terminal phase. */
  function Rank(phase: Phase): nat {
    match phase
    case Queued => 0
    case Compiling => 1
    case Running => 2
    case _ => 3
  }

  predicate Terminal(phase: Phase) {
    Rank(phase) == 3
  }
}

/** Why a session ended in the phase it ended in. */
module Causes {
  import opened Common
  import opened Phases
  import opened ControlPlane
  import opened Sessions
  import opened Ledger
  import opened Line
  import opened Assignment
  import opened Wakeup
  import opened Invariant
  import opened Safety

  /**
   The step calls for the end of an unfinished session in this phase: a cancellation while no worker
   has the job, an exit reported by the worker that holds it, or the removal of that worker.
   */
  ghost predicate CallsFor(s: State, step: Step, id: SessionId, phase: Phase) {
    && Exists(s, id) && !s.sessions.info[id].finished
    && match step
       case DoCancel(i, p) => i == id && p == phase && s.sessions.info[id].assignee.None?
       case DoReport(w, k, i, ExitReport(reason)) =>
         i == id && StandsFor(phase, reason) && w in s.workers && s.workers[w] == Worker(k, Some(id))
       case DoResume(t, _) =>
         && phase == Exited && t in s.ops.threads && s.ops.threads[t].Unregister?
         && var op := s.ops.threads[t];
         && op.worker in s.workers && s.workers[op.worker] == Worker(op.connection, Some(id))
       case _ => false
  }

  type Calls = iset<(SessionId, Phase)>

  ghost function CallsOf(s: State, step: Step): Calls {
    iset id: SessionId, phase: Phase | CallsFor(s, step, id, phase) :: (id, phase)
  }

  predicate Over(info: map<SessionId, Session>, id: SessionId) {
    id in info && info[id].finished
  }

  /** The phase an operation under way is about to end a session in, if it is. */
  function Target(op: Op): Option<(SessionId, Phase)> {
    match op
    case CancelRetain(id, phase) => Some((id, phase))
    case Complete(id, phase, _) => Some((id, phase))
    case OrphanLookup(id) => Some((id, Exited))
    case EventLookup(id, ExitReport(reason)) => Some((id, PhaseForExit(reason)))
    case EventApply(id, ExitReport(reason)) => Some((id, PhaseForExit(reason)))
    case _ => None
  }

  ghost predicate OpCalled(info: map<SessionId, Session>, op: Op, calls: Calls) {
    Target(op).Some? ==> Target(op).value in calls || Over(info, Target(op).value.0)
  }

  /** Every end under way was called for, and so was every end of a session. */
  ghost predicate Called(info: map<SessionId, Session>, threads: map<ThreadId, Op>, calls: Calls) {
    && (forall t :: t in threads ==> OpCalled(info, threads[t], calls))
    && (forall id :: id in info && info[id].finished ==> (id, info[id].phase) in calls)
  }

  /** No session ends, and none that is over changes its phase. */
  ghost predicate Quiet(info: map<SessionId, Session>, info': map<SessionId, Session>) {
    && (forall id :: Over(info, id) <==> Over(info', id))
    && (forall id :: Over(info, id) ==> info'[id].phase == info[id].phase)
  }

  lemma MoreCalls(info: map<SessionId, Session>, threads: map<ThreadId, Op>, calls: Calls, more: Calls)
    requires Called(info, threads, calls) && calls <= more
    ensures Called(info, threads, more)
  {
    forall t | t in threads ensures OpCalled(info, threads[t], more) {
      assert OpCalled(info, threads[t], calls);
    }
  }

  lemma QuietCalled(info: map<SessionId, Session>, info': map<SessionId, Session>, threads: map<ThreadId, Op>,
                    calls: Calls)
    requires Called(info, threads, calls) && Quiet(info, info')
    ensures Called(info', threads, calls)
  {
    hide Target;
    forall t | t in threads ensures OpCalled(info', threads[t], calls) {
      assert OpCalled(info, threads[t], calls);
    }
    forall id | id in info' && info'[id].finished ensures (id, info'[id].phase) in calls {
      assert Over(info', id);
    }
  }

  lemma PutQuiet(info: map<SessionId, Session>, id: SessionId, y: Session)
    requires if id in info then y.finished == info[id].finished && (y.finished ==> y.phase == info[id].phase)
             else !y.finished
    ensures Quiet(info, info[id := y])
  {
  }

  /** One thread goes on, starts or ends. */
  lemma ThreadCalled(info: map<SessionId, Session>, threads: map<ThreadId, Op>, t: ThreadId, op: Op, calls: Calls)
    requires Called(info, threads, calls)
    ensures Called(info, threads - {t}, calls)
    ensures OpCalled(info, op, calls) ==> Called(info, threads[t := op], calls)
  {
  }

  lemma CompleteCalled(s: State, t: ThreadId, calls: Calls)
    requires CanResume(s, t) && s.ops.threads[t].Complete? && Called(s.sessions.info, s.ops.threads, calls)
    ensures var s' := Resume(s, t, false); Called(s'.sessions.info, s'.ops.threads, calls)
  {
    hide Target;
    var info, threads := s.sessions.info, s.ops.threads;
    var Complete(id, phase, unregistering) := threads[t];
    assert OpCalled(info, threads[t], calls);
    assert Target(threads[t]) == Some((id, phase)) && Target(Notifying).None? && Target(AwaitClose(id)).None? by {
      CompleteTarget(id, phase, unregistering);
    }
    if !info[id].finished {
      var info' := info[id := Finished(info[id], phase)];
      forall u | u in threads ensures OpCalled(info', threads[u], calls) {
        assert OpCalled(info, threads[u], calls);
      }
      ThreadCalled(info', threads, t, AwaitClose(id), calls);
    } else {
      ThreadCalled(info, threads, t, Notifying, calls);
    }
  }

  lemma CompleteTarget(id: SessionId, phase: Phase, unregistering: bool)
    ensures Target(Complete(id, phase, unregistering)) == Some((id, phase))
    ensures Target(Notifying).None? && Target(AwaitClose(id)).None?
  {
  }

  lemma RemovalCalls(s: State, t: ThreadId, closed: bool)
    requires CanResume(s, t) && s.ops.threads[t].Unregister?
    ensures var s' := Resume(s, t, closed);
            && s'.sessions == s.sessions
            && (s'.ops.threads == s.ops.threads - {t}
                || (t in s'.ops.threads && s'.ops.threads == s.ops.threads[t := s'.ops.threads[t]]
                    && forall id: SessionId :: s'.ops.threads[t] == OrphanLookup(id) && Exists(s, id) ==>
                         Over(s.sessions.info, id) || (id, Exited) in CallsOf(s, DoResume(t, closed))))
            && (t in s'.ops.threads ==> s'.ops.threads[t].Notifying? || s'.ops.threads[t].OrphanLookup?)
  {
    forall id: SessionId | t in Resume(s, t, closed).ops.threads
                           && Resume(s, t, closed).ops.threads[t] == OrphanLookup(id)
                && Exists(s, id) && !Over(s.sessions.info, id)
      ensures (id, Exited) in CallsOf(s, DoResume(t, closed))
    {
      assert CallsFor(s, DoResume(t, closed), id, Exited);
    }
  }

  /** Every job in the worker table belongs to a session that exists. */
  ghost predicate JobsExist(s: State) {
    forall w :: w in s.workers && s.workers[w].job.Some? ==> Exists(s, s.workers[w].job.value)
  }

  lemma ResumeCalled(s: State, t: ThreadId, closed: bool, calls: Calls)
    requires CanResume(s, t) && Called(s.sessions.info, s.ops.threads, calls) && JobsExist(s)
    requires CallsOf(s, DoResume(t, closed)) <= calls
    ensures var s' := Resume(s, t, closed); Called(s'.sessions.info, s'.ops.threads, calls)
  {
    hide Called, CallsOf;
    var op, info, threads := s.ops.threads[t], s.sessions.info, s.ops.threads;
    var s' := Resume(s, t, closed);
    if op.Complete? {
      CompleteCalled(s, t, calls);
    } else {
      assert OpCalled(info, op, calls) by { OneCalled(info, threads, t, calls); }
      if op.Unregister? {
        RemovalCalls(s, t, closed);
      }
      ThreadCalled(info, threads, t, if t in s'.ops.threads then s'.ops.threads[t] else op, calls);
      if op.EventApply? && op.payload.PhaseReport? {
        PutQuiet(info, op.id, Reported(info[op.id], op.payload.phase));
        QuietCalled(info, s'.sessions.info, s'.ops.threads, calls);
      }
    }
  }

  lemma OneCalled(info: map<SessionId, Session>, threads: map<ThreadId, Op>, t: ThreadId, calls: Calls)
    requires Called(info, threads, calls) && t in threads
    ensures OpCalled(info, threads[t], calls)
  {
  }

  lemma ReportCalls(s: State, w: WorkerId, k: nat, id: SessionId, reason: ExitReason)
    requires CanReport(s, w, k, id)
    ensures Over(s.sessions.info, id)
            || (id, PhaseForExit(reason)) in CallsOf(s, DoReport(w, k, id, ExitReport(reason)))
  {
    ExitPhaseStands(reason);
    if !Over(s.sessions.info, id) {
      assert CallsFor(s, DoReport(w, k, id, ExitReport(reason)), id, PhaseForExit(reason));
    }
  }

  lemma CancelCalls(s: State, id: SessionId, phase: Phase)
    requires Exists(s, id) && !s.sessions.info[id].finished && s.sessions.info[id].assignee.None?
    ensures (id, phase) in CallsOf(s, DoCancel(id, phase))
  {
    assert CallsFor(s, DoCancel(id, phase), id, phase);
  }

  /** Steps that start an operation. */
  lemma StartCalled(c: Config, s: State, step: Step, calls: Calls)
    requires Enabled(c, s, step) && Called(s.sessions.info, s.ops.threads, calls) && CallsOf(s, step) <= calls
    requires step.DoCancel? || step.DoReport? || step.DoUnregister? || step.DoRegister? || step.DoDispatch?
    ensures var s' := Apply(c, s, step); Called(s'.sessions.info, s'.ops.threads, calls)
  {
    hide Called, CallsOf, PhaseForExit;
    var info, threads, t := s.sessions.info, s.ops.threads, s.ops.nextThread;
    match step
    case DoCancel(id, phase) =>
      if !info[id].finished {
        if info[id].assignee.None? {
          CancelCalls(s, id, phase);
        }
        ThreadCalled(info, threads, t, if info[id].assignee.None? then CancelRetain(id, phase) else CommandRead(id),
                     calls);
      }
    case DoReport(w, k, id, payload) =>
      if payload.ExitReport? {
        ReportCalls(s, w, k, id, payload.reason);
      }
      ThreadCalled(info, threads, t, EventLookup(id, payload), calls);
    case DoUnregister(w, k) => ThreadCalled(info, threads, t, Unregister(w, k), calls);
    case DoRegister(_) => ThreadCalled(info, threads, t, Notifying, calls);
    case DoDispatch =>
      if s.disp.Requeue? && s.disp.failed.Some? {
        ThreadCalled(info, threads, t, Unregister(s.disp.failed.value.0, s.disp.failed.value.1), calls);
      }
  }

  lemma StepCalled(c: Config, s: State, step: Step, calls: Calls)
    requires Enabled(c, s, step) && Called(s.sessions.info, s.ops.threads, calls) && CallsOf(s, step) <= calls
    requires JobsExist(s)
    ensures var s' := Apply(c, s, step); Called(s'.sessions.info, s'.ops.threads, calls)
  {
    hide Resume, CallsOf, Called, Dispatch, StartCancel, Spawn, Quiet, Enabled, Apply;
    match step
    case DoResume(t, closed) => ResumeStep(c, s, t, closed, calls);
    case DoCancel(_, _) | DoReport(_, _, _, _) | DoUnregister(_, _) | DoRegister(_) | DoDispatch =>
      StartCalled(c, s, step, calls);
    case _ =>
      QuietStep(c, s, step);
      QuietCalled(s.sessions.info, Apply(c, s, step).sessions.info, s.ops.threads, calls);
  }

  lemma ResumeStep(c: Config, s: State, t: ThreadId, closed: bool, calls: Calls)
    requires Enabled(c, s, DoResume(t, closed)) && Called(s.sessions.info, s.ops.threads, calls) && JobsExist(s)
    requires CallsOf(s, DoResume(t, closed)) <= calls
    ensures var s' := Apply(c, s, DoResume(t, closed)); Called(s'.sessions.info, s'.ops.threads, calls)
  {
    hide Resume, CallsOf, Called;
    ResumeCalled(s, t, closed, calls);
  }

  /** The other steps. */
  lemma QuietStep(c: Config, s: State, step: Step)
    requires Enabled(c, s, step) && !step.DoResume?
    requires !step.DoCancel? && !step.DoReport? && !step.DoUnregister? && !step.DoRegister? && !step.DoDispatch?
    ensures Quiet(s.sessions.info, Apply(c, s, step).sessions.info)
    ensures Apply(c, s, step).ops.threads == s.ops.threads
  {
    hide CanPick, CanConsume, Quiet;
    var info := s.sessions.info;
    assert Quiet(info, info) by { SameQuiet(info); }
    match step
    case DoCreate(id, visitor, ip) => PutQuiet(info, id, NewSession(visitor, ip));
    case DoCount(_) =>
    case DoConsume(id) => PutQuiet(info, id, Consumed(info[id]));
    case DoActivate(id) => PutQuiet(info, id, Flagged(info[id]));
    case DoEnqueue(id) => PutQuiet(info, id, info[id].(act := Waking));
    case DoWake(id) => PutQuiet(info, id, info[id].(act := Active));
    case DoAdvance(id) => PutQuiet(info, id, Advanced(info[id]));
    case DoDecide(pick, _) => PutQuiet(info, s.disp.id, info[s.disp.id].(assignee := pick));
  }

  lemma SameQuiet(info: map<SessionId, Session>)
    ensures Quiet(info, info)
  {
  }

  // ---- over a run -----------------------------------------------------------------------

  /** Step `j` of the run calls for the end of the session in this phase. */
  ghost predicate CalledAt(c: Config, run: seq<State>, j: nat, id: SessionId, phase: Phase)
    requires j + 1 < |run|
  {
    exists step :: Enabled(c, run[j], step) && run[j + 1] == Apply(c, run[j], step) && CallsFor(run[j], step, id, phase)
  }

  ghost function CallsBefore(c: Config, run: seq<State>, i: nat): Calls
    requires i < |run|
  {
    iset id: SessionId, phase: Phase | exists j: nat :: j < i && CalledAt(c, run, j, id, phase) :: (id, phase)
  }

  lemma CallsGrow(c: Config, run: seq<State>, i: nat, step: Step)
    requires i + 1 < |run| && Enabled(c, run[i], step) && run[i + 1] == Apply(c, run[i], step)
    ensures CallsBefore(c, run, i) + CallsOf(run[i], step) <= CallsBefore(c, run, i + 1)
  {
    hide Enabled, Apply, CallsFor;
    forall id, phase | CallsFor(run[i], step, id, phase) ensures CalledAt(c, run, i, id, phase) {
    }
  }

  lemma {:induction false} RunCalled(c: Config, run: seq<State>, i: nat)
    requires IsRun(c, run) && i < |run|
    ensures Called(run[i].sessions.info, run[i].ops.threads, CallsBefore(c, run, i))
  {
    hide Enabled, Apply, Called, CallsBefore, CallsOf, Inv, JobsExist;
    if i == 0 {
      NothingCalled(CallsBefore(c, run, 0));
    } else {
      RunCalled(c, run, i - 1);
      assert Next(c, run[i - 1], run[i - 1 + 1]);
      var step :| Enabled(c, run[i - 1], step) && run[i] == Apply(c, run[i - 1], step);
      CallsGrow(c, run, i - 1, step);
      MoreCalls(run[i - 1].sessions.info, run[i - 1].ops.threads, CallsBefore(c, run, i - 1), CallsBefore(c, run, i));
      RunInv(c, run, i - 1);
      JobsOfSessions(c, run[i - 1]);
      StepCalled(c, run[i - 1], step, CallsBefore(c, run, i));
    }
  }

  lemma NothingCalled(calls: Calls)
    ensures Called(Init().sessions.info, Init().ops.threads, calls)
  {
  }

  lemma JobsOfSessions(c: Config, s: State)
    requires Inv(c, s)
    ensures JobsExist(s)
  {
    hide TableOk, LimitsOk, LineOk, ActivatedOk, WakeOk, CapacityOk, ThreadsOk, SessionsOk;
  }

  /**
   A session ends in the phase that some earlier step called for, made while the session was not
   finished: the phase of a cancellation, the one that stands for the reason its worker reported,
   or `Exited` after its worker was removed.
   */
  lemma EndWasCalledFor(c: Config, run: seq<State>, i: nat, id: SessionId)
    requires IsRun(c, run) && i < |run| && id in run[i].sessions.info && run[i].sessions.info[id].finished
    ensures exists j: nat :: j < i && CalledAt(c, run, j, id, run[i].sessions.info[id].phase)
  {
    hide CalledAt;
    RunCalled(c, run, i);
  }
}

/** No job is lost: an activated job is somewhere until its session is finished. */
module Custody {
  import opened Common
  import opened Phases
  import opened ControlPlane
  import opened Sessions
  import opened Ledger
  import opened Line
  import opened Assignment
  import opened Wakeup
  import opened Invariant
  import opened Progress
  import opened Safety
  import Q = Quiescence

  /** A completion of the session is about to set its flag. */
  ghost predicate Ending(threads: map<ThreadId, Op>, id: SessionId) {
    exists t :: t in threads && threads[t].Complete? && threads[t].id == id
  }

  /** Finished, queued, in the dispatcher's hand, assigned, or about to be completed. */
  ghost predicate Accounted(s: State, id: SessionId) {
    && Exists(s, id)
    && (|| s.sessions.info[id].finished
        || id in s.queue
        || id in Hand(s.disp)
        || s.sessions.info[id].assignee.Some?
        || Ending(s.ops.threads, id))
  }

  /** Dispatching is what assigns a job, and only its end takes the assignment away. */
  ghost predicate Given(s: State, id: SessionId) {
    Exists(s, id) && (s.sessions.info[id].finished || s.sessions.info[id].assignee.Some?)
  }

  ghost predicate Kept(s: State) {
    && (forall id :: id in s.log.activated ==> Accounted(s, id))
    && (forall id :: id in s.log.dispatched ==> Given(s, id))
  }

  /** No session is forgotten, unfinished or unassigned without being finished. */
  ghost predicate Onward(info: map<SessionId, Session>, info': map<SessionId, Session>) {
    forall id :: id in info ==>
      && id in info'
      && (info[id].finished ==> info'[id].finished)
      && (info[id].assignee.Some? ==> info'[id].finished || info'[id].assignee.Some?)
  }

  ghost predicate EndingKept(threads: map<ThreadId, Op>, info': map<SessionId, Session>, threads': map<ThreadId, Op>) {
    forall id :: Ending(threads, id) && id in info' ==> info'[id].finished || Ending(threads', id)
  }

  lemma FrameKept(s: State, s': State)
    requires Kept(s) && Onward(s.sessions.info, s'.sessions.info) && s'.log.activated == s.log.activated
    requires s'.log.dispatched == s.log.dispatched
    requires EndingKept(s.ops.threads, s'.sessions.info, s'.ops.threads)
    requires forall id :: id in s.queue || id in Hand(s.disp) ==>
               id in s'.queue || id in Hand(s'.disp) || Ending(s'.ops.threads, id)
               || (Exists(s', id) && s'.sessions.info[id].finished)
    ensures Kept(s')
  {
    hide Ending;
    forall id | id in s'.log.activated ensures Accounted(s', id) {
      assert Accounted(s, id);
    }
    forall id | id in s'.log.dispatched ensures Given(s', id) {
      assert Given(s, id);
    }
  }

  /** The line of jobs is as it was. */
  lemma SameLineKept(s: State, s': State)
    requires Kept(s) && Onward(s.sessions.info, s'.sessions.info) && s'.log.activated == s.log.activated
    requires s'.log.dispatched == s.log.dispatched && s'.queue == s.queue && s'.disp == s.disp
    requires EndingKept(s.ops.threads, s'.sessions.info, s'.ops.threads)
    ensures Kept(s')
  {
    hide Kept, Ending, EndingKept, Onward;
    FrameKept(s, s');
  }

  lemma PutOnward(info: map<SessionId, Session>, id: SessionId, y: Session)
    requires id in info ==>
               (info[id].finished ==> y.finished) && (info[id].assignee.Some? ==> y.finished || y.assignee.Some?)
    ensures Onward(info, info[id := y])
  {
  }

  /** Every thread but `t` is as it was. */
  ghost predicate Only(threads: map<ThreadId, Op>, threads': map<ThreadId, Op>, t: ThreadId) {
    forall u :: u in threads && u != t ==> u in threads' && threads'[u] == threads[u]
  }

  lemma ThreadEndingKept(info': map<SessionId, Session>, threads: map<ThreadId, Op>, threads': map<ThreadId, Op>,
                         t: ThreadId)
    requires Only(threads, threads', t)
    requires t in threads && threads[t].Complete? && threads[t].id in info' ==> info'[threads[t].id].finished
    ensures EndingKept(threads, info', threads')
  {
    forall id | Ending(threads, id) && id in info' && !info'[id].finished ensures Ending(threads', id) {
      var u :| u in threads && threads[u].Complete? && threads[u].id == id;
      assert u in threads' && threads'[u] == threads[u];
    }
  }

  lemma RetainKept(s: State, t: ThreadId, closed: bool)
    requires CanResume(s, t) && s.ops.threads[t].CancelRetain? && Kept(s)
    ensures Kept(Resume(s, t, closed))
  {
    var CancelRetain(id, phase) := s.ops.threads[t];
    var s' := Resume(s, t, closed);
    WithoutIsSub(s.queue, id);
    assert t in s'.ops.threads && s'.ops.threads[t] == Complete(id, phase, false);
    assert Ending(s'.ops.threads, id);
    ThreadEndingKept(s.sessions.info, s.ops.threads, s'.ops.threads, t);
    hide Ending, EndingKept;
    FrameKept(s, s');
  }

  lemma ResumeKept(s: State, t: ThreadId, closed: bool)
    requires CanResume(s, t) && Kept(s)
    ensures Kept(Resume(s, t, closed))
  {
    hide Kept, Ending, EndingKept, Onward, Resume;
    var op, info, threads := s.ops.threads[t], s.sessions.info, s.ops.threads;
    var s' := Resume(s, t, closed);
    if op.CancelRetain? {
      RetainKept(s, t, closed);
    } else {
      ResumeOnward(s, t, closed);
      ResumeFrame(s, t, closed);
      ResumeOnly(s, t, closed);
      ThreadEndingKept(s'.sessions.info, threads, s'.ops.threads, t);
      SameLineKept(s, s');
    }
  }

  lemma ResumeFrame(s: State, t: ThreadId, closed: bool)
    requires CanResume(s, t) && !s.ops.threads[t].CancelRetain?
    ensures var s' := Resume(s, t, closed);
            && s'.queue == s.queue && s'.disp == s.disp
            && s'.log.activated == s.log.activated && s'.log.dispatched == s.log.dispatched
            && (s.ops.threads[t].Complete? ==> s'.sessions.info[s.ops.threads[t].id].finished)
  {
  }

  lemma ResumeOnly(s: State, t: ThreadId, closed: bool)
    requires CanResume(s, t)
    ensures Only(s.ops.threads, Resume(s, t, closed).ops.threads, t)
  {
    hide Only, Go, End;
    OnlyMoves(s.ops, t);
  }

  lemma OnlyMoves(ops: Ops, t: ThreadId)
    ensures forall op :: Only(ops.threads, Go(ops, t, op).threads, t)
    ensures Only(ops.threads, End(ops, t).threads, t)
  {
  }

  lemma ResumeOnward(s: State, t: ThreadId, closed: bool)
    requires CanResume(s, t)
    ensures Onward(s.sessions.info, Resume(s, t, closed).sessions.info)
  {
    hide Onward;
    var info := s.sessions.info;
    SameOnward(info);
    match s.ops.threads[t]
    case Complete(id, phase, _) => PutOnward(info, id, Finished(info[id], phase));
    case EventApply(id, PhaseReport(phase)) => PutOnward(info, id, Reported(info[id], phase));
    case _ =>
  }

  /** A job whose session has left the table is finished. */
  lemma GoneIsFinished(c: Config, s: State, id: SessionId)
    requires Inv(c, s) && Exists(s, id) && id !in s.sessions.live
    ensures s.sessions.info[id].finished
  {
    hide LimitsOk, LineOk, AssignmentOk, ActivatedOk, WakeOk, CapacityOk, ThreadsOk;
  }

  lemma DispatchKept(c: Config, s: State)
    requires Inv(c, s) && Kept(s) && CanDispatch(s)
    ensures Kept(Dispatch(s))
  {
    hide Inv, Kept, Ending, EndingKept, Onward;
    var s' := Dispatch(s);
    assert Onward(s.sessions.info, s.sessions.info) by { SameOnward(s.sessions.info); }
    Unspawned(c, s);
    ThreadEndingKept(s.sessions.info, s.ops.threads, s'.ops.threads, s.ops.nextThread);
    if s.disp.Popped? {
      HandExists(c, s);
      if s.disp.id !in s.sessions.live {
        GoneIsFinished(c, s, s.disp.id);
      }
    }
    FrameKept(s, s');
  }

  lemma SameOnward(info: map<SessionId, Session>)
    ensures Onward(info, info)
  {
  }

  lemma HandExists(c: Config, s: State)
    requires Inv(c, s) && Hand(s.disp) != []
    ensures Exists(s, Hand(s.disp)[0])
  {
    hide TableOk, LimitsOk, AssignmentOk, WakeOk, CapacityOk, ThreadsOk, SessionsOk;
    HandIsNew(s.sessions.info, s.log, s.disp, s.queue);
  }

  lemma Unspawned(c: Config, s: State)
    requires Inv(c, s)
    ensures s.ops.nextThread !in s.ops.threads
  {
    hide TableOk, LimitsOk, LineOk, AssignmentOk, ActivatedOk, WakeOk, CapacityOk, SessionsOk;
  }

  lemma DecideKept(c: Config, s: State, pick: Option<WorkerId>, sent: bool)
    requires Inv(c, s) && Kept(s) && s.disp.Found? && Exists(s, s.disp.id) && CanPick(c, s, pick)
    ensures Kept(Decide(s, s.disp.id, pick, sent))
  {
    hide Inv, Ending, Blocked;
    var s' := Decide(s, s.disp.id, pick, sent);
    forall i | i in s'.log.activated ensures Accounted(s', i) {
      assert Accounted(s, i);
    }
    forall i | i in s'.log.dispatched ensures Given(s', i) {
      assert i in s.log.dispatched ==> Given(s, i);
    }
  }

  lemma EnqueueKept(c: Config, s: State, id: SessionId)
    requires Kept(s) && Exists(s, id)
    ensures Kept(Enqueue(s, id))
  {
    hide Ending;
    var s' := Enqueue(s, id);
    assert id in s'.queue by { assert s'.queue[|s.queue|] == id; }
    forall i | i in s'.log.activated ensures Accounted(s', i) {
      assert i in s.log.activated ==> Accounted(s, i);
      assert i in s.queue ==> i in s'.queue;
    }
    forall i | i in s'.log.dispatched ensures Given(s', i) {
      assert Given(s, i);
    }
  }

  /** The remaining steps change one session, or start an operation. */
  lemma OtherKept(c: Config, s: State, step: Step)
    requires Inv(c, s) && Enabled(c, s, step) && Kept(s)
    requires !step.DoResume? && !step.DoDispatch? && !step.DoDecide? && !step.DoEnqueue?
    ensures Kept(Apply(c, s, step))
  {
    hide Inv, Kept, Ending, EndingKept, Onward, CanConsume, CanReport;
    var s', info := Apply(c, s, step), s.sessions.info;
    Unspawned(c, s);
    SameOnward(info);
    ThreadEndingKept(s'.sessions.info, s.ops.threads, s'.ops.threads, s.ops.nextThread);
    match step {
      case DoCreate(id, visitor, ip) => PutOnward(info, id, NewSession(visitor, ip));
      case DoConsume(id) => PutOnward(info, id, Consumed(info[id]));
      case DoActivate(id) => PutOnward(info, id, Flagged(info[id]));
      case DoWake(id) => PutOnward(info, id, info[id].(act := Active));
      case DoAdvance(id) => PutOnward(info, id, Advanced(info[id]));
      case _ =>
    }
    SameLineKept(s, s');
  }

  lemma StepKept(c: Config, s: State, step: Step)
    requires Inv(c, s) && Enabled(c, s, step) && Kept(s)
    ensures Kept(Apply(c, s, step))
  {
    hide Inv, Kept, Resume, Dispatch, Decide, Enqueue, CanPick;
    match step
    case DoResume(t, closed) => ResumeKept(s, t, closed);
    case DoDispatch => DispatchKept(c, s);
    case DoDecide(pick, sent) => DecideKept(c, s, pick, sent);
    case DoEnqueue(id) => EnqueueKept(c, s, id);
    case _ => OtherKept(c, s, step);
  }

  lemma {:induction false} RunKept(c: Config, run: seq<State>, i: nat)
    requires IsRun(c, run) && i < |run|
    ensures Kept(run[i])
  {
    hide Inv, Kept, Enabled, Apply;
    if i == 0 {
      assert Kept(run[0]) by { InitKept(); }
    } else {
      RunKept(c, run, i - 1);
      RunInv(c, run, i - 1);
      assert Next(c, run[i - 1], run[i - 1 + 1]);
      var step :| Enabled(c, run[i - 1], step) && run[i] == Apply(c, run[i - 1], step);
      StepKept(c, run[i - 1], step);
    }
  }

  lemma InitKept()
    ensures Kept(Init())
  {
  }

  /**
   An activated job whose session is not finished is queued, in the dispatcher's hand, with its
   worker, carried by the unregister that removed its worker, or about to be completed.
   */
  lemma NoJobIsLost(c: Config, run: seq<State>, i: nat, id: SessionId)
    requires IsRun(c, run) && i < |run| && id in run[i].log.activated
    ensures var s := run[i];
            && Exists(s, id)
            && (|| s.sessions.info[id].finished
                || id in s.queue
                || id in Hand(s.disp)
                || Held(s, id)
                || (exists t :: t in s.ops.threads && Carries(s.ops.threads[t], id))
                || Ending(s.ops.threads, id))
    ensures var s := run[i];
            id in s.log.dispatched && !s.sessions.info[id].finished ==>
              Held(s, id) || exists t :: t in s.ops.threads && Carries(s.ops.threads[t], id)
  {
    hide Inv, Next, WillComplete;
    RunKept(c, run, i);
    AssignmentIntegrity(c, run, i);
    assert Accounted(run[i], id);
  }

  /** Once nothing is under way, an unfinished job is with a worker, or it waits while no worker can take it. */
  lemma RestingJobs(c: Config, run: seq<State>, i: nat, id: SessionId)
    requires IsRun(c, run) && i < |run| && Q.AtRest(c, run[i])
    requires id in run[i].log.activated && Exists(run[i], id) && !run[i].sessions.info[id].finished
    ensures Held(run[i], id) || (id in run[i].queue && Blocked(c, run[i].workers))
  {
    hide Inv, Next, Blocked;
    NoJobIsLost(c, run, i, id);
  }

  /**
   An unregister that ended a session gives notice only when that session is closed: its Exit is
   out, it has left the table, its reservation is given back, and no worker holds it.
   */
  lemma UnregisterWaits(c: Config, run: seq<State>, i: nat, t: ThreadId, closed: bool)
    requires IsRun(c, run) && i < |run| && Enabled(c, run[i], DoResume(t, closed))
    requires t in run[i].ops.threads && run[i].ops.threads[t].AwaitClose?
    ensures var s, id := run[i], run[i].ops.threads[t].id;
            && Exists(s, id) && s.sessions.info[id].exits == 1 && id !in s.sessions.live && !Held(s, id)
            && (s.sessions.info[id].releases == 1 <==> s.sessions.info[id].ticketConsumed)
  {
    hide Inv, Next;
    var id := run[i].ops.threads[t].id;
    CompletionOnce(c, run, i);
    ReservationLedger(c, run, i);
    ClosedIsFinished(c, run, i, id);
    ClosedIsSilent(c, run, i, id);
  }

  lemma ClosedIsFinished(c: Config, run: seq<State>, i: nat, id: SessionId)
    requires IsRun(c, run) && i < |run| && Exists(run[i], id) && run[i].sessions.info[id].stage == Closed
    ensures run[i].sessions.info[id].finished
  {
    hide TableOk, LimitsOk, LineOk, AssignmentOk, ActivatedOk, WakeOk, CapacityOk, ThreadsOk, Next;
    RunInv(c, run, i);
  }
}

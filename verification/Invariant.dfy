/**
 The inductive invariant of the control plane and its preservation by every step.

 Every step is a composition of elementary changes (one session, one thread, the
 queue, the worker table), and each of these keeps the invariant by itself.
 */
module Invariant {
  import opened Common
  import opened Phases
  import opened ControlPlane
  import opened Sessions
  import opened Ledger
  import opened Line
  import opened Assignment
  import opened Wakeup
  import opened Subsequences

  /** A suspended operation refers to existing sessions and completes them in a terminal phase. */
  predicate OpOk(info: map<SessionId, Session>, op: Op) {
    && Known(info, op)
    && (op.CancelRetain? || op.Complete? ==> Terminal(op.phase))
    && (op.AwaitClose? ==> info[op.id].finished)
  }

  ghost predicate ThreadsOk(info: map<SessionId, Session>, ops: Ops) {
    forall t :: t in ops.threads ==> t < ops.nextThread && OpOk(info, ops.threads[t])
  }

  /** No session disappears and none of them goes back. */
  ghost predicate AllGrow(info: map<SessionId, Session>, info': map<SessionId, Session>) {
    forall id :: id in info ==> id in info' && Grows(info[id], info'[id])
  }

  ghost predicate Inv(c: Config, s: State) {
    && SessionsOk(s.sessions.info)
    && ThreadsOk(s.sessions.info, s.ops)
    && TableOk(c, s.sessions)
    && LimitsOk(c, s.sessions.info, s.limits)
    && ActivatedOk(s.sessions.info, s.log.activated)
    && LineOk(s.log, s.disp, s.queue)
    && CapacityOk(c, s.limits, s.disp, s.queue)
    && AssignmentOk(c, s.sessions.info, s.workers, s.ops.threads, s.log)
    && WakeOk(c, s)
  }

  lemma InitInv(c: Config)
    ensures Inv(c, Init())
  {
    SubRefl<SessionId>([]);
    assert LineUp([], Polling, []) == [];
    assert Tallied(map[]) == {} && Awaiting(map[]) == {} && Busy(map[]) == {};
    forall k ensures Holders(map[], VisitorOf, k) == {} && Holders(map[], IpOf, k) == {} { }
  }

  // ---- elementary changes ---------------------------------------------------------------

  /** The facts every change of one session keeps for the same reason. */
  lemma PutBase(info: map<SessionId, Session>, ops: Ops, activated: seq<SessionId>, id: SessionId, y: Session)
    requires SessionsOk(info) && ThreadsOk(info, ops) && ActivatedOk(info, activated)
    requires SessionOk(y) && (id in info ==> Grows(info[id], y) && (Entered(info[id]) ==> Entered(y)))
    ensures var info' := info[id := y];
            SessionsOk(info') && ThreadsOk(info', ops) && ActivatedOk(info', activated) && AllGrow(info, info')
  {
    forall t | t in ops.threads ensures OpOk(info[id := y], ops.threads[t]) {
      assert OpOk(info, ops.threads[t]);
    }
  }

  /** A session change no counter, table or worker depends on. */
  predicate Neutral(x: Session, y: Session) {
    && SessionOk(y) && Grows(x, y) && (Entered(x) ==> Entered(y))
    && HoldsSlot(x) == HoldsSlot(y) && AwaitsEntry(x) == AwaitsEntry(y)
    && InTable(x) == InTable(y) && InTotal(x) == InTotal(y)
    && x.assignee == y.assignee && x.taken == y.taken && x.finished == y.finished
    && BeforeFree(x.stage) == BeforeFree(y.stage)
  }

  lemma PutKeeps(c: Config, s: State, id: SessionId, y: Session)
    requires Inv(c, s) && Exists(s, id) && Neutral(s.sessions.info[id], y)
    requires s.permit || (WillSignal(s.sessions.info[id]) ==> WillSignal(y))
    ensures Inv(c, Put(s, id, y)) && AllGrow(s.sessions.info, Put(s, id, y).sessions.info)
  {
    hide TableOk, LimitsOk, LineOk, AssignmentOk, ThreadsOk, ActivatedOk;
    var info := s.sessions.info;
    PutBase(info, s.ops, s.log.activated, id, y);
    TableUntouched(c, s.sessions, id, y);
    LedgerUntouched(c, info, id, y, s.limits);
    AssignmentUntouched(c, info, s.workers, s.ops.threads, s.log, id, y);
    if !s.permit && NoticeDue(info, s.ops.threads) {
      SessionNoticeKept(info, s.ops.threads, id, y);
    }
    WakeFrame(c, s, Put(s, id, y));
  }

  /** Thread `t` starts, goes on or ends without losing a carried job or a notice. */
  ghost predicate Moves(s: State, t: ThreadId, ops': Ops) {
    && ThreadsOk(s.sessions.info, ops')
    && (forall u :: u in s.ops.threads && u != t ==> u in ops'.threads && ops'.threads[u] == s.ops.threads[u])
    && (t in s.ops.threads && WillNotify(s.ops.threads[t]) ==>
          s.permit || (t in ops'.threads && WillNotify(ops'.threads[t])))
  }

  lemma OpsKeeps(c: Config, s: State, t: ThreadId, ops': Ops)
    requires Inv(c, s) && Moves(s, t, ops')
    requires forall id :: (t in s.ops.threads && Carries(s.ops.threads[t], id) && Exists(s, id)
                           && s.sessions.info[id].assignee.Some?) ==>
                          t in ops'.threads && Carries(ops'.threads[t], id)
    ensures Inv(c, s.(ops := ops'))
  {
    ThreadMoves(c, s.sessions.info, s.workers, s.ops.threads, s.log, t, ops'.threads);
    if !s.permit && NoticeDue(s.sessions.info, s.ops.threads) {
      ThreadNoticeKept(s.sessions.info, s.ops.threads, t, ops'.threads);
    }
    WakeFrame(c, s, s.(ops := ops'));
  }

  lemma SpawnKeeps(c: Config, s: State, op: Op)
    requires Inv(c, s) && OpOk(s.sessions.info, op)
    ensures Inv(c, s.(ops := Spawn(s.ops, op)))
  {
    OpsKeeps(c, s, s.ops.nextThread, Spawn(s.ops, op));
  }

  /** Thread `t` goes on with `op`. */
  lemma GoOn(c: Config, s: State, t: ThreadId, op: Op)
    requires Inv(c, s) && t in s.ops.threads && OpOk(s.sessions.info, op)
    requires WillNotify(s.ops.threads[t]) ==> WillNotify(op)
    requires forall id :: (Carries(s.ops.threads[t], id) && Exists(s, id) && s.sessions.info[id].assignee.Some?) ==>
                          Carries(op, id)
    ensures Inv(c, s.(ops := Go(s.ops, t, op)))
  {
    OpsKeeps(c, s, t, Go(s.ops, t, op));
  }

  /** Thread `t` ends. */
  lemma Ends(c: Config, s: State, t: ThreadId)
    requires Inv(c, s) && t in s.ops.threads
    requires s.permit || !WillNotify(s.ops.threads[t])
    requires forall id :: !Carries(s.ops.threads[t], id)
    ensures Inv(c, s.(ops := End(s.ops, t)))
  {
    OpsKeeps(c, s, t, End(s.ops, t));
  }

  lemma PermitKeeps(c: Config, s: State)
    requires Inv(c, s)
    ensures Inv(c, s.(permit := true))
  {
    WakeFrame(c, s, s.(permit := true));
  }

  lemma RetainKeeps(c: Config, s: State, id: SessionId)
    requires Inv(c, s)
    ensures Inv(c, s.(queue := Without(s.queue, id)))
  {
    RetainKeepsLine(s.log, s.disp, s.queue, id);
    WithoutIsSub(s.queue, id);
    WakeFrame(c, s, s.(queue := Without(s.queue, id)));
  }

  // ---- HTTP side ------------------------------------------------------------------------

  lemma CreateKeeps(c: Config, s: State, id: SessionId, visitor: string, ip: string)
    requires Inv(c, s) && !Exists(s, id) && |s.sessions.live| < c.sessionCapacity
    ensures Inv(c, Create(s, id, visitor, ip))
    ensures AllGrow(s.sessions.info, Create(s, id, visitor, ip).sessions.info)
  {
    hide TableOk, LimitsOk, LineOk, AssignmentOk, ThreadsOk, ActivatedOk;
    var info := s.sessions.info;
    var y := NewSession(visitor, ip);
    PutBase(info, s.ops, s.log.activated, id, y);
    CreateKeepsTable(c, s, id, visitor, ip);
    LedgerUntouched(c, info, id, y, s.limits);
    AssignmentUntouched(c, info, s.workers, s.ops.threads, s.log, id, y);
    if NoticeDue(info, s.ops.threads) {
      SessionNoticeKept(info, s.ops.threads, id, y);
    }
    WakeFrame(c, s, Create(s, id, visitor, ip));
  }

  lemma CountKeeps(c: Config, s: State, id: SessionId)
    requires Inv(c, s) && id in s.sessions.uncounted
    ensures Inv(c, CountCreated(s, id))
  {
    hide LimitsOk, LineOk, AssignmentOk, ThreadsOk, ActivatedOk;
    WakeFrame(c, s, CountCreated(s, id));
  }

  lemma ConsumeKeeps(c: Config, s: State, id: SessionId)
    requires Inv(c, s) && Exists(s, id) && CanConsume(c, s, id)
    ensures Inv(c, Consume(s, id)) && AllGrow(s.sessions.info, Consume(s, id).sessions.info)
  {
    hide TableOk, LimitsOk, LineOk, AssignmentOk, ThreadsOk, ActivatedOk;
    var info := s.sessions.info;
    var y := Consumed(info[id]);
    ConsumedOk(info[id]);
    PutBase(info, s.ops, s.log.activated, id, y);
    TableUntouched(c, s.sessions, id, y);
    ReserveKeepsLedger(c, info, id, s.limits);
    AssignmentUntouched(c, info, s.workers, s.ops.threads, s.log, id, y);
    if NoticeDue(info, s.ops.threads) {
      SessionNoticeKept(info, s.ops.threads, id, y);
    }
    WakeFrame(c, s, Consume(s, id));
  }

  lemma EnqueueKeeps(c: Config, s: State, id: SessionId)
    requires Inv(c, s) && Exists(s, id) && s.sessions.info[id].act == Enqueueing
    ensures Inv(c, Enqueue(s, id)) && AllGrow(s.sessions.info, Enqueue(s, id).sessions.info)
  {
    hide TableOk, LimitsOk, LineOk, AssignmentOk, ThreadsOk, ActivatedOk;
    var info := s.sessions.info;
    var y := info[id].(act := Waking);
    var s' := Enqueue(s, id);
    PutBase(info, s.ops, s.log.activated, id, y);
    TableUntouched(c, s.sessions, id, y);
    EnqueueKeepsLedger(c, info, id, s.limits);
    EnqueueKeepsLine(info, s.log, s.disp, s.queue, id);
    AssignmentUntouched(c, info, s.workers, s.ops.threads, s.log, id, y);
    ActivatedIrrelevant(c, info[id := y], s.workers, s.ops.threads, s.log, s.log.activated + [id]);
    assert NoticeDue(s'.sessions.info, s'.ops.threads) by {
      assert WillSignal(s'.sessions.info[id]);
    }
  }

  // ---- completion -----------------------------------------------------------------------

  lemma BookKeeps(c: Config, s: State, id: SessionId)
    requires Inv(c, s) && Exists(s, id) && s.sessions.info[id].stage.ReleaseBook?
    ensures Inv(c, Advance(s, id)) && AllGrow(s.sessions.info, Advance(s, id).sessions.info)
  {
    hide TableOk, LimitsOk, LineOk, AssignmentOk, ThreadsOk, ActivatedOk;
    var info := s.sessions.info;
    var y := Advanced(info[id]);
    AdvancedOk(info[id]);
    PutBase(info, s.ops, s.log.activated, id, y);
    TableUntouched(c, s.sessions, id, y);
    BookKeepsLedger(c, info, id, s.limits);
    AssignmentUntouched(c, info, s.workers, s.ops.threads, s.log, id, y);
    if NoticeDue(info, s.ops.threads) {
      SessionNoticeKept(info, s.ops.threads, id, y);
    }
    WakeFrame(c, s, Advance(s, id));
  }

  lemma FreeKeeps(c: Config, s: State, id: SessionId)
    requires Inv(c, s) && Exists(s, id) && s.sessions.info[id].stage == FreeWorker
    ensures Inv(c, Advance(s, id)) && AllGrow(s.sessions.info, Advance(s, id).sessions.info)
  {
    hide TableOk, LimitsOk, LineOk, AssignmentOk, ThreadsOk, ActivatedOk;
    var info := s.sessions.info;
    var y := Advanced(info[id]);
    var s' := Advance(s, id);
    AdvancedOk(info[id]);
    PutBase(info, s.ops, s.log.activated, id, y);
    TableUntouched(c, s.sessions, id, y);
    LedgerUntouched(c, info, id, y, s.limits);
    FreeKeepsAssignment(c, info, s.workers, s.ops.threads, s.log, id, y);
    assert NoticeDue(s'.sessions.info, s'.ops.threads) by {
      assert WillSignal(s'.sessions.info[id]);
    }
  }

  /** Bumping `completed_total` and leaving the table. */
  lemma LeaveKeeps(c: Config, s: State, id: SessionId)
    requires Inv(c, s) && Exists(s, id)
    requires s.sessions.info[id].stage == Tallying || s.sessions.info[id].stage == Removing
    ensures Inv(c, Advance(s, id)) && AllGrow(s.sessions.info, Advance(s, id).sessions.info)
  {
    hide TableOk, LimitsOk, LineOk, AssignmentOk, ThreadsOk, ActivatedOk;
    var info := s.sessions.info;
    var y := Advanced(info[id]);
    var s' := Advance(s, id);
    AdvancedOk(info[id]);
    PutBase(info, s.ops, s.log.activated, id, y);
    AdvanceKeepsTable(c, s.sessions, id);
    LedgerUntouched(c, info, id, y, s.limits);
    AssignmentUntouched(c, info, s.workers, s.ops.threads, s.log, id, y);
    assert NoticeDue(s'.sessions.info, s'.ops.threads) by {
      assert WillSignal(s'.sessions.info[id]);
    }
  }

  lemma AdvanceKeeps(c: Config, s: State, id: SessionId)
    requires Inv(c, s) && Exists(s, id) && s.sessions.info[id].stage != Open && s.sessions.info[id].stage != Closed
    ensures Inv(c, Advance(s, id)) && AllGrow(s.sessions.info, Advance(s, id).sessions.info)
  {
    hide TableOk, LimitsOk, LineOk, AssignmentOk, ThreadsOk, ActivatedOk;
    var x := s.sessions.info[id];
    AdvancedOk(x);
    match x.stage
    case Emitting | ReleaseFlag =>
      PutKeeps(c, s, id, Advanced(x));
      assert Advance(s, id) == Put(s, id, Advanced(x));
    case ReleaseBook(_) => BookKeeps(c, s, id);
    case FreeWorker => FreeKeeps(c, s, id);
    case Tallying | Removing => LeaveKeeps(c, s, id);
    case Signalling =>
      PermitKeeps(c, s);
      PutKeeps(c, s.(permit := true), id, Advanced(x));
      assert Advance(s, id) == Put(s.(permit := true), id, Advanced(x));
  }

  /** The segment that sets the finished flag. */
  lemma FinishKeeps(c: Config, s: State, id: SessionId, phase: Phase)
    requires Inv(c, s) && Exists(s, id) && !s.sessions.info[id].finished && Terminal(phase)
    ensures var s' := Put(s, id, Finished(s.sessions.info[id], phase));
            Inv(c, s') && AllGrow(s.sessions.info, s'.sessions.info)
  {
    hide TableOk, LimitsOk, LineOk, AssignmentOk, ThreadsOk, ActivatedOk;
    var info := s.sessions.info;
    var y := Finished(info[id], phase);
    FinishedOk(info[id], phase);
    PutBase(info, s.ops, s.log.activated, id, y);
    TableUntouched(c, s.sessions, id, y);
    LedgerUntouched(c, info, id, y, s.limits);
    FinishKeepsAssignment(c, info, s.workers, s.ops.threads, s.log, id, y);
    if NoticeDue(info, s.ops.threads) {
      SessionNoticeKept(info, s.ops.threads, id, y);
    }
    WakeFrame(c, s, Put(s, id, y));
  }

  // ---- threads --------------------------------------------------------------------------

  lemma CompleteKeeps(c: Config, s: State, t: ThreadId)
    requires Inv(c, s) && CanResume(s, t) && s.ops.threads[t].Complete?
    ensures var op := s.ops.threads[t];
            var s' := RunComplete(s, t, op.id, op.phase, op.unregistering);
            Inv(c, s') && AllGrow(s.sessions.info, s'.sessions.info)
  {
    hide TableOk, LimitsOk, LineOk, AssignmentOk, ActivatedOk, WakeOk, CapacityOk;
    var op := s.ops.threads[t];
    assert OpOk(s.sessions.info, op);
    if s.sessions.info[op.id].finished {
      if op.unregistering {
        GoOn(c, s, t, Notifying);
      } else {
        Ends(c, s, t);
      }
    } else {
      FinishKeeps(c, s, op.id, op.phase);
      var s1 := Put(s, op.id, Finished(s.sessions.info[op.id], op.phase));
      if op.unregistering {
        GoOn(c, s1, t, AwaitClose(op.id));
      } else {
        Ends(c, s1, t);
      }
    }
  }

  lemma UnregisterKeeps(c: Config, s: State, t: ThreadId)
    requires Inv(c, s) && CanResume(s, t) && s.ops.threads[t].Unregister?
    ensures var op := s.ops.threads[t]; Inv(c, RunUnregister(s, t, op.worker, op.connection))
  {
    hide TableOk, LimitsOk, ActivatedOk;
    var op := s.ops.threads[t];
    var s' := RunUnregister(s, t, op.worker, op.connection);
    if s'.ops == End(s.ops, t) {
      OpsKeeps(c, s, t, End(s.ops, t));
    } else {
      UnregisterKeepsAssignment(c, s, t, op.worker, op.connection);
      assert ThreadsOk(s.sessions.info, s'.ops);
      assert NoticeDue(s'.sessions.info, s'.ops.threads) by {
        assert WillNotify(s'.ops.threads[t]);
      }
    }
  }

  /** A worker's phase report, if the session still takes one. */
  lemma ReportKeeps(c: Config, s: State, t: ThreadId)
    requires Inv(c, s) && CanResume(s, t) && s.ops.threads[t].EventApply? && s.ops.threads[t].payload.PhaseReport?
    ensures var s' := Resume(s, t, false); Inv(c, s') && AllGrow(s.sessions.info, s'.sessions.info)
  {
    hide TableOk, LimitsOk, LineOk, AssignmentOk, ActivatedOk, WakeOk, CapacityOk, ThreadsOk;
    var op := s.ops.threads[t];
    var y := Reported(s.sessions.info[op.id], op.payload.phase);
    ReportedOk(s.sessions.info[op.id], op.payload.phase);
    PutKeeps(c, s, op.id, y);
    Ends(c, Put(s, op.id, y), t);
  }

  lemma NotifyKeeps(c: Config, s: State, t: ThreadId)
    requires Inv(c, s) && CanResume(s, t) && s.ops.threads[t].Notifying?
    ensures Inv(c, Resume(s, t, false))
  {
    hide TableOk, LimitsOk, LineOk, AssignmentOk, ActivatedOk, WakeOk, CapacityOk, ThreadsOk;
    PermitKeeps(c, s);
    Ends(c, s.(permit := true), t);
  }

  /** An unregister looks up the job of the worker it removed. */
  lemma OrphanKeeps(c: Config, s: State, t: ThreadId)
    requires Inv(c, s) && CanResume(s, t) && s.ops.threads[t].OrphanLookup?
    ensures Inv(c, Resume(s, t, false))
  {
    var id := s.ops.threads[t].id;
    assert id !in s.sessions.live ==> s.sessions.info[id].assignee.None?;
    hide TableOk, LimitsOk, LineOk, AssignmentOk, ActivatedOk, WakeOk, CapacityOk, ThreadsOk;
    GoOn(c, s, t, if id in s.sessions.live then Complete(id, Exited, true) else Notifying);
  }

  /** Operations that only look, or only go on to their next segment. */
  lemma LookKeeps(c: Config, s: State, t: ThreadId, closed: bool)
    requires Inv(c, s) && CanResume(s, t)
    requires var op := s.ops.threads[t]; op.CommandRead? || op.CommandLookup? || op.EventLookup?
    ensures Inv(c, Resume(s, t, closed)) && Resume(s, t, closed).sessions == s.sessions
  {
    hide TableOk, LimitsOk, LineOk, AssignmentOk, ActivatedOk, WakeOk, CapacityOk, ThreadsOk;
    var s' := Resume(s, t, closed);
    if s'.ops == End(s.ops, t) {
      Ends(c, s, t);
    } else {
      GoOn(c, s, t, s'.ops.threads[t]);
    }
  }

  lemma AwaitKeeps(c: Config, s: State, t: ThreadId)
    requires Inv(c, s) && CanResume(s, t)
    requires var op := s.ops.threads[t]; op.AwaitClose? || (op.EventApply? && op.payload.ExitReport?)
    ensures Inv(c, Resume(s, t, false)) && Resume(s, t, false).sessions == s.sessions
  {
    hide TableOk, LimitsOk, LineOk, AssignmentOk, ActivatedOk, WakeOk, CapacityOk, ThreadsOk;
    GoOn(c, s, t, Resume(s, t, false).ops.threads[t]);
  }

  lemma CancelKeeps(c: Config, s: State, t: ThreadId)
    requires Inv(c, s) && CanResume(s, t) && s.ops.threads[t].CancelRetain?
    ensures Inv(c, Resume(s, t, false))
  {
    hide TableOk, LimitsOk, LineOk, AssignmentOk, ActivatedOk, WakeOk, CapacityOk;
    var op := s.ops.threads[t];
    assert OpOk(s.sessions.info, op);
    RetainKeeps(c, s, op.id);
    GoOn(c, s.(queue := Without(s.queue, op.id)), t, Complete(op.id, op.phase, false));
  }

  lemma ResumeKeeps(c: Config, s: State, t: ThreadId, closed: bool)
    requires Inv(c, s) && CanResume(s, t)
    ensures var s' := Resume(s, t, closed); Inv(c, s') && AllGrow(s.sessions.info, s'.sessions.info)
  {
    hide TableOk, LimitsOk, LineOk, AssignmentOk, ActivatedOk, ThreadsOk, WakeOk, CapacityOk;
    match s.ops.threads[t]
    case CancelRetain(_, _) => CancelKeeps(c, s, t);
    case Complete(_, _, _) => CompleteKeeps(c, s, t);
    case Unregister(_, _) => UnregisterKeeps(c, s, t);
    case OrphanLookup(_) => OrphanKeeps(c, s, t);
    case Notifying => NotifyKeeps(c, s, t);
    case EventApply(_, payload) =>
      if payload.PhaseReport? {
        ReportKeeps(c, s, t);
      } else {
        AwaitKeeps(c, s, t);
      }
    case AwaitClose(_) => AwaitKeeps(c, s, t);
    case _ => LookKeeps(c, s, t, closed);
  }

  lemma RegisterKeeps(c: Config, s: State, worker: WorkerId)
    requires Inv(c, s) && worker !in s.workers
    ensures Inv(c, Register(s, worker))
  {
    hide TableOk, LimitsOk, LineOk, ActivatedOk;
    var s' := Register(s, worker);
    RegisterKeepsAssignment(c, s.sessions.info, s.workers, s.ops.threads, s.log, worker, s.ops.nextConnection);
    ThreadMoves(c, s.sessions.info, s'.workers, s.ops.threads, s.log, s.ops.nextThread, s'.ops.threads);
    assert NoticeDue(s'.sessions.info, s'.ops.threads) by {
      assert WillNotify(s'.ops.threads[s.ops.nextThread]);
    }
  }

  // ---- dispatcher -----------------------------------------------------------------------

  lemma DispatchKeeps(c: Config, s: State)
    requires Inv(c, s) && CanDispatch(s)
    ensures Inv(c, Dispatch(s)) && Dispatch(s).sessions == s.sessions
  {
    hide TableOk, LimitsOk, LineOk, AssignmentOk, ActivatedOk;
    match s.disp
    case Polling =>
      if s.queue != [] {
        MoveKeepsLine(s.log, s.disp, s.queue, Popped(s.queue[0]), s.queue[1..]);
      } else {
        MoveKeepsLine(s.log, s.disp, s.queue, Parked, s.queue);
      }
    case Popped(id) =>
      DropKeepsLine(s.log, s.disp, s.queue);
      MoveKeepsLine(s.log, s.disp, s.queue, Found(id), s.queue);
    case Requeue(id, failed) =>
      MoveKeepsLine(s.log, s.disp, s.queue, Dispatch(s).disp, [id] + s.queue);
      if failed.Some? {
        SpawnKeeps(c, s, Unregister(failed.value.0, failed.value.1));
      }
    case Unregistering(_) => MoveKeepsLine(s.log, s.disp, s.queue, Polling, s.queue);
    case Parked => MoveKeepsLine(s.log, s.disp, s.queue, Polling, s.queue);
  }

  lemma DecideKeeps(c: Config, s: State, pick: Option<WorkerId>, sent: bool)
    requires Inv(c, s) && s.disp.Found? && CanPick(c, s, pick)
    ensures Exists(s, s.disp.id)
    ensures var s' := Decide(s, s.disp.id, pick, sent);
            Inv(c, s') && AllGrow(s.sessions.info, s'.sessions.info)
  {
    hide TableOk, LimitsOk, LineOk, AssignmentOk, ActivatedOk, ThreadsOk;
    var id := s.disp.id;
    HandIsNew(s.sessions.info, s.log, s.disp, s.queue);
    var x := s.sessions.info[id];
    if x.finished {
      DropKeepsLine(s.log, s.disp, s.queue);
    } else if pick.Some? && sent {
      var y := x.(assignee := Some(pick.value));
      PutBase(s.sessions.info, s.ops, s.log.activated, id, y);
      TableUntouched(c, s.sessions, id, y);
      LedgerUntouched(c, s.sessions.info, id, y, s.limits);
      AssignKeepsLine(s.log, s.disp, s.queue, id);
      AssignKeepsAssignment(c, s, id, pick.value);
    } else {
      MoveKeepsLine(s.log, s.disp, s.queue, Decide(s, id, pick, sent).disp, s.queue);
    }
  }

  // ---- all steps ------------------------------------------------------------------------

  lemma StartKeeps(c: Config, s: State, step: Step)
    requires Inv(c, s) && Enabled(c, s, step)
    requires step.DoCancel? || step.DoUnregister? || step.DoReport? || step.DoRegister?
    ensures Inv(c, Apply(c, s, step)) && Apply(c, s, step).sessions == s.sessions
  {
    hide TableOk, LimitsOk, LineOk, AssignmentOk, ActivatedOk, WakeOk, CapacityOk, ThreadsOk;
    match step
    case DoCancel(id, phase) =>
      if !s.sessions.info[id].finished {
        SpawnKeeps(c, s, if s.sessions.info[id].assignee.None? then CancelRetain(id, phase) else CommandRead(id));
      }
    case DoUnregister(worker, connection) => SpawnKeeps(c, s, Unregister(worker, connection));
    case DoReport(_, _, id, payload) => SpawnKeeps(c, s, EventLookup(id, payload));
    case DoRegister(worker) => RegisterKeeps(c, s, worker);
  }

  lemma HttpKeeps(c: Config, s: State, step: Step)
    requires Inv(c, s) && Enabled(c, s, step)
    requires step.DoCreate? || step.DoCount? || step.DoConsume? || step.DoActivate? || step.DoEnqueue? || step.DoWake?
    ensures Inv(c, Apply(c, s, step)) && AllGrow(s.sessions.info, Apply(c, s, step).sessions.info)
  {
    hide TableOk, LimitsOk, LineOk, AssignmentOk, ActivatedOk, WakeOk, CapacityOk, ThreadsOk;
    match step
    case DoCreate(id, visitor, ip) => CreateKeeps(c, s, id, visitor, ip);
    case DoCount(id) => CountKeeps(c, s, id);
    case DoConsume(id) => ConsumeKeeps(c, s, id);
    case DoActivate(id) =>
      FlaggedOk(s.sessions.info[id]);
      PutKeeps(c, s, id, Flagged(s.sessions.info[id]));
    case DoEnqueue(id) => EnqueueKeeps(c, s, id);
    case DoWake(id) =>
      PermitKeeps(c, s);
      PutKeeps(c, s.(permit := true), id, s.sessions.info[id].(act := Active));
  }

  /** Every step of every operation keeps the invariant and lets every session only grow. */
  lemma StepKeeps(c: Config, s: State, step: Step)
    requires Inv(c, s) && Enabled(c, s, step)
    ensures Inv(c, Apply(c, s, step)) && AllGrow(s.sessions.info, Apply(c, s, step).sessions.info)
  {
    hide TableOk, LimitsOk, LineOk, AssignmentOk, ActivatedOk, WakeOk, CapacityOk, ThreadsOk, SessionsOk;
    match step
    case DoAdvance(id) => AdvanceKeeps(c, s, id);
    case DoResume(t, closed) => ResumeKeeps(c, s, t, closed);
    case DoDispatch => DispatchKeeps(c, s);
    case DoDecide(pick, sent) => DecideKeeps(c, s, pick, sent);
    case DoCancel(_, _) | DoUnregister(_, _) | DoReport(_, _, _, _) | DoRegister(_) => StartKeeps(c, s, step);
    case _ => HttpKeeps(c, s, step);
  }
}

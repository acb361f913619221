/**
 Operations under way always run out, in whatever order they are resumed, and what is left is at rest.

 Every segment of an operation already under way lowers a weight, so the segments alone cannot
 go on for ever; and a state in which none of them can run has nothing left to do.
 */
module Quiescence {
  import opened Common
  import opened ControlPlane
  import opened Sessions
  import opened Ledger
  import opened Line
  import opened Assignment
  import opened Wakeup
  import opened Invariant
  import opened Progress
  import opened Sums

  /** A segment of an operation under way, of the dispatcher included; nothing new is started. */
  predicate Internal(step: Step) {
    || step.DoCount? || step.DoEnqueue? || step.DoWake? || step.DoAdvance?
    || step.DoResume? || step.DoDispatch? || step.DoDecide?
  }

  // ---- the weight of a state ----------------------------------------------------------------

  function ActWeight(act: Activation): nat {
    match act
    case NotActivated => 0
    case Enqueueing => 10
    case Waking => 6
    case Active => 0
  }

  /** A completion notifies at its end, which is worth a permit and one more. */
  function SessionWeight(x: Session): nat {
    ActWeight(x.act) + if x.stage == Closed then 0 else Remaining(x.stage) + 5
  }

  function OpWeight(op: Op): nat {
    match op
    case CommandRead(_) => 12
    case CommandLookup(_, _) => 11
    case Unregister(_, _) => 10
    case EventLookup(_, _) => 10
    case OrphanLookup(_) => 9
    case CancelRetain(_, _) => 9
    case EventApply(_, _) => 9
    case Complete(_, _, _) => 8
    case AwaitClose(_) => 7
    case Notifying => 6
  }

  function DispWeight(disp: Dispatcher): nat {
    match disp
    case Requeue(_, failed) => if failed.Some? then 16 else 1
    case Unregistering(_) => 5
    case Polling => 4
    case Popped(_) => 3
    case Found(_) => 2
    case Parked => 0
  }

  ghost function SessionWeights(info: map<SessionId, Session>): map<SessionId, nat> {
    map id | id in info :: SessionWeight(info[id])
  }

  ghost function OpWeights(threads: map<ThreadId, Op>): map<ThreadId, nat> {
    map t | t in threads :: OpWeight(threads[t])
  }

  /** The dispatcher is about to unregister the worker under its present connection. */
  predicate Doomed(workers: map<WorkerId, Worker>, threads: map<ThreadId, Op>, disp: Dispatcher, w: WorkerId)
    requires w in workers
  {
    || (disp.Requeue? && disp.failed == Some((w, workers[w].connection)))
    || (&& disp.Unregistering? && disp.thread in threads
        && threads[disp.thread] == Unregister(w, workers[w].connection))
  }

  ghost function Safe(workers: map<WorkerId, Worker>, threads: map<ThreadId, Op>, disp: Dispatcher): set<WorkerId> {
    set w | w in workers && !Doomed(workers, threads, disp, w)
  }

  ghost function Weight(s: State): nat {
    Sum(SessionWeights(s.sessions.info)) + Sum(OpWeights(s.ops.threads)) + |s.sessions.uncounted|
    + DispWeight(s.disp) + (if s.permit then 5 else 0) + 3 * (|s.queue| + |Hand(s.disp)|)
    + 15 * |Safe(s.workers, s.ops.threads, s.disp)|
  }

  lemma SessionChanges(info: map<SessionId, Session>, id: SessionId, y: Session)
    requires id in info
    ensures Sum(SessionWeights(info[id := y])) + SessionWeight(info[id])
         == Sum(SessionWeights(info)) + SessionWeight(y)
  {
    hide SessionWeight;
    assert SessionWeights(info[id := y]) == SessionWeights(info)[id := SessionWeight(y)];
    SumWith(SessionWeights(info), id, SessionWeight(y));
  }

  lemma ThreadGoes(ops: Ops, t: ThreadId, op: Op)
    ensures Sum(OpWeights(Go(ops, t, op).threads)) + (if t in ops.threads then OpWeight(ops.threads[t]) else 0)
         == Sum(OpWeights(ops.threads)) + OpWeight(op)
  {
    hide OpWeight;
    assert OpWeights(ops.threads[t := op]) == OpWeights(ops.threads)[t := OpWeight(op)];
    SumWith(OpWeights(ops.threads), t, OpWeight(op));
  }

  lemma ThreadEnds(ops: Ops, t: ThreadId)
    requires t in ops.threads
    ensures Sum(OpWeights(End(ops, t).threads)) + OpWeight(ops.threads[t]) == Sum(OpWeights(ops.threads))
  {
    hide OpWeight;
    assert OpWeights(ops.threads - {t}) == OpWeights(ops.threads) - {t};
    SumWithout(OpWeights(ops.threads), t);
  }

  /** The workers the dispatcher has not given up do not become more. */
  lemma SafeShrinks(s: State, s': State)
    requires forall w :: w in s'.workers ==> w in s.workers && s'.workers[w].connection == s.workers[w].connection
    requires forall w :: w in s'.workers && Doomed(s.workers, s.ops.threads, s.disp, w) ==>
               Doomed(s'.workers, s'.ops.threads, s'.disp, w)
    ensures |Safe(s'.workers, s'.ops.threads, s'.disp)| <= |Safe(s.workers, s.ops.threads, s.disp)|
  {
    hide Doomed;
    SubsetSize(Safe(s'.workers, s'.ops.threads, s'.disp), Safe(s.workers, s.ops.threads, s.disp));
  }

  /** Thread `t` moves on and is not the one that dooms a remaining worker. */
  lemma ThreadKeepsDoom(s: State, s': State, t: ThreadId)
    requires t in s.ops.threads && s'.disp == s.disp
    requires forall w :: w in s'.workers ==> w in s.workers && s'.workers[w].connection == s.workers[w].connection
    requires forall u :: u in s.ops.threads && u != t ==> u in s'.ops.threads && s'.ops.threads[u] == s.ops.threads[u]
    requires forall w :: w in s'.workers ==> s.ops.threads[t] != Unregister(w, s'.workers[w].connection)
    ensures |Safe(s'.workers, s'.ops.threads, s'.disp)| <= |Safe(s.workers, s.ops.threads, s.disp)|
  {
    forall w | w in s'.workers && Doomed(s.workers, s.ops.threads, s.disp, w)
      ensures Doomed(s'.workers, s'.ops.threads, s'.disp, w)
    {
    }
    SafeShrinks(s, s');
  }

  // ---- every segment is lighter than the one before ----------------------------------------------

  lemma CountLighter(s: State, id: SessionId)
    requires id in s.sessions.uncounted
    ensures Weight(CountCreated(s, id)) < Weight(s)
  {
    hide Sum, SessionWeights, OpWeights, Safe, Hand, DispWeight;
    assert |s.sessions.uncounted - {id}| == |s.sessions.uncounted| - 1;
  }

  /** The activation's and the completion's segments; the permit they may leave is paid for. */
  lemma SessionLighter(s: State, s': State, id: SessionId, y: Session)
    requires Exists(s, id) && s'.sessions.info == s.sessions.info[id := y]
    requires s'.sessions.uncounted == s.sessions.uncounted && s'.ops == s.ops && s'.disp == s.disp
    requires |s'.queue| <= |s.queue| + 1
    requires SessionWeight(y) + (if s'.permit && !s.permit then 5 else 0) + 3 * (|s'.queue| - |s.queue|)
             < SessionWeight(s.sessions.info[id])
    requires s.permit ==> s'.permit
    requires s'.workers.Keys == s.workers.Keys
    requires forall w :: w in s'.workers ==> s'.workers[w].connection == s.workers[w].connection
    ensures Weight(s') < Weight(s)
  {
    hide Sum, SessionWeights, OpWeights, Safe, Hand, DispWeight, SessionWeight;
    SessionChanges(s.sessions.info, id, y);
    SafeShrinks(s, s');
  }

  lemma AdvanceLighter(s: State, id: SessionId)
    requires Exists(s, id) && s.sessions.info[id].stage != Open && s.sessions.info[id].stage != Closed
    ensures Weight(Advance(s, id)) < Weight(s)
  {
    hide Weight;
    var s' := Advance(s, id);
    assert s'.workers.Keys == s.workers.Keys;
    SessionLighter(s, s', id, Advanced(s.sessions.info[id]));
  }

  /** What a thread's segment may do besides moving the thread on. */
  ghost predicate Quiet(s: State, s': State, t: ThreadId) {
    && t in s.ops.threads && s'.disp == s.disp && s'.sessions.uncounted == s.sessions.uncounted
    && |s'.queue| <= |s.queue| && (s.permit ==> s'.permit)
    && Sum(SessionWeights(s'.sessions.info)) <= Sum(SessionWeights(s.sessions.info))
    && (forall w :: w in s'.workers ==> w in s.workers && s'.workers[w].connection == s.workers[w].connection)
    && (forall w :: w in s'.workers ==> s.ops.threads[t] != Unregister(w, s'.workers[w].connection))
  }

  lemma GoLighter(s: State, s': State, t: ThreadId, op: Op)
    requires Quiet(s, s', t) && s'.permit == s.permit
    requires s'.ops == Go(s.ops, t, op) && OpWeight(op) < OpWeight(s.ops.threads[t])
    ensures Weight(s') < Weight(s)
  {
    hide Sum, SessionWeights, OpWeights, Safe, Hand, DispWeight, OpWeight;
    ThreadGoes(s.ops, t, op);
    ThreadKeepsDoom(s, s', t);
  }

  lemma EndLighter(s: State, s': State, t: ThreadId)
    requires Quiet(s, s', t) && s'.ops == End(s.ops, t)
    requires s'.permit == (s.permit || s.ops.threads[t].Notifying?)
    ensures Weight(s') < Weight(s)
  {
    hide Sum, SessionWeights, OpWeights, Safe, Hand, DispWeight;
    ThreadEnds(s.ops, t);
    ThreadKeepsDoom(s, s', t);
  }

  lemma CompleteLighter(s: State, t: ThreadId)
    requires CanResume(s, t) && s.ops.threads[t].Complete? && SessionOk(s.sessions.info[s.ops.threads[t].id])
    ensures Weight(Resume(s, t, false)) < Weight(s)
  {
    hide Weight, Sum, SessionWeights, OpWeights;
    var op := s.ops.threads[t];
    var s' := Resume(s, t, false);
    if !s.sessions.info[op.id].finished {
      SessionChanges(s.sessions.info, op.id, Finished(s.sessions.info[op.id], op.phase));
    }
    if !op.unregistering {
      EndLighter(s, s', t);
    } else if s.sessions.info[op.id].finished {
      GoLighter(s, s', t, Notifying);
    } else {
      GoLighter(s, s', t, AwaitClose(op.id));
    }
  }

  lemma UnregisterLighter(s: State, t: ThreadId)
    requires CanResume(s, t) && s.ops.threads[t].Unregister?
    ensures Weight(Resume(s, t, false)) < Weight(s)
  {
    hide Weight, Sum, SessionWeights, OpWeights;
    var s' := Resume(s, t, false);
    if s'.ops == End(s.ops, t) {
      EndLighter(s, s', t);
    } else {
      GoLighter(s, s', t, s'.ops.threads[t]);
    }
  }

  lemma ReportLighter(s: State, t: ThreadId)
    requires CanResume(s, t) && s.ops.threads[t].EventApply?
    ensures Weight(Resume(s, t, false)) < Weight(s)
  {
    hide Weight, Sum, SessionWeights, OpWeights;
    var op := s.ops.threads[t];
    var s' := Resume(s, t, false);
    if op.payload.PhaseReport? {
      SessionChanges(s.sessions.info, op.id, Reported(s.sessions.info[op.id], op.payload.phase));
      EndLighter(s, s', t);
    } else {
      GoLighter(s, s', t, s'.ops.threads[t]);
    }
  }

  lemma LookLighter(s: State, t: ThreadId, closed: bool)
    requires CanResume(s, t)
    requires var op := s.ops.threads[t]; !op.Complete? && !op.Unregister? && !op.EventApply?
    ensures Weight(Resume(s, t, closed)) < Weight(s)
  {
    hide Weight, Sum, SessionWeights, OpWeights;
    var op := s.ops.threads[t];
    var s' := Resume(s, t, closed);
    if op.CancelRetain? {
      WithoutIsSub(s.queue, op.id);
    }
    if s'.ops == End(s.ops, t) {
      EndLighter(s, s', t);
    } else {
      GoLighter(s, s', t, s'.ops.threads[t]);
    }
  }

  lemma DispatchLighter(c: Config, s: State)
    requires Inv(c, s) && CanDispatch(s)
    ensures Weight(Dispatch(s)) < Weight(s)
  {
    hide Inv, Sum, SessionWeights, OpWeights, Safe;
    var s' := Dispatch(s);
    if s.disp.Requeue? && s.disp.failed.Some? {
      InvFresh(c, s);
      ThreadGoes(s.ops, s.ops.nextThread, Unregister(s.disp.failed.value.0, s.disp.failed.value.1));
      PutBackKeepsDoom(s);
    } else {
      SafeShrinks(s, s');
    }
  }

  lemma InvFresh(c: Config, s: State)
    requires Inv(c, s)
    ensures s.ops.nextThread !in s.ops.threads
  {
    hide TableOk, LimitsOk, LineOk, AssignmentOk, ActivatedOk, WakeOk, CapacityOk, SessionsOk;
  }

  lemma PutBackKeepsDoom(s: State)
    requires s.disp.Requeue? && s.disp.failed.Some?
    ensures var s' := Dispatch(s);
            |Safe(s'.workers, s'.ops.threads, s'.disp)| <= |Safe(s.workers, s.ops.threads, s.disp)|
  {
    SafeShrinks(s, Dispatch(s));
  }

  lemma FailedIsDoomed(s: State, w: WorkerId)
    requires s.disp.Found? && w in s.workers
    ensures |Safe(s.workers, s.ops.threads, Requeue(s.disp.id, Some((w, s.workers[w].connection))))| + 1
         == |Safe(s.workers, s.ops.threads, s.disp)|
  {
    assert Safe(s.workers, s.ops.threads, Requeue(s.disp.id, Some((w, s.workers[w].connection)))) + {w}
        == Safe(s.workers, s.ops.threads, s.disp);
  }

  /** A worker whose channel failed is given up once. */
  lemma DecideLighter(c: Config, s: State, pick: Option<WorkerId>, sent: bool)
    requires s.disp.Found? && Exists(s, s.disp.id) && CanPick(c, s, pick)
    ensures Weight(Decide(s, s.disp.id, pick, sent)) < Weight(s)
  {
    hide Sum, SessionWeights, OpWeights, Safe, Blocked;
    var id := s.disp.id;
    var s' := Decide(s, id, pick, sent);
    if !s.sessions.info[id].finished && pick.Some? && sent {
      SessionChanges(s.sessions.info, id, s.sessions.info[id].(assignee := pick));
      SafeShrinks(s, s');
    } else if !s.sessions.info[id].finished && pick.Some? {
      FailedIsDoomed(s, pick.value);
    } else {
      SafeShrinks(s, s');
    }
  }

  /** Every segment of an operation under way makes the state lighter. */
  lemma InternalIsLighter(c: Config, s: State, step: Step)
    requires Inv(c, s) && Enabled(c, s, step) && Internal(step)
    ensures Weight(Apply(c, s, step)) < Weight(s)
  {
    hide Inv, Weight, SessionWeight;
    match step
    case DoCount(id) => CountLighter(s, id);
    case DoEnqueue(id) => ActivationLighter(s, id);
    case DoWake(id) => ActivationLighter(s, id);
    case DoAdvance(id) => AdvanceLighter(s, id);
    case DoResume(t, closed) => ResumeLighter(c, s, t, closed);
    case DoDispatch => DispatchLighter(c, s);
    case DoDecide(pick, sent) => DecideLighter(c, s, pick, sent);
  }

  lemma ActivationLighter(s: State, id: SessionId)
    requires Exists(s, id)
    ensures s.sessions.info[id].act == Enqueueing ==> Weight(Enqueue(s, id)) < Weight(s)
    ensures s.sessions.info[id].act == Waking ==>
              Weight(Put(s, id, s.sessions.info[id].(act := Active)).(permit := true)) < Weight(s)
  {
    hide Weight;
    var x := s.sessions.info[id];
    if x.act == Enqueueing {
      SessionLighter(s, Enqueue(s, id), id, x.(act := Waking));
    } else if x.act == Waking {
      SessionLighter(s, Put(s, id, x.(act := Active)).(permit := true), id, x.(act := Active));
    }
  }

  lemma ResumeLighter(c: Config, s: State, t: ThreadId, closed: bool)
    requires Inv(c, s) && CanResume(s, t)
    ensures Weight(Resume(s, t, closed)) < Weight(s)
  {
    hide Inv, Weight;
    var op := s.ops.threads[t];
    if op.Complete? {
      InvSession(c, s, op.id);
      CompleteLighter(s, t);
    } else if op.Unregister? {
      UnregisterLighter(s, t);
    } else if op.EventApply? {
      ReportLighter(s, t);
    } else {
      LookLighter(s, t, closed);
    }
  }

  // ---- where it ends ----------------------------------------------------------------------------

  /** Nothing is under way, and the dispatcher sleeps because there is nothing it could dispatch. */
  ghost predicate AtRest(c: Config, s: State) {
    && s.ops.threads == map[]
    && s.sessions.uncounted == {}
    && (forall id :: Exists(s, id) ==> Settled(s.sessions.info[id]))
    && s.disp == Parked && !s.permit
    && (s.queue == [] || Blocked(c, s.workers))
  }

  /** Neither an activation nor a completion of the session is under way. */
  predicate Settled(x: Session) {
    && (x.act == NotActivated || x.act == Active)
    && (x.finished ==> x.stage == Closed)
  }

  ghost predicate Stuck(c: Config, s: State) {
    forall step :: Enabled(c, s, step) ==> !Internal(step)
  }

  lemma StuckSessions(c: Config, s: State)
    requires Inv(c, s) && Stuck(c, s)
    ensures s.sessions.uncounted == {}
    ensures forall id :: Exists(s, id) ==> Settled(s.sessions.info[id]) && !WillSignal(s.sessions.info[id])
  {
    hide Inv, Apply;
    forall id | Exists(s, id) ensures Settled(s.sessions.info[id]) && !WillSignal(s.sessions.info[id]) {
      InvSession(c, s, id);
      assert Internal(DoEnqueue(id)) && Internal(DoWake(id)) && Internal(DoAdvance(id));
      assert !Enabled(c, s, DoEnqueue(id)) && !Enabled(c, s, DoWake(id)) && !Enabled(c, s, DoAdvance(id));
    }
    forall id ensures id !in s.sessions.uncounted {
      assert Internal(DoCount(id)) && !Enabled(c, s, DoCount(id));
    }
  }

  lemma InvThread(c: Config, s: State, t: ThreadId)
    requires Inv(c, s) && t in s.ops.threads
    ensures OpOk(s.sessions.info, s.ops.threads[t])
  {
    hide TableOk, LimitsOk, LineOk, AssignmentOk, ActivatedOk, WakeOk, CapacityOk, SessionsOk;
  }

  /** Only an unregister that waits for its completion can be blocked. */
  lemma ThreadCanGo(c: Config, s: State, t: ThreadId)
    requires Inv(c, s) && t in s.ops.threads
    requires forall id :: Exists(s, id) ==> Settled(s.sessions.info[id])
    ensures Enabled(c, s, DoResume(t, false))
  {
    hide Inv;
    InvThread(c, s, t);
  }

  lemma StuckThreads(c: Config, s: State)
    requires Inv(c, s) && Stuck(c, s)
    ensures s.ops.threads == map[]
  {
    hide Inv, Enabled, Apply, WillSignal, Settled;
    StuckSessions(c, s);
    forall t ensures t !in s.ops.threads {
      assert Internal(DoResume(t, false)) && !Enabled(c, s, DoResume(t, false));
      if t in s.ops.threads {
        ThreadCanGo(c, s, t);
      }
    }
  }

  lemma SomePick(c: Config, s: State) returns (pick: Option<WorkerId>)
    ensures CanPick(c, s, pick)
  {
    if Blocked(c, s.workers) {
      pick := None;
    } else {
      var w :| w in s.workers && s.workers[w].job.None?;
      pick := Some(w);
    }
  }

  lemma InvHand(c: Config, s: State)
    requires Inv(c, s) && s.disp.Found?
    ensures Exists(s, s.disp.id)
  {
    hide TableOk, LimitsOk, AssignmentOk, WakeOk, CapacityOk, ThreadsOk, SessionsOk;
    HandIsNew(s.sessions.info, s.log, s.disp, s.queue);
  }

  lemma FoundCanGo(c: Config, s: State)
    requires Inv(c, s) && s.disp.Found?
    ensures exists step :: Enabled(c, s, step) && Internal(step)
  {
    hide Inv, Apply, CanPick;
    InvHand(c, s);
    var pick := SomePick(c, s);
    assert Enabled(c, s, DoDecide(pick, true)) && Internal(DoDecide(pick, true));
  }

  lemma StuckDispatcher(c: Config, s: State)
    requires Inv(c, s) && Stuck(c, s)
    ensures s.disp == Parked && !s.permit
  {
    hide Inv, Apply;
    StuckThreads(c, s);
    assert Internal(DoDispatch) && !Enabled(c, s, DoDispatch);
    if s.disp.Found? {
      FoundCanGo(c, s);
    }
  }

  lemma InvWake(c: Config, s: State)
    requires Inv(c, s)
    ensures WakeOk(c, s)
  {
  }

  /** A state none of whose operations can go on is at rest. */
  lemma StuckIsAtRest(c: Config, s: State)
    requires Inv(c, s) && Stuck(c, s)
    ensures AtRest(c, s)
  {
    hide Inv, Stuck, Settled, WillSignal, Blocked;
    StuckSessions(c, s);
    StuckThreads(c, s);
    StuckDispatcher(c, s);
    InvWake(c, s);
  }

  /** However the operations under way are scheduled, they take at most as many segments as the state weighs. */
  lemma {:induction false} EveryScheduleEnds(c: Config, s: State, steps: seq<Step>, s': State)
    requires Inv(c, s) && Runs(c, s, steps, s') && forall i :: 0 <= i < |steps| ==> Internal(steps[i])
    ensures |steps| + Weight(s') <= Weight(s)
    decreases |steps|
  {
    hide Inv, Weight, Enabled, Apply, Internal;
    if steps != [] {
      InternalIsLighter(c, s, steps[0]);
      StepKeeps(c, s, steps[0]);
      assert forall i :: 0 <= i < |steps[1..]| ==> steps[1..][i] == steps[i + 1];
      EveryScheduleEnds(c, Apply(c, s, steps[0]), steps[1..], s');
    }
  }

  /** From every reachable state the operations under way lead, by themselves, to a state at rest. */
  lemma {:induction false} Settles(c: Config, s: State) returns (steps: seq<Step>, s': State)
    requires Inv(c, s)
    ensures Runs(c, s, steps, s') && AtRest(c, s')
    ensures forall i :: 0 <= i < |steps| ==> Internal(steps[i])
    decreases Weight(s)
  {
    hide Inv, Weight, Enabled, Apply, Internal, AtRest;
    if Stuck(c, s) {
      StuckIsAtRest(c, s);
      steps, s' := [], s;
    } else {
      var step :| Enabled(c, s, step) && Internal(step);
      InternalIsLighter(c, s, step);
      StepKeeps(c, s, step);
      var rest;
      rest, s' := Settles(c, Apply(c, s, step));
      steps := [step] + rest;
      RunsOnce(c, s, step, rest, s');
    }
  }
}

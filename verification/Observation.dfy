/**
 Every run of the control plane, seen from one session, is a sequence of arrivals.

 Together with `Delivery` this says what a worker's messages meet in the control plane.  Output
 and errors play no part in the control plane and do not occur here.
 */
module Observation {
  import opened Common
  import opened Phases
  import opened ControlPlane
  import opened Sessions
  import opened Ledger
  import opened Line
  import opened Assignment
  import opened Wakeup
  import opened Invariant
  import opened Progress
  import opened Safety
  import E = Execution
  import D = Delivery

  function MessageOf(payload: Payload): E.Message {
    match payload
    case PhaseReport(phase) => E.PhaseMsg(phase)
    case ExitReport(reason) => E.ExitMsg(None, None, reason)
  }

  /** A reason that leaves a session in the given phase. */
  function ReasonFor(phase: Phase): ExitReason {
    match phase
    case CompileFailed => FailedToCompile
    case TimedOut => OutOfTime
    case ResourceLimited => OutOfResources
    case Cancelled => CancelledByUser
    case SandboxViolation => Violation
    case _ => InternalError
  }

  /** The thread carries an event of the session between two segments. */
  predicate Reports(op: Op, id: SessionId) {
    (op.EventLookup? || op.EventApply?) && op.id == id
  }

  /** A message in flight and the operation that carries it; an exit's handler is a completion. */
  predicate Matches(op: Op, f: D.Flight, id: SessionId) {
    match op
    case EventLookup(i, payload) => i == id && f == D.Passed(MessageOf(payload))
    case EventApply(i, payload) => i == id && f == D.Found(MessageOf(payload))
    case Complete(i, phase, unregistering) =>
      && i == id && !unregistering && f.Found? && f.message.ExitMsg?
      && phase == PhaseForExit(f.message.reason)
    case _ => false
  }

  ghost predicate FlightsOk(threads: map<ThreadId, Op>, flights: map<nat, D.Flight>, id: SessionId) {
    && (forall t :: t in flights ==> t in threads && Matches(threads[t], flights[t], id))
    && (forall t :: t in threads && Reports(threads[t], id) ==> t in flights)
  }

  /** The view shows the session as it is. */
  ghost predicate Sees(s: State, id: SessionId, v: D.View) {
    && Exists(s, id)
    && v.phase == s.sessions.info[id].phase && v.finished == s.sessions.info[id].finished
    && v.held == Held(s, id)
    && v.present == (id in s.sessions.live)
    && FlightsOk(s.ops.threads, v.flights, id)
  }

  // ---- what a step looks like from the session --------------------------------------------------

  function SeenResume(s: State, v: D.View, t: ThreadId, id: SessionId): seq<D.Arrival>
    requires CanResume(s, t)
  {
    match s.ops.threads[t]
    case EventLookup(i, _) => if i == id then [D.Lookup(t)] else []
    case EventApply(i, payload) => if i == id && payload.PhaseReport? then [D.Handle(t)] else []
    case Complete(i, phase, _) =>
      if i != id then []
      else if t in v.flights then [D.Handle(t)]
      else [D.Elsewhere(ReasonFor(phase))]
    case Unregister(w, k) =>
      if w in s.workers && s.workers[w] == Worker(k, Some(id)) then [D.Freed] else []
    case _ => []
  }

  ghost function Seen(c: Config, s: State, v: D.View, step: Step, id: SessionId): seq<D.Arrival>
    requires Enabled(c, s, step)
  {
    match step
    case DoDecide(pick, sent) =>
      if s.disp.id == id && !s.sessions.info[id].finished && pick.Some? && sent then [D.Assigned] else []
    case DoReport(_, _, i, payload) => if i == id then [D.Gate(s.ops.nextThread, MessageOf(payload))] else []
    case DoResume(t, _) => SeenResume(s, v, t, id)
    case DoAdvance(i) =>
      if i != id then []
      else if s.sessions.info[i].stage == FreeWorker then [D.Freed]
      else if s.sessions.info[i].stage == Removing then [D.Removed]
      else []
    case _ => []
  }

  function After(v: D.View, seen: seq<D.Arrival>): D.View {
    if seen == [] then v else D.Take(v, seen[0])
  }

  // ---- the view keeps up -----------------------------------------------------------------------

  /** Nothing the view shows has changed. */
  ghost predicate Unseen(s: State, s': State, id: SessionId) {
    && Exists(s, id) && Exists(s', id)
    && s'.sessions.info[id].phase == s.sessions.info[id].phase
    && s'.sessions.info[id].finished == s.sessions.info[id].finished
    && Held(s', id) == Held(s, id)
    && (id in s'.sessions.live <==> id in s.sessions.live)
  }

  /** A thread that carries none of the session's messages may do anything but pick one up. */
  ghost predicate Aside(threads: map<ThreadId, Op>, threads': map<ThreadId, Op>, t: ThreadId, id: SessionId) {
    && (forall u :: u != t ==> (u in threads <==> u in threads') && (u in threads ==> threads'[u] == threads[u]))
    && (t in threads' ==> !Reports(threads'[t], id))
  }

  lemma SameFlights(threads: map<ThreadId, Op>, threads': map<ThreadId, Op>, flights: map<nat, D.Flight>,
                    t: ThreadId, id: SessionId)
    requires FlightsOk(threads, flights, id) && Aside(threads, threads', t, id) && t !in flights
    ensures FlightsOk(threads', flights, id)
  {
    hide Matches;
  }

  lemma FlightLands(threads: map<ThreadId, Op>, threads': map<ThreadId, Op>, flights: map<nat, D.Flight>,
                    t: ThreadId, id: SessionId)
    requires FlightsOk(threads, flights, id) && Aside(threads, threads', t, id)
    ensures FlightsOk(threads', flights - {t}, id)
  {
    hide Matches;
  }

  lemma FlightGoesOn(threads: map<ThreadId, Op>, flights: map<nat, D.Flight>, t: ThreadId, op: Op, f: D.Flight,
                     id: SessionId)
    requires FlightsOk(threads, flights, id) && Matches(op, f, id)
    ensures FlightsOk(threads[t := op], flights[t := f], id)
  {
    hide Matches;
  }

  lemma UnseenStep(s: State, s': State, id: SessionId, v: D.View, t: ThreadId)
    requires Sees(s, id, v) && Unseen(s, s', id)
    requires t !in v.flights && Aside(s.ops.threads, s'.ops.threads, t, id)
    ensures Sees(s', id, v)
  {
    hide FlightsOk, Held;
    SameFlights(s.ops.threads, s'.ops.threads, v.flights, t, id);
  }

  lemma SameWorkers(s: State, s': State, id: SessionId)
    requires s'.workers == s.workers
    ensures Held(s', id) == Held(s, id)
  {
  }

  lemma ReportSeen(s: State, id: SessionId, v: D.View, w: WorkerId, k: nat, payload: Payload)
    requires Sees(s, id, v) && CanReport(s, w, k, id)
    ensures Sees(s.(ops := Spawn(s.ops, EventLookup(id, payload))), id,
                 D.Take(v, D.Gate(s.ops.nextThread, MessageOf(payload))))
  {
    hide FlightsOk;
    var op := EventLookup(id, payload);
    SameWorkers(s, s.(ops := Spawn(s.ops, op)), id);
    FlightGoesOn(s.ops.threads, v.flights, s.ops.nextThread, op, D.Passed(MessageOf(payload)), id);
  }

  lemma FlightOf(threads: map<ThreadId, Op>, flights: map<nat, D.Flight>, t: ThreadId, id: SessionId)
    requires FlightsOk(threads, flights, id) && t in threads
    ensures Reports(threads[t], id) ==> t in flights
    ensures t in flights ==> Matches(threads[t], flights[t], id)
  {
  }

  lemma LookupSeen(s: State, id: SessionId, v: D.View, t: ThreadId)
    requires Sees(s, id, v) && CanResume(s, t) && s.ops.threads[t].EventLookup? && s.ops.threads[t].id == id
    ensures Sees(Resume(s, t, false), id, D.Take(v, D.Lookup(t)))
  {
    hide FlightsOk, Held;
    var payload := s.ops.threads[t].payload;
    var s' := Resume(s, t, false);
    FlightOf(s.ops.threads, v.flights, t, id);
    SameWorkers(s, s', id);
    if id in s.sessions.live {
      FlightGoesOn(s.ops.threads, v.flights, t, EventApply(id, payload), D.Found(MessageOf(payload)), id);
    } else {
      FlightLands(s.ops.threads, s'.ops.threads, v.flights, t, id);
    }
  }

  lemma ApplySeen(s: State, id: SessionId, v: D.View, t: ThreadId)
    requires Sees(s, id, v) && CanResume(s, t) && s.ops.threads[t].EventApply? && s.ops.threads[t].id == id
    ensures s.ops.threads[t].payload.PhaseReport? ==> Sees(Resume(s, t, false), id, D.Take(v, D.Handle(t)))
    ensures s.ops.threads[t].payload.ExitReport? ==> Sees(Resume(s, t, false), id, v)
  {
    hide FlightsOk, Held;
    var payload := s.ops.threads[t].payload;
    var s' := Resume(s, t, false);
    FlightOf(s.ops.threads, v.flights, t, id);
    SameWorkers(s, s', id);
    if payload.PhaseReport? {
      FlightLands(s.ops.threads, s'.ops.threads, v.flights, t, id);
    } else {
      FlightGoesOn(s.ops.threads, v.flights, t, s'.ops.threads[t], v.flights[t], id);
      assert v.flights[t := v.flights[t]] == v.flights;
    }
  }

  lemma CompleteSeen(s: State, id: SessionId, v: D.View, t: ThreadId)
    requires Sees(s, id, v) && CanResume(s, t) && OpOk(s.sessions.info, s.ops.threads[t])
    requires s.ops.threads[t].Complete? && s.ops.threads[t].id == id
    ensures Sees(Resume(s, t, false), id, After(v, SeenResume(s, v, t, id)))
  {
    hide FlightsOk, Held;
    var op := s.ops.threads[t];
    var s' := Resume(s, t, false);
    FlightOf(s.ops.threads, v.flights, t, id);
    SameWorkers(s, s', id);
    if t in v.flights {
      FlightLands(s.ops.threads, s'.ops.threads, v.flights, t, id);
    } else {
      assert PhaseForExit(ReasonFor(op.phase)) == op.phase;
      SameFlights(s.ops.threads, s'.ops.threads, v.flights, t, id);
    }
  }

  lemma InvJobs(c: Config, s: State)
    requires Inv(c, s)
    ensures JobsOk(s.sessions.info, s.workers, s.log.dispatched)
  {
    hide TableOk, LimitsOk, LineOk, ActivatedOk, WakeOk, CapacityOk, ThreadsOk;
  }

  lemma UnregisterHeld(c: Config, s: State, t: ThreadId, id: SessionId)
    requires Inv(c, s) && CanResume(s, t) && s.ops.threads[t].Unregister?
    ensures var s' := Resume(s, t, false);
            var op := s.ops.threads[t];
            Held(s', id) == (Held(s, id)
              && !(op.worker in s.workers && s.workers[op.worker] == Worker(op.connection, Some(id))))
  {
    hide Inv;
    InvJobs(c, s);
    var s' := Resume(s, t, false);
    var op := s.ops.threads[t];
    if Held(s, id) {
      var w :| w in s.workers && s.workers[w].job == Some(id);
      assert w != op.worker ==> w in s'.workers && s'.workers[w].job == Some(id);
    }
  }

  lemma UnregisterSeen(c: Config, s: State, id: SessionId, v: D.View, t: ThreadId)
    requires Inv(c, s) && Sees(s, id, v) && CanResume(s, t) && s.ops.threads[t].Unregister?
    ensures Sees(Resume(s, t, false), id, After(v, SeenResume(s, v, t, id)))
  {
    hide Inv, FlightsOk, Held;
    var s' := Resume(s, t, false);
    FlightOf(s.ops.threads, v.flights, t, id);
    UnregisterHeld(c, s, t, id);
    SameFlights(s.ops.threads, s'.ops.threads, v.flights, t, id);
  }

  lemma ResumeSeen(c: Config, s: State, id: SessionId, v: D.View, t: ThreadId, closed: bool)
    requires Inv(c, s) && Sees(s, id, v) && CanResume(s, t)
    ensures Sees(Resume(s, t, closed), id, After(v, SeenResume(s, v, t, id)))
  {
    hide Inv, Sees, FlightsOk, Held;
    var op := s.ops.threads[t];
    if op.EventLookup? && op.id == id {
      LookupSeen(s, id, v, t);
    } else if op.EventApply? && op.id == id {
      ApplySeen(s, id, v, t);
    } else if op.Complete? && op.id == id {
      InvOp(c, s, t);
      CompleteSeen(s, id, v, t);
    } else if op.Unregister? {
      UnregisterSeen(c, s, id, v, t);
    } else {
      AsideSeen(s, id, v, t, closed);
    }
  }

  lemma InvOp(c: Config, s: State, t: ThreadId)
    requires Inv(c, s) && t in s.ops.threads
    ensures OpOk(s.sessions.info, s.ops.threads[t])
  {
    hide TableOk, LimitsOk, LineOk, AssignmentOk, ActivatedOk, WakeOk, CapacityOk, SessionsOk;
  }

  /** The operation belongs to no message of the session, and is no completion of it. */
  predicate Foreign(op: Op, id: SessionId) {
    !op.Unregister? && (op.EventLookup? || op.EventApply? || op.Complete? ==> op.id != id)
  }

  lemma ForeignThreads(s: State, t: ThreadId, closed: bool, id: SessionId)
    requires CanResume(s, t) && Foreign(s.ops.threads[t], id)
    ensures Aside(s.ops.threads, Resume(s, t, closed).ops.threads, t, id)
  {
    hide Aside, Go, End;
    EndAside(s.ops, t, id);
    GoAside(s.ops, t, Notifying, id);
    match s.ops.threads[t]
    case CancelRetain(i, phase) => GoAside(s.ops, t, Complete(i, phase, false), id);
    case Complete(i, _, _) => GoAside(s.ops, t, AwaitClose(i), id);
    case CommandRead(i) =>
      if s.sessions.info[i].assignee.Some? {
        GoAside(s.ops, t, CommandLookup(i, s.sessions.info[i].assignee.value), id);
      }
    case CommandLookup(_, w) =>
      if w in s.workers {
        GoAside(s.ops, t, Unregister(w, s.workers[w].connection), id);
      }
    case OrphanLookup(i) => GoAside(s.ops, t, Complete(i, Exited, true), id);
    case AwaitClose(_) =>
    case Notifying =>
    case EventLookup(i, payload) => GoAside(s.ops, t, EventApply(i, payload), id);
    case EventApply(i, payload) =>
      if payload.ExitReport? {
        GoAside(s.ops, t, Complete(i, PhaseForExit(payload.reason), false), id);
      }
  }

  lemma EndAside(ops: Ops, t: ThreadId, id: SessionId)
    ensures Aside(ops.threads, End(ops, t).threads, t, id)
  {
  }

  lemma GoAside(ops: Ops, t: ThreadId, op: Op, id: SessionId)
    ensures !Reports(op, id) ==> Aside(ops.threads, Go(ops, t, op).threads, t, id)
    ensures !Reports(op, id) ==> Aside(ops.threads, Spawn(ops, op).threads, ops.nextThread, id)
    ensures Aside(ops.threads, ops.threads, ops.nextThread, id) || ops.nextThread in ops.threads
  {
  }

  lemma ForeignSessions(s: State, t: ThreadId, closed: bool, id: SessionId)
    requires CanResume(s, t) && Foreign(s.ops.threads[t], id) && Exists(s, id)
    ensures var s' := Resume(s, t, closed);
            && s'.workers == s.workers && s'.sessions.live == s.sessions.live
            && Exists(s', id) && s'.sessions.info[id] == s.sessions.info[id]
  {
  }

  lemma AsideSeen(s: State, id: SessionId, v: D.View, t: ThreadId, closed: bool)
    requires Sees(s, id, v) && CanResume(s, t) && Foreign(s.ops.threads[t], id)
    ensures Sees(Resume(s, t, closed), id, v)
  {
    hide FlightsOk, Held, Sees, Resume, Aside;
    var s' := Resume(s, t, closed);
    assert FlightsOk(s.ops.threads, v.flights, id) && Exists(s, id) by { SeesFlights(s, id, v); }
    FlightOf(s.ops.threads, v.flights, t, id);
    ForeignThreads(s, t, closed, id);
    ForeignSessions(s, t, closed, id);
    SameWorkers(s, s', id);
    UnseenStep(s, s', id, v, t);
  }

  lemma SeesFlights(s: State, id: SessionId, v: D.View)
    requires Sees(s, id, v)
    ensures Exists(s, id) && FlightsOk(s.ops.threads, v.flights, id)
  {
  }

  lemma FreeHeld(c: Config, s: State, i: SessionId, id: SessionId)
    requires Inv(c, s) && Exists(s, i) && s.sessions.info[i].stage == FreeWorker
    ensures Held(Advance(s, i), id) == (Held(s, id) && i != id)
  {
    hide Inv;
    InvJobs(c, s);
    InvSession(c, s, i);
    var s' := Advance(s, i);
    if i != id && Held(s, id) {
      var w :| w in s.workers && s.workers[w].job == Some(id);
      assert w in s'.workers && s'.workers[w].job == Some(id);
    }
  }

  lemma AdvanceSeen(c: Config, s: State, v: D.View, i: SessionId, id: SessionId)
    requires Inv(c, s) && Sees(s, id, v) && Enabled(c, s, DoAdvance(i))
    ensures Sees(Advance(s, i), id, After(v, Seen(c, s, v, DoAdvance(i), id)))
  {
    hide Inv, FlightsOk, Held;
    InvSession(c, s, i);
    if s.sessions.info[i].stage == FreeWorker {
      FreeHeld(c, s, i, id);
    } else {
      SameWorkers(s, Advance(s, i), id);
    }
  }

  lemma AssignHeld(s: State, i: SessionId, w: WorkerId, id: SessionId)
    requires Exists(s, i) && w in s.workers && s.workers[w].job.None?
    ensures Held(Assign(s, i, w), id) == (Held(s, id) || i == id)
  {
    var s' := Assign(s, i, w);
    assert s'.workers[w].job == Some(i);
    if Held(s, id) {
      var u :| u in s.workers && s.workers[u].job == Some(id);
      assert s'.workers[u].job == Some(id);
    }
  }

  lemma DecideSeen(c: Config, s: State, v: D.View, pick: Option<WorkerId>, sent: bool, id: SessionId)
    requires Sees(s, id, v) && Enabled(c, s, DoDecide(pick, sent))
    ensures Sees(Apply(c, s, DoDecide(pick, sent)), id, After(v, Seen(c, s, v, DoDecide(pick, sent), id)))
  {
    hide FlightsOk, Held, Blocked;
    var s' := Decide(s, s.disp.id, pick, sent);
    if !s.sessions.info[s.disp.id].finished && pick.Some? && sent {
      AssignHeld(s, s.disp.id, pick.value, id);
    } else {
      SameWorkers(s, s', id);
    }
  }

  lemma RegisterSeen(s: State, id: SessionId, v: D.View, w: WorkerId)
    requires Sees(s, id, v) && w !in s.workers && s.ops.nextThread !in s.ops.threads
    ensures Sees(Register(s, w), id, v)
  {
    hide FlightsOk;
    var s' := Register(s, w);
    if Held(s, id) {
      var u :| u in s.workers && s.workers[u].job == Some(id);
      assert s'.workers[u].job == Some(id);
    }
    FlightOfNone(s, v, id);
    SameFlights(s.ops.threads, s'.ops.threads, v.flights, s.ops.nextThread, id);
  }

  lemma FlightOfNone(s: State, v: D.View, id: SessionId)
    requires FlightsOk(s.ops.threads, v.flights, id) && s.ops.nextThread !in s.ops.threads
    ensures s.ops.nextThread !in v.flights
  {
  }

  lemma FreshThread(c: Config, s: State)
    requires Inv(c, s)
    ensures s.ops.nextThread !in s.ops.threads
  {
    hide TableOk, LimitsOk, LineOk, AssignmentOk, ActivatedOk, WakeOk, CapacityOk, SessionsOk;
  }

  /** At most one thread is added, and it carries none of the session's messages. */
  lemma SpawnSeen(c: Config, s: State, s': State, id: SessionId, v: D.View, op: Op)
    requires Inv(c, s) && Sees(s, id, v) && !Reports(op, id)
    requires s'.ops == s.ops || s'.ops == Spawn(s.ops, op)
    requires s'.sessions == s.sessions && s'.workers == s.workers
    ensures Sees(s', id, v)
  {
    hide Inv, FlightsOk, Held, Sees, Aside;
    SeesFlights(s, id, v);
    FreshThread(c, s);
    FlightOfNone(s, v, id);
    SameWorkers(s, s', id);
    GoAside(s.ops, s.ops.nextThread, op, id);
    UnseenStep(s, s', id, v, s.ops.nextThread);
  }

  /** Steps that start an operation, or move the dispatcher without deciding. */
  lemma StartSeen(c: Config, s: State, v: D.View, step: Step, id: SessionId)
    requires Inv(c, s) && Sees(s, id, v) && Enabled(c, s, step)
    requires step.DoCancel? || step.DoUnregister? || step.DoDispatch? || (step.DoReport? && step.id != id)
    ensures Sees(Apply(c, s, step), id, v)
  {
    hide Inv, Sees;
    var s' := Apply(c, s, step);
    match step
    case DoCancel(i, phase) =>
      SpawnSeen(c, s, s', id, v, if s.sessions.info[i].assignee.None? then CancelRetain(i, phase) else CommandRead(i));
    case DoUnregister(w, k) => SpawnSeen(c, s, s', id, v, Unregister(w, k));
    case DoReport(_, _, i, payload) => SpawnSeen(c, s, s', id, v, EventLookup(i, payload));
    case DoDispatch =>
      SpawnSeen(c, s, s', id, v, if s.disp.Requeue? && s.disp.failed.Some?
                                 then Unregister(s.disp.failed.value.0, s.disp.failed.value.1) else Notifying);
  }

  /** The browser's side: it touches neither workers nor threads. */
  lemma HttpSeen(c: Config, s: State, v: D.View, step: Step, id: SessionId)
    requires Inv(c, s) && Sees(s, id, v) && Enabled(c, s, step)
    requires step.DoCreate? || step.DoCount? || step.DoConsume? || step.DoActivate? || step.DoEnqueue? || step.DoWake?
    ensures Sees(Apply(c, s, step), id, v)
  {
    hide Inv, FlightsOk, Held;
    SameWorkers(s, Apply(c, s, step), id);
  }

  /** After every step the view that took what was seen of it shows the session again. */
  lemma StepSeen(c: Config, s: State, v: D.View, step: Step, id: SessionId)
    requires Inv(c, s) && Sees(s, id, v) && Enabled(c, s, step)
    ensures Sees(Apply(c, s, step), id, After(v, Seen(c, s, v, step, id)))
  {
    hide Inv, Sees, Resume, Decide, Advance, Dispatch;
    match step
    case DoResume(t, closed) => ResumeSeen(c, s, id, v, t, closed);
    case DoAdvance(i) => AdvanceSeen(c, s, v, i, id);
    case DoDecide(pick, sent) => DecideSeen(c, s, v, pick, sent, id);
    case DoReport(w, k, i, payload) =>
      if i == id {
        ReportSeen(s, id, v, w, k, payload);
      } else {
        StartSeen(c, s, v, step, id);
      }
    case DoRegister(w) =>
      FreshThread(c, s);
      RegisterSeen(s, id, v, w);
    case DoCancel(_, _) | DoUnregister(_, _) | DoDispatch => StartSeen(c, s, v, step, id);
    case _ => HttpSeen(c, s, v, step, id);
  }

  lemma NewSeen(c: Config, s: State, id: SessionId, visitor: string, ip: string)
    requires Inv(c, s) && !Exists(s, id)
    ensures Sees(Create(s, id, visitor, ip), id, D.CREATED)
  {
    hide TableOk, LimitsOk, LineOk, ActivatedOk, WakeOk, CapacityOk, SessionsOk;
    forall t | t in s.ops.threads ensures !Reports(s.ops.threads[t], id) {
      assert OpOk(s.sessions.info, s.ops.threads[t]);
    }
  }

  /** The arrivals seen of the session along a sequence of steps. */
  ghost function Observed(c: Config, s: State, v: D.View, steps: seq<Step>, s': State, id: SessionId): seq<D.Arrival>
    requires Runs(c, s, steps, s')
    decreases |steps|
  {
    if steps == [] then []
    else
      var seen := Seen(c, s, v, steps[0], id);
      seen + Observed(c, Apply(c, s, steps[0]), After(v, seen), steps[1..], s', id)
  }

  /** Along any sequence of steps the view keeps up. */
  lemma {:induction false} StepsSeen(c: Config, s: State, before: seq<D.Arrival>, steps: seq<Step>, s': State,
                                     id: SessionId)
    requires Inv(c, s) && Runs(c, s, steps, s') && Sees(s, id, D.Replay(before))
    ensures Sees(s', id, D.Replay(before + Observed(c, s, D.Replay(before), steps, s', id))) && Inv(c, s')
    decreases |steps|
  {
    hide Inv, Sees, Enabled, Apply, Seen, D.Replay;
    var v := D.Replay(before);
    if steps == [] {
      assert before + [] == before;
    } else {
      var seen := Seen(c, s, v, steps[0], id);
      var s1 := Apply(c, s, steps[0]);
      StepSeen(c, s, v, steps[0], id);
      StepKeeps(c, s, steps[0]);
      SeenIsOne(c, s, v, steps[0], id);
      ReplayAfter(before, seen);
      StepsSeen(c, s1, before + seen, steps[1..], s', id);
      var rest := Observed(c, s1, After(v, seen), steps[1..], s', id);
      assert before + (seen + rest) == before + seen + rest;
    }
  }

  /**
   Whatever happens after a session is created, read off that session, is a sequence of arrivals.
   Replaying it gives the session's phase, its finished flag, whether a worker holds it, whether
   it is in the table, which of its messages are between two segments, and its one exit.
   */
  lemma SessionIsReplayed(c: Config, s: State, id: SessionId, visitor: string, ip: string, steps: seq<Step>, s': State)
    requires Inv(c, s) && Enabled(c, s, DoCreate(id, visitor, ip))
    requires Runs(c, Create(s, id, visitor, ip), steps, s')
    ensures var v := D.Replay(Observed(c, Create(s, id, visitor, ip), D.CREATED, steps, s', id));
            && Sees(s', id, v)
            && var x := s'.sessions.info[id];
            x.stage != Open && x.stage != Emitting ==> x.exits == v.exits == 1
  {
    hide Inv, Sees, Runs;
    var created := Create(s, id, visitor, ip);
    CreateKeeps(c, s, id, visitor, ip);
    NewSeen(c, s, id, visitor, ip);
    StepsSeen(c, created, [], steps, s', id);
    var arrivals := Observed(c, created, D.CREATED, steps, s', id);
    assert [] + arrivals == arrivals;
    D.OneExit(arrivals);
    SeesFinished(s', id, D.Replay(arrivals));
    InvSession(c, s', id);
  }

  lemma SeenIsOne(c: Config, s: State, v: D.View, step: Step, id: SessionId)
    requires Enabled(c, s, step)
    ensures |Seen(c, s, v, step, id)| <= 1
  {
  }

  lemma SeesFinished(s: State, id: SessionId, v: D.View)
    requires Sees(s, id, v)
    ensures Exists(s, id) && v.finished == s.sessions.info[id].finished
  {
  }

  /** At most one arrival is seen of a step. */
  lemma ReplayAfter(before: seq<D.Arrival>, seen: seq<D.Arrival>)
    requires |seen| <= 1
    ensures D.Replay(before + seen) == After(D.Replay(before), seen)
  {
    if seen == [] {
      assert before + seen == before;
    } else {
      var more := before + seen;
      assert more[..|more| - 1] == before && more[|more| - 1] == seen[0];
    }
  }
}

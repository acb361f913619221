/**
 The executor API's shared state, one atomic step per lock segment.

 Every structure of `AppState` sits behind its own lock, so an operation is a
 series of segments and other operations run in between.  A suspended operation
 is kept as an explicit continuation:

 - an activation with the session whose pending flag it cleared (`act`);
 - a completion with the session whose finished flag it set (`stage`, `taken`);
 - the dispatcher in `disp`;
 - every other operation in `ops.threads`.

 `History` and the session fields `exits` and `releases` record what happened: no
 step looks at them to decide what to do.
 */
module ControlPlane {
  import opened Common
  import opened Phases

  type SessionId = nat
  type WorkerId = string
  type ThreadId = nat

  datatype Config = Config(
    sessionCapacity: nat,
    queueCapacity: nat,
    visitorConcurrency: nat,
    ipConcurrency: nat,
    globalConcurrency: nat)

  /** Where `activate_session` stands: its three segments are flag, enqueue, notify. */
  datatype Activation = NotActivated | Enqueueing | Waking | Active

  /** Where the one `complete_session` that set `finished` stands. */
  datatype Stage =
    | Open
    | Emitting                       // flag set; Phase and Exit not yet broadcast
    | ReleaseFlag                    // before `release_limits` looks at the flags
    | ReleaseBook(wasPending: bool)  // flags changed; counters not yet decremented
    | FreeWorker                     // before the worker table is updated
    | Tallying                       // before `completed_total` is bumped
    | Removing                       // before the session leaves the table
    | Signalling                     // before `notify_one`
    | Closed

  datatype Session = Session(
    visitor: string,
    ip: string,
    phase: Phase,
    assignee: Option<WorkerId>,
    ticketConsumed: bool,
    pendingActivation: bool,
    limitsReserved: bool,
    finished: bool,
    limitsReleased: bool,
    act: Activation,
    stage: Stage,
    taken: Option<WorkerId>,   // the completer's local `worker_id`
    exits: nat,                // Exit events broadcast so far
    releases: nat)             // times this session's reservation was given back

  /** The session table and its two metrics; `info` also keeps sessions already removed. */
  datatype Table = Table(
    info: map<SessionId, Session>,
    live: set<SessionId>,
    uncounted: set<SessionId>,  // inserted, `created_total` not yet bumped
    createdTotal: nat,
    completedTotal: nat)

  datatype Limits = Limits(byVisitor: map<string, nat>, byIp: map<string, nat>, pending: nat)

  datatype Worker = Worker(connection: nat, job: Option<SessionId>)

  datatype Payload = PhaseReport(phase: Phase) | ExitReport(reason: ExitReason)

  /** Suspended operations, each named after the segment it runs next. */
  datatype Op =
    | CancelRetain(id: SessionId, phase: Phase)
    | Complete(id: SessionId, phase: Phase, unregistering: bool)
    | CommandRead(id: SessionId)
    | CommandLookup(id: SessionId, worker: WorkerId)
    | Unregister(worker: WorkerId, connection: nat)
    | OrphanLookup(id: SessionId)
    | AwaitClose(id: SessionId)
    | Notifying
    | EventLookup(id: SessionId, payload: Payload)
    | EventApply(id: SessionId, payload: Payload)

  datatype Ops = Ops(threads: map<ThreadId, Op>, nextThread: ThreadId, nextConnection: nat)

  /** Where the single dispatcher task stands. */
  datatype Dispatcher =
    | Polling
    | Popped(id: SessionId)
    | Found(id: SessionId)
    | Requeue(id: SessionId, failed: Option<(WorkerId, nat)>)
    | Unregistering(thread: ThreadId)
    | Parked

  /** Ids in activation order, ids in dispatch order, and who carries a removed worker's job. */
  datatype History = History(
    activated: seq<SessionId>,
    dispatched: seq<SessionId>,
    carriers: map<SessionId, ThreadId>)

  datatype State = State(
    sessions: Table,
    limits: Limits,
    queue: seq<SessionId>,
    workers: map<WorkerId, Worker>,
    permit: bool,               // the permit stored in `dispatch_notify`
    disp: Dispatcher,
    ops: Ops,
    log: History)

  function Init(): State {
    State(Table(map[], {}, {}, 0, 0), Limits(map[], map[], 0), [], map[], false, Polling,
          Ops(map[], 0, 0), History([], [], map[]))
  }

  function NewSession(visitor: string, ip: string): Session {
    Session(visitor, ip, Queued, None, false, false, false, false, false,
            NotActivated, Open, None, 0, 0)
  }

  // ---- what a segment does to the session it locks --------------------------------------

  function Consumed(x: Session): Session {
    x.(ticketConsumed := true, pendingActivation := true, limitsReserved := true)
  }

  function Flagged(x: Session): Session {
    x.(pendingActivation := false, act := Enqueueing)
  }

  /** First segment of `complete_session`. */
  function Finished(x: Session, phase: Phase): Session {
    x.(phase := phase, finished := true, assignee := None, taken := x.assignee, stage := Emitting)
  }

  /** First segment of `release_limits`. */
  function Released(x: Session): Session {
    if x.limitsReleased || !x.limitsReserved then x.(stage := FreeWorker)
    else x.(limitsReleased := true, pendingActivation := false, limitsReserved := false,
            stage := ReleaseBook(x.pendingActivation))
  }

  /** The next segment of a completion. */
  function Advanced(x: Session): Session {
    match x.stage
    case Open => x
    case Emitting => x.(exits := x.exits + 1, stage := ReleaseFlag)
    case ReleaseFlag => Released(x)
    case ReleaseBook(_) => x.(releases := x.releases + 1, stage := FreeWorker)
    case FreeWorker => x.(stage := Tallying)
    case Tallying => x.(stage := Removing)
    case Removing => x.(stage := Signalling)
    case Signalling => x.(stage := Closed)
    case Closed => x
  }

  /** A phase report is dropped once the session is finished or when the automaton forbids it. */
  function Reported(x: Session, phase: Phase): Session {
    if x.finished || !ValidTransition(x.phase, phase) then x else x.(phase := phase)
  }

  // ---- helpers --------------------------------------------------------------------------

  function Put(s: State, id: SessionId, x: Session): State {
    s.(sessions := s.sessions.(info := s.sessions.info[id := x]))
  }

  function Spawn(ops: Ops, op: Op): Ops {
    ops.(threads := ops.threads[ops.nextThread := op], nextThread := ops.nextThread + 1)
  }

  function Go(ops: Ops, t: ThreadId, op: Op): Ops {
    ops.(threads := ops.threads[t := op])
  }

  function End(ops: Ops, t: ThreadId): Ops {
    ops.(threads := ops.threads - {t})
  }

  predicate Exists(s: State, id: SessionId) {
    id in s.sessions.info
  }

  // ---- HTTP side: create, consume, activate ---------------------------------------------

  function Create(s: State, id: SessionId, visitor: string, ip: string): State {
    s.(sessions := s.sessions.(
         info := s.sessions.info[id := NewSession(visitor, ip)],
         live := s.sessions.live + {id},
         uncounted := s.sessions.uncounted + {id}))
  }

  function CountCreated(s: State, id: SessionId): State {
    s.(sessions := s.sessions.(
         uncounted := s.sessions.uncounted - {id},
         createdTotal := s.sessions.createdTotal + 1))
  }

  /** `consume_ticket` runs under the session, queue and limits locks together. */
  predicate CanConsume(c: Config, s: State, id: SessionId)
    requires Exists(s, id)
  {
    var x := s.sessions.info[id];
    && !x.ticketConsumed
    && !x.finished
    && |s.queue| + s.limits.pending < c.queueCapacity
    && Lookup(s.limits.byVisitor, x.visitor) < c.visitorConcurrency
    && Lookup(s.limits.byIp, x.ip) < c.ipConcurrency
  }

  function Reserve(limits: Limits, x: Session): Limits {
    Limits(Increment(limits.byVisitor, x.visitor), Increment(limits.byIp, x.ip), limits.pending + 1)
  }

  function Consume(s: State, id: SessionId): State
    requires Exists(s, id)
  {
    var x := s.sessions.info[id];
    Put(s, id, Consumed(x)).(limits := Reserve(s.limits, x))
  }

  function Enqueue(s: State, id: SessionId): State
    requires Exists(s, id)
  {
    Put(s, id, s.sessions.info[id].(act := Waking)).(
      limits := s.limits.(pending := SatDec(s.limits.pending)),
      queue := s.queue + [id],
      log := s.log.(activated := s.log.activated + [id]))
  }

  // ---- completion -----------------------------------------------------------------------

  /** Second segment of `release_limits`. */
  function Booked(limits: Limits, x: Session, wasPending: bool): Limits {
    Limits(Decrement(limits.byVisitor, x.visitor),
           Decrement(limits.byIp, x.ip),
           if wasPending then SatDec(limits.pending) else limits.pending)
  }

  /** The worker forgets the job only if it still holds it. */
  function Freed(workers: map<WorkerId, Worker>, taken: Option<WorkerId>, id: SessionId): map<WorkerId, Worker> {
    if taken.Some? && taken.value in workers && workers[taken.value].job == Some(id)
    then workers[taken.value := workers[taken.value].(job := None)]
    else workers
  }

  function AdvanceTable(t: Table, id: SessionId): Table
    requires id in t.info
  {
    var x := t.info[id];
    t.(info := t.info[id := Advanced(x)],
       live := if x.stage.Removing? then t.live - {id} else t.live,
       completedTotal := if x.stage.Tallying? then t.completedTotal + 1 else t.completedTotal)
  }

  /** The next segment of the completion of `id`. */
  function Advance(s: State, id: SessionId): State
    requires Exists(s, id)
  {
    var x := s.sessions.info[id];
    s.(sessions := AdvanceTable(s.sessions, id),
       limits := if x.stage.ReleaseBook? then Booked(s.limits, x, x.stage.wasPending) else s.limits,
       workers := if x.stage.FreeWorker? then Freed(s.workers, x.taken, id) else s.workers,
       permit := s.permit || x.stage.Signalling?)
  }

  // ---- operations run by threads --------------------------------------------------------

  /** First segment of `cancel_execution` and `resource_limit_execution`. */
  function StartCancel(s: State, id: SessionId, phase: Phase): State
    requires Exists(s, id)
  {
    var x := s.sessions.info[id];
    if x.finished then s
    else s.(ops := Spawn(s.ops, if x.assignee.None? then CancelRetain(id, phase) else CommandRead(id)))
  }

  function Without(q: seq<SessionId>, id: SessionId): seq<SessionId> {
    if q == [] then []
    else if q[0] == id then Without(q[1..], id)
    else [q[0]] + Without(q[1..], id)
  }

  function RunComplete(s: State, t: ThreadId, id: SessionId, phase: Phase, unregistering: bool): State
    requires Exists(s, id)
  {
    if s.sessions.info[id].finished then
      s.(ops := if unregistering then Go(s.ops, t, Notifying) else End(s.ops, t))
    else
      Put(s, id, Finished(s.sessions.info[id], phase)).(
        ops := if unregistering then Go(s.ops, t, AwaitClose(id)) else End(s.ops, t))
  }

  function RunUnregister(s: State, t: ThreadId, worker: WorkerId, connection: nat): State {
    if worker !in s.workers || s.workers[worker].connection != connection then s.(ops := End(s.ops, t))
    else
      var job := s.workers[worker].job;
      s.(workers := s.workers - {worker},
         ops := Go(s.ops, t, if job.None? then Notifying else OrphanLookup(job.value)),
         log := if job.None? then s.log else s.log.(carriers := s.log.carriers[job.value := t]))
  }

  /** Every session an operation refers to is one it holds a reference to. */
  predicate Known(info: map<SessionId, Session>, op: Op) {
    op.CommandLookup? || op.Unregister? || op.Notifying? || op.id in info
  }

  /** Only an unregister that is waiting for its own completion can be blocked. */
  predicate CanResume(s: State, t: ThreadId) {
    && t in s.ops.threads
    && var op := s.ops.threads[t];
    && Known(s.sessions.info, op)
    && (op.AwaitClose? ==> s.sessions.info[op.id].stage == Closed)
  }

  /** The next segment of thread `t`; `closed` is the outcome of a `try_send`. */
  function Resume(s: State, t: ThreadId, closed: bool): State
    requires CanResume(s, t)
  {
    var ops := s.ops;
    match s.ops.threads[t]
    case CancelRetain(id, phase) =>
      s.(queue := Without(s.queue, id), ops := Go(ops, t, Complete(id, phase, false)))
    case Complete(id, phase, unregistering) => RunComplete(s, t, id, phase, unregistering)
    case CommandRead(id) =>
      var worker := s.sessions.info[id].assignee;
      s.(ops := if worker.None? then End(ops, t) else Go(ops, t, CommandLookup(id, worker.value)))
    case CommandLookup(_, worker) =>
      s.(ops := if worker in s.workers && closed
                then Go(ops, t, Unregister(worker, s.workers[worker].connection)) else End(ops, t))
    case Unregister(worker, connection) => RunUnregister(s, t, worker, connection)
    case OrphanLookup(id) =>
      s.(ops := Go(ops, t, if id in s.sessions.live then Complete(id, Exited, true) else Notifying))
    case AwaitClose(_) => s.(ops := Go(ops, t, Notifying))
    case Notifying => s.(ops := End(ops, t), permit := true)
    case EventLookup(id, payload) =>
      s.(ops := if id in s.sessions.live then Go(ops, t, EventApply(id, payload)) else End(ops, t))
    case EventApply(id, PhaseReport(phase)) =>
      Put(s, id, Reported(s.sessions.info[id], phase)).(ops := End(ops, t))
    case EventApply(id, ExitReport(reason)) =>
      s.(ops := Go(ops, t, Complete(id, PhaseForExit(reason), false)))
  }

  /** `register_worker` under the workers lock; the notification follows. */
  function Register(s: State, worker: WorkerId): State {
    s.(workers := s.workers[worker := Worker(s.ops.nextConnection, None)],
       ops := Spawn(s.ops, Notifying).(nextConnection := s.ops.nextConnection + 1))
  }

  /** `handle_worker_event` accepts an event only from the connection that holds the job. */
  predicate CanReport(s: State, worker: WorkerId, connection: nat, id: SessionId) {
    && worker in s.workers
    && s.workers[worker].connection == connection
    && s.workers[worker].job == Some(id)
    && Exists(s, id)
  }

  // ---- dispatcher -----------------------------------------------------------------------

  function Busy(workers: map<WorkerId, Worker>): set<WorkerId> {
    set w | w in workers && workers[w].job.Some?
  }

  /** No worker can be given a job: all are busy, or the global cap is reached. */
  ghost predicate Blocked(c: Config, workers: map<WorkerId, Worker>) {
    || |Busy(workers)| >= c.globalConcurrency
    || forall w :: w in workers ==> workers[w].job.Some?
  }

  function Assign(s: State, id: SessionId, worker: WorkerId): State
    requires Exists(s, id) && worker in s.workers
  {
    Put(s, id, s.sessions.info[id].(assignee := Some(worker))).(
      workers := s.workers[worker := s.workers[worker].(job := Some(id))],
      disp := Polling,
      log := s.log.(dispatched := s.log.dispatched + [id]))
  }

  /** `pick` is the candidate the table iteration yields, if the caps allow one. */
  ghost predicate CanPick(c: Config, s: State, pick: Option<WorkerId>) {
    if Blocked(c, s.workers) then pick.None?
    else pick.Some? && pick.value in s.workers && s.workers[pick.value].job.None?
  }

  /** The segment that decides about the job in hand; `sent` is the outcome of its `try_send`. */
  function Decide(s: State, id: SessionId, pick: Option<WorkerId>, sent: bool): State
    requires Exists(s, id)
    requires pick.Some? ==> pick.value in s.workers
  {
    if s.sessions.info[id].finished then s.(disp := Polling)
    else if pick.None? then s.(disp := Requeue(id, None))
    else if sent then Assign(s, id, pick.value)
    else s.(disp := Requeue(id, Some((pick.value, s.workers[pick.value].connection))))
  }

  /** The dispatcher's other segments. */
  function Dispatch(s: State): State {
    match s.disp
    case Polling =>
      if s.queue == [] then s.(disp := Parked)
      else s.(disp := Popped(s.queue[0]), queue := s.queue[1..])
    case Popped(id) => s.(disp := if id in s.sessions.live then Found(id) else Polling)
    case Found(_) => s
    case Requeue(id, failed) =>
      if failed.None? then s.(queue := [id] + s.queue, disp := Parked)
      else s.(queue := [id] + s.queue, disp := Unregistering(s.ops.nextThread),
              ops := Spawn(s.ops, Unregister(failed.value.0, failed.value.1)))
    case Unregistering(_) => s.(disp := Polling)
    case Parked => s.(disp := Polling, permit := false)
  }

  /** A parked dispatcher needs a permit; one that called `unregister_worker` waits for it. */
  predicate CanDispatch(s: State) {
    match s.disp
    case Found(_) => false
    case Unregistering(t) => t !in s.ops.threads
    case Parked => s.permit
    case _ => true
  }

  // ---- the step relation ----------------------------------------------------------------

  datatype Step =
    | DoCreate(id: SessionId, visitor: string, ip: string)
    | DoCount(id: SessionId)
    | DoConsume(id: SessionId)
    | DoActivate(id: SessionId)
    | DoEnqueue(id: SessionId)
    | DoWake(id: SessionId)
    | DoAdvance(id: SessionId)
    | DoCancel(id: SessionId, phase: Phase)
    | DoUnregister(worker: WorkerId, connection: nat)
    | DoRegister(worker: WorkerId)
    | DoReport(worker: WorkerId, connection: nat, id: SessionId, payload: Payload)
    | DoResume(thread: ThreadId, closed: bool)
    | DoDispatch
    | DoDecide(pick: Option<WorkerId>, sent: bool)

  ghost predicate Enabled(c: Config, s: State, step: Step) {
    match step
    case DoCreate(id, _, _) => !Exists(s, id) && |s.sessions.live| < c.sessionCapacity
    case DoCount(id) => id in s.sessions.uncounted
    case DoConsume(id) => Exists(s, id) && CanConsume(c, s, id)
    case DoActivate(id) =>
      && Exists(s, id)
      && var x := s.sessions.info[id];
      && x.ticketConsumed && x.pendingActivation && !x.finished
    case DoEnqueue(id) => Exists(s, id) && s.sessions.info[id].act == Enqueueing
    case DoWake(id) => Exists(s, id) && s.sessions.info[id].act == Waking
    case DoAdvance(id) => Exists(s, id) && s.sessions.info[id].stage != Open && s.sessions.info[id].stage != Closed
    case DoCancel(id, phase) => Exists(s, id) && (phase == Cancelled || phase == ResourceLimited)
    case DoUnregister(_, _) => true
    case DoRegister(worker) => worker !in s.workers
    case DoReport(worker, connection, id, _) => CanReport(s, worker, connection, id)
    case DoResume(t, _) => CanResume(s, t)
    case DoDispatch => CanDispatch(s)
    case DoDecide(pick, _) => s.disp.Found? && Exists(s, s.disp.id) && CanPick(c, s, pick)
  }

  ghost function Apply(c: Config, s: State, step: Step): State
    requires Enabled(c, s, step)
  {
    match step
    case DoCreate(id, visitor, ip) => Create(s, id, visitor, ip)
    case DoCount(id) => CountCreated(s, id)
    case DoConsume(id) => Consume(s, id)
    case DoActivate(id) => Put(s, id, Flagged(s.sessions.info[id]))
    case DoEnqueue(id) => Enqueue(s, id)
    case DoWake(id) => Put(s, id, s.sessions.info[id].(act := Active)).(permit := true)
    case DoAdvance(id) => Advance(s, id)
    case DoCancel(id, phase) => StartCancel(s, id, phase)
    case DoUnregister(worker, connection) => s.(ops := Spawn(s.ops, Unregister(worker, connection)))
    case DoRegister(worker) => Register(s, worker)
    case DoReport(_, _, id, payload) => s.(ops := Spawn(s.ops, EventLookup(id, payload)))
    case DoResume(t, closed) => Resume(s, t, closed)
    case DoDispatch => Dispatch(s)
    case DoDecide(pick, sent) => Decide(s, s.disp.id, pick, sent)
  }

  ghost predicate Next(c: Config, s: State, s': State) {
    exists step :: Enabled(c, s, step) && s' == Apply(c, s, step)
  }

  /** A run from the empty state: each state follows from the one before by one step. */
  ghost predicate IsRun(c: Config, run: seq<State>) {
    && |run| > 0
    && run[0] == Init()
    && forall i :: 0 <= i < |run| - 1 ==> Next(c, run[i], run[i + 1])
  }
}

/**
 Assignment integrity: jobs, workers and the unregisters that carry orphaned jobs.
 */
module Assignment {
  import opened Common
  import opened ControlPlane
  import opened Sessions

  /** The completion has not yet updated the worker table. */
  predicate BeforeFree(stage: Stage) {
    BeforeRelease(stage) || stage.ReleaseBook? || stage == FreeWorker
  }

  /** The session knows that `w` runs it: as assignee, or in the hands of its completion. */
  predicate RunsOn(x: Session, w: WorkerId) {
    if x.finished then x.taken == Some(w) && BeforeFree(x.stage) else x.assignee == Some(w)
  }

  /** The operation is an unregister that will complete `id`. */
  predicate Carries(op: Op, id: SessionId) {
    op == OrphanLookup(id) || (op.Complete? && op.id == id && op.unregistering)
  }

  predicate Carried(threads: map<ThreadId, Op>, carriers: map<SessionId, ThreadId>, id: SessionId) {
    id in carriers && carriers[id] in threads && Carries(threads[carriers[id]], id)
  }

  /** Every job a worker holds was dispatched to it and is still tied to it. */
  ghost predicate JobsOk(info: map<SessionId, Session>, workers: map<WorkerId, Worker>, dispatched: seq<SessionId>) {
    forall w :: w in workers && workers[w].job.Some? ==>
      var id := workers[w].job.value;
      id in dispatched && id in info && RunsOn(info[id], w)
  }

  /** Every assignee holds the job, or an unregister in flight carries it. */
  ghost predicate AssigneesOk(info: map<SessionId, Session>, workers: map<WorkerId, Worker>,
                              threads: map<ThreadId, Op>, log: History) {
    forall id :: id in info && info[id].assignee.Some? ==>
      && id in log.dispatched
      && var w := info[id].assignee.value;
      (w in workers && workers[w].job == Some(id)) || Carried(threads, log.carriers, id)
  }

  predicate BusyOk(c: Config, workers: map<WorkerId, Worker>) {
    |Busy(workers)| <= c.globalConcurrency
  }

  ghost predicate AssignmentOk(c: Config, info: map<SessionId, Session>, workers: map<WorkerId, Worker>,
                               threads: map<ThreadId, Op>, log: History) {
    && JobsOk(info, workers, log.dispatched)
    && AssigneesOk(info, workers, threads, log)
    && BusyOk(c, workers)
  }

  /** A session change that leaves assignee, finished flag and taken worker alone. */
  lemma AssignmentUntouched(c: Config, info: map<SessionId, Session>, workers: map<WorkerId, Worker>,
                            threads: map<ThreadId, Op>, log: History, id: SessionId, y: Session)
    requires AssignmentOk(c, info, workers, threads, log)
    requires id in info ==> y.assignee == info[id].assignee && (forall w :: RunsOn(info[id], w) ==> RunsOn(y, w))
    requires id !in info ==> y.assignee.None?
    ensures AssignmentOk(c, info[id := y], workers, threads, log)
  {
  }

  /** A longer activation log changes nothing here. */
  lemma ActivatedIrrelevant(c: Config, info: map<SessionId, Session>, workers: map<WorkerId, Worker>,
                            threads: map<ThreadId, Op>, log: History, activated: seq<SessionId>)
    requires AssignmentOk(c, info, workers, threads, log)
    ensures AssignmentOk(c, info, workers, threads, log.(activated := activated))
  {
  }

  /** Thread `t` moves on; it may drop a carried job only when the session has no assignee left. */
  lemma ThreadMoves(c: Config, info: map<SessionId, Session>, workers: map<WorkerId, Worker>,
                    threads: map<ThreadId, Op>, log: History, t: ThreadId, threads': map<ThreadId, Op>)
    requires AssignmentOk(c, info, workers, threads, log)
    requires forall u :: u in threads && u != t ==> u in threads' && threads'[u] == threads[u]
    requires forall id :: (t in threads && Carries(threads[t], id) && id in info && info[id].assignee.Some?) ==>
                            t in threads' && Carries(threads'[t], id)
    ensures AssignmentOk(c, info, workers, threads', log)
  {
    forall id | id in info && info[id].assignee.Some? && Carried(threads, log.carriers, id)
      ensures Carried(threads', log.carriers, id)
    {
    }
  }

  lemma FinishKeepsAssignment(c: Config, info: map<SessionId, Session>, workers: map<WorkerId, Worker>,
                              threads: map<ThreadId, Op>, log: History, id: SessionId, y: Session)
    requires AssignmentOk(c, info, workers, threads, log)
    requires id in info && !info[id].finished
    requires y.finished && y.assignee.None? && y.taken == info[id].assignee && y.stage == Emitting
    ensures AssignmentOk(c, info[id := y], workers, threads, log)
  {
  }

  lemma FreedBusy(workers: map<WorkerId, Worker>, taken: Option<WorkerId>, id: SessionId)
    ensures |Busy(Freed(workers, taken, id))| <= |Busy(workers)|
  {
    assert Busy(Freed(workers, taken, id)) <= Busy(workers);
    SubsetSize(Busy(Freed(workers, taken, id)), Busy(workers));
  }

  lemma {:induction false} SubsetSize<T>(a: set<T>, b: set<T>)
    requires a <= b
    ensures |a| <= |b|
    decreases b
  {
    if a != {} {
      var x :| x in a;
      SubsetSize(a - {x}, b - {x});
    }
  }

  lemma FreeKeepsAssignment(c: Config, info: map<SessionId, Session>, workers: map<WorkerId, Worker>,
                            threads: map<ThreadId, Op>, log: History, id: SessionId, y: Session)
    requires AssignmentOk(c, info, workers, threads, log)
    requires id in info && SessionOk(info[id]) && info[id].stage == FreeWorker
    requires y.assignee.None?
    ensures AssignmentOk(c, info[id := y], Freed(workers, info[id].taken, id), threads, log)
  {
    var workers' := Freed(workers, info[id].taken, id);
    FreedBusy(workers, info[id].taken, id);
    forall w | w in workers' && workers'[w].job.Some?
      ensures workers'[w] == workers[w] && workers'[w].job != Some(id)
    {
      assert w in workers && workers[w].job.Some?;
    }
  }

  /** Removing a worker hands its job, if any, to the unregister that removed it. */
  lemma UnregisterKeepsAssignment(c: Config, s: State, t: ThreadId, worker: WorkerId, connection: nat)
    requires AssignmentOk(c, s.sessions.info, s.workers, s.ops.threads, s.log)
    requires t in s.ops.threads && s.ops.threads[t] == Unregister(worker, connection)
    ensures var s' := RunUnregister(s, t, worker, connection);
            AssignmentOk(c, s.sessions.info, s'.workers, s'.ops.threads, s'.log)
  {
    var s' := RunUnregister(s, t, worker, connection);
    assert Busy(s'.workers) <= Busy(s.workers);
    SubsetSize(Busy(s'.workers), Busy(s.workers));
    var info := s.sessions.info;
    forall id | id in info && info[id].assignee.Some?
      ensures var w := info[id].assignee.value;
              (w in s'.workers && s'.workers[w].job == Some(id)) || Carried(s'.ops.threads, s'.log.carriers, id)
    {
    }
  }

  lemma RegisterKeepsAssignment(c: Config, info: map<SessionId, Session>, workers: map<WorkerId, Worker>,
                                threads: map<ThreadId, Op>, log: History, w: WorkerId, connection: nat)
    requires AssignmentOk(c, info, workers, threads, log) && w !in workers
    ensures AssignmentOk(c, info, workers[w := Worker(connection, None)], threads, log)
  {
    assert Busy(workers[w := Worker(connection, None)]) == Busy(workers);
  }

  /** A job that was never dispatched goes to an idle worker below the cap. */
  lemma AssignKeepsAssignment(c: Config, s: State, id: SessionId, w: WorkerId)
    requires AssignmentOk(c, s.sessions.info, s.workers, s.ops.threads, s.log)
    requires Exists(s, id) && !s.sessions.info[id].finished && id !in s.log.dispatched
    requires w in s.workers && s.workers[w].job.None? && |Busy(s.workers)| < c.globalConcurrency
    ensures var s' := Assign(s, id, w);
            AssignmentOk(c, s'.sessions.info, s'.workers, s'.ops.threads, s'.log)
  {
    var s' := Assign(s, id, w);
    assert Busy(s'.workers) == Busy(s.workers) + {w};
    var info := s.sessions.info;
    forall v | v in s'.workers && s'.workers[v].job.Some? && v != w
      ensures s'.workers[v].job != Some(id)
    {
      assert s.workers[v].job.Some?;
    }
  }
}

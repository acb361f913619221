/**
 The operations of `AppState` run without interference, in their own imperative form.

 Each method is proved to be a path of the interleaved step relation, so whatever holds
 of all runs holds of it, and is given its own result on top of that.
 */
module AppState {
  import opened Common
  import opened ControlPlane
  import opened Line
  import opened Invariant
  import opened Safety

  ghost predicate IsPath(c: Config, path: seq<State>, s: State, s': State) {
    && |path| > 0 && path[0] == s && path[|path| - 1] == s'
    && forall i :: 0 <= i < |path| - 1 ==> Next(c, path[i], path[i + 1])
  }

  /** `s'` follows from `s` by zero or more steps. */
  ghost predicate Leads(c: Config, s: State, s': State) {
    exists path :: IsPath(c, path, s, s')
  }

  lemma LeadsNowhere(c: Config, s: State)
    ensures Leads(c, s, s)
  {
    assert IsPath(c, [s], s, s);
  }

  lemma LeadsOn(c: Config, s: State, m: State, step: Step)
    requires Leads(c, s, m) && Enabled(c, m, step)
    ensures Leads(c, s, Apply(c, m, step))
  {
    hide Enabled, Apply;
    var path :| IsPath(c, path, s, m);
    var s' := Apply(c, m, step);
    assert Next(c, m, s');
    assert IsPath(c, path + [s'], s, s');
  }

  lemma LeadsFar(c: Config, s: State, m: State, s': State)
    requires Leads(c, s, m) && Leads(c, m, s')
    ensures Leads(c, s, s')
  {
    hide Next;
    var p :| IsPath(c, p, s, m);
    var q :| IsPath(c, q, m, s');
    var path := p + q[1..];
    assert IsPath(c, path, s, s') by {
      forall i | 0 <= i < |path| - 1 ensures Next(c, path[i], path[i + 1]) {
        if i < |p| - 1 {
          assert Next(c, p[i], p[i + 1]);
        } else {
          assert path[i] == q[i - |p| + 1];
          assert Next(c, q[i - |p| + 1], q[i - |p| + 1 + 1]);
        }
      }
    }
  }

  lemma {:induction false} PathKeeps(c: Config, path: seq<State>, s: State, s': State)
    requires IsPath(c, path, s, s') && Inv(c, s)
    ensures Inv(c, s')
    decreases |path|
  {
    hide Inv, Next;
    if |path| > 1 {
      var front := path[..|path| - 1];
      assert IsPath(c, front, s, front[|front| - 1]) by {
        forall i | 0 <= i < |front| - 1 ensures Next(c, front[i], front[i + 1]) {
          assert Next(c, path[i], path[i + 1]);
        }
      }
      PathKeeps(c, front, s, front[|front| - 1]);
      assert Next(c, path[|path| - 2], path[|path| - 2 + 1]);
      NextKeeps(c, front[|front| - 1], s');
    }
  }

  /** Whatever the steps along a path, the invariant survives. */
  lemma LeadsKeeps(c: Config, s: State, s': State)
    requires Leads(c, s, s') && Inv(c, s)
    ensures Inv(c, s')
  {
    hide Inv, Next;
    var path :| IsPath(c, path, s, s');
    PathKeeps(c, path, s, s');
  }

  /** An unregister of an idle worker that nobody interrupts. */
  lemma UnregisterIdle(c: Config, s: State, t: ThreadId, worker: WorkerId, connection: nat)
    requires t in s.ops.threads && s.ops.threads[t] == Unregister(worker, connection)
    requires worker in s.workers && s.workers[worker] == Worker(connection, None)
    ensures Leads(c, s, s.(workers := s.workers - {worker}, ops := End(s.ops, t), permit := true))
  {
    hide Leads;
    LeadsNowhere(c, s);
    var s1 := s.(workers := s.workers - {worker}, ops := Go(s.ops, t, Notifying));
    assert Apply(c, s, DoResume(t, false)) == s1;
    LeadsOn(c, s, s, DoResume(t, false));
    assert End(s1.ops, t) == End(s.ops, t);
    assert Apply(c, s1, DoResume(t, false)) == s1.(ops := End(s.ops, t), permit := true);
    LeadsOn(c, s, s1, DoResume(t, false));
  }

  /** The dispatcher puts the job back and unregisters the worker whose channel failed. */
  lemma PutBackPath(c: Config, s: State)
    requires s.disp.Requeue? && s.disp.failed.Some? && ThreadsOk(s.sessions.info, s.ops)
    requires var (worker, connection) := s.disp.failed.value;
             worker in s.workers && s.workers[worker] == Worker(connection, None)
    ensures Leads(c, s, s.(queue := [s.disp.id] + s.queue, workers := s.workers - {s.disp.failed.value.0},
                           permit := true, disp := Polling, ops := s.ops.(nextThread := s.ops.nextThread + 1)))
  {
    hide Leads, ThreadsOk;
    var (worker, connection) := s.disp.failed.value;
    var t := s.ops.nextThread;
    LeadsNowhere(c, s);
    LeadsOn(c, s, s, DoDispatch);
    var s1 := Dispatch(s);
    UnregisterIdle(c, s1, t, worker, connection);
    assert End(s1.ops, t) == s.ops.(nextThread := t + 1) by { FreshThread(s); }
    var s2 := s1.(workers := s.workers - {worker}, ops := End(s1.ops, t), permit := true);
    LeadsFar(c, s, s1, s2);
    LeadsOn(c, s, s2, DoDispatch);
  }

  lemma FreshThread(s: State)
    requires ThreadsOk(s.sessions.info, s.ops)
    ensures forall op :: Spawn(s.ops, op).threads - {s.ops.nextThread} == s.ops.threads
  {
    assert s.ops.nextThread !in s.ops.threads;
  }

  lemma FoundExists(c: Config, s: State)
    requires Inv(c, s) && s.disp.Found?
    ensures Exists(s, s.disp.id)
  {
    HandIsNew(s.sessions.info, s.log, s.disp, s.queue);
  }

  lemma InvThreads(c: Config, s: State)
    requires Inv(c, s)
    ensures ThreadsOk(s.sessions.info, s.ops)
  {
  }

  lemma AssignSize(s: State, id: SessionId, worker: WorkerId)
    requires Exists(s, id) && worker in s.workers
    ensures |Assign(s, id, worker).workers| == |s.workers| && Assign(s, id, worker).queue == s.queue
  {
    assert Assign(s, id, worker).workers.Keys == s.workers.Keys;
  }

  /** The answers of `consume_ticket`. */
  datatype TicketAnswer =
    | Accepted | InvalidTicket | AlreadyUsed | AlreadyFinished | QueueFull | VisitorLimit | IpLimit

  class AppState {
    const config: Config
    var sessions: Table
    var limits: Limits
    var queue: seq<SessionId>
    var workers: map<WorkerId, Worker>
    var permit: bool
    ghost var disp: Dispatcher
    ghost var ops: Ops
    ghost var log: History

    ghost function View(): State
      reads this
    {
      State(sessions, limits, queue, workers, permit, disp, ops, log)
    }

    constructor (config: Config)
      ensures this.config == config && View() == Init() && Inv(config, View())
    {
      this.config := config;
      sessions, limits := Table(map[], {}, {}, 0, 0), Limits(map[], map[], 0);
      queue, workers, permit := [], map[], false;
      disp, ops, log := Polling, Ops(map[], 0, 0), History([], [], map[]);
      new;
      InitInv(config);
    }

    /** A ticket is accepted once, for an unfinished session, within all three caps. */
    method ConsumeTicket(id: SessionId, verified: bool) returns (answer: TicketAnswer)
      requires Exists(View(), id)
      modifies this`sessions, this`limits
      ensures answer == Accepted <==> verified && CanConsume(config, old(View()), id)
      ensures View() == if answer == Accepted then Consume(old(View()), id) else old(View())
      ensures Leads(config, old(View()), View())
      ensures answer == InvalidTicket <==> !verified
      ensures answer == AlreadyUsed <==> verified && old(sessions).info[id].ticketConsumed
      ensures answer == AlreadyFinished <==>
              verified && !old(sessions).info[id].ticketConsumed && old(sessions).info[id].finished
      ensures answer == QueueFull ==> |queue| + limits.pending >= config.queueCapacity
      ensures answer == VisitorLimit ==>
                && |queue| + limits.pending < config.queueCapacity
                && Lookup(limits.byVisitor, sessions.info[id].visitor) >= config.visitorConcurrency
      ensures answer == IpLimit ==>
                && |queue| + limits.pending < config.queueCapacity
                && Lookup(limits.byVisitor, sessions.info[id].visitor) < config.visitorConcurrency
                && Lookup(limits.byIp, sessions.info[id].ip) >= config.ipConcurrency
    {
      ghost var s0 := View();
      LeadsNowhere(config, s0);
      var x := sessions.info[id];
      if !verified { return InvalidTicket; }
      if x.ticketConsumed { return AlreadyUsed; }
      if x.finished { return AlreadyFinished; }
      if |queue| + limits.pending >= config.queueCapacity { return QueueFull; }
      if Lookup(limits.byVisitor, x.visitor) >= config.visitorConcurrency { return VisitorLimit; }
      if Lookup(limits.byIp, x.ip) >= config.ipConcurrency { return IpLimit; }
      limits := limits.(byVisitor := Increment(limits.byVisitor, x.visitor));
      limits := limits.(byIp := Increment(limits.byIp, x.ip));
      limits := limits.(pending := limits.pending + 1);
      sessions := sessions.(info := sessions.info[id := Consumed(x)]);
      LeadsOn(config, s0, s0, DoConsume(id));
      answer := Accepted;
    }

    /** The candidate of `try_dispatch_one`: none at the cap, otherwise any idle worker. */
    method PickWorker() returns (pick: Option<WorkerId>)
      ensures CanPick(config, View(), pick)
      ensures pick.None? <==> Blocked(config, workers)
    {
      var running := |Busy(workers)|;
      if running >= config.globalConcurrency {
        return None;
      }
      var idle := set w | w in workers && workers[w].job.None?;
      if idle == {} {
        assert forall w :: w in workers ==> workers[w].job.Some? by {
          forall w | w in workers ensures workers[w].job.Some? {
            assert w !in idle;
          }
        }
        return None;
      }
      var w :| w in idle;
      pick := Some(w);
    }

    /** Put the job in hand back; a worker whose channel failed is unregistered and forgotten. */
    method PutBack(id: SessionId, failed: Option<(WorkerId, nat)>)
      requires disp == Requeue(id, failed)
      requires ThreadsOk(sessions.info, ops)
      requires failed.Some? ==> failed.value.0 in workers && workers[failed.value.0] == Worker(failed.value.1, None)
      modifies this`queue, this`workers, this`permit, this`disp, this`ops
      ensures Leads(config, old(View()), View())
      ensures queue == [id] + old(queue)
      ensures failed.None? ==> disp == Parked && workers == old(workers) && permit == old(permit)
      ensures failed.Some? ==> disp == Polling && workers == old(workers) - {failed.value.0} && permit
    {
      ghost var s0 := View();
      queue := [id] + queue;
      if failed.None? {
        disp := Parked;
        LeadsNowhere(config, s0);
        LeadsOn(config, s0, s0, DoDispatch);
      } else {
        workers := workers - {failed.value.0};
        permit, disp, ops := true, Polling, ops.(nextThread := ops.nextThread + 1);
        PutBackPath(config, s0);
      }
    }

    /** Pop the queue; the job in hand must be a live session to be considered. */
    method PopLive() returns (job: Option<SessionId>)
      requires disp == Polling && queue != []
      modifies this`queue, this`disp
      ensures Leads(config, old(View()), View())
      ensures queue == old(queue)[1..]
      ensures job == if old(queue)[0] in sessions.live then Some(old(queue)[0]) else None
      ensures disp == if job.Some? then Found(job.value) else Polling
    {
      ghost var s0 := View();
      var id := queue[0];
      queue := queue[1..];
      disp := Popped(id);
      LeadsNowhere(config, s0);
      LeadsOn(config, s0, s0, DoDispatch);
      ghost var s1 := View();
      if id in sessions.live {
        job, disp := Some(id), Found(id);
      } else {
        job, disp := None, Polling;
      }
      LeadsOn(config, s0, s1, DoDispatch);
    }

    /** Give the job in hand to the picked worker, or keep it in hand to be put back. */
    method Offer(id: SessionId, pick: Option<WorkerId>) returns (given: bool, failed: Option<(WorkerId, nat)>)
      requires disp == Found(id) && Exists(View(), id) && CanPick(config, View(), pick)
      requires !sessions.info[id].finished
      modifies this`sessions, this`workers, this`disp, this`log
      ensures Leads(config, old(View()), View())
      ensures disp == if given then Polling else Requeue(id, failed)
      ensures given ==> pick.Some? && View() == Assign(old(View()), id, pick.value)
      ensures !given ==>
                && workers == old(workers) && sessions == old(sessions) && (failed.Some? <==> pick.Some?)
                && (failed.Some? ==>
                      failed.value.0 in workers && workers[failed.value.0] == Worker(failed.value.1, None))
    {
      ghost var s0 := View();
      LeadsNowhere(config, s0);
      given, failed := false, None;
      var sent: bool := *;
      if pick.None? {
        disp := Requeue(id, None);
      } else if sent {
        var worker := pick.value;
        workers := workers[worker := workers[worker].(job := Some(id))];
        sessions := sessions.(info := sessions.info[id := sessions.info[id].(assignee := Some(worker))]);
        disp, log := Polling, log.(dispatched := log.dispatched + [id]);
        given := true;
      } else {
        failed := Some((pick.value, workers[pick.value].connection));
        disp := Requeue(id, failed);
      }
      LeadsOn(config, s0, s0, DoDecide(pick, sent));
    }

    /** The job in hand is dropped when its session is finished. */
    method DropFinished(id: SessionId, pick: Option<WorkerId>)
      requires disp == Found(id) && Exists(View(), id) && CanPick(config, View(), pick)
      requires sessions.info[id].finished
      modifies this`disp
      ensures Leads(config, old(View()), View()) && disp == Polling
    {
      ghost var s0 := View();
      LeadsNowhere(config, s0);
      disp := Polling;
      LeadsOn(config, s0, s0, DoDecide(pick, false));
    }

    /** One round of the dispatcher: a true result means the backlog or the worker table shrank. */
    method TryDispatchOne() returns (again: bool)
      requires Inv(config, View()) && disp == Polling
      modifies this`queue, this`sessions, this`workers, this`permit, this`disp, this`ops, this`log
      ensures Inv(config, View()) && Leads(config, old(View()), View())
      ensures again ==> disp == Polling && |queue| + |workers| < old(|queue| + |workers|)
      ensures !again ==>
                && disp == Parked && queue == old(queue) && workers == old(workers)
                && (queue == [] || Blocked(config, workers))
    {
      hide Inv, Leads;
      ghost var s0 := View();
      LeadsNowhere(config, s0);
      if queue == [] {
        disp := Parked;
        LeadsOn(config, s0, s0, DoDispatch);
        LeadsKeeps(config, s0, View());
        return false;
      }
      var job := PopLive();
      LeadsKeeps(config, s0, View());
      if job.None? {
        return true;
      }
      var id := job.value;
      ghost var s1 := View();
      FoundExists(config, s1);
      var pick := PickWorker();
      if sessions.info[id].finished {
        DropFinished(id, pick);
        LeadsFar(config, s0, s1, View());
        LeadsKeeps(config, s0, View());
        return true;
      }
      var given, failed := Offer(id, pick);
      ghost var s2 := View();
      LeadsFar(config, s0, s1, s2);
      LeadsKeeps(config, s0, s2);
      if given {
        AssignSize(s1, id, pick.value);
        return true;
      }
      InvThreads(config, s2);
      PutBack(id, failed);
      LeadsFar(config, s0, s2, View());
      LeadsKeeps(config, s0, View());
      again := failed.Some?;
    }

    /** `while try_dispatch_one()`: it ends, and only when nothing can be dispatched. */
    method Drain()
      requires Inv(config, View()) && disp == Polling
      modifies this`queue, this`sessions, this`workers, this`permit, this`disp, this`ops, this`log
      ensures Inv(config, View()) && Leads(config, old(View()), View())
      ensures disp == Parked && (queue == [] || Blocked(config, workers))
    {
      hide Inv, Leads;
      LeadsNowhere(config, View());
      var again := true;
      while again
        invariant Inv(config, View()) && Leads(config, old(View()), View())
        invariant again ==> disp == Polling
        invariant !again ==> disp == Parked && (queue == [] || Blocked(config, workers))
        decreases |queue| + |workers| + if again then 1 else 0
      {
        ghost var s := View();
        again := TryDispatchOne();
        LeadsFar(config, old(View()), s, View());
      }
    }
  }
}

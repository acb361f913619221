/** What each operation does to a session when nothing comes between its segments. */
module Alone {
  import opened Common
  import opened Phases
  import opened ControlPlane
  import opened Sessions
  import opened Ledger
  import opened Line
  import opened Assignment
  import opened Wakeup
  import opened Invariant
  import opened Progress

  /** Every session but `id` is as it was. */
  ghost predicate OthersKept(s: State, s': State, id: SessionId) {
    && s'.sessions.info.Keys == s.sessions.info.Keys
    && forall i :: i in s.sessions.info && i != id ==> s'.sessions.info[i] == s.sessions.info[i]
  }

  /** The session has ended in this phase, once, and its completion is about to tell its clients. */
  ghost predicate EndsIn(s: State, s': State, id: SessionId, phase: Phase) {
    && Exists(s, id) && OthersKept(s, s', id)
    && var x := s'.sessions.info[id];
    && x.finished && x.phase == phase && x.stage == Emitting && x.assignee.None?
    && x.taken == s.sessions.info[id].assignee
    && s'.limits == s.limits && s'.sessions.live == s.sessions.live
  }

  lemma RunsOn(c: Config, s: State, a: Step, b: Step, s1: State, rest: seq<Step>, s': State)
    requires Enabled(c, s, a) && Enabled(c, Apply(c, s, a), b) && s1 == Apply(c, Apply(c, s, a), b)
    requires Runs(c, s1, rest, s')
    ensures Runs(c, s, [a, b] + rest, s')
  {
    hide Enabled, Apply;
    RunsOnce(c, Apply(c, s, a), b, rest, s');
    RunsOnce(c, s, a, [b] + rest, s');
    assert [a] + ([b] + rest) == [a, b] + rest;
  }

  lemma AsResume(c: Config, s: State, t: ThreadId, closed: bool)
    requires CanResume(s, t)
    ensures Enabled(c, s, DoResume(t, closed)) && Apply(c, s, DoResume(t, closed)) == Resume(s, t, closed)
  {
  }

  lemma AsStart(c: Config, s: State, step: Step)
    ensures step.DoCancel? && Exists(s, step.id) && step.phase in {Cancelled, ResourceLimited} ==>
              Enabled(c, s, step) && Apply(c, s, step) == StartCancel(s, step.id, step.phase)
    ensures step.DoUnregister? ==>
              Enabled(c, s, step)
              && Apply(c, s, step) == s.(ops := Spawn(s.ops, Unregister(step.worker, step.connection)))
    ensures step.DoReport? && CanReport(s, step.worker, step.connection, step.id) ==>
              Enabled(c, s, step) && Apply(c, s, step) == s.(ops := Spawn(s.ops, EventLookup(step.id, step.payload)))
  {
  }

  /** A completion that finds its session unfinished. */
  lemma CompletionEnds(c: Config, s: State, t: ThreadId, id: SessionId, phase: Phase)
    requires t in s.ops.threads && s.ops.threads[t] == Complete(id, phase, false) && Exists(s, id)
    requires !s.sessions.info[id].finished
    ensures Enabled(c, s, DoResume(t, false))
    ensures var s' := Apply(c, s, DoResume(t, false));
            && EndsIn(s, s', id, phase) && s'.queue == s.queue && s'.workers == s.workers
            && s'.ops.threads == s.ops.threads - {t}
  {
  }

  /** A cancellation takes a job no worker has out of the queue and ends its session in the phase it asks for. */
  lemma CancelEnds(c: Config, s: State, id: SessionId, phase: Phase) returns (steps: seq<Step>, s': State)
    requires Inv(c, s) && Exists(s, id) && phase in {Cancelled, ResourceLimited}
    requires !s.sessions.info[id].finished && s.sessions.info[id].assignee.None?
    ensures steps == [DoCancel(id, phase), DoResume(s.ops.nextThread, false), DoResume(s.ops.nextThread, false)]
    ensures Runs(c, s, steps, s') && EndsIn(s, s', id, phase)
    ensures id !in s'.queue && s'.queue == Without(s.queue, id) && s'.workers == s.workers
    ensures s'.ops.threads == s.ops.threads
  {
    hide Inv, EndsIn, OthersKept, Enabled, Apply;
    var t := s.ops.nextThread;
    var a, b := DoCancel(id, phase), DoResume(t, false);
    AsStart(c, s, a);
    assert t !in s.ops.threads by { Unused(c, s); }
    var s1 := Apply(c, s, a);
    assert s1.ops.threads[t] == CancelRetain(id, phase);
    AsResume(c, s1, t, false);
    var s2 := Apply(c, s1, b);
    assert s2 == s.(queue := Without(s.queue, id), ops := s2.ops);
    assert s2.ops.threads[t] == Complete(id, phase, false);
    CompletionEnds(c, s2, t, id, phase);
    s' := Apply(c, s2, b);
    assert s'.ops.threads == s.ops.threads;
    Removes(s.queue, id);
    assert EndsIn(s, s', id, phase) by { EndsFrom(s, s2, s', id, phase); }
    Finally(c, s2, b, s');
    RunsOn(c, s, a, b, s2, [b], s');
    steps := [a, b, b];
    assert [a, b] + [b] == steps;
  }

  /** Only operations and queue differ. */
  predicate SameTables(s: State, s': State) {
    s'.sessions == s.sessions && s'.limits == s.limits && s'.workers == s.workers
  }

  /** An event of the worker that holds the job gets as far as its handler. */
  lemma EventArrives(c: Config, s: State, w: WorkerId, k: nat, id: SessionId, payload: Payload) returns (s2: State)
    requires Inv(c, s) && CanReport(s, w, k, id) && id in s.sessions.live
    ensures var t := s.ops.nextThread;
            && t !in s.ops.threads && s2.ops.threads == s.ops.threads[t := EventApply(id, payload)]
            && Exists(s, id) && SameTables(s, s2) && s2.queue == s.queue
            && Enabled(c, s, DoReport(w, k, id, payload))
            && var s1 := Apply(c, s, DoReport(w, k, id, payload));
            Enabled(c, s1, DoResume(t, false)) && s2 == Apply(c, s1, DoResume(t, false))
  {
    hide Inv, Enabled, Apply;
    var t := s.ops.nextThread;
    assert t !in s.ops.threads by { Unused(c, s); }
    AsStart(c, s, DoReport(w, k, id, payload));
    var s1 := Apply(c, s, DoReport(w, k, id, payload));
    assert s1.ops.threads[t] == EventLookup(id, payload);
    AsResume(c, s1, t, false);
    s2 := Apply(c, s1, DoResume(t, false));
  }

  /** An exit the worker reports ends the session in the phase that stands for its reason. */
  lemma ExitEnds(c: Config, s: State, w: WorkerId, k: nat, id: SessionId, reason: ExitReason, phase: Phase)
    returns (steps: seq<Step>, s': State)
    requires Inv(c, s) && CanReport(s, w, k, id) && id in s.sessions.live && !s.sessions.info[id].finished
    requires StandsFor(phase, reason)
    ensures var next := DoResume(s.ops.nextThread, false);
            steps == [DoReport(w, k, id, ExitReport(reason)), next, next, next]
    ensures Runs(c, s, steps, s') && EndsIn(s, s', id, phase)
    ensures s'.queue == s.queue && s'.workers == s.workers && s'.ops.threads == s.ops.threads
  {
    hide Inv, EndsIn, OthersKept, CanReport, Enabled, Apply;
    var t := s.ops.nextThread;
    var a, b := DoReport(w, k, id, ExitReport(reason)), DoResume(t, false);
    var s2 := EventArrives(c, s, w, k, id, ExitReport(reason));
    ExitPhaseStands(reason);
    AsResume(c, s2, t, false);
    var s3 := Apply(c, s2, b);
    assert s3.ops.threads[t] == Complete(id, phase, false) && SameTables(s, s3) && s3.queue == s.queue;
    CompletionEnds(c, s3, t, id, phase);
    s' := Apply(c, s3, b);
    assert s'.ops.threads == s.ops.threads;
    assert EndsIn(s, s', id, phase) by { EndsFrom(s, s3, s', id, phase); }
    Finally(c, s3, b, s');
    RunsOnce(c, s2, b, [b], s');
    RunsOn(c, s, a, b, s2, [b] + [b], s');
    steps := [a, b, b, b];
    assert [a, b] + ([b] + [b]) == steps;
  }

  /** A phase the worker reports is taken over exactly when the automaton allows it and the session is unfinished. */
  lemma PhaseIsTaken(c: Config, s: State, w: WorkerId, k: nat, id: SessionId, phase: Phase)
    returns (steps: seq<Step>, s': State)
    requires Inv(c, s) && CanReport(s, w, k, id) && id in s.sessions.live
    ensures var next := DoResume(s.ops.nextThread, false); steps == [DoReport(w, k, id, PhaseReport(phase)), next, next]
    ensures Runs(c, s, steps, s') && OthersKept(s, s', id)
    ensures var x := s.sessions.info[id];
            s'.sessions.info[id] ==
              if !x.finished && ValidTransition(x.phase, phase) then x.(phase := phase) else x
    ensures s'.queue == s.queue && s'.workers == s.workers && s'.ops.threads == s.ops.threads
  {
    hide Inv, CanReport, Enabled, Apply;
    var a, b := DoReport(w, k, id, PhaseReport(phase)), DoResume(s.ops.nextThread, false);
    var s2 := EventArrives(c, s, w, k, id, PhaseReport(phase));
    AsResume(c, s2, s.ops.nextThread, false);
    s' := Apply(c, s2, b);
    Finally(c, s2, b, s');
    RunsOn(c, s, a, b, s2, [b], s');
    steps := [a, b, b];
    assert [a, b] + [b] == steps;
  }

  /** A worker that goes away leaves the table, and the session of its job ends as exited. */
  lemma RemovalEnds(c: Config, s: State, w: WorkerId, k: nat, id: SessionId) returns (steps: seq<Step>, s': State)
    requires Inv(c, s) && w in s.workers && s.workers[w] == Worker(k, Some(id))
    requires Exists(s, id) && id in s.sessions.live && !s.sessions.info[id].finished
    ensures var next := DoResume(s.ops.nextThread, false); steps == [DoUnregister(w, k), next, next, next]
    ensures Runs(c, s, steps, s') && EndsIn(s, s', id, Exited)
    ensures s'.queue == s.queue && s'.workers == s.workers - {w}
    ensures s'.ops.threads == s.ops.threads[s.ops.nextThread := AwaitClose(id)]
  {
    hide Inv, EndsIn, OthersKept, Enabled, Apply;
    var t := s.ops.nextThread;
    var a, b := DoUnregister(w, k), DoResume(t, false);
    AsStart(c, s, a);
    var s1 := Apply(c, s, a);
    assert s1.ops.threads[t] == Unregister(w, k);
    AsResume(c, s1, t, false);
    var s2 := Apply(c, s1, b);
    assert s2.ops.threads[t] == OrphanLookup(id);
    AsResume(c, s2, t, false);
    var s3 := Apply(c, s2, b);
    assert s3.ops.threads[t] == Complete(id, Exited, true) && s3.sessions == s.sessions && s3.limits == s.limits;
    AsResume(c, s3, t, false);
    s' := Apply(c, s3, b);
    assert EndsIn(s, s', id, Exited) by { OrphanEnds(c, s3, t, id); EndsFrom(s, s3, s', id, Exited); }
    Finally(c, s3, b, s');
    RunsOnce(c, s2, b, [b], s');
    RunsOn(c, s, a, b, s2, [b] + [b], s');
    steps := [a, b, b, b];
    assert [a, b] + ([b] + [b]) == steps;
  }

  lemma OrphanEnds(c: Config, s: State, t: ThreadId, id: SessionId)
    requires t in s.ops.threads && s.ops.threads[t] == Complete(id, Exited, true) && Exists(s, id)
    requires !s.sessions.info[id].finished
    ensures EndsIn(s, Apply(c, s, DoResume(t, false)), id, Exited)
  {
  }

  /** A cancellation of an assigned job changes nothing but to address a command to the assigned worker. */
  lemma CancelGoesToWorker(c: Config, s: State, id: SessionId, phase: Phase) returns (steps: seq<Step>, s': State)
    requires Inv(c, s) && Exists(s, id) && phase in {Cancelled, ResourceLimited}
    requires !s.sessions.info[id].finished && s.sessions.info[id].assignee.Some?
    ensures steps == [DoCancel(id, phase), DoResume(s.ops.nextThread, false)]
    ensures Runs(c, s, steps, s') && SameTables(s, s') && s'.queue == s.queue
    ensures s'.ops.threads
         == s.ops.threads[s.ops.nextThread := CommandLookup(id, s.sessions.info[id].assignee.value)]
  {
    hide Inv, Enabled, Apply;
    var a, b := DoCancel(id, phase), DoResume(s.ops.nextThread, false);
    AsStart(c, s, a);
    var s1 := Apply(c, s, a);
    assert s1.ops.threads[s.ops.nextThread] == CommandRead(id);
    AsResume(c, s1, s.ops.nextThread, false);
    s' := Apply(c, s1, b);
    Finally(c, s1, b, s');
    RunsOnce(c, s, a, [b], s');
    steps := [a, b];
    assert [a] + [b] == steps;
  }

  /** A command that finds the worker's channel closed takes that worker, and no other, out of the table. */
  lemma ClosedChannelRemovesWorker(c: Config, s: State, t: ThreadId, id: SessionId, w: WorkerId) returns (s': State)
    requires t in s.ops.threads && s.ops.threads[t] == CommandLookup(id, w) && w in s.workers
    ensures Runs(c, s, [DoResume(t, true), DoResume(t, false)], s')
    ensures s'.workers == s.workers - {w} && s'.sessions == s.sessions
    ensures t in s'.ops.threads && s'.ops.threads[t]
         == match s.workers[w].job case None => Notifying case Some(job) => OrphanLookup(job)
  {
    hide Enabled, Apply;
    var a, b := DoResume(t, true), DoResume(t, false);
    AsResume(c, s, t, true);
    var s1 := Apply(c, s, a);
    assert s1.ops.threads[t] == Unregister(w, s.workers[w].connection);
    AsResume(c, s1, t, false);
    s' := Apply(c, s1, b);
    Finally(c, s1, b, s');
    RunsOnce(c, s, a, [b], s');
    assert [a] + [b] == [a, b];
  }

  lemma EndsFrom(s: State, s2: State, s': State, id: SessionId, phase: Phase)
    requires EndsIn(s2, s', id, phase) && s2.sessions == s.sessions && s2.limits == s.limits
    ensures EndsIn(s, s', id, phase)
  {
  }

  lemma Finally(c: Config, s: State, step: Step, s': State)
    requires Enabled(c, s, step) && s' == Apply(c, s, step)
    ensures Runs(c, s, [step], s')
  {
    hide Enabled, Apply;
    assert [step][1..] == [];
  }

  lemma {:induction false} Removes(q: seq<SessionId>, id: SessionId)
    ensures id !in Without(q, id)
  {
    if q != [] {
      Removes(q[1..], id);
    }
  }

  lemma Unused(c: Config, s: State)
    requires Inv(c, s)
    ensures s.ops.nextThread !in s.ops.threads
  {
    hide TableOk, LimitsOk, LineOk, AssignmentOk, ActivatedOk, WakeOk, CapacityOk, SessionsOk;
  }
}

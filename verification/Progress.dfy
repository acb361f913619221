/**
 Where the control plane goes when left alone: operations under way end by themselves.
 */
module Progress {
  import opened Common
  import opened Phases
  import opened ControlPlane
  import opened Sessions
  import opened Ledger
  import opened Line
  import opened Assignment
  import opened Wakeup
  import opened Invariant

  /** The steps lead from `s` to `s'`, one after the other. */
  ghost predicate Runs(c: Config, s: State, steps: seq<Step>, s': State)
    decreases |steps|
  {
    if steps == [] then s' == s
    else Enabled(c, s, steps[0]) && Runs(c, Apply(c, s, steps[0]), steps[1..], s')
  }

  lemma {:induction false} RunsKeep(c: Config, s: State, steps: seq<Step>, s': State)
    requires Runs(c, s, steps, s') && Inv(c, s)
    ensures Inv(c, s')
    decreases |steps|
  {
    hide Inv, Enabled, Apply;
    if steps != [] {
      StepKeeps(c, s, steps[0]);
      RunsKeep(c, Apply(c, s, steps[0]), steps[1..], s');
    }
  }

  lemma RunsOnce(c: Config, s: State, step: Step, steps: seq<Step>, s': State)
    requires Enabled(c, s, step) && Runs(c, Apply(c, s, step), steps, s')
    ensures Runs(c, s, [step] + steps, s')
  {
    hide Enabled, Apply;
    assert ([step] + steps)[1..] == steps;
  }

  // ---- one completion ---------------------------------------------------------------------

  /** How far a completion still has to go. */
  function Remaining(stage: Stage): nat {
    match stage
    case Open => 8
    case Emitting => 7
    case ReleaseFlag => 6
    case ReleaseBook(_) => 5
    case FreeWorker => 4
    case Tallying => 3
    case Removing => 2
    case Signalling => 1
    case Closed => 0
  }

  /** Out of the table, one Exit broadcast, the reservation given back, held by no worker. */
  ghost predicate FullyClosed(s: State, id: SessionId) {
    && Exists(s, id) && id !in s.sessions.live
    && var x := s.sessions.info[id];
    && x.stage == Closed && x.exits == 1 && (x.ticketConsumed ==> x.releases == 1)
    && (forall w :: w in s.workers ==> s.workers[w].job != Some(id))
  }

  lemma ClosedIsFull(c: Config, s: State, id: SessionId)
    requires Inv(c, s) && Exists(s, id) && s.sessions.info[id].stage == Closed
    ensures FullyClosed(s, id)
  {
    hide LimitsOk, LineOk, ActivatedOk, WakeOk, CapacityOk, ThreadsOk;
  }

  lemma AdvanceIsCloser(s: State, id: SessionId)
    requires Exists(s, id) && SessionOk(s.sessions.info[id])
    requires s.sessions.info[id].finished && s.sessions.info[id].stage != Closed
    ensures Exists(Advance(s, id), id)
    ensures var y := Advance(s, id).sessions.info[id];
            y.finished && Remaining(y.stage) < Remaining(s.sessions.info[id].stage)
  {
  }

  lemma InvSession(c: Config, s: State, id: SessionId)
    requires Inv(c, s) && Exists(s, id)
    ensures SessionOk(s.sessions.info[id])
    ensures id in s.sessions.live <==> InTable(s.sessions.info[id])
  {
    hide LimitsOk, LineOk, AssignmentOk, ActivatedOk, WakeOk, CapacityOk, ThreadsOk;
  }

  /** A completion is never blocked: by its own segments alone it reaches its end. */
  lemma {:induction false} CompletionRunsOut(c: Config, s: State, id: SessionId)
    returns (steps: seq<Step>, s': State)
    requires Inv(c, s) && Exists(s, id) && s.sessions.info[id].finished
    ensures Runs(c, s, steps, s') && FullyClosed(s', id)
    ensures forall i :: 0 <= i < |steps| ==> steps[i] == DoAdvance(id)
    decreases Remaining(s.sessions.info[id].stage)
  {
    hide Inv, Advance, FullyClosed;
    if s.sessions.info[id].stage == Closed {
      ClosedIsFull(c, s, id);
      steps, s' := [], s;
    } else {
      InvSession(c, s, id);
      AdvanceIsCloser(s, id);
      AdvanceKeeps(c, s, id);
      assert Apply(c, s, DoAdvance(id)) == Advance(s, id);
      var rest;
      rest, s' := CompletionRunsOut(c, Advance(s, id), id);
      steps := [DoAdvance(id)] + rest;
      RunsOnce(c, s, DoAdvance(id), rest, s');
    }
  }

  /** A step of thread `t`, or of the completion of `id`. */
  predicate StepOf(step: Step, t: ThreadId, id: SessionId) {
    step == DoAdvance(id) || (step.DoResume? && step.thread == t)
  }

  /** The unregister that carries a job completes it, whatever stage it has reached, without help from anyone. */
  lemma CarriedIsCompleted(c: Config, s: State, t: ThreadId, id: SessionId) returns (steps: seq<Step>, s': State)
    requires Inv(c, s) && Exists(s, id) && t in s.ops.threads && Carries(s.ops.threads[t], id)
    ensures Completes(c, s, t, id, steps, s')
  {
    hide Inv, FullyClosed, Runs, Enabled, Apply;
    InvSession(c, s, id);
    if s.sessions.info[id].finished {
      steps, s' := CompletionRunsOut(c, s, id);
    } else if s.ops.threads[t].Complete? {
      steps, s' := CompleteRuns(c, s, t, id);
    } else {
      LookupRuns(c, s, t, id);
      var s1 := Apply(c, s, DoResume(t, false));
      StepKeeps(c, s, DoResume(t, false));
      var rest;
      rest, s' := CompleteRuns(c, s1, t, id);
      steps := [DoResume(t, false)] + rest;
      RunsOnce(c, s, DoResume(t, false), rest, s');
    }
  }

  ghost predicate Completes(c: Config, s: State, t: ThreadId, id: SessionId, steps: seq<Step>, s': State) {
    && Runs(c, s, steps, s') && FullyClosed(s', id)
    && forall i :: 0 <= i < |steps| ==> StepOf(steps[i], t, id)
  }

  /** Thread `t` and the completion it starts lead to the end of `id`, with nothing else running. */
  ghost predicate WillComplete(c: Config, s: State, t: ThreadId, id: SessionId) {
    exists steps, s' :: Completes(c, s, t, id, steps, s')
  }

  lemma LookupRuns(c: Config, s: State, t: ThreadId, id: SessionId)
    requires Exists(s, id) && t in s.ops.threads && s.ops.threads[t] == OrphanLookup(id) && id in s.sessions.live
    ensures Enabled(c, s, DoResume(t, false))
    ensures var s1 := Apply(c, s, DoResume(t, false));
            s1.sessions == s.sessions && t in s1.ops.threads && s1.ops.threads[t] == Complete(id, Exited, true)
  {
  }

  lemma CompleteRuns(c: Config, s: State, t: ThreadId, id: SessionId) returns (steps: seq<Step>, s': State)
    requires Inv(c, s) && Exists(s, id) && !s.sessions.info[id].finished
    requires t in s.ops.threads && s.ops.threads[t].Complete? && s.ops.threads[t].id == id
    ensures Completes(c, s, t, id, steps, s')
  {
    hide Inv, FullyClosed, Runs;
    assert Enabled(c, s, DoResume(t, false));
    var s1 := Apply(c, s, DoResume(t, false));
    StepKeeps(c, s, DoResume(t, false));
    assert Exists(s1, id) && s1.sessions.info[id].finished;
    var rest;
    rest, s' := CompletionRunsOut(c, s1, id);
    steps := [DoResume(t, false)] + rest;
    RunsOnce(c, s, DoResume(t, false), rest, s');
  }
}

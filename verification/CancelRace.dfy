/**
 A cancellation that looked before the job was assigned completes it after the assignment:
 the worker runs a job whose events the API refuses.
 */
module CancelRace {
  import opened Common
  import opened Phases
  import opened ControlPlane
  import opened Backlog

  const ONE_OF_EACH := Config(1, 1, 1, 1, 1)

  function Queueing(): Session {
    Flagged(Consumed(NewSession("a", "x"))).(act := Waking)
  }

  /** The job is queued, a worker has registered, and a cancellation has read that no worker is assigned. */
  ghost predicate Cancelling(s: State) {
    && 0 in s.sessions.info && s.sessions.info[0] == Queueing()
    && 0 in s.sessions.live && s.queue == [0] && s.disp == Polling
    && s.workers == map["w" := Worker(0, None)]
    && 1 in s.ops.threads && s.ops.threads[1] == CancelRetain(0, Cancelled) && s.ops.nextThread == 2
  }

  /** The job is queued, and nothing else goes on. */
  ghost predicate Waiting(s: State) {
    && 0 in s.sessions.info && s.sessions.info[0] == Queueing()
    && 0 in s.sessions.live && s.queue == [0] && s.disp == Polling
    && s.workers == map[] && s.ops == Ops(map[], 0, 0)
  }

  lemma Activated() returns (run: seq<State>)
    ensures |run| > 0 && IsRun(ONE_OF_EACH, run) && Waiting(run[|run| - 1])
  {
    hide IsRun;
    run := [Init()];
    assert IsRun(ONE_OF_EACH, run) by { Start(ONE_OF_EACH); }
    run := Extend(ONE_OF_EACH, run, DoCreate(0, "a", "x"));
    run := Extend(ONE_OF_EACH, run, DoConsume(0));
    run := Extend(ONE_OF_EACH, run, DoActivate(0));
    run := Extend(ONE_OF_EACH, run, DoEnqueue(0));
  }

  lemma Prepared() returns (run: seq<State>)
    ensures |run| > 0 && IsRun(ONE_OF_EACH, run) && Cancelling(run[|run| - 1])
  {
    hide IsRun;
    run := Activated();
    run := Extend(ONE_OF_EACH, run, DoRegister("w"));
    run := Extend(ONE_OF_EACH, run, DoCancel(0, Cancelled));
  }

  /** The dispatcher assigns the job all the same. */
  ghost predicate Assigned(s: State) {
    && 0 in s.sessions.info && s.sessions.info[0] == Queueing().(assignee := Some("w"))
    && s.workers == map["w" := Worker(0, Some(0))] && 0 in s.log.dispatched && 0 in s.sessions.live
    && 1 in s.ops.threads && s.ops.threads[1] == CancelRetain(0, Cancelled) && s.ops.nextThread == 2
  }

  lemma Dispatched(before: seq<State>) returns (run: seq<State>)
    requires IsRun(ONE_OF_EACH, before) && Cancelling(before[|before| - 1])
    ensures |run| > 0 && IsRun(ONE_OF_EACH, run) && Assigned(run[|run| - 1])
  {
    hide IsRun;
    run := Extend(ONE_OF_EACH, before, DoDispatch);
    run := Extend(ONE_OF_EACH, run, DoDispatch);
    var s := run[|run| - 1];
    assert s.workers["w"].job.None? && Busy(s.workers) == {};
    run := Extend(ONE_OF_EACH, run, DoDecide(Some("w"), true));
  }

  /** The job is dispatched to a connected worker, yet no event of that worker is accepted. */
  lemma WorkerIsCutOff() returns (run: seq<State>)
    ensures IsRun(ONE_OF_EACH, run)
    ensures var s := run[|run| - 1];
            && 0 in s.log.dispatched && "w" in s.workers && s.workers["w"].connection == 0
            && 0 in s.sessions.info && s.sessions.info[0].finished && s.sessions.info[0].phase == Cancelled
            && !CanReport(s, "w", 0, 0)
  {
    hide IsRun;
    run := Prepared();
    run := Dispatched(run);
    run := Extend(ONE_OF_EACH, run, DoResume(1, false));
    run := Extend(ONE_OF_EACH, run, DoResume(1, false));
    run := Extend(ONE_OF_EACH, run, DoAdvance(0));
    run := Extend(ONE_OF_EACH, run, DoAdvance(0));
    run := Extend(ONE_OF_EACH, run, DoAdvance(0));
    run := Extend(ONE_OF_EACH, run, DoAdvance(0));
  }

  /** The report is past the gate, the cancellation is about to finish the session. */
  ghost predicate Reported(s: State) {
    && 0 in s.sessions.info && s.sessions.info[0] == Queueing().(assignee := Some("w"))
    && 1 in s.ops.threads && s.ops.threads[1] == CancelRetain(0, Cancelled)
    && 2 in s.ops.threads && s.ops.threads[2] == EventLookup(0, PhaseReport(Compiling))
  }

  lemma Completed(before: seq<State>) returns (run: seq<State>)
    requires |before| > 0 && IsRun(ONE_OF_EACH, before) && Reported(before[|before| - 1])
    ensures |run| > 0 && before <= run && IsRun(ONE_OF_EACH, run)
    ensures var s := run[|run| - 1];
            && 0 in s.sessions.info && s.sessions.info[0].stage == FreeWorker
            && 2 in s.ops.threads && s.ops.threads[2] == EventLookup(0, PhaseReport(Compiling))
  {
    hide IsRun;
    run := Extend(ONE_OF_EACH, before, DoResume(1, false));
    run := Extend(ONE_OF_EACH, run, DoResume(1, false));
    run := Extend(ONE_OF_EACH, run, DoAdvance(0));
    run := Extend(ONE_OF_EACH, run, DoAdvance(0));
    run := Extend(ONE_OF_EACH, run, DoAdvance(0));
  }

  /** A report passes the gate, and finds its session gone when it looks it up. */
  lemma ReportIsLost() returns (run: seq<State>, g: nat)
    ensures IsRun(ONE_OF_EACH, run) && g < |run| && CanReport(run[g], "w", 0, 0)
    ensures var s := run[|run| - 1];
            2 in s.ops.threads && s.ops.threads[2] == EventLookup(0, PhaseReport(Compiling)) && 0 !in s.sessions.live
  {
    hide IsRun;
    run := Prepared();
    run := Dispatched(run);
    g := |run| - 1;
    var atGate := run;
    run := Extend(ONE_OF_EACH, run, DoReport("w", 0, 0, PhaseReport(Compiling)));
    run := Completed(run);
    run := Extend(ONE_OF_EACH, run, DoAdvance(0));
    run := Extend(ONE_OF_EACH, run, DoAdvance(0));
    run := Extend(ONE_OF_EACH, run, DoAdvance(0));
    assert run[g] == atGate[g];
  }
}

/**
 What holds of the control plane in every run, whatever the interleaving of segments.
 */
module Safety {
  import opened Common
  import opened Phases
  import opened ControlPlane
  import opened Sessions
  import opened Ledger
  import opened Line
  import opened Assignment
  import opened Wakeup
  import opened Invariant
  import opened Progress
  import opened Subsequences

  /** The logs only get longer, and no job is dispatched once it is finished. */
  ghost predicate LogGrows(s: State, s': State) {
    && s.log.activated <= s'.log.activated
    && s.log.dispatched <= s'.log.dispatched
    && (forall id :: id in s'.log.dispatched && id !in s.log.dispatched && Exists(s, id) ==>
          !s.sessions.info[id].finished)
  }

  lemma StepLogs(c: Config, s: State, step: Step)
    requires Inv(c, s) && Enabled(c, s, step)
    ensures LogGrows(s, Apply(c, s, step))
  {
    hide TableOk, LimitsOk, LineOk, AssignmentOk, ActivatedOk, WakeOk, CapacityOk, ThreadsOk, SessionsOk, Blocked;
    match step
    case DoResume(t, closed) => assert Resume(s, t, closed).log.dispatched == s.log.dispatched;
    case DoDecide(pick, sent) =>
    case _ => assert Apply(c, s, step).log.dispatched == s.log.dispatched;
  }

  lemma NextKeeps(c: Config, s: State, s': State)
    requires Inv(c, s) && Next(c, s, s')
    ensures Inv(c, s') && AllGrow(s.sessions.info, s'.sessions.info) && LogGrows(s, s')
  {
    hide Inv, Enabled, Apply, AllGrow, LogGrows;
    var step :| Enabled(c, s, step) && s' == Apply(c, s, step);
    StepKeeps(c, s, step);
    StepLogs(c, s, step);
  }

  /** The invariant holds in every state of every run. */
  lemma {:induction false} RunInv(c: Config, run: seq<State>, i: nat)
    requires IsRun(c, run) && i < |run|
    ensures Inv(c, run[i])
  {
    hide Inv, Next;
    if i == 0 {
      InitInv(c);
    } else {
      RunInv(c, run, i - 1);
      assert Next(c, run[i - 1], run[i - 1 + 1]);
      NextKeeps(c, run[i - 1], run[i]);
    }
  }

  lemma GrowTrans(a: map<SessionId, Session>, b: map<SessionId, Session>, d: map<SessionId, Session>)
    requires AllGrow(a, b) && AllGrow(b, d)
    ensures AllGrow(a, d)
  {
  }

  /** From any point of a run to any later one, sessions and logs only grow. */
  lemma {:induction false} RunGrows(c: Config, run: seq<State>, i: nat, j: nat)
    requires IsRun(c, run) && i <= j < |run|
    ensures AllGrow(run[i].sessions.info, run[j].sessions.info)
    ensures LogGrows(run[i], run[j])
  {
    hide Inv, Next, Grows;
    if i == j {
      assert forall x: Session :: Grows(x, x) by { GrowsRefl(); }
    } else {
      RunGrows(c, run, i, j - 1);
      RunInv(c, run, j - 1);
      assert Next(c, run[j - 1], run[j - 1 + 1]);
      NextKeeps(c, run[j - 1], run[j]);
      GrowTrans(run[i].sessions.info, run[j - 1].sessions.info, run[j].sessions.info);
      LogTrans(run[i], run[j - 1], run[j]);
    }
  }

  lemma GrowsRefl()
    ensures forall x: Session :: Grows(x, x)
  {
  }

  lemma LogTrans(a: State, b: State, d: State)
    requires LogGrows(a, b) && LogGrows(b, d) && AllGrow(a.sessions.info, b.sessions.info)
    ensures LogGrows(a, d)
  {
    forall id | id in d.log.dispatched && id !in a.log.dispatched && Exists(a, id)
      ensures !a.sessions.info[id].finished
    {
      assert Grows(a.sessions.info[id], b.sessions.info[id]);
    }
  }

  // ---- the properties -------------------------------------------------------------------

  /**
   Reservation ledger.  Every counter is the number of sessions that hold the slot,
   no counter passes its cap, no zero entry stays in a map, and a reservation that
   was taken is given back at most once, exactly once when the session is closed.
   */
  lemma ReservationLedger(c: Config, run: seq<State>, i: nat)
    requires IsRun(c, run) && i < |run|
    ensures var s := run[i];
            && (forall v ::
                  Lookup(s.limits.byVisitor, v) == |Holders(s.sessions.info, VisitorOf, v)| <= c.visitorConcurrency)
            && (forall ip :: Lookup(s.limits.byIp, ip) == |Holders(s.sessions.info, IpOf, ip)| <= c.ipConcurrency)
            && (forall v :: v in s.limits.byVisitor ==> s.limits.byVisitor[v] > 0)
            && (forall ip :: ip in s.limits.byIp ==> s.limits.byIp[ip] > 0)
            && s.limits.pending == |Awaiting(s.sessions.info)|
    ensures forall id :: id in run[i].sessions.info ==>
              var x := run[i].sessions.info[id];
              && x.releases <= 1
              && (x.releases == 1 ==> x.ticketConsumed && !HoldsSlot(x))
              && (x.stage == Closed ==> (x.releases == 1 <==> x.ticketConsumed))
  {
    hide TableOk, LineOk, AssignmentOk, ActivatedOk, WakeOk, CapacityOk, ThreadsOk, Next;
    RunInv(c, run, i);
  }

  /** None of the saturating subtractions ever meets a zero. */
  lemma SubtractionsNeverClip(c: Config, run: seq<State>, i: nat, id: SessionId)
    requires IsRun(c, run) && i < |run| && id in run[i].sessions.info
    ensures var x := run[i].sessions.info[id];
            var limits := run[i].limits;
            && (x.act == Enqueueing ==> limits.pending > 0)
            && (x.stage.ReleaseBook? ==> Lookup(limits.byVisitor, x.visitor) > 0 && Lookup(limits.byIp, x.ip) > 0)
            && (x.stage == ReleaseBook(true) ==> limits.pending > 0)
  {
    hide TableOk, LineOk, AssignmentOk, ActivatedOk, WakeOk, CapacityOk, ThreadsOk, Next;
    RunInv(c, run, i);
    var s := run[i];
    if s.sessions.info[id].act == Enqueueing {
      EnqueueKeepsLedger(c, s.sessions.info, id, s.limits);
    }
    if s.sessions.info[id].stage.ReleaseBook? {
      BookKeepsLedger(c, s.sessions.info, id, s.limits);
    }
  }

  /**
   Assignment integrity.  No two workers hold the same job, busy workers never exceed the
   cap, and the worker a session is assigned to holds it under its present connection,
   or an unregister in flight carries the job and will complete it without help.
   */
  lemma AssignmentIntegrity(c: Config, run: seq<State>, i: nat)
    requires IsRun(c, run) && i < |run|
    ensures var s := run[i];
            && (forall w1, w2 :: (w1 in s.workers && w2 in s.workers && s.workers[w1].job.Some?
                                  && s.workers[w1].job == s.workers[w2].job) ==> w1 == w2)
            && |Busy(s.workers)| <= c.globalConcurrency
    ensures forall id :: id in run[i].sessions.info && run[i].sessions.info[id].assignee.Some? ==>
              var s := run[i];
              var w := s.sessions.info[id].assignee.value;
              && !s.sessions.info[id].finished
              && ((w in s.workers && s.workers[w].job == Some(id))
                  || exists t :: t in s.ops.threads && Carries(s.ops.threads[t], id) && WillComplete(c, s, t, id))
  {
    hide TableOk, LimitsOk, LineOk, ActivatedOk, WakeOk, CapacityOk, ThreadsOk, Next, WillComplete;
    RunInv(c, run, i);
    var s := run[i];
    forall id, t | t in s.ops.threads && Carries(s.ops.threads[t], id) && Exists(s, id)
      ensures WillComplete(c, s, t, id)
    {
      CarrierWillComplete(c, s, t, id);
    }
  }

  lemma CarrierWillComplete(c: Config, s: State, t: ThreadId, id: SessionId)
    requires Inv(c, s) && Exists(s, id) && t in s.ops.threads && Carries(s.ops.threads[t], id)
    ensures WillComplete(c, s, t, id)
  {
    hide Inv, Completes;
    var steps, s' := CarriedIsCompleted(c, s, t, id);
  }

  /** Some worker holds the job, so `handle_worker_event` lets events for it pass. */
  ghost predicate Held(s: State, id: SessionId) {
    exists w :: w in s.workers && s.workers[w].job == Some(id)
  }

  lemma DecideHolds(c: Config, s: State, pick: Option<WorkerId>, sent: bool, id: SessionId)
    requires Inv(c, s) && s.disp.Found? && Exists(s, s.disp.id) && CanPick(c, s, pick)
    requires id in s.log.dispatched && !Held(s, id)
    ensures !Held(Decide(s, s.disp.id, pick, sent), id)
  {
    hide TableOk, LimitsOk, AssignmentOk, WakeOk, CapacityOk, ThreadsOk, SessionsOk, Blocked;
    HandIsNew(s.sessions.info, s.log, s.disp, s.queue);
  }

  lemma ResumeHolds(s: State, t: ThreadId, closed: bool, id: SessionId)
    requires CanResume(s, t) && !Held(s, id)
    ensures !Held(Resume(s, t, closed), id)
  {
    if s.ops.threads[t].Unregister? {
      assert forall w :: w in Resume(s, t, closed).workers ==> w in s.workers;
    } else {
      assert Resume(s, t, closed).workers == s.workers;
    }
  }

  lemma StepHolds(c: Config, s: State, step: Step, id: SessionId)
    requires Inv(c, s) && Enabled(c, s, step) && id in s.log.dispatched && !Held(s, id)
    ensures !Held(Apply(c, s, step), id)
  {
    hide Inv, Resume, Decide, CanPick;
    match step
    case DoDecide(pick, sent) => DecideHolds(c, s, pick, sent, id);
    case DoResume(t, closed) => ResumeHolds(s, t, closed, id);
    case DoAdvance(_) =>
    case DoRegister(_) =>
    case _ => assert Apply(c, s, step).workers == s.workers;
  }

  /** A dispatched job that no worker holds any more is never held again, so no later event for it is accepted. */
  lemma {:induction false} NeverHeldAgain(c: Config, run: seq<State>, i: nat, j: nat, id: SessionId)
    requires IsRun(c, run) && i <= j < |run| && id in run[i].log.dispatched && !Held(run[i], id)
    ensures id in run[j].log.dispatched && !Held(run[j], id)
    ensures forall w, k :: !CanReport(run[j], w, k, id)
  {
    hide Inv, Enabled, Apply, AllGrow;
    if i < j {
      NeverHeldAgain(c, run, i, j - 1, id);
      RunInv(c, run, j - 1);
      assert Next(c, run[j - 1], run[j - 1 + 1]);
      NextKeeps(c, run[j - 1], run[j]);
      var step :| Enabled(c, run[j - 1], step) && run[j] == Apply(c, run[j - 1], step);
      StepHolds(c, run[j - 1], step, id);
    }
  }

  /** Once a session's completion has freed the worker, events for it are refused. */
  lemma ClosedIsSilent(c: Config, run: seq<State>, i: nat, id: SessionId)
    requires IsRun(c, run) && i < |run| && id in run[i].sessions.info
    requires run[i].sessions.info[id].finished && !BeforeFree(run[i].sessions.info[id].stage)
    ensures !Held(run[i], id) && forall w, k :: !CanReport(run[i], w, k, id)
  {
    hide TableOk, LimitsOk, LineOk, ActivatedOk, WakeOk, CapacityOk, ThreadsOk, Next;
    RunInv(c, run, i);
  }

  /** No lost wakeup. */
  lemma NoLostWakeup(c: Config, run: seq<State>, i: nat)
    requires IsRun(c, run) && i < |run|
    requires run[i].disp == Parked && !run[i].permit
    requires !NoticeDue(run[i].sessions.info, run[i].ops.threads)
    ensures run[i].queue == [] || Blocked(c, run[i].workers)
  {
    hide TableOk, LimitsOk, LineOk, AssignmentOk, ActivatedOk, CapacityOk, ThreadsOk, SessionsOk, Next;
    RunInv(c, run, i);
  }

  /**
   Queue discipline.  Dispatched jobs, the job in hand and the queue follow the activation
   order without repetition; the backlog passes the capacity by one at most.
   */
  lemma QueueDiscipline(c: Config, run: seq<State>, i: nat)
    requires IsRun(c, run) && i < |run|
    ensures var s := run[i];
            var line := s.log.dispatched + (Hand(s.disp) + s.queue);
            && Distinct(s.log.activated)
            && Subsequence(line, s.log.activated)
            && Distinct(line)
            && |s.queue| + |Hand(s.disp)| + s.limits.pending <= c.queueCapacity + 1
  {
    hide TableOk, LimitsOk, AssignmentOk, WakeOk, ThreadsOk, SessionsOk, Next;
    RunInv(c, run, i);
    var s := run[i];
    SubDistinct(LineUp(s.log.dispatched, s.disp, s.queue), s.log.activated);
  }

  /** First activated, first dispatched: of two dispatched jobs the earlier activated one went first. */
  lemma DispatchIsFifo(c: Config, run: seq<State>, i: nat, k: nat, l: nat, a: nat, b: nat)
    requires IsRun(c, run) && i < |run|
    requires k < l < |run[i].log.activated| && a < |run[i].log.dispatched| && b < |run[i].log.dispatched|
    requires run[i].log.dispatched[a] == run[i].log.activated[k]
    requires run[i].log.dispatched[b] == run[i].log.activated[l]
    ensures a < b
  {
    hide Inv, Next;
    QueueDiscipline(c, run, i);
    var s := run[i];
    SubOrder(s.log.dispatched + (Hand(s.disp) + s.queue), s.log.activated, a, b, k, l);
  }

  /**
   Completion.  A session broadcasts at most one Exit, exactly one once its completion has
   passed that point; live sessions never exceed the capacity.
   */
  lemma CompletionOnce(c: Config, run: seq<State>, i: nat)
    requires IsRun(c, run) && i < |run|
    ensures forall id :: id in run[i].sessions.info ==>
              var x := run[i].sessions.info[id];
              && x.exits <= 1
              && (x.exits == 1 ==> x.finished)
              && (x.stage == Closed ==> x.exits == 1 && id !in run[i].sessions.live)
              && (x.finished ==> Terminal(x.phase))
    ensures |run[i].sessions.live| <= c.sessionCapacity
  {
    hide LimitsOk, LineOk, AssignmentOk, ActivatedOk, WakeOk, CapacityOk, ThreadsOk, Next;
    RunInv(c, run, i);
  }

  /** Along a run the phase of a session never falls back, and stays put once it is finished. */
  lemma PhaseNeverFalls(c: Config, run: seq<State>, i: nat, j: nat, id: SessionId)
    requires IsRun(c, run) && i <= j < |run| && id in run[i].sessions.info
    ensures id in run[j].sessions.info
    ensures var x := run[i].sessions.info[id];
            var y := run[j].sessions.info[id];
            && Rank(x.phase) <= Rank(y.phase)
            && (x.finished ==> y.finished && y.phase == x.phase)
            && x.exits <= y.exits
  {
    hide Inv, Next;
    RunGrows(c, run, i, j);
  }

  /** A finished session that was not dispatched never is. */
  lemma NeverDispatchedAfterFinish(c: Config, run: seq<State>, i: nat, j: nat, id: SessionId)
    requires IsRun(c, run) && i <= j < |run| && id in run[i].sessions.info
    requires run[i].sessions.info[id].finished && id !in run[i].log.dispatched
    ensures id !in run[j].log.dispatched
  {
    hide Inv, Next;
    RunGrows(c, run, i, j);
  }

  /** When no operation is under way, every session created is either completed or live. */
  lemma TotalsAtRest(c: Config, run: seq<State>, i: nat)
    requires IsRun(c, run) && i < |run|
    requires run[i].sessions.uncounted == {}
    requires forall id :: id in run[i].sessions.info ==>
               run[i].sessions.info[id].stage == Open || run[i].sessions.info[id].stage == Closed
    ensures run[i].sessions.createdTotal == run[i].sessions.completedTotal + |run[i].sessions.live|
  {
    hide LimitsOk, LineOk, AssignmentOk, ActivatedOk, WakeOk, CapacityOk, ThreadsOk, Next;
    RunInv(c, run, i);
    TotalsBalance(c, run[i].sessions);
  }
}

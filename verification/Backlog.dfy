/**
 When the backlog passes the queue's capacity: exactly when a ticket is accepted while the
 dispatcher holds a job and that job takes the last place.
 */
module Backlog {
  import opened Common
  import opened ControlPlane
  import opened Ledger
  import opened Line
  import opened Assignment
  import opened Wakeup
  import opened Invariant
  import opened Safety

  /** Jobs waiting for a worker: queued, in the dispatcher's hand, or about to be queued. */
  function Load(s: State): nat {
    |s.queue| + |Hand(s.disp)| + s.limits.pending
  }

  /** The situation in which the next accepted ticket is one too many. */
  predicate LastPlaceInHand(c: Config, s: State) {
    Hand(s.disp) != [] && |s.queue| + s.limits.pending + 1 == c.queueCapacity
  }

  /** Only accepting a ticket adds to the backlog. */
  lemma LoadGrows(c: Config, s: State, step: Step)
    requires Inv(c, s) && Enabled(c, s, step)
    ensures Load(Apply(c, s, step)) <= Load(s) + if step.DoConsume? then 1 else 0
    ensures step.DoConsume? ==> Load(Apply(c, s, step)) == Load(s) + 1
  {
    hide Inv, CanPick;
    match step
    case DoResume(t, closed) => ResumeLoad(s, t, closed);
    case DoEnqueue(id) => PendingCounts(c, s, id);
    case _ =>
  }

  lemma PendingCounts(c: Config, s: State, id: SessionId)
    requires Inv(c, s) && Exists(s, id) && s.sessions.info[id].act == Enqueueing
    ensures s.limits.pending > 0
  {
    hide TableOk, LineOk, AssignmentOk, ActivatedOk, WakeOk, CapacityOk, ThreadsOk;
    EnqueueKeepsLedger(c, s.sessions.info, id, s.limits);
  }

  lemma ResumeLoad(s: State, t: ThreadId, closed: bool)
    requires CanResume(s, t)
    ensures Load(Resume(s, t, closed)) <= Load(s)
  {
    if s.ops.threads[t].CancelRetain? {
      WithoutIsSub(s.queue, s.ops.threads[t].id);
    }
  }

  /** One step takes the backlog over the capacity exactly when it accepts a ticket in that situation. */
  lemma PassesCapacityIff(c: Config, s: State, step: Step)
    requires Inv(c, s) && Enabled(c, s, step) && Load(s) <= c.queueCapacity
    ensures Load(Apply(c, s, step)) > c.queueCapacity <==> step.DoConsume? && LastPlaceInHand(c, s)
  {
    hide Inv, Apply;
    LoadGrows(c, s, step);
  }

  /** A ticket is accepted although the job in hand needs the last place. */
  ghost predicate Overfills(c: Config, s: State, s': State) {
    && LastPlaceInHand(c, s)
    && exists id :: Enabled(c, s, DoConsume(id)) && s' == Apply(c, s, DoConsume(id))
  }

  /** The first state over the capacity is the one after such a ticket. */
  lemma {:induction false} OverfilledBefore(c: Config, run: seq<State>, i: nat)
    requires IsRun(c, run) && i < |run| && Load(run[i]) > c.queueCapacity
    ensures exists k :: 0 <= k < i && Overfills(c, run[k], run[k + 1])
  {
    hide Inv, Enabled, Apply;
    assert i > 0 by { assert Load(Init()) == 0; }
    if Load(run[i - 1]) > c.queueCapacity {
      OverfilledBefore(c, run, i - 1);
    } else {
      RunInv(c, run, i - 1);
      assert Next(c, run[i - 1], run[i - 1 + 1]);
      var step :| Enabled(c, run[i - 1], step) && run[i] == Apply(c, run[i - 1], step);
      PassesCapacityIff(c, run[i - 1], step);
      assert step == DoConsume(step.id);
      assert Overfills(c, run[i - 1], run[i - 1 + 1]);
    }
  }

  /** A run keeps within the capacity exactly when no ticket is accepted in that situation. */
  lemma WithinCapacityIff(c: Config, run: seq<State>)
    requires IsRun(c, run)
    ensures (forall i :: 0 <= i < |run| ==> Load(run[i]) <= c.queueCapacity)
       <==> (forall k :: 0 <= k < |run| - 1 ==> !Overfills(c, run[k], run[k + 1]))
  {
    hide Inv, Enabled, Apply, Next, Load;
    forall i | 0 <= i < |run| && Load(run[i]) > c.queueCapacity
      ensures exists k :: 0 <= k < |run| - 1 && Overfills(c, run[k], run[k + 1])
    {
      OverfilledBefore(c, run, i);
    }
    forall k | 0 <= k < |run| - 1 && Overfills(c, run[k], run[k + 1])
      ensures Load(run[k + 1]) > c.queueCapacity
    {
      RunInv(c, run, k);
      OverfillsPasses(c, run[k], run[k + 1]);
    }
  }

  lemma OverfillsPasses(c: Config, s: State, s': State)
    requires Inv(c, s) && Overfills(c, s, s')
    ensures Load(s') > c.queueCapacity
  {
    hide Inv, Enabled, Apply;
    var id :| Enabled(c, s, DoConsume(id)) && s' == Apply(c, s, DoConsume(id));
    LoadGrows(c, s, DoConsume(id));
  }

  // ---- a run that does it -------------------------------------------------------------------

  /** Room for one job in the queue, two sessions of different visitors, no worker. */
  const ROOM_FOR_ONE := Config(2, 1, 1, 1, 1)

  /** What the run below needs to know of a state. */
  ghost predicate Shows(s: State, first: Session, second: Session, pending: nat, queue: seq<SessionId>,
                        disp: Dispatcher) {
    && 0 in s.sessions.info && s.sessions.info[0] == first
    && 1 in s.sessions.info && s.sessions.info[1] == second
    && 0 in s.sessions.live
    && s.limits.pending == pending
    && s.queue == queue
    && s.disp == disp
    && s.workers == map[]
  }

  lemma Extend(c: Config, run: seq<State>, step: Step) returns (longer: seq<State>)
    requires IsRun(c, run) && Enabled(c, run[|run| - 1], step)
    ensures |longer| > 0 && run <= longer && IsRun(c, longer) && longer[|longer| - 1] == Apply(c, run[|run| - 1], step)
  {
    hide Enabled, Apply;
    longer := run + [Apply(c, run[|run| - 1], step)];
    forall i | 0 <= i < |longer| - 1
      ensures Next(c, longer[i], longer[i + 1])
    {
      if i < |run| - 1 {
        assert Next(c, run[i], run[i + 1]);
      }
    }
  }

  /** Both sessions exist, the first one's ticket is consumed. */
  lemma Opening() returns (run: seq<State>)
    ensures IsRun(ROOM_FOR_ONE, run)
    ensures Shows(run[|run| - 1], Consumed(NewSession("a", "x")), NewSession("b", "y"), 1, [], Polling)
    ensures Lookup(run[|run| - 1].limits.byVisitor, "b") == 0 && Lookup(run[|run| - 1].limits.byIp, "y") == 0
  {
    hide IsRun;
    run := [Init()];
    assert IsRun(ROOM_FOR_ONE, run) by { Start(ROOM_FOR_ONE); }
    run := Extend(ROOM_FOR_ONE, run, DoCreate(0, "a", "x"));
    run := Extend(ROOM_FOR_ONE, run, DoCreate(1, "b", "y"));
    run := Extend(ROOM_FOR_ONE, run, DoConsume(0));
  }

  lemma Start(c: Config)
    ensures IsRun(c, [Init()])
  {
  }

  /** While the dispatcher holds the first job, the second is let in. */
  lemma LetIn(before: seq<State>) returns (run: seq<State>)
    requires IsRun(ROOM_FOR_ONE, before)
    requires Shows(before[|before| - 1], Consumed(NewSession("a", "x")), NewSession("b", "y"), 1, [], Polling)
    requires Lookup(before[|before| - 1].limits.byVisitor, "b") == 0
    requires Lookup(before[|before| - 1].limits.byIp, "y") == 0
    ensures IsRun(ROOM_FOR_ONE, run)
    ensures Shows(run[|run| - 1], Flagged(Consumed(NewSession("a", "x"))).(act := Waking),
                  Consumed(NewSession("b", "y")), 1, [], Popped(0))
  {
    hide IsRun;
    run := Extend(ROOM_FOR_ONE, before, DoActivate(0));
    run := Extend(ROOM_FOR_ONE, run, DoEnqueue(0));
    run := Extend(ROOM_FOR_ONE, run, DoDispatch);
    run := Extend(ROOM_FOR_ONE, run, DoConsume(1));
  }

  /** The first job goes back to the front, the second joins it. */
  lemma QueueCanPassCapacity() returns (run: seq<State>)
    ensures IsRun(ROOM_FOR_ONE, run)
    ensures |run[|run| - 1].queue| == ROOM_FOR_ONE.queueCapacity + 1
  {
    hide IsRun;
    run := Opening();
    run := LetIn(run);
    run := Extend(ROOM_FOR_ONE, run, DoDispatch);
    run := Extend(ROOM_FOR_ONE, run, DoDecide(None, false));
    run := Extend(ROOM_FOR_ONE, run, DoDispatch);
    run := Extend(ROOM_FOR_ONE, run, DoActivate(1));
    run := Extend(ROOM_FOR_ONE, run, DoEnqueue(1));
  }
}

/** A worker's connection is its own: it is used once, and only its own unregister ends it. */
module Connections {
  import opened Common
  import opened Phases
  import opened ControlPlane

  /** Connections are numbered in order of registration, and no two workers share one. */
  ghost predicate ConnectionsOk(s: State) {
    && (forall w :: w in s.workers ==> s.workers[w].connection < s.ops.nextConnection)
    && (forall v, w :: v in s.workers && w in s.workers && s.workers[v].connection == s.workers[w].connection ==>
          v == w)
  }

  predicate Connected(s: State, w: WorkerId, k: nat) {
    w in s.workers && s.workers[w].connection == k
  }

  /** The step is the segment in which an unregister of this worker and connection takes effect. */
  predicate Disconnects(s: State, step: Step, w: WorkerId, k: nat) {
    step.DoResume? && step.thread in s.ops.threads && s.ops.threads[step.thread] == Unregister(w, k)
  }

  /** Workers come by registering under a new connection and go by their own unregister; nothing else moves them. */
  lemma StepConnects(c: Config, s: State, step: Step, w: WorkerId, k: nat)
    requires Enabled(c, s, step)
    ensures var s' := Apply(c, s, step);
            && (Connected(s', w, k) <==>
                  if Connected(s, w, k) then !Disconnects(s, step, w, k)
                  else step == DoRegister(w) && k == s.ops.nextConnection)
            && s'.ops.nextConnection == s.ops.nextConnection + if step.DoRegister? then 1 else 0
  {
    hide CanConsume, Blocked;
    match step
    case DoResume(t, closed) => ResumeConnects(s, t, closed, w, k);
    case _ =>
  }

  lemma ResumeConnects(s: State, t: ThreadId, closed: bool, w: WorkerId, k: nat)
    requires CanResume(s, t)
    ensures var s' := Resume(s, t, closed);
            && (Connected(s', w, k) <==> Connected(s, w, k) && s.ops.threads[t] != Unregister(w, k))
            && s'.ops.nextConnection == s.ops.nextConnection
  {
  }

  lemma StepConnections(c: Config, s: State, step: Step)
    requires Enabled(c, s, step) && ConnectionsOk(s)
    ensures ConnectionsOk(Apply(c, s, step))
  {
    hide Enabled, Apply, Disconnects;
    var s' := Apply(c, s, step);
    forall w | w in s'.workers
      ensures s'.workers[w].connection < s'.ops.nextConnection
      ensures forall v :: v in s'.workers && s'.workers[v].connection == s'.workers[w].connection ==> v == w
    {
      var k := s'.workers[w].connection;
      StepConnects(c, s, step, w, k);
      forall v | v in s'.workers && s'.workers[v].connection == k ensures v == w {
        StepConnects(c, s, step, v, k);
      }
    }
  }

  lemma {:induction false} RunConnections(c: Config, run: seq<State>, i: nat)
    requires IsRun(c, run) && i < |run|
    ensures ConnectionsOk(run[i])
  {
    hide Enabled, Apply;
    if i > 0 {
      RunConnections(c, run, i - 1);
      assert Next(c, run[i - 1], run[i - 1 + 1]);
      var step :| Enabled(c, run[i - 1], step) && run[i] == Apply(c, run[i - 1], step);
      StepConnections(c, run[i - 1], step);
    }
  }

  /** No worker has this connection, and none will be given it. */
  ghost predicate Spent(s: State, k: nat) {
    k < s.ops.nextConnection && forall w :: !Connected(s, w, k)
  }

  lemma StepSpent(c: Config, s: State, s': State, k: nat)
    requires Next(c, s, s') && Spent(s, k)
    ensures Spent(s', k)
  {
    hide Enabled, Apply, Connected, Disconnects;
    var step :| Enabled(c, s, step) && s' == Apply(c, s, step);
    StepConnects(c, s, step, "", k);
    forall w ensures !Connected(s', w, k) {
      StepConnects(c, s, step, w, k);
    }
  }

  lemma StepEnds(c: Config, s: State, s': State, w: WorkerId, k: nat)
    requires Next(c, s, s') && ConnectionsOk(s) && Connected(s, w, k) && !Connected(s', w, k)
    ensures Spent(s', k)
  {
    hide Enabled, Apply, Disconnects;
    var step :| Enabled(c, s, step) && s' == Apply(c, s, step);
    StepConnects(c, s, step, w, k);
    forall v ensures !Connected(s', v, k) {
      StepConnects(c, s, step, v, k);
    }
  }

  /** A connection that has ended is never used again: no later event under it passes the gate. */
  lemma {:induction false} EndedConnectionIsSilent(c: Config, run: seq<State>, i: nat, j: nat, w: WorkerId, k: nat,
                                                   id: SessionId)
    requires IsRun(c, run) && i <= j < |run| && Connected(run[i], w, k)
    requires exists l :: i <= l <= j && !Connected(run[l], w, k)
    ensures Spent(run[j], k) && forall v :: !CanReport(run[j], v, k, id)
  {
    hide Next, Connected;
    assert Spent(run[j], k) by { Ended(c, run, i, j, w, k); }
    forall v ensures !CanReport(run[j], v, k, id) {
      NoReport(run[j], v, k, id);
    }
  }

  lemma NoReport(s: State, w: WorkerId, k: nat, id: SessionId)
    ensures CanReport(s, w, k, id) ==> Connected(s, w, k)
  {
  }

  lemma {:induction false} Ended(c: Config, run: seq<State>, i: nat, j: nat, w: WorkerId, k: nat)
    requires IsRun(c, run) && i <= j < |run| && Connected(run[i], w, k)
    requires exists l :: i <= l <= j && !Connected(run[l], w, k)
    ensures Spent(run[j], k)
    decreases j
  {
    hide Next, Connected, Spent, ConnectionsOk;
    assert Next(c, run[j - 1], run[j - 1 + 1]);
    if l :| i <= l <= j - 1 && !Connected(run[l], w, k) {
      Ended(c, run, i, j - 1, w, k);
      StepSpent(c, run[j - 1], run[j], k);
    } else {
      RunConnections(c, run, j - 1);
      StepEnds(c, run[j - 1], run[j], w, k);
    }
  }
}

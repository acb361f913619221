/** The promise chain runs dry: what was accepted is forwarded unless the session is cut short. */
module Draining {
  import opened Common
  import opened Text
  import opened Utf8
  import opened Guard
  import opened GuardLedger
  import opened Adapter
  import opened Mirror
  import opened Rebuilds

  /** Steps the adapter takes by itself, without a client, a socket event or a cleanup. */
  predicate Internal(step: Step) {
    step.DoBegin? || step.DoWrite? || step.DoWriteFail? || step.DoResume? || step.DoTimer? || step.DoRebuild?
  }

  function TaskWeight(t: Task): nat {
    match t
    case Relay(_, starts) => if starts.Some? then 7 else 3
    case Rebuild(_) => 3
  }

  function TasksWeight(tasks: seq<Task>): nat {
    if tasks == [] then 0 else TaskWeight(tasks[0]) + TasksWeight(tasks[1..])
  }

  function ProgressWeight(p: Progress): nat {
    match p
    case Waiting => 2
    case Writing => 1
    case Written => 0
  }

  /** What is left to do; an armed timer is worth more than the rebuild it will queue. */
  function Weight(s: State): nat {
    TasksWeight(s.tasks) + ProgressWeight(s.progress) + if s.timer.Some? then 4 else 0
  }

  lemma {:induction false} TasksAppend(tasks: seq<Task>, t: Task)
    ensures TasksWeight(tasks + [t]) == TasksWeight(tasks) + TaskWeight(t)
  {
    if tasks == [] {
      assert [] + [t] == [t] && [t][1..] == [];
    } else {
      assert (tasks + [t])[1..] == tasks[1..] + [t];
      TasksAppend(tasks[1..], t);
    }
  }

  lemma InternalIsLighter(c: AdapterConfig, s: State, step: Step)
    requires Enabled(s, step) && Internal(step)
    ensures Weight(Apply(c, s, step)) < Weight(s)
  {
    if step.DoTimer? {
      TasksAppend(s.tasks, Rebuild(s.timer.value));
    }
  }

  /** A schedule of internal steps. */
  ghost predicate Drains(c: AdapterConfig, run: seq<State>) {
    && |run| > 0
    && forall i :: 0 <= i < |run| - 1 ==> InternalNext(c, run[i], run[i + 1])
  }

  ghost predicate InternalNext(c: AdapterConfig, s: State, s': State) {
    exists step :: Enabled(s, step) && Internal(step) && s' == Apply(c, s, step)
  }

  /** Left to itself the adapter stops, whatever order it works in. */
  lemma {:induction false} EveryScheduleEnds(c: AdapterConfig, run: seq<State>)
    requires Drains(c, run)
    ensures |run| - 1 <= Weight(run[0])
    decreases |run|
  {
    hide Weight, Enabled, Internal, Apply;
    if |run| > 1 {
      assert InternalNext(c, run[0], run[0 + 1]);
      var step :| Enabled(run[0], step) && Internal(step) && run[1] == Apply(c, run[0], step);
      InternalIsLighter(c, run[0], step);
      var rest := run[1..];
      forall i | 0 <= i < |rest| - 1 ensures InternalNext(c, rest[i], rest[i + 1]) {
        assert InternalNext(c, run[i + 1], run[i + 1 + 1]);
      }
      EveryScheduleEnds(c, rest);
    }
  }

  ghost predicate Stuck(s: State) {
    forall step :: Enabled(s, step) ==> !Internal(step)
  }

  lemma StuckIsDrained(c: AdapterConfig, s: State)
    requires Mirror.Inv(c, s) && Stuck(s)
    ensures s.tasks == [] && s.timer.None?
  {
    hide GuardOk, OrderOk, OnDiskOk, RebuildOk, Settled, Mirrors;
    assert !Enabled(s, DoTimer) && !Enabled(s, DoRebuild);
    assert !Enabled(s, DoBegin) && !Enabled(s, DoWriteFail) && !Enabled(s, DoResume);
  }

  /**
   When nothing is left to do in a session that is open and was not violated, every accepted message
   has been forwarded, the workspace holds every tracked text, and the last header update, unless
   cancelled, has had its rebuild.
   */
  lemma EverythingIsForwarded(c: AdapterConfig, run: seq<State>, i: nat)
    requires IsRun(c, run) && i < |run| && Stuck(run[i]) && run[i].open && !run[i].violated
    ensures Sent(run[i].outputs) == run[i].arrivals
    ensures forall uri :: uri in run[i].guard.documents && run[i].workspace ==>
              uri in run[i].disk && run[i].disk[uri] == Encode(run[i].guard.documents[uri].text)
    ensures run[i].header == Some(run[i].generation) ==>
              WasForced(run[i].outputs, run[i].generation) || run[i].generation in run[i].idle
  {
    hide Mirror.Inv, Next, Stuck, Sent, Encode;
    RunInv(c, run, i);
    StuckIsDrained(c, run[i]);
    ForwardedInOrder(c, run, i);
    forall uri | uri in run[i].guard.documents && run[i].workspace
      ensures uri in run[i].disk && run[i].disk[uri] == Encode(run[i].guard.documents[uri].text)
    {
      DrainedDiskMirrorsGuard(c, run, i, uri);
    }
    if run[i].header == Some(run[i].generation) {
      NoHeaderUpdateIsLost(c, run, i);
    }
  }

  // ---- one message by itself ----------------------------------------------------------------------

  /** Nothing is going on in an open session. */
  predicate Ready(s: State) {
    s.tasks == [] && s.progress == Waiting && s.open && !s.violated && s.workspace
  }

  /** A session starts out ready. */
  lemma StartsReady(now: int, disk: map<Text, seq<Byte>>)
    ensures Ready(Init(now, disk)) && Init(now, disk).outputs == [] && Init(now, disk).arrivals == []
    ensures Init(now, disk).generation == 0 && Init(now, disk).timer.None?
  {
  }

  /** The disk once the update, if there is one, has been written. */
  function Updated(disk: map<Text, seq<Byte>>, update: Option<Update>): map<Text, seq<Byte>> {
    if update.Some? then disk[update.value.uri := Encode(update.value.text)] else disk
  }

  /** An accepted message is written and then forwarded, and a header update arms its generation's timer. */
  lemma MessageIsForwarded(c: AdapterConfig, s: State, m: Message) returns (steps: seq<Step>, run: seq<State>)
    requires Ready(s) && OnMessage(c.guard, s.guard, m).1 == Accepted
    ensures |run| == |steps| + 1 && run[0] == s
    ensures forall k :: 0 <= k < |steps| ==> Enabled(run[k], steps[k]) && run[k + 1] == Apply(c, run[k], steps[k])
    ensures var update := OnMessage(c.guard, s.guard, m).0.update;
            && steps == (if update.Some? then [DoReceive(m), DoBegin, DoWrite, DoResume] else [DoReceive(m), DoBegin])
            && var s' := run[|steps|];
            && Ready(s') && s'.disk == Updated(s.disk, update)
            && s'.outputs == s.outputs + [Forwarded(Arrival(m, update), s'.disk)]
            && s'.arrivals == s.arrivals + [Arrival(m, update)]
            && if update.Some? && update.value.notifyDependents && update.value.uri in c.headers
               then s'.generation == s.generation + 1 && s'.timer == Some(s'.generation)
               else s'.generation == s.generation && s'.timer == s.timer
  {
    hide OnMessage;
    var update := OnMessage(c.guard, s.guard, m).0.update;
    var s1 := Apply(c, s, DoReceive(m));
    var s2 := Apply(c, s1, DoBegin);
    assert [s1.tasks[0]] == s1.tasks;
    if update.Some? {
      var s3 := Apply(c, s2, DoWrite);
      steps, run := [DoReceive(m), DoBegin, DoWrite, DoResume], [s, s1, s2, s3, Apply(c, s3, DoResume)];
    } else {
      steps, run := [DoReceive(m), DoBegin], [s, s1, s2];
    }
  }

  // ---- what ends a session -------------------------------------------------------------------------

  /** A close, a refused message, a violation or a failed write. */
  ghost predicate CutsOff(c: AdapterConfig, s: State, step: Step) {
    || step.DoClose? || step.DoViolate? || step.DoWriteFail?
    || (step.DoReceive? && OnMessage(c.guard, s.guard, step.message).1 != Accepted)
  }

  lemma CutOffEnds(c: AdapterConfig, s: State, step: Step)
    requires CutsOff(c, s, step)
    ensures !step.DoWriteFail? ==> Enabled(s, step)
    ensures Enabled(s, step) ==>
              var s' := Apply(c, s, step); (s'.violated || !s'.open) && s'.outputs == s.outputs
  {
    hide OnMessage;
  }

  lemma StaysOff(c: AdapterConfig, s: State, step: Step)
    requires Enabled(s, step) && (s.violated || !s.open)
    ensures var s' := Apply(c, s, step); (s'.violated || !s'.open) && s'.outputs == s.outputs
  {
    hide OnMessage;
  }

  /** After that clangd is sent nothing more. */
  lemma {:induction false} NothingAfterCutOff(c: AdapterConfig, run: seq<State>, i: nat, j: nat, step: Step)
    requires IsRun(c, run) && i < j < |run| && CutsOff(c, run[i], step)
    requires Enabled(run[i], step) && run[i + 1] == Apply(c, run[i], step)
    ensures (run[j].violated || !run[j].open) && run[j].outputs == run[i].outputs
  {
    hide Enabled, Apply, CutsOff;
    if j == i + 1 {
      CutOffEnds(c, run[i], step);
    } else {
      NothingAfterCutOff(c, run, i, j - 1, step);
      assert Next(c, run[j - 1], run[j - 1 + 1]);
      var next :| Enabled(run[j - 1], next) && run[j] == Apply(c, run[j - 1], next);
      StaysOff(c, run[j - 1], next);
    }
  }
}

/** No header update is lost: its generation forces a rebuild unless a later one, a violation or a close comes first. */
module Rebuilds {
  import opened Common
  import opened Text
  import opened Guard
  import opened Adapter
  import opened Mirror

  ghost predicate WasForced(outputs: seq<Output>, g: nat) {
    exists k :: 0 <= k < |outputs| && outputs[k].Forced? && outputs[k].generation == g
  }

  /** The generation's header update is queued, its timer armed, its rebuild queued, or it is done. */
  ghost predicate UnderWay(s: State, g: nat) {
    || (exists i :: 0 <= i < |s.tasks| && Starts(s.tasks[i], g))
    || s.timer == Some(g)
    || Rebuild(g) in s.tasks
    || WasForced(s.outputs, g)
    || g in s.idle
  }

  /** The last header update's generation is under way as long as nothing cancels it. */
  ghost predicate HeaderOk(s: State) {
    && (s.header.Some? ==> s.header.value <= s.generation)
    && (s.header == Some(s.generation) && !s.violated && s.open ==> UnderWay(s, s.generation))
  }

  lemma PopUnderWay(s: State, g: nat)
    requires s.tasks != [] && UnderWay(s, g) && !Starts(s.tasks[0], g) && s.tasks[0] != Rebuild(g)
    ensures UnderWay(Pop(s), g)
  {
    var rest := s.tasks[1..];
    assert forall i :: 0 <= i < |rest| ==> rest[i] == s.tasks[i + 1];
    if i :| 0 <= i < |s.tasks| && Starts(s.tasks[i], g) {
      assert Starts(rest[i - 1], g);
    } else if Rebuild(g) in s.tasks {
      var i :| 0 <= i < |s.tasks| && s.tasks[i] == Rebuild(g);
      assert rest[i - 1] == Rebuild(g);
    }
  }

  lemma MoreUnderWay(s: State, s': State, g: nat)
    requires UnderWay(s, g) && s.tasks <= s'.tasks && s.outputs <= s'.outputs && s.idle <= s'.idle
    requires s.timer == Some(g) ==> s'.timer == Some(g) || Rebuild(g) in s'.tasks
    ensures UnderWay(s', g)
  {
    if i :| 0 <= i < |s.tasks| && Starts(s.tasks[i], g) {
      assert Starts(s'.tasks[i], g);
    } else if Rebuild(g) in s.tasks {
      var i :| 0 <= i < |s.tasks| && s.tasks[i] == Rebuild(g);
      assert s'.tasks[i] == Rebuild(g);
    } else if WasForced(s.outputs, g) {
      var k :| 0 <= k < |s.outputs| && s.outputs[k].Forced? && s.outputs[k].generation == g;
      assert s'.outputs[k].Forced? && s'.outputs[k].generation == g;
    }
  }

  lemma ReceiveHeader(c: AdapterConfig, s: State, m: Message)
    requires HeaderOk(s)
    ensures HeaderOk(Receive(c, s, m))
  {
    hide OnMessage, UnderWay;
    var s' := Receive(c, s, m);
    var (g, answer) := OnMessage(c.guard, s.guard, m);
    if answer == Accepted {
      if IsHeader(c, Arrival(m, g.update)) {
        HeaderQueued(s', |s.tasks|);
      } else if s.header == Some(s.generation) && !s.violated && s.open {
        MoreUnderWay(s, s', s.generation);
      }
    }
  }

  lemma HeaderQueued(s: State, i: nat)
    requires i < |s.tasks| && Starts(s.tasks[i], s.generation)
    ensures UnderWay(s, s.generation)
  {
  }

  lemma DeliverHeader(s: State)
    requires HeaderOk(s) && s.tasks != [] && s.tasks[0].Relay?
    ensures HeaderOk(Deliver(s))
  {
    hide UnderWay;
    var s', g := Deliver(s), s.generation;
    if s.header == Some(g) && !s.violated && s.open {
      if Starts(s.tasks[0], g) {
        TimerArmed(s', g);
      } else {
        PopUnderWay(s, g);
        MoreUnderWay(Pop(s), s', g);
      }
    }
  }

  lemma TimerArmed(s: State, g: nat)
    requires s.timer == Some(g)
    ensures UnderWay(s, g)
  {
  }

  lemma RebuildHeader(c: AdapterConfig, s: State)
    requires HeaderOk(s) && s.tasks != [] && s.tasks[0].Rebuild?
    ensures HeaderOk(RunRebuild(c, s))
  {
    hide UnderWay;
    var s', g := RunRebuild(c, s), s.generation;
    if s.header == Some(g) && !s.violated && s.open {
      if s.tasks[0] == Rebuild(g) {
        RebuildDone(c, s);
      } else {
        PopUnderWay(s, g);
      }
    }
  }

  lemma RebuildDone(c: AdapterConfig, s: State)
    requires s.tasks != [] && s.tasks[0] == Rebuild(s.generation) && !s.violated && s.open
    ensures UnderWay(RunRebuild(c, s), s.generation)
  {
    var s' := RunRebuild(c, s);
    if Units(c, s.guard) != map[] {
      assert s'.outputs[|s.outputs|].Forced?;
    }
  }

  lemma TimerHeader(s: State)
    requires HeaderOk(s) && s.timer.Some?
    ensures HeaderOk(s.(timer := None, tasks := s.tasks + [Rebuild(s.timer.value)]))
  {
    hide UnderWay;
    var s' := s.(timer := None, tasks := s.tasks + [Rebuild(s.timer.value)]);
    if s.header == Some(s.generation) && !s.violated && s.open {
      assert s'.tasks[|s.tasks|] == Rebuild(s.timer.value);
      MoreUnderWay(s, s', s.generation);
    }
  }

  lemma StepHeader(c: AdapterConfig, s: State, step: Step)
    requires HeaderOk(s) && Enabled(s, step)
    ensures HeaderOk(Apply(c, s, step))
  {
    hide Receive, Deliver, RunRebuild;
    match step
    case DoReceive(m) => ReceiveHeader(c, s, m);
    case DoBegin =>
      if !s.violated && s.tasks[0].arrival.update.None? {
        DeliverHeader(s);
      }
    case DoResume => DeliverHeader(s);
    case DoRebuild => RebuildHeader(c, s);
    case DoTimer => TimerHeader(s);
    case _ =>
  }

  lemma {:induction false} RunHeader(c: AdapterConfig, run: seq<State>, i: nat)
    requires IsRun(c, run) && i < |run|
    ensures HeaderOk(run[i])
  {
    hide HeaderOk, Enabled, Apply;
    if i == 0 {
      FirstHeader(run[0]);
    } else {
      RunHeader(c, run, i - 1);
      assert Next(c, run[i - 1], run[i - 1 + 1]);
      var step :| Enabled(run[i - 1], step) && run[i] == Apply(c, run[i - 1], step);
      StepHeader(c, run[i - 1], step);
    }
  }

  lemma FirstHeader(s: State)
    requires exists now, disk :: s == Init(now, disk)
    ensures HeaderOk(s)
  {
  }

  /**
   When nothing is queued and no timer is armed, the last accepted header update, unless a
   violation, a close or a cancellation came after it, has forced its rebuild, or its rebuild
   found no translation unit open.
   */
  lemma NoHeaderUpdateIsLost(c: AdapterConfig, run: seq<State>, i: nat)
    requires IsRun(c, run) && i < |run| && run[i].tasks == [] && run[i].timer.None?
    requires run[i].open && !run[i].violated && run[i].header == Some(run[i].generation)
    ensures WasForced(run[i].outputs, run[i].generation) || run[i].generation in run[i].idle
  {
    hide Next;
    RunHeader(c, run, i);
  }

  // ---- what a step adds to the record ----------------------------------------------------------

  /** The rebuild at the head of the chain belongs to the current generation and may be sent. */
  predicate RebuildIsDue(s: State, g: nat) {
    s.tasks != [] && s.tasks[0] == Rebuild(g) && g == s.generation && s.open && !s.violated
  }

  /** These are the open translation units, each under the version the guard tracks. */
  ghost predicate IsOpenUnits(c: AdapterConfig, g: GuardState, versions: map<Text, nat>) {
    && (forall uri :: uri in versions <==> uri in g.documents && uri in c.units)
    && (forall uri :: uri in versions ==> versions[uri] == g.documents[uri].version)
  }

  /** The rebuild forces every open translation unit, or notes that there is none. */
  lemma RebuildMeans(c: AdapterConfig, s: State, g: nat)
    requires RebuildIsDue(s, g)
    ensures var s' := RunRebuild(c, s);
            if exists uri :: uri in s.guard.documents && uri in c.units
            then && s'.idle == s.idle && |s'.outputs| == |s.outputs| + 1 && s.outputs <= s'.outputs
                 && s'.outputs[|s.outputs|].Forced? && s'.outputs[|s.outputs|].generation == g
                 && IsOpenUnits(c, s.guard, s'.outputs[|s.outputs|].versions)
            else s'.outputs == s.outputs && s'.idle == s.idle + {g}
  {
    assert IsOpenUnits(c, s.guard, Units(c, s.guard));
    if uri :| uri in s.guard.documents && uri in c.units {
      assert uri in Units(c, s.guard);
    }
  }

  /** Forced rebuilds and idle generations come from a rebuild that is due, and from nothing else. */
  lemma RecordMeans(c: AdapterConfig, s: State, step: Step)
    requires Enabled(s, step)
    ensures var s' := Apply(c, s, step);
            && s.outputs <= s'.outputs && |s'.outputs| <= |s.outputs| + 1
            && (|s'.outputs| > |s.outputs| && s'.outputs[|s.outputs|].Forced? ==>
                  step == DoRebuild && RebuildIsDue(s, s'.outputs[|s.outputs|].generation))
            && (forall g :: g in s'.idle && g !in s.idle ==> step == DoRebuild && RebuildIsDue(s, g))
            && s.idle <= s'.idle
            && (step == DoRebuild ==> s' == RunRebuild(c, s))
            && (step != DoRebuild && s.tasks != [] && s.tasks[0].Rebuild? ==> |s'.tasks| >= |s.tasks|)
  {
    hide OnMessage;
  }

  /** The update of an accepted message starts a new generation exactly when it edits a header. */
  lemma HeaderMeans(c: AdapterConfig, s: State, step: Step)
    requires Enabled(s, step)
    ensures var s' := Apply(c, s, step);
            if step.DoReceive? && |s'.arrivals| > |s.arrivals|
            then
              var update := s'.arrivals[|s.arrivals|].update;
              if update.Some? && update.value.notifyDependents && update.value.uri in c.headers
              then s'.generation == s.generation + 1 && s'.header == Some(s'.generation) && s'.timer.None?
                   && |s'.tasks| == |s.tasks| + 1 && Starts(s'.tasks[|s.tasks|], s'.generation)
              else s'.generation == s.generation && s'.header == s.header && s'.timer == s.timer
            else s'.header == s.header
  {
    hide OnMessage;
  }

  // ---- over a run ---------------------------------------------------------------------------------

  /** At step `j` the run sends the forced rebuild that is output `k`. */
  ghost predicate SendsAt(c: AdapterConfig, run: seq<State>, j: nat, k: nat)
    requires j + 1 < |run|
  {
    && |run[j].outputs| == k < |run[j + 1].outputs| && run[j + 1].outputs[k].Forced?
    && RebuildIsDue(run[j], run[j + 1].outputs[k].generation)
    && IsOpenUnits(c, run[j].guard, run[j + 1].outputs[k].versions)
    && run[j + 1].outputs[k].versions != map[]
  }

  /**
   Every forced rebuild names exactly the translation units open at the step that sends it, each
   under its current version, and there is at least one.
   */
  lemma {:induction false} RebuildIsComplete(c: AdapterConfig, run: seq<State>, i: nat, k: nat)
    requires IsRun(c, run) && i < |run| && k < |run[i].outputs| && run[i].outputs[k].Forced?
    ensures exists j: nat :: j < i && SendsAt(c, run, j, k) && run[j + 1].outputs[k] == run[i].outputs[k]
  {
    hide Enabled, Apply, RunRebuild, IsOpenUnits;
    if i > 0 {
      assert Next(c, run[i - 1], run[i - 1 + 1]);
      var step :| Enabled(run[i - 1], step) && run[i] == Apply(c, run[i - 1], step);
      RecordMeans(c, run[i - 1], step);
      if k < |run[i - 1].outputs| {
        RebuildIsComplete(c, run, i - 1, k);
      } else {
        var g := run[i].outputs[k].generation;
        RebuildMeans(c, run[i - 1], g);
        assert run[i].outputs[k].versions != map[] by { HasUnit(c, run[i - 1].guard, run[i].outputs[k].versions); }
        assert SendsAt(c, run, i - 1, k);
      }
    }
  }

  lemma HasUnit(c: AdapterConfig, g: GuardState, versions: map<Text, nat>)
    requires IsOpenUnits(c, g, versions) && exists uri :: uri in g.documents && uri in c.units
    ensures versions != map[]
  {
    var uri :| uri in g.documents && uri in c.units;
    assert uri in versions;
  }

  /** A generation is idle exactly when its rebuild came up while no translation unit was open. */
  lemma {:induction false} IdleMeans(c: AdapterConfig, run: seq<State>, i: nat, g: nat)
    requires IsRun(c, run) && i < |run|
    ensures g in run[i].idle <==>
              exists j: nat :: j < i && IdlesAt(c, run, j, g)
  {
    hide Enabled, Apply, RunRebuild;
    if i > 0 {
      IdleMeans(c, run, i - 1, g);
      assert Next(c, run[i - 1], run[i - 1 + 1]);
      var step :| Enabled(run[i - 1], step) && run[i] == Apply(c, run[i - 1], step);
      RecordMeans(c, run[i - 1], step);
      if step == DoRebuild && RebuildIsDue(run[i - 1], g) {
        RebuildMeans(c, run[i - 1], g);
        RebuildPops(c, run[i - 1]);
        assert g in run[i].idle && g !in run[i - 1].idle ==> IdlesAt(c, run, i - 1, g);
      }
    }
  }

  lemma RebuildPops(c: AdapterConfig, s: State)
    requires s.tasks != [] && s.tasks[0].Rebuild?
    ensures RunRebuild(c, s).tasks == s.tasks[1..]
  {
  }

  /** Step `j` takes the due rebuild off the chain while no translation unit is open. */
  ghost predicate IdlesAt(c: AdapterConfig, run: seq<State>, j: nat, g: nat)
    requires j + 1 < |run|
  {
    && RebuildIsDue(run[j], g) && run[j + 1].tasks == run[j].tasks[1..]
    && forall uri :: uri in run[j].guard.documents ==> uri !in c.units
  }

  // ---- cancellation ---------------------------------------------------------------------------------

  lemma GenerationGrows(c: AdapterConfig, s: State, step: Step)
    requires Enabled(s, step)
    ensures s.generation <= Apply(c, s, step).generation
  {
    hide OnMessage;
  }

  /** A close event or the disposal of the adapter ends the current generation and leaves workspace and queue alone. */
  lemma CancelMeans(c: AdapterConfig, s: State)
    ensures var s' := Apply(c, s, DoCancel);
            && s'.generation == s.generation + 1 && s'.timer.None?
            && s'.disk == s.disk && s'.workspace == s.workspace && s'.tasks == s.tasks
            && s'.outputs == s.outputs && s'.guard == s.guard
  {
  }

  /** A cancelled generation forces no rebuild afterwards, even if its rebuild was already queued. */
  lemma {:induction false} CancelledIsNeverForced(c: AdapterConfig, run: seq<State>, i: nat, j: nat)
    requires IsRun(c, run) && i < j < |run| && run[i + 1] == Apply(c, run[i], DoCancel)
    ensures run[i].generation < run[j].generation && run[i].outputs <= run[j].outputs
    ensures forall k :: |run[i].outputs| <= k < |run[j].outputs| && run[j].outputs[k].Forced? ==>
              run[i].generation < run[j].outputs[k].generation
  {
    hide Enabled, Apply;
    if j == i + 1 {
      CancelMeans(c, run[i]);
    } else {
      CancelledIsNeverForced(c, run, i, j - 1);
      assert Next(c, run[j - 1], run[j - 1 + 1]);
      var step :| Enabled(run[j - 1], step) && run[j] == Apply(c, run[j - 1], step);
      GenerationGrows(c, run[j - 1], step);
      RecordMeans(c, run[j - 1], step);
    }
  }
}

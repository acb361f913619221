/**
 The workspace mirrors the guard, messages leave in arrival order, and forced
 rebuilds come only after the header updates they are for.
 */
module Mirror {
  import opened Common
  import opened Text
  import opened Utf8
  import opened Json
  import opened Positions
  import opened Guard
  import opened GuardLedger
  import opened Adapter

  // ---- the workspace --------------------------------------------------------------------

  function Landed(disk: map<Text, seq<Byte>>, t: Task): map<Text, seq<Byte>> {
    if t.Relay? && t.arrival.update.Some?
    then disk[t.arrival.update.value.uri := Encode(t.arrival.update.value.text)]
    else disk
  }

  /** The workspace once every queued update has been written. */
  function Settled(disk: map<Text, seq<Byte>>, tasks: seq<Task>): map<Text, seq<Byte>>
    decreases |tasks|
  {
    if tasks == [] then disk else Settled(Landed(disk, tasks[0]), tasks[1..])
  }

  lemma {:induction false} SettledAppend(disk: map<Text, seq<Byte>>, tasks: seq<Task>, t: Task)
    ensures Settled(disk, tasks + [t]) == Landed(Settled(disk, tasks), t)
    decreases |tasks|
  {
    if tasks == [] {
      assert ([] + [t])[1..] == [];
      assert Settled(Landed(disk, t), []) == Landed(disk, t);
    } else {
      assert (tasks + [t])[1..] == tasks[1..] + [t];
      SettledAppend(Landed(disk, tasks[0]), tasks[1..], t);
    }
  }

  /** Every open document's file will hold the UTF-8 encoding of its tracked text. */
  ghost predicate Mirrors(docs: map<Text, Tracked>, disk: map<Text, seq<Byte>>) {
    forall uri :: uri in docs ==> uri in disk && disk[uri] == Encode(docs[uri].text)
  }

  ghost predicate DiskOk(s: State) {
    && (s.workspace || (!s.open && s.disk == map[]))
    && (s.progress == Written ==>
          && s.tasks != [] && s.tasks[0].Relay? && s.tasks[0].arrival.update.Some?
          && (s.workspace ==> Landed(s.disk, s.tasks[0]) == s.disk))
    && (s.progress == Writing ==> s.tasks != [] && s.tasks[0].Relay? && s.tasks[0].arrival.update.Some?)
    && (!s.violated && s.workspace ==> Mirrors(s.guard.documents, Settled(s.disk, s.tasks)))
  }

  /** A message changes tracked texts exactly as its update will change the workspace. */
  lemma MirrorsStep(g: GuardState, g': GuardState, disk: map<Text, seq<Byte>>, m: Message, generation: Option<nat>)
    requires DocumentsStep(g, g') && Mirrors(g.documents, disk)
    ensures Mirrors(g'.documents, Landed(disk, Relay(Arrival(m, g'.update), generation)))
  {
  }

  // ---- arrival order --------------------------------------------------------------------

  function Sent(outputs: seq<Output>): seq<Arrival>
  {
    if outputs == [] then []
    else
      var last := outputs[|outputs| - 1];
      Sent(outputs[..|outputs| - 1]) + if last.Forwarded? then [last.arrival] else []
  }

  function Queued(tasks: seq<Task>): seq<Arrival> {
    if tasks == [] then []
    else (if tasks[0].Relay? then [tasks[0].arrival] else []) + Queued(tasks[1..])
  }

  lemma SentAppend(outputs: seq<Output>, o: Output)
    ensures Sent(outputs + [o]) == Sent(outputs) + if o.Forwarded? then [o.arrival] else []
  {
    assert (outputs + [o])[..|outputs|] == outputs;
  }

  lemma {:induction false} QueuedAppend(tasks: seq<Task>, t: Task)
    ensures Queued(tasks + [t]) == Queued(tasks) + if t.Relay? then [t.arrival] else []
  {
    if tasks == [] {
      assert [] + [t] == [t];
      assert Queued([t]) == (if t.Relay? then [t.arrival] else []) + Queued([]);
    } else {
      QueuedAppend(tasks[1..], t);
      assert (tasks + [t])[1..] == tasks[1..] + [t];
      assert (tasks + [t])[0] == tasks[0];
      var first := if tasks[0].Relay? then [tasks[0].arrival] else [];
      var last := if t.Relay? then [t.arrival] else [];
      assert Queued(tasks + [t]) == first + Queued(tasks[1..] + [t]);
      assert first + (Queued(tasks[1..]) + last) == first + Queued(tasks[1..]) + last;
    }
  }

  /** Whatever was sent is a prefix of what arrived; the queue is the rest as long as nothing stops it. */
  ghost predicate OrderOk(s: State) {
    && Sent(s.outputs) <= s.arrivals
    && (!s.violated && s.open ==> Sent(s.outputs) + Queued(s.tasks) == s.arrivals)
  }

  /** Each message was forwarded with its own update on disk. */
  ghost predicate OnDiskOk(outputs: seq<Output>) {
    forall i :: 0 <= i < |outputs| && outputs[i].Forwarded? && outputs[i].arrival.update.Some? ==>
      var u := outputs[i].arrival.update.value;
      u.uri in outputs[i].disk && outputs[i].disk[u.uri] == Encode(u.text)
  }

  // ---- rebuild generations --------------------------------------------------------------

  /** The generation whose header update is still queued in this task. */
  predicate Starts(t: Task, g: nat) {
    t.Relay? && t.starts == Some(g)
  }

  /** Generations move from queued update to timer to queued rebuild to done, in that order. */
  ghost predicate TasksOk(tasks: seq<Task>, generation: nat) {
    && (forall i, g: nat :: 0 <= i < |tasks| && Starts(tasks[i], g) ==> g <= generation)
    && (forall i :: 0 <= i < |tasks| && tasks[i].Rebuild? ==> tasks[i].generation <= generation)
    && (forall i, j :: 0 <= i < j < |tasks| && tasks[i].Rebuild? && tasks[j].Rebuild? ==>
          tasks[i].generation < tasks[j].generation)
    && (forall i, j, g: nat, h: nat :: 0 <= i < j < |tasks| && Starts(tasks[i], g) && Starts(tasks[j], h) ==> g < h)
    && (forall i, j, g: nat :: 0 <= i < |tasks| && 0 <= j < |tasks| && tasks[i].Rebuild? && Starts(tasks[j], g) ==>
          tasks[i].generation < g)
  }

  /** A header update that is queued starts a generation. */
  ghost predicate HeadersOk(c: AdapterConfig, tasks: seq<Task>) {
    forall i :: 0 <= i < |tasks| && tasks[i].Relay? && IsHeader(c, tasks[i].arrival) ==> tasks[i].starts.Some?
  }

  /** An armed timer belongs to the current generation, whose update is no longer queued. */
  ghost predicate TimerOk(timer: Option<nat>, generation: nat, tasks: seq<Task>) {
    timer.Some? ==>
      && timer.value == generation
      && (forall i, g: nat :: 0 <= i < |tasks| ==> !Starts(tasks[i], g))
      && (forall i :: 0 <= i < |tasks| && tasks[i].Rebuild? ==> tasks[i].generation < generation)
  }

  /** Forced rebuilds come in generation order, each generation at most once. */
  ghost predicate ForcedInOrder(outputs: seq<Output>) {
    forall i, j :: 0 <= i < j < |outputs| && outputs[i].Forced? && outputs[j].Forced? ==>
      outputs[i].generation < outputs[j].generation
  }

  /** A generation that forced a rebuild is behind every timer, queued rebuild and queued update. */
  ghost predicate ForcedIsPast(outputs: seq<Output>, generation: nat, timer: Option<nat>, tasks: seq<Task>) {
    forall i :: 0 <= i < |outputs| && outputs[i].Forced? ==>
      && outputs[i].generation <= generation
      && (timer.Some? ==> outputs[i].generation < timer.value)
      && (forall j :: 0 <= j < |tasks| && tasks[j].Rebuild? ==> outputs[i].generation < tasks[j].generation)
      && (forall j, g: nat :: 0 <= j < |tasks| && Starts(tasks[j], g) ==> outputs[i].generation < g)
  }

  ghost predicate RebuildOk(c: AdapterConfig, s: State) {
    && TasksOk(s.tasks, s.generation)
    && HeadersOk(c, s.tasks)
    && TimerOk(s.timer, s.generation, s.tasks)
    && ForcedInOrder(s.outputs)
    && ForcedIsPast(s.outputs, s.generation, s.timer, s.tasks)
  }

  ghost predicate Inv(c: AdapterConfig, s: State) {
    && GuardOk(c.guard, s.guard)
    && DiskOk(s)
    && OrderOk(s)
    && OnDiskOk(s.outputs)
    && RebuildOk(c, s)
  }

  // ---- elementary changes ---------------------------------------------------------------

  lemma CancelKeeps(c: AdapterConfig, s: State)
    requires Inv(c, s)
    ensures Inv(c, Cancel(s))
  {
    hide GuardOk;
  }

  lemma ViolateKeeps(c: AdapterConfig, s: State)
    requires Inv(c, s)
    ensures Inv(c, Violate(s))
  {
    hide GuardOk, TasksOk, HeadersOk, TimerOk, ForcedInOrder, ForcedIsPast, Settled;
    CancelKeeps(c, s);
  }

  /** Popping a task whose update, if any, has landed. */
  lemma PopKeeps(c: AdapterConfig, s: State)
    requires Inv(c, s) && s.tasks != []
    requires s.violated || !s.workspace || Landed(s.disk, s.tasks[0]) == s.disk
    requires s.violated || !s.open || s.tasks[0].Rebuild?
    ensures Inv(c, Pop(s))
  {
    hide GuardOk, ForcedInOrder;
    PopRebuild(c, s);
  }

  lemma PopRebuild(c: AdapterConfig, s: State)
    requires RebuildOk(c, s) && s.tasks != []
    ensures RebuildOk(c, Pop(s))
  {
    var rest := s.tasks[1..];
    assert forall i :: 0 <= i < |rest| ==> rest[i] == s.tasks[i + 1];
  }

  // ---- the steps ------------------------------------------------------------------------

  lemma DeliverRebuild(c: AdapterConfig, s: State)
    requires RebuildOk(c, s) && s.tasks != [] && s.tasks[0].Relay? && !s.violated && s.open
    ensures RebuildOk(c, Deliver(s))
  {
    var rest := s.tasks[1..];
    assert forall i :: 0 <= i < |rest| ==> rest[i] == s.tasks[i + 1];
    var s' := Deliver(s);
    if s.tasks[0].starts == Some(s.generation) {
      assert Starts(s.tasks[0], s.generation);
    }
    assert TimerOk(s'.timer, s'.generation, s'.tasks);
  }

  /** Forwarding a message whose update, if any, has landed. */
  lemma DeliverKeeps(c: AdapterConfig, s: State)
    requires Inv(c, s) && s.tasks != [] && s.tasks[0].Relay?
    requires s.workspace ==> Landed(s.disk, s.tasks[0]) == s.disk
    ensures Inv(c, Deliver(s))
  {
    if s.violated || !s.open {
      hide Inv;
      PopKeeps(c, s);
    } else {
      var o := Forwarded(s.tasks[0].arrival, s.disk);
      DeliverRebuild(c, s);
      hide GuardOk, RebuildOk;
      SentAppend(s.outputs, o);
      assert Sent(s.outputs) + ([o.arrival] + Queued(s.tasks[1..]))
          == Sent(s.outputs) + [o.arrival] + Queued(s.tasks[1..]);
      assert o.arrival.update.Some? ==> s.disk[o.arrival.update.value.uri] == Encode(o.arrival.update.value.text);
      assert OnDiskOk(s.outputs + [o]);
    }
  }

  lemma BeginKeeps(c: AdapterConfig, s: State)
    requires Inv(c, s) && s.tasks != [] && s.tasks[0].Relay? && s.progress == Waiting
    ensures Inv(c, Begin(s))
  {
    if s.violated {
      PopKeeps(c, s);
    } else if s.tasks[0].arrival.update.None? {
      DeliverKeeps(c, s);
    } else {
      hide GuardOk, TasksOk, HeadersOk, TimerOk, ForcedInOrder, ForcedIsPast, Settled, Sent, Queued;
    }
  }

  lemma WriteKeeps(c: AdapterConfig, s: State)
    requires Inv(c, s) && s.tasks != [] && s.tasks[0].Relay? && s.tasks[0].arrival.update.Some?
    requires s.workspace
    ensures Inv(c, Write(s))
  {
    hide GuardOk, TasksOk, HeadersOk, TimerOk, ForcedInOrder, ForcedIsPast, Sent, Queued;
    var disk' := Write(s).disk;
    assert disk' == Landed(s.disk, s.tasks[0]);
    assert Landed(disk', s.tasks[0]) == disk';
  }

  lemma AppendRelay(c: AdapterConfig, s: State, a: Arrival)
    requires RebuildOk(c, s)
    ensures IsHeader(c, a) ==> RebuildOk(c, Cancel(s).(tasks := s.tasks + [Relay(a, Some(s.generation + 1))]))
    ensures !IsHeader(c, a) ==> RebuildOk(c, s.(tasks := s.tasks + [Relay(a, None)]))
  {
  }

  /** A rejected message: the documents are untouched and the adapter stops. */
  lemma RejectKeeps(c: AdapterConfig, s: State, g: GuardState)
    requires Inv(c, s) && GuardOk(c.guard, g) && g.documents == s.guard.documents
    ensures Inv(c, Violate(s.(guard := g)))
  {
    hide GuardOk, RebuildOk, Settled, Sent, Queued, OnDiskOk, Mirrors;
    RebuildIgnoresGuard(c, s, s.(guard := g));
    ViolateKeeps(c, s.(guard := g));
  }

  /** An accepted message joins the chain. */
  lemma AcceptKeeps(c: AdapterConfig, s: State, m: Message, g: GuardState)
    requires Inv(c, s) && GuardOk(c.guard, g) && DocumentsStep(s.guard, g)
    requires OnMessage(c.guard, s.guard, m) == (g, Accepted)
    ensures Inv(c, Receive(c, s, m))
  {
    hide OnMessage, GuardOk, RebuildOk, Settled, Sent, Queued, OnDiskOk, Mirrors, Landed, DocumentsStep;
    var arrival := Arrival(m, g.update);
    var starts := if IsHeader(c, arrival) then Some(s.generation + 1) else None;
    var s' := Receive(c, s, m);
    AppendRelay(c, s, arrival);
    RebuildIgnoresGuard(c, if IsHeader(c, arrival) then Cancel(s).(tasks := s'.tasks) else s.(tasks := s'.tasks), s');
    SettledAppend(s.disk, s.tasks, Relay(arrival, starts));
    QueuedAppend(s.tasks, Relay(arrival, starts));
    if !s.violated && s.workspace {
      MirrorsStep(s.guard, g, Settled(s.disk, s.tasks), m, starts);
    }
    TakenOk(c.guard, g);
    assert Sent(s.outputs) + (Queued(s.tasks) + [arrival]) == Sent(s.outputs) + Queued(s.tasks) + [arrival];
  }

  lemma ReceiveKeeps(c: AdapterConfig, s: State, m: Message)
    requires Inv(c, s)
    ensures Inv(c, Receive(c, s, m))
  {
    hide OnMessage, RebuildOk, Settled, Sent, Queued, OnDiskOk, Mirrors, DocumentsStep, DiskOk, OrderOk, GuardOk;
    MessageKeeps(c.guard, s.guard, m);
    var (g, answer) := OnMessage(c.guard, s.guard, m);
    if answer != Accepted {
      RejectKeeps(c, s, g);
    } else {
      AcceptKeeps(c, s, m, g);
    }
  }

  lemma TakenOk(c: GuardConfig, g: GuardState)
    requires GuardOk(c, g)
    ensures GuardOk(c, g.(update := None))
  {
  }

  lemma RebuildIgnoresGuard(c: AdapterConfig, s: State, s': State)
    requires RebuildOk(c, s)
    requires s'.tasks == s.tasks && s'.generation == s.generation && s'.timer == s.timer && s'.outputs == s.outputs
    ensures RebuildOk(c, s')
  {
  }

  lemma TimerRebuild(c: AdapterConfig, s: State)
    requires RebuildOk(c, s) && s.timer.Some?
    ensures RebuildOk(c, s.(timer := None, tasks := s.tasks + [Rebuild(s.timer.value)]))
  {
  }

  lemma TimerKeeps(c: AdapterConfig, s: State)
    requires Inv(c, s) && s.timer.Some?
    ensures Inv(c, s.(timer := None, tasks := s.tasks + [Rebuild(s.timer.value)]))
  {
    hide GuardOk, RebuildOk, Sent, Settled, Queued, OnDiskOk, Mirrors;
    var t := Rebuild(s.timer.value);
    TimerRebuild(c, s);
    SettledAppend(s.disk, s.tasks, t);
    QueuedAppend(s.tasks, t);
    assert Queued(s.tasks) + [] == Queued(s.tasks);
  }

  /** Nothing of a header update is still queued when its generation's rebuild comes up. */
  lemma NoHeaderQueued(c: AdapterConfig, s: State)
    requires RebuildOk(c, s) && s.tasks != [] && s.tasks[0] == Rebuild(s.generation)
    ensures forall i :: 0 <= i < |s.tasks| && s.tasks[i].Relay? ==> !IsHeader(c, s.tasks[i].arrival)
  {
    forall i | 0 <= i < |s.tasks| && s.tasks[i].Relay?
      ensures s.tasks[i].starts.None?
    {
      if s.tasks[i].starts.Some? {
        assert Starts(s.tasks[i], s.tasks[i].starts.value);
      }
    }
  }

  lemma RebuildRebuild(c: AdapterConfig, s: State, o: Output)
    requires RebuildOk(c, s) && s.tasks != [] && s.tasks[0].Rebuild?
    requires o.Forced? && o.generation == s.tasks[0].generation == s.generation
    ensures RebuildOk(c, Pop(s).(outputs := s.outputs + [o]))
  {
    var rest := s.tasks[1..];
    assert forall i :: 0 <= i < |rest| ==> rest[i] == s.tasks[i + 1];
    assert s.timer.None?;
    assert ForcedInOrder(s.outputs + [o]);
  }

  lemma ForceKeeps(c: AdapterConfig, s: State, o: Output)
    requires Inv(c, s) && s.tasks != [] && s.tasks[0].Rebuild?
    requires o.Forced? && o.generation == s.tasks[0].generation == s.generation
    ensures Inv(c, Pop(s).(outputs := s.outputs + [o]))
  {
    hide GuardOk, RebuildOk, Sent, Mirrors;
    RebuildRebuild(c, s, o);
    SentAppend(s.outputs, o);
    assert Sent(s.outputs) + [] == Sent(s.outputs);
    assert Queued(s.tasks) == [] + Queued(s.tasks[1..]);
    assert Settled(s.disk, s.tasks) == Settled(s.disk, s.tasks[1..]);
    assert OnDiskOk(s.outputs + [o]);
  }

  lemma RebuildKeeps(c: AdapterConfig, s: State)
    requires Inv(c, s) && s.tasks != [] && s.tasks[0].Rebuild?
    ensures Inv(c, RunRebuild(c, s))
  {
    hide Inv;
    var s' := RunRebuild(c, s);
    if s'.outputs == s.outputs {
      PopKeeps(c, s);
      IdleIsHistory(c, Pop(s), s'.idle);
    } else {
      ForceKeeps(c, s, Forced(s.generation, Units(c, s.guard)));
    }
  }

  lemma IdleIsHistory(c: AdapterConfig, s: State, idle: set<nat>)
    requires Inv(c, s)
    ensures Inv(c, s.(idle := idle))
  {
    hide GuardOk, TasksOk, HeadersOk, TimerOk, ForcedInOrder, ForcedIsPast, Settled, Sent, Queued, Mirrors;
  }

  lemma RemoveKeeps(c: AdapterConfig, s: State)
    requires Inv(c, s) && !s.open
    ensures Inv(c, s.(disk := map[], workspace := false))
  {
    hide GuardOk, TasksOk, HeadersOk, TimerOk, ForcedInOrder, ForcedIsPast, Settled, Sent, Queued, Mirrors;
  }

  lemma CloseKeeps(c: AdapterConfig, s: State)
    requires Inv(c, s)
    ensures Inv(c, s.(open := false))
  {
    hide GuardOk, TasksOk, HeadersOk, TimerOk, ForcedInOrder, ForcedIsPast, Settled, Sent, Queued;
  }

  lemma WriteFailKeeps(c: AdapterConfig, s: State)
    requires Inv(c, s) && s.tasks != []
    ensures Inv(c, Pop(Violate(s)))
  {
    hide Inv;
    ViolateKeeps(c, s);
    PopKeeps(c, Violate(s));
  }

  lemma StepKeeps(c: AdapterConfig, s: State, step: Step)
    requires Inv(c, s) && Enabled(s, step)
    ensures Inv(c, Apply(c, s, step))
  {
    match step
    case DoReceive(m) => hide Inv; ReceiveKeeps(c, s, m);
    case DoViolate => hide Inv; ViolateKeeps(c, s);
    case DoBegin => hide Inv; BeginKeeps(c, s);
    case DoWrite => hide Inv; WriteKeeps(c, s);
    case DoWriteFail => hide Inv; WriteFailKeeps(c, s);
    case DoResume => DeliverKeeps(c, s);
    case DoTimer => hide Inv; TimerKeeps(c, s);
    case DoRebuild => hide Inv; RebuildKeeps(c, s);
    case DoClose => hide Inv; CloseKeeps(c, s);
    case DoCancel => hide Inv; CancelKeeps(c, s);
    case DoRemove => hide Inv; RemoveKeeps(c, s);
  }

  // ---- whole runs -----------------------------------------------------------------------

  lemma InitInv(c: AdapterConfig, now: int, disk: map<Text, seq<Byte>>)
    ensures Inv(c, Init(now, disk))
  {
  }

  lemma {:induction false} RunInv(c: AdapterConfig, run: seq<State>, i: nat)
    requires IsRun(c, run) && i < |run|
    ensures Inv(c, run[i])
  {
    hide Inv, Enabled, Apply;
    if i == 0 {
      var now, disk :| run[0] == Init(now, disk);
      InitInv(c, now, disk);
    } else {
      RunInv(c, run, i - 1);
      assert Next(c, run[i - 1], run[i - 1 + 1]);
      var step :| Enabled(run[i - 1], step) && run[i] == Apply(c, run[i - 1], step);
      StepKeeps(c, run[i - 1], step);
    }
  }

  /**
   Once the chain has drained without a violation, every open document's file holds its text in
   UTF-8, exactly until the cleanup of the session removes the workspace.
   */
  lemma DrainedDiskMirrorsGuard(c: AdapterConfig, run: seq<State>, i: nat, uri: Text)
    requires IsRun(c, run) && i < |run| && run[i].tasks == [] && !run[i].violated
    requires uri in run[i].guard.documents
    ensures uri in run[i].disk <==> run[i].workspace
    ensures run[i].workspace ==> run[i].disk[uri] == Encode(run[i].guard.documents[uri].text)
  {
    hide Next;
    RunInv(c, run, i);
  }

  /** Such a file gives the tracked text back exactly when the text has no lone surrogate. */
  lemma FileGivesBackTextIff(c: AdapterConfig, run: seq<State>, i: nat, uri: Text)
    requires IsRun(c, run) && i < |run| && run[i].tasks == [] && !run[i].violated
    requires uri in run[i].guard.documents
    ensures var text := run[i].guard.documents[uri].text;
            uri in run[i].disk ==> (Decode(run[i].disk[uri]) == text <==> WellFormed(text))
  {
    hide Next, Decode, Encode, WellFormed;
    DrainedDiskMirrorsGuard(c, run, i, uri);
    RoundTripIff(run[i].guard.documents[uri].text);
  }

  /** The parameters of a `didOpen`. */
  function OpenParams(uri: Text, text: Text): Maybe {
    Defined(Obj([Field("textDocument",
                       Obj([Field("uri", Str(uri)), Field("version", Num(1.0)), Field("text", Str(text))]))]))
  }

  /** The guard admits a lone surrogate wherever three bytes fit, and the file then reads as U+FFFD. */
  lemma LoneSurrogateIsReplaced(c: GuardConfig, g: GuardState, uri: Text, half: CodeUnit)
    requires GuardOk(c, g) && uri in c.documentUris && uri !in g.documents
    requires g.documentBytes + 3 <= c.maxDocumentBytes
    requires IsHigh(half) || IsLow(half)
    ensures CanOpen(c, g.documents, OpenParams(uri, [half]))
    ensures OpenEdit(OpenParams(uri, [half])).uri == uri && OpenEdit(OpenParams(uri, [half])).doc.text == [half]
    ensures !WellFormed([half]) && Decode(Encode([half])) == [0xFFFD]
  {
    var params := OpenParams(uri, [half]);
    OpenParamsHold(uri, [half]);
    assert Utf8Length([half]) == 3 && NUL !in [half] by { assert [half][1..] == []; }
    assert Repaired([half]) == [0xFFFD] by { assert [half][1..] == []; }
    DecodeEncode([half]);
    RepairedIff([half]);
    TotalWith(g.documents, uri, OpenEdit(params).doc);
  }

  lemma OpenParamsHold(uri: Text, text: Text)
    ensures var params := OpenParams(uri, text);
            && IsObject(Get(params.value, "textDocument")) && DocumentUri(params) == Defined(Str(uri))
            && var document := Get(params.value, "textDocument").value;
            && Get(document, "text") == Defined(Str(text)) && IsIndex(Get(document, "version"))
  {
    var a, b, d := Field("uri", Str(uri)), Field("version", Num(1.0)), Field("text", Str(text));
    assert [a, b, d][1..] == [b, d] && [b, d][1..] == [d];
    assert Find([d], "text") == Defined(Str(text)) && Find([b, d], "text") == Find([d], "text");
    assert Find([b, d], "version") == Defined(Num(1.0));
    assert Find([a, b, d], "text") == Defined(Str(text)) && Find([a, b, d], "version") == Defined(Num(1.0));
    assert Find([a, b, d], "uri") == Defined(Str(uri));
    assert Find([Field("textDocument", Obj([a, b, d]))], "textDocument") == Defined(Obj([a, b, d]));
  }

  /** A range change, as a client sends it. */
  function RangeChange(line: nat, from: nat, to: nat, text: Text): Json {
    Obj([Field("range", Obj([Field("start", At(line, from)), Field("end", At(line, to))])), Field("text", Str(text))])
  }

  function At(line: nat, character: nat): Json {
    Obj([Field("line", Num(line as real)), Field("character", Num(character as real))])
  }

  lemma AtDenotes(line: nat, character: nat)
    requires line <= 9007199254740991 && character <= 9007199254740991
    ensures IsPosition(Defined(At(line, character)))
    ensures PositionFrom(Defined(At(line, character))) == Position(line, character)
  {
    var a, b := Field("line", Num(line as real)), Field("character", Num(character as real));
    assert [a, b][1..] == [b] && a.name[0] != b.name[0];
    assert Find([b], "character") == Defined(b.value) && Find([a, b], "character") == Find([a, b][1..], "character");
    assert Find([a, b], "line") == Defined(a.value);
    assert (line as real).Floor == line && (character as real).Floor == character;
  }

  lemma RangeChangeHolds(line: nat, from: nat, to: nat, text: Text)
    ensures var change := RangeChange(line, from, to, text);
            && change.Obj? && Get(change, "text") == Defined(Str(text)) && Get(change, "rangeLength").Undefined?
            && Get(change, "range").Defined? && Get(change, "range").value.Obj?
            && Get(Get(change, "range").value, "start") == Defined(At(line, from))
            && Get(Get(change, "range").value, "end") == Defined(At(line, to))
  {
    var a, b := Field("start", At(line, from)), Field("end", At(line, to));
    var d, e := Field("range", Obj([a, b])), Field("text", Str(text));
    assert [a, b][1..] == [b] && [d, e][1..] == [e] && [e][1..] == [];
    assert a.name[0] == 's' && b.name[0] == 'e' && d.name[0] == 'r' && e.name[0] == 't' && |d.name| == 5;
    assert Find([b], "end") == Defined(b.value) && Find([a, b], "end") == Find([a, b][1..], "end");
    assert Find([a, b], "start") == Defined(a.value) && Find([d, e], "range") == Defined(d.value);
    assert Find([e], "text") == Defined(e.value) && Find([d, e], "text") == Find([d, e][1..], "text");
    assert Find([e], "rangeLength") == Find([e][1..], "rangeLength");
    assert Find([d, e], "rangeLength") == Find([d, e][1..], "rangeLength");
  }

  /** The guard applies an edit between the two halves of a pair, and the text it then tracks is not well formed. */
  lemma SplitPairIsReplaced(high: CodeUnit, low: CodeUnit, max: nat)
    requires IsHigh(high) && IsLow(low) && max >= 7
    ensures WellFormed([high, low])
    ensures Applied([high, low], RangeChange(0, 1, 1, [97]), max) == Some([high, 97, low])
    ensures !WellFormed([high, 97, low])
  {
    hide RangeChange, At, Get;
    var t, change := [high, low], RangeChange(0, 1, 1, [97]);
    SplitPair(high, low);
    RangeChangeHolds(0, 1, 1, [97]);
    AtDenotes(0, 1);
    assert Applicable(t, change);
    assert Changed(t, change) == Splice(t, Position(0, 1), Position(0, 1), [97]);
  }

  lemma SplitPair(high: CodeUnit, low: CodeUnit)
    requires IsHigh(high) && IsLow(low)
    ensures var t := [high, low];
            && WellFormed(t) && Valid(t, Position(0, 1))
            && Splice(t, Position(0, 1), Position(0, 1), [97]) == [high, 97, low]
            && !WellFormed([high, 97, low]) && IsSafe([high, 97, low], 7)
  {
    var t, u := [high, low], [high, 97, low];
    assert t[1..] == [low] && t[1..][1..] == [] && t[2..] == [];
    assert u[1..] == [97, low] && [97, low][1..] == [low] && [low][1..] == [];
    assert NextLf(t, 0).None?;
    assert Utf8Length([low]) == 3 && Utf8Length([97, low]) == 4 && Utf8Length(u) == 7;
  }

  /** Messages are forwarded in arrival order, each with its own update already on disk. */
  lemma ForwardedInOrder(c: AdapterConfig, run: seq<State>, i: nat)
    requires IsRun(c, run) && i < |run|
    ensures Sent(run[i].outputs) <= run[i].arrivals
    ensures run[i].tasks == [] && !run[i].violated && run[i].open ==> Sent(run[i].outputs) == run[i].arrivals
    ensures forall k :: 0 <= k < |run[i].outputs| && run[i].outputs[k].Forwarded? ==>
              var arrival, disk := run[i].outputs[k].arrival, run[i].outputs[k].disk;
              arrival.update.Some? ==>
                arrival.update.value.uri in disk && disk[arrival.update.value.uri] == Encode(arrival.update.value.text)
  {
    hide Next;
    RunInv(c, run, i);
  }

  /** Each generation forces at most one rebuild, in generation order. */
  lemma OneRebuildPerGeneration(c: AdapterConfig, run: seq<State>, i: nat, j: nat, k: nat)
    requires IsRun(c, run) && i < |run| && j < k < |run[i].outputs|
    requires run[i].outputs[j].Forced? && run[i].outputs[k].Forced?
    ensures run[i].outputs[j].generation < run[i].outputs[k].generation
  {
    hide Next;
    RunInv(c, run, i);
  }

  lemma {:induction false} QueuedAt(tasks: seq<Task>, k: nat)
    requires k < |Queued(tasks)|
    ensures exists i :: 0 <= i < |tasks| && tasks[i].Relay? && tasks[i].arrival == Queued(tasks)[k]
  {
    if tasks[0].Relay? && k == 0 {
      assert tasks[0].arrival == Queued(tasks)[k];
    } else {
      var k' := if tasks[0].Relay? then k - 1 else k;
      QueuedAt(tasks[1..], k');
      var i :| 0 <= i < |tasks[1..]| && tasks[1..][i].Relay? && tasks[1..][i].arrival == Queued(tasks[1..])[k'];
      assert tasks[i + 1].arrival == Queued(tasks)[k];
    }
  }

  /**
   A forced rebuild is sent only by an open, unviolated adapter, and then every header
   update accepted so far has already been written and forwarded.
   */
  lemma RebuildComesLast(c: AdapterConfig, run: seq<State>, i: nat, k: nat)
    requires IsRun(c, run) && i < |run| && Enabled(run[i], DoRebuild)
    requires RunRebuild(c, run[i]).outputs != run[i].outputs
    requires k < |run[i].arrivals| && IsHeader(c, run[i].arrivals[k])
    ensures !run[i].violated && run[i].open
    ensures k < |Sent(run[i].outputs)| && Sent(run[i].outputs)[k] == run[i].arrivals[k]
  {
    hide Next;
    RunInv(c, run, i);
    var s := run[i];
    if k >= |Sent(s.outputs)| {
      QueuedAt(s.tasks, k - |Sent(s.outputs)|);
      NoHeaderQueued(c, s);
    }
  }

  /** Only the rebuild step sends a forced rebuild, and outputs are never taken back. */
  lemma OutputsOnlyGrow(c: AdapterConfig, s: State, step: Step)
    requires Enabled(s, step)
    ensures s.outputs <= Apply(c, s, step).outputs
    ensures step != DoRebuild ==>
              forall k :: |s.outputs| <= k < |Apply(c, s, step).outputs| ==> Apply(c, s, step).outputs[k].Forwarded?
    ensures s.violated || !s.open ==> Apply(c, s, step).outputs == s.outputs
  {
    hide OnMessage;
  }
}

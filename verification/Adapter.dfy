/**
 The WebSocket adapter of an LSP session, one step per synchronous JavaScript segment.

 Accepted messages are queued behind one promise chain; the head of the chain writes
 its document to the workspace, then forwards the message to clangd.  A header update
 starts a new rebuild generation whose timer, once fired, queues a forced rebuild.
 */
module Adapter {
  import opened Common
  import opened Text
  import opened Utf8
  import opened Guard

  datatype AdapterConfig = AdapterConfig(guard: GuardConfig, headers: set<Text>, units: set<Text>)

  /** A client message that passed the guard, with the update it confirmed. */
  datatype Arrival = Arrival(message: Message, update: Option<Update>)

  /** A link of the promise chain. */
  datatype Task =
    | Relay(arrival: Arrival, starts: Option<nat>)  // the rebuild generation it started, if any
    | Rebuild(generation: nat)

  /** How far the head of the chain is. */
  datatype Progress = Waiting | Writing | Written

  /** What clangd was sent; `disk` is the workspace at that moment, one file of UTF-8 bytes per document. */
  datatype Output =
    | Forwarded(arrival: Arrival, disk: map<Text, seq<Byte>>)
    | Forced(generation: nat, versions: map<Text, nat>)

  datatype State = State(
    guard: GuardState,
    tasks: seq<Task>,
    progress: Progress,
    disk: map<Text, seq<Byte>>,
    workspace: bool,          // until the cleanup of the session removes it
    open: bool,
    violated: bool,
    generation: nat,
    timer: Option<nat>,
    arrivals: seq<Arrival>,   // history: every accepted message, in arrival order
    outputs: seq<Output>,     // history: everything clangd was sent
    header: Option<nat>,      // history: the generation the last accepted header update started
    idle: set<nat>)           // history: generations whose rebuild found no translation unit open

  function Init(now: int, disk: map<Text, seq<Byte>>): State {
    State(Fresh(now), [], Waiting, disk, true, true, false, 0, None, [], [], None, {})
  }

  predicate IsHeader(c: AdapterConfig, a: Arrival) {
    a.update.Some? && a.update.value.notifyDependents && a.update.value.uri in c.headers
  }

  // ---- segments -------------------------------------------------------------------------

  /** `#cancelHeaderRebuild`. */
  function Cancel(s: State): State {
    s.(generation := s.generation + 1, timer := None)
  }

  /** `#reportViolation`. */
  function Violate(s: State): State {
    if s.violated then s else Cancel(s).(violated := true)
  }

  /** The message handler: validate, take the update, queue the relay. */
  ghost function Receive(c: AdapterConfig, s: State, m: Message): State {
    var (g, answer) := OnMessage(c.guard, s.guard, m);
    if answer != Accepted then Violate(s.(guard := g))
    else
      var arrival := Arrival(m, g.update);
      var s1 := s.(guard := g.(update := None), arrivals := s.arrivals + [arrival]);
      if IsHeader(c, arrival) then
        Cancel(s1).(tasks := s.tasks + [Relay(arrival, Some(s.generation + 1))], header := Some(s.generation + 1))
      else s1.(tasks := s.tasks + [Relay(arrival, None)])
  }

  function Pop(s: State): State
    requires s.tasks != []
  {
    s.(tasks := s.tasks[1..], progress := Waiting)
  }

  /** The end of a relay: forward, and arm the timer of the current generation. */
  function Deliver(s: State): State
    requires s.tasks != [] && s.tasks[0].Relay?
  {
    if s.violated || !s.open then Pop(s)
    else
      var Relay(arrival, generation) := s.tasks[0];
      Pop(s).(outputs := s.outputs + [Forwarded(arrival, s.disk)],
              timer := if generation == Some(s.generation) then generation else s.timer)
  }

  /** The start of a relay. */
  function Begin(s: State): State
    requires s.tasks != [] && s.tasks[0].Relay?
  {
    if s.violated then Pop(s)
    else if s.tasks[0].arrival.update.Some? then s.(progress := Writing)
    else Deliver(s)
  }

  /** The rename that puts the new text in place. */
  function Write(s: State): State
    requires s.tasks != [] && s.tasks[0].Relay? && s.tasks[0].arrival.update.Some?
  {
    var u := s.tasks[0].arrival.update.value;
    s.(disk := s.disk[u.uri := Encode(u.text)], progress := Written)
  }

  /** The open translation units with their versions. */
  function Units(c: AdapterConfig, g: GuardState): map<Text, nat> {
    map uri | uri in g.documents && uri in c.units :: g.documents[uri].version
  }

  function RunRebuild(c: AdapterConfig, s: State): State
    requires s.tasks != [] && s.tasks[0].Rebuild?
  {
    var generation := s.tasks[0].generation;
    if s.violated || !s.open || generation != s.generation then Pop(s)
    else if Units(c, s.guard) == map[] then Pop(s).(idle := s.idle + {generation})
    else Pop(s).(outputs := s.outputs + [Forced(generation, Units(c, s.guard))])
  }

  // ---- the step relation ----------------------------------------------------------------

  datatype Step =
    | DoReceive(message: Message)
    | DoViolate                    // a binary frame, or a server message that fails validation
    | DoBegin | DoWrite | DoWriteFail | DoResume
    | DoTimer | DoRebuild
    | DoClose                      // the socket leaves the open state
    | DoCancel                     // its close event, or the adapter is disposed
    | DoRemove                     // the cleanup removes the workspace, after closing the socket

  predicate Enabled(s: State, step: Step) {
    var relay := s.tasks != [] && s.tasks[0].Relay?;
    match step
    case DoBegin => relay && s.progress == Waiting
    case DoWrite => relay && s.progress == Writing && s.tasks[0].arrival.update.Some? && s.workspace
    case DoWriteFail => relay && s.progress == Writing && s.tasks[0].arrival.update.Some?
    case DoRemove => !s.open
    case DoResume => relay && s.progress == Written
    case DoTimer => s.timer.Some?
    case DoRebuild => s.tasks != [] && s.tasks[0].Rebuild?
    case _ => true
  }

  ghost function Apply(c: AdapterConfig, s: State, step: Step): State
    requires Enabled(s, step)
  {
    match step
    case DoReceive(m) => Receive(c, s, m)
    case DoViolate => Violate(s)
    case DoBegin => Begin(s)
    case DoWrite => Write(s)
    case DoWriteFail => Pop(Violate(s))
    case DoResume => Deliver(s)
    case DoTimer => s.(timer := None, tasks := s.tasks + [Rebuild(s.timer.value)])
    case DoRebuild => RunRebuild(c, s)
    case DoClose => s.(open := false)
    case DoCancel => Cancel(s)
    case DoRemove => s.(disk := map[], workspace := false)
  }

  ghost predicate Next(c: AdapterConfig, s: State, s': State) {
    exists step :: Enabled(s, step) && s' == Apply(c, s, step)
  }

  ghost predicate IsRun(c: AdapterConfig, run: seq<State>) {
    && |run| > 0
    && (exists now, disk :: run[0] == Init(now, disk))
    && forall i :: 0 <= i < |run| - 1 ==> Next(c, run[i], run[i + 1])
  }
}

/**
 How the API takes the messages of a worker, whatever else happens to the session meanwhile.

 An event goes through three lock segments of `handle_worker_event`: the gate, where the worker
 must hold the job; the lookup, where the session must still be in the table; and the handler.
 A failed precondition, at the gate or in the phase automaton, ends the connection; a session
 that is not found does not.
 */
module Delivery {
  import opened Common
  import opened Phases
  import opened Processes
  import opened Execution

  /** A message between its segments. */
  datatype Flight = Passed(message: Message) | Found(message: Message)

  /**
   One session in the API.  `held` while a worker has the job as its current one, `present` while
   the session is in the table, `connected` until a failed precondition; `refused` counts the
   messages answered with an error.
   */
  datatype View = View(phase: Phase, finished: bool, held: bool, present: bool, connected: bool,
                       flights: map<nat, Flight>, compiler: nat, terminal: nat, exits: nat, refused: nat)

  const CREATED := View(Phase.Queued, false, false, true, true, map[], 0, 0, 0, 0)

  datatype Arrival =
    | Assigned                             // the dispatcher gives the job to a worker
    | Gate(thread: nat, message: Message)  // an event of that worker reaches the API
    | Lookup(thread: nat)
    | Handle(thread: nat)
    | Elsewhere(reason: ExitReason)        // completed by a cancellation, an expiry, a lost connection
    | Freed                                // a completion or an unregister takes the job off the worker
    | Removed                              // a completion takes the session out of the table

  function Complete(v: View, reason: ExitReason): View {
    if v.finished then v else v.(phase := PhaseForExit(reason), finished := true, exits := v.exits + 1)
  }

  /** A failed precondition. */
  function CutOff(v: View): View {
    v.(refused := v.refused + 1, connected := false)
  }

  /** The handler. */
  function HandleMessage(v: View, m: Message): View {
    match m
    case PhaseMsg(phase) =>
      if v.finished then v
      else if !ValidTransition(v.phase, phase) then CutOff(v)
      else v.(phase := phase)
    case CompilerOutput(bytes) =>
      var bytesSoFar := v.compiler + |bytes|;
      v.(compiler := bytesSoFar, refused := if bytesSoFar > COMPILE_LIMIT then v.refused + 1 else v.refused)
    case TerminalOutput(bytes) =>
      var bytesSoFar := v.terminal + |bytes|;
      v.(terminal := bytesSoFar, refused := if bytesSoFar > RUNTIME_LIMIT then v.refused + 1 else v.refused)
    case ErrorMsg => v
    case ExitMsg(_, _, reason) => Complete(v, reason)
  }

  function Take(v: View, a: Arrival): View {
    match a
    case Assigned => v.(held := true)
    case Gate(t, m) => if v.held then v.(flights := v.flights[t := Passed(m)]) else CutOff(v)
    case Lookup(t) =>
      if t !in v.flights || !v.flights[t].Passed? then v
      else if v.present then v.(flights := v.flights[t := Found(v.flights[t].message)])
      else v.(flights := v.flights - {t}, refused := v.refused + 1)
    case Handle(t) =>
      if t !in v.flights || !v.flights[t].Found? then v
      else HandleMessage(v.(flights := v.flights - {t}), v.flights[t].message)
    case Elsewhere(reason) => Complete(v, reason)
    case Freed => v.(held := false)
    case Removed => v.(present := false)
  }

  function Replay(arrivals: seq<Arrival>): View {
    if arrivals == [] then CREATED else Take(Replay(arrivals[..|arrivals| - 1]), arrivals[|arrivals| - 1])
  }

  // ---- what the arrivals say by themselves ---------------------------------------------------

  /** The messages that reached the API, in order. */
  function Messages(arrivals: seq<Arrival>): seq<Message> {
    if arrivals == [] then []
    else
      Messages(arrivals[..|arrivals| - 1])
      + if arrivals[|arrivals| - 1].Gate? then [arrivals[|arrivals| - 1].message] else []
  }

  /** Those of them that are not on their way between two segments. */
  function Settled(arrivals: seq<Arrival>): seq<Message> {
    SettledOf(Replay(arrivals), Messages(arrivals))
  }

  function SettledOf(v: View, ms: seq<Message>): seq<Message> {
    if v.flights == map[] || ms == [] then ms else ms[..|ms| - 1]
  }

  /** One stream is read message by message, until its connection ends. */
  predicate InTurn(v: View, a: Arrival) {
    match a
    case Gate(_, _) => v.connected && v.flights == map[]
    case Lookup(t) => t in v.flights && v.flights[t].Passed?
    case Handle(t) => t in v.flights && v.flights[t].Found?
    case _ => true
  }

  predicate Serial(arrivals: seq<Arrival>) {
    arrivals == []
    || (Serial(arrivals[..|arrivals| - 1]) && InTurn(Replay(arrivals[..|arrivals| - 1]), arrivals[|arrivals| - 1]))
  }

  /** The worker has been given the job and it has not been taken off it since. */
  function Holding(arrivals: seq<Arrival>): bool {
    if arrivals == [] then false
    else
      match arrivals[|arrivals| - 1]
      case Assigned => true
      case Freed => false
      case _ => Holding(arrivals[..|arrivals| - 1])
  }

  /** No message reaches the gate without the worker holding the job, and none is looked up after the removal. */
  ghost predicate OnTime(arrivals: seq<Arrival>) {
    forall j :: 0 <= j < |arrivals| ==> InTime(arrivals[..j], arrivals[j])
  }

  ghost predicate InTime(before: seq<Arrival>, a: Arrival) {
    (a.Gate? ==> Holding(before)) && (a.Lookup? ==> Removed !in before)
  }

  lemma OnTimeGrows(before: seq<Arrival>, a: Arrival)
    ensures OnTime(before + [a]) <==> OnTime(before) && InTime(before, a)
  {
    hide InTime;
    var more := before + [a];
    forall j | 0 <= j < |before| ensures more[..j] == before[..j] && more[j] == before[j] {
    }
    assert more[..|before|] == before && more[|before|] == a;
    if OnTime(more) {
      assert InTime(more[..|before|], more[|before|]);
      forall j | 0 <= j < |before| ensures InTime(before[..j], before[j]) {
        assert InTime(more[..j], more[j]);
      }
    }
  }

  lemma HandlerFrame(v: View, m: Message)
    ensures var v' := HandleMessage(v, m);
            && v'.held == v.held && v'.present == v.present && v'.flights == v.flights
            && v'.exits - v.exits == (if v'.finished then 1 else 0) - (if v.finished then 1 else 0)
  {
  }

  /** What one arrival does to the flags and to the count of exits. */
  lemma TakeFrame(v: View, a: Arrival)
    ensures var v' := Take(v, a);
            && v'.held == (if a.Assigned? then true else if a.Freed? then false else v.held)
            && v'.present == (v.present && !a.Removed?)
            && v'.exits - v.exits == (if v'.finished then 1 else 0) - (if v.finished then 1 else 0)
  {
    hide HandleMessage;
    if a.Handle? && a.thread in v.flights {
      HandlerFrame(v.(flights := v.flights - {a.thread}), v.flights[a.thread].message);
    }
  }

  /** The view's two flags are what the arrivals say. */
  lemma {:induction false} FlagsFollow(arrivals: seq<Arrival>)
    ensures Replay(arrivals).held == Holding(arrivals)
    ensures Replay(arrivals).present == (Removed !in arrivals)
  {
    hide Take;
    if arrivals != [] {
      var before, last := arrivals[..|arrivals| - 1], arrivals[|arrivals| - 1];
      FlagsFollow(before);
      TakeFrame(Replay(before), last);
      assert arrivals == before + [last];
    }
  }

  lemma PrefixConforms(sent: seq<Message>, m: Message)
    requires Conforms(sent + [m])
    ensures Conforms(sent) && Allowed(Summarize(sent), m)
  {
    var more := sent + [m];
    forall i | 0 <= i < |sent|
      ensures !sent[i].ExitMsg?
      ensures sent[i].PhaseMsg? ==> ValidTransition(PhaseAfter(sent[..i]), sent[i].phase)
    {
      assert more[i] == sent[i] && more[..i] == sent[..i];
    }
    assert more[|sent|] == m && more[..|sent|] == sent;
  }

  predicate Fits(s: Summary) {
    |s.compiler| <= 262144 && |s.terminal| <= 1048576
  }

  // ---- a conforming worker --------------------------------------------------------------------

  /** The one message on its way is the last that arrived. */
  ghost predicate LastInFlight(flights: map<nat, Flight>, ms: seq<Message>) {
    flights == map[] || (ms != [] && exists t, f: Flight :: flights == map[t := f] && f.message == ms[|ms| - 1])
  }

  /** What the API knows while everything is on time. */
  ghost predicate InStep(v: View, ms: seq<Message>) {
    && v.connected && LastInFlight(v.flights, ms)
    && var s := Summarize(SettledOf(v, ms));
    && v.compiler == |s.compiler| && v.terminal == |s.terminal|
    && (!v.finished ==> v.phase == s.phase && s.exit.None?)
    && (v.refused == 0 <==> Fits(s))
  }

  lemma GateInStep(v: View, ms: seq<Message>, t: nat, m: Message)
    requires InStep(v, ms) && v.flights == map[] && v.held
    ensures InStep(Take(v, Gate(t, m)), ms + [m])
  {
    hide Summarize;
    var v', more := Take(v, Gate(t, m)), ms + [m];
    assert t in v'.flights && v'.flights == map[t := Passed(m)];
    assert more[..|more| - 1] == ms && more[|more| - 1] == m;
  }

  lemma LookupInStep(v: View, ms: seq<Message>, t: nat)
    requires InStep(v, ms) && t in v.flights && v.flights[t].Passed? && v.present
    ensures InStep(Take(v, Lookup(t)), ms)
  {
    hide Summarize;
    var v' := Take(v, Lookup(t));
    assert t in v'.flights && v'.flights == map[t := Found(v.flights[t].message)];
  }

  lemma HandleInStep(v: View, ms: seq<Message>, t: nat)
    requires InStep(v, ms) && Conforms(ms) && t in v.flights && v.flights[t].Found?
    ensures InStep(Take(v, Handle(t)), ms)
  {
    hide Conforms, Summarize, HandleMessage;
    var m, front := ms[|ms| - 1], ms[..|ms| - 1];
    assert ms == front + [m] && v.flights[t].message == m && v.flights - {t} == map[];
    PrefixConforms(front, m);
    Extended(front, m);
    HandlerFollows(v.(flights := map[]), Summarize(front), m);
  }

  /** The handler does to the view what the message adds to the trace. */
  lemma HandlerFollows(v: View, s: Summary, m: Message)
    requires v.connected && v.flights == map[] && Allowed(s, m)
    requires v.compiler == |s.compiler| && v.terminal == |s.terminal|
    requires (!v.finished ==> v.phase == s.phase) && (v.refused == 0 <==> Fits(s))
    ensures var v', s' := HandleMessage(v, m), Add(s, m);
            && v'.connected && v'.flights == map[]
            && v'.compiler == |s'.compiler| && v'.terminal == |s'.terminal|
            && (!v'.finished ==> v'.phase == s'.phase && s'.exit.None?)
            && (v'.refused == 0 <==> Fits(s'))
  {
  }

  /** The API's view follows a conforming worker through every interleaving. */
  lemma {:induction false} ReplayFollows(arrivals: seq<Arrival>)
    requires Serial(arrivals) && Conforms(Messages(arrivals))
    ensures OnTime(arrivals) ==> InStep(Replay(arrivals), Messages(arrivals))
    ensures !OnTime(arrivals) ==> Replay(arrivals).refused > 0
    decreases |arrivals|
  {
    hide Conforms, Summarize, OnTime, InStep, Holding;
    if arrivals == [] {
      NothingArrived();
    } else {
      var before, last := arrivals[..|arrivals| - 1], arrivals[|arrivals| - 1];
      var v, ms := Replay(before), Messages(before);
      assert arrivals == before + [last];
      OnTimeGrows(before, last);
      FlagsFollow(before);
      if last.Gate? {
        PrefixConforms(ms, last.message);
      } else {
        assert Messages(arrivals) == ms;
      }
      ReplayFollows(before);
      if OnTime(arrivals) {
        match last
        case Gate(t, m) => GateInStep(v, ms, t, m);
        case Lookup(t) => LookupInStep(v, ms, t);
        case Handle(t) => HandleInStep(v, ms, t);
        case _ => OtherInStep(v, ms, last);
      }
    }
  }

  lemma OtherInStep(v: View, ms: seq<Message>, a: Arrival)
    requires InStep(v, ms) && !a.Gate? && !a.Lookup? && !a.Handle?
    ensures InStep(Take(v, a), ms)
  {
    hide Summarize;
  }

  lemma NothingArrived()
    ensures OnTime([]) && InStep(CREATED, [])
  {
    NothingSent();
  }

  lemma {:induction false} OneExit(arrivals: seq<Arrival>)
    ensures Replay(arrivals).exits == if Replay(arrivals).finished then 1 else 0
  {
    hide Take;
    if arrivals != [] {
      OneExit(arrivals[..|arrivals| - 1]);
      TakeFrame(Replay(arrivals[..|arrivals| - 1]), arrivals[|arrivals| - 1]);
    }
  }

  /**
   The API refuses nothing a conforming worker sends exactly when the output handled so far fits
   the API's limits, every message reaches the gate while the worker holds the job, and every
   message is looked up before the session is removed.  However the session is finished, one
   exit comes out of it.
   */
  lemma WorkerIsUnderstood(arrivals: seq<Arrival>)
    requires Serial(arrivals) && Conforms(Messages(arrivals))
    ensures Replay(arrivals).refused == 0 <==> Fits(Summarize(Settled(arrivals))) && OnTime(arrivals)
    ensures Replay(arrivals).exits == if Replay(arrivals).finished then 1 else 0
    ensures OnTime(arrivals) && !Replay(arrivals).finished ==> Replay(arrivals).phase == PhaseAfter(Settled(arrivals))
  {
    hide Conforms, Fits, OnTime, LastInFlight;
    ReplayFollows(arrivals);
    OneExit(arrivals);
  }

  // ---- the worker's last phase and the API's ---------------------------------------------------

  /** Nothing but the worker's own exit completes the session. */
  ghost predicate Undisturbed(arrivals: seq<Arrival>) {
    forall j :: 0 <= j < |arrivals| ==> !arrivals[j].Elsewhere?
  }

  /** The session is finished exactly by the exit among the messages, in a phase that stands for its reason. */
  ghost predicate ExitTaken(v: View, ms: seq<Message>) {
    var exit := ExitOf(SettledOf(v, ms));
    && (v.finished <==> exit.Some?)
    && (exit.Some? ==> exit.value.ExitMsg? && StandsFor(v.phase, exit.value.reason))
  }

  lemma HandleExit(v: View, ms: seq<Message>, t: nat)
    requires InStep(v, ms) && Conforms(ms) && t in v.flights && v.flights[t].Found? && ExitTaken(v, ms)
    ensures ExitTaken(Take(v, Handle(t)), ms)
  {
    hide Conforms;
    var m, front := ms[|ms| - 1], ms[..|ms| - 1];
    assert ms == front + [m] && v.flights[t].message == m && v.flights - {t} == map[];
    PrefixConforms(front, m);
    if m.ExitMsg? {
      ExitPhaseStands(m.reason);
    }
  }

  lemma {:induction false} ExitFollows(arrivals: seq<Arrival>)
    requires Serial(arrivals) && Conforms(Messages(arrivals)) && OnTime(arrivals) && Undisturbed(arrivals)
    ensures ExitTaken(Replay(arrivals), Messages(arrivals))
    decreases |arrivals|
  {
    hide Conforms, OnTime, InStep, Holding;
    if arrivals != [] {
      var before, last := arrivals[..|arrivals| - 1], arrivals[|arrivals| - 1];
      var v, ms := Replay(before), Messages(before);
      assert arrivals == before + [last];
      OnTimeGrows(before, last);
      FlagsFollow(before);
      if last.Gate? {
        PrefixConforms(ms, last.message);
      } else {
        assert Messages(arrivals) == ms;
      }
      ReplayFollows(before);
      ExitFollows(before);
      match last
      case Gate(t, m) => GateExit(v, ms, t, m);
      case Handle(t) => HandleExit(v, ms, t);
      case _ => OtherExit(v, ms, last);
    }
  }

  lemma GateExit(v: View, ms: seq<Message>, t: nat, m: Message)
    requires ExitTaken(v, ms) && v.flights == map[] && v.held
    ensures ExitTaken(Take(v, Gate(t, m)), ms + [m])
  {
    var v', more := Take(v, Gate(t, m)), ms + [m];
    assert t in v'.flights;
    assert more[..|more| - 1] == ms;
  }

  lemma OtherExit(v: View, ms: seq<Message>, a: Arrival)
    requires ExitTaken(v, ms) && !a.Gate? && !a.Handle? && !a.Elsewhere?
    requires a.Lookup? ==> v.present
    ensures ExitTaken(Take(v, a), ms)
  {
    if a.Lookup? && a.thread in v.flights {
      assert a.thread in Take(v, a).flights;
    }
  }

  /** A cancellation overtakes the assignment and frees the worker: its next report ends its connection. */
  lemma OvertakenReportIsRefused()
    ensures var v := Replay([Assigned, Elsewhere(CancelledByUser), Freed, Gate(0, PhaseMsg(Compiling))]);
            v.refused == 1 && !v.connected && v.phase == Phase.Cancelled && v.exits == 1
  {
    var a, b, c, d := Assigned, Elsewhere(CancelledByUser), Freed, Gate(0, PhaseMsg(Compiling));
    assert [a][..0] == [] && [a, b][..1] == [a] && [a, b, c][..2] == [a, b] && [a, b, c, d][..3] == [a, b, c];
    assert Replay([a]) == CREATED.(held := true);
    assert Replay([a, b]) == Complete(CREATED.(held := true), CancelledByUser);
    assert Replay([a, b, c]) == Complete(CREATED, CancelledByUser);
  }

  /** The report is past the gate when the session is removed: it is lost, the connection is not. */
  lemma OvertakenLookupIsRefused()
    ensures var v := Replay([Assigned, Gate(0, PhaseMsg(Compiling)), Elsewhere(CancelledByUser), Removed, Lookup(0)]);
            v.refused == 1 && v.connected && v.phase == Phase.Cancelled && v.exits == 1
  {
    var m := PhaseMsg(Compiling);
    var a, b, c, d, e := Assigned, Gate(0, m), Elsewhere(CancelledByUser), Removed, Lookup(0);
    assert [a][..0] == [] && [a, b][..1] == [a] && [a, b, c][..2] == [a, b];
    assert [a, b, c, d][..3] == [a, b, c] && [a, b, c, d, e][..4] == [a, b, c, d];
    var v := CREATED.(held := true, flights := map[0 := Passed(m)]);
    assert Replay([a]) == CREATED.(held := true);
    assert Replay([a, b]) == v;
    assert Replay([a, b, c]) == Complete(v, CancelledByUser);
    assert Replay([a, b, c, d]) == Complete(v, CancelledByUser).(present := false);
  }

  // ---- a job, from its events to the API -----------------------------------------------------------

  /** What reaches the API is the beginning of what was sent. */
  ghost predicate Reads(arrivals: seq<Arrival>, sent: seq<Message>) {
    Serial(arrivals) && Messages(arrivals) <= sent
  }

  /** The API has dealt with everything, on time, and nothing else ended the session. */
  ghost predicate Heard(arrivals: seq<Arrival>, sent: seq<Message>) {
    Reads(arrivals, sent) && Settled(arrivals) == sent && OnTime(arrivals) && Undisturbed(arrivals)
  }

  lemma HeardAgrees(arrivals: seq<Arrival>, sent: seq<Message>, status: Status)
    requires Heard(arrivals, sent) && Conforms(sent) && Ends(Summarize(sent), status) && status == Done
    ensures Replay(arrivals).finished && Replay(arrivals).phase == PhaseAfter(sent) && Replay(arrivals).exits == 1
  {
    hide Conforms, OnTime, TerminalBytes, CompilerBytes;
    ReadsConform(arrivals, sent);
    ExitFollows(arrivals);
    OneExit(arrivals);
  }

  // ---- every conforming worker can be heard -------------------------------------------------------

  /** The job is assigned, then every message goes through its three segments undisturbed. */
  function Straight(sent: seq<Message>): seq<Arrival> {
    if sent == [] then [Assigned]
    else Straight(sent[..|sent| - 1]) + [Gate(0, sent[|sent| - 1]), Lookup(0), Handle(0)]
  }

  lemma Arrives(before: seq<Arrival>, a: Arrival)
    ensures var more := before + [a];
            && Replay(more) == Take(Replay(before), a)
            && (Serial(more) <==> Serial(before) && InTurn(Replay(before), a))
            && Messages(more) == Messages(before) + (if a.Gate? then [a.message] else [])
            && (OnTime(more) <==> OnTime(before) && InTime(before, a))
            && (Undisturbed(more) <==> Undisturbed(before) && !a.Elsewhere?)
  {
    hide Take, InTurn, InTime, OnTime;
    var more := before + [a];
    assert more[..|more| - 1] == before && more[|more| - 1] == a;
    OnTimeGrows(before, a);
    assert forall j :: 0 <= j < |before| ==> more[j] == before[j];
  }

  /** Everything so far was taken in turn and on time, and the worker still holds the job. */
  ghost predicate AllWell(arrivals: seq<Arrival>, sent: seq<Message>) {
    var v := Replay(arrivals);
    && Serial(arrivals) && Messages(arrivals) == sent && OnTime(arrivals) && Undisturbed(arrivals)
    && v.flights == map[] && v.held && v.present
  }

  lemma OneMessageMore(before: seq<Arrival>, sent: seq<Message>, m: Message)
    requires AllWell(before, sent) && Conforms(sent)
    ensures AllWell(before + [Gate(0, m), Lookup(0), Handle(0)], sent + [m])
  {
    hide Conforms, OnTime, Serial, Messages, Replay, Undisturbed, HandleMessage, Holding, Summarize;
    ReplayFollows(before);
    FlagsFollow(before);
    var a, b, c := Gate(0, m), Lookup(0), Handle(0);
    var one := before + [a];
    var two := one + [b];
    Arrives(before, a);
    FlagsFollow(one);
    Arrives(one, b);
    assert Replay(two).flights == map[0 := Found(m)];
    Arrives(two, c);
    HandlerFrame(Replay(two).(flights := Replay(two).flights - {0}), m);
    assert two + [c] == before + [a, b, c];
  }

  lemma {:induction false} StraightIsWell(sent: seq<Message>)
    requires Conforms(sent)
    ensures AllWell(Straight(sent), sent)
  {
    hide Conforms, AllWell;
    if sent == [] {
      assert AllWell([Assigned], []) by { AssignedIsWell(); }
    } else {
      var front, m := sent[..|sent| - 1], sent[|sent| - 1];
      assert sent == front + [m];
      PrefixConforms(front, m);
      StraightIsWell(front);
      OneMessageMore(Straight(front), front, m);
    }
  }

  lemma AssignedIsWell()
    ensures AllWell([Assigned], [])
  {
    NothingArrived();
    Arrives([], Assigned);
    assert [] + [Assigned] == [Assigned];
  }

  /** Whatever a conforming worker sends, some arrivals let the API hear all of it. */
  lemma CanBeHeard(sent: seq<Message>)
    requires Conforms(sent)
    ensures Heard(Straight(sent), sent)
  {
    hide Conforms, OnTime, Serial, Undisturbed;
    StraightIsWell(sent);
  }

  lemma {:induction false} PrefixBytes(sent: seq<Message>, n: nat)
    requires n <= |sent| && Conforms(sent)
    ensures Conforms(sent[..n])
    ensures |CompilerBytes(sent[..n])| <= |CompilerBytes(sent)| && |TerminalBytes(sent[..n])| <= |TerminalBytes(sent)|
    decreases |sent|
  {
    if n < |sent| {
      var front, m := sent[..|sent| - 1], sent[|sent| - 1];
      assert sent == front + [m] && front[..n] == sent[..n];
      PrefixConforms(front, m);
      PrefixBytes(front, n);
    } else {
      assert sent[..n] == sent;
    }
  }

  lemma ReadsConform(arrivals: seq<Arrival>, sent: seq<Message>)
    requires Reads(arrivals, sent) && Conforms(sent)
    ensures Conforms(Messages(arrivals)) && |TerminalBytes(Settled(arrivals))| <= |TerminalBytes(sent)|
  {
    hide Conforms, TerminalBytes, CompilerBytes, Serial;
    var ms := Messages(arrivals);
    assert ms == sent[..|ms|];
    PrefixBytes(sent, |ms|);
    var settled := Settled(arrivals);
    assert settled == sent[..|settled|];
    PrefixBytes(sent, |settled|);
  }

  /**
   One job carried out.  Its terminal output never meets the API's limit, so of what the API
   reads nothing is refused exactly when compiler and linker output together stay within the
   budget each of them has alone, and everything is on time.
   */
  method RunJob(job: Job) returns (status: Status, sent: seq<Message>, lossy: bool)
    ensures forall arrivals :: Reads(arrivals, sent) ==>
              (Replay(arrivals).refused == 0 <==>
                 |CompilerBytes(Settled(arrivals))| <= COMPILE_LIMIT && OnTime(arrivals))
    ensures !lossy && job.accepted && Passes(job.compile) && Passes(job.link) ==>
              PhaseMsg(Running) in sent
    ensures !lossy && job.accepted ==> BuildOutputSent(job, CompilerBytes(sent))
    ensures status == Done ==> sent != [] && Justified(job, sent[|sent| - 1])
    ensures status == Done ==> forall arrivals :: Heard(arrivals, sent) ==>
              Replay(arrivals).finished && Replay(arrivals).phase == PhaseAfter(sent) && Replay(arrivals).exits == 1
  {
    hide Passes, BuildOutputSent, Justified, Conforms, OnTime, Ends, Fails, Reads;
    var out := new Outbound();
    var screen;
    status, screen := ExecuteAssignment(job, out);
    sent, lossy := out.sent, out.lossy;
    assert status == Done ==> Summarize(sent).exit.Some? by { DoneHasExit(Summarize(sent), status); }
    forall arrivals | Reads(arrivals, sent)
      ensures Replay(arrivals).refused == 0 <==> |CompilerBytes(Settled(arrivals))| <= COMPILE_LIMIT && OnTime(arrivals)
    {
      ReadsConform(arrivals, sent);
      assert Serial(arrivals) by { ReadsSerially(arrivals, sent); }
      WorkerIsUnderstood(arrivals);
    }
    if status == Done {
      forall arrivals | Heard(arrivals, sent)
        ensures Replay(arrivals).finished && Replay(arrivals).phase == PhaseAfter(sent) && Replay(arrivals).exits == 1
      {
        HeardAgrees(arrivals, sent, status);
      }
    }
  }

  lemma ReadsSerially(arrivals: seq<Arrival>, sent: seq<Message>)
    requires Reads(arrivals, sent)
    ensures Serial(arrivals)
  {
  }

  lemma DoneHasExit(s: Summary, status: Status)
    requires status != Broken ==> Ends(s, status)
    ensures status == Done ==> s.exit.Some?
  {
  }

  // ---- the shared budget is not enforced by the worker ---------------------------------------

  const CHUNK: seq<Byte> := seq(4096, _ => 120)

  /** A compiler that prints `n` full chunks, exits with code 0 and closes both pipes. */
  function Chatter(n: nat): seq<Event> {
    seq(n, _ => Data(CHUNK, true)) + [Tick(Ended(ProcessExit(Some(0), None))), Closed, Closed]
  }

  lemma ChatterAt(n: nat)
    ensures var c := Chatter(n);
            && |c| == n + 3
            && (forall j :: 0 <= j < n ==> c[j] == Data(CHUNK, true))
            && c[n] == Tick(Ended(ProcessExit(Some(0), None))) && c[n + 1] == Closed && c[n + 2] == Closed
  {
  }

  lemma {:induction false} ChatterPrefix(n: nat, k: nat)
    requires k <= n
    ensures |Chatter(n)| == n + 3
    ensures KnownExit(Chatter(n)[..k]).None? && ClosedPipes(Chatter(n)[..k]) == 0
    ensures |ReadBytes(Chatter(n)[..k])| == 4096 * k
    decreases k
  {
    hide Chatter;
    ChatterAt(n);
    if k > 0 {
      ChatterPrefix(n, k - 1);
      OneMore(Chatter(n), k - 1);
    }
  }

  lemma ChatterTail(n: nat)
    ensures |Chatter(n)| == n + 3
    ensures KnownExit(Chatter(n)[..n + 1]) == Some(ProcessExit(Some(0), None)) == KnownExit(Chatter(n)[..n + 2])
    ensures ClosedPipes(Chatter(n)[..n + 1]) == 0 && ClosedPipes(Chatter(n)[..n + 2]) == 1
    ensures |ReadBytes(Chatter(n)[..n + 2])| == 4096 * n
  {
    hide Chatter;
    ChatterAt(n);
    ChatterPrefix(n, n);
    OneMore(Chatter(n), n);
    OneMore(Chatter(n), n + 1);
  }

  /** Up to 64 chunks stay within one process's budget, so such a process succeeds. */
  lemma ChatterSucceeds(n: nat)
    requires n <= 64
    ensures CompileEnds(COMPILE_LIMIT, Chatter(n), n + 2, Some(CompileResult.Exited(Some(0))))
  {
    hide Chatter, KnownExit, ReadBytes, ClosedPipes;
    var c := Chatter(n);
    ChatterAt(n);
    ChatterTail(n);
    forall j | 0 <= j < n + 2
      ensures CompileVerdict(COMPILE_LIMIT, c[..j], c[j]).None?
    {
      if j <= n {
        ChatterPrefix(n, j);
      }
    }
  }

  /**
   A job whose compiler and linker each stay within 256 KiB and succeed, so that the worker goes
   on to run the program; once the API has dealt with all of its messages it has refused one.
   */
  method RunChattyJob(size: Size, runtime: seq<Event>) returns (sent: seq<Message>, lossy: bool)
    ensures !lossy ==> PhaseMsg(Running) in sent
    ensures !lossy ==>
              forall arrivals :: Reads(arrivals, sent) && Settled(arrivals) == sent ==> Replay(arrivals).refused > 0
  {
    hide Chatter, KnownExit, ReadBytes, ClosedPipes, OnTime, CompileEnds, Reads, Settled;
    var build := Build(false, true, Chatter(40));
    ChatterSucceeds(40);
    ChatterTail(40);
    assert BuildEndsAt(build, 42, Some(CompileResult.Exited(Some(0))));
    var status;
    status, sent, lossy := RunJob(Job(true, size, build, build, true, true, runtime));
  }
}

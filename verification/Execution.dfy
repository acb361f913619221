/**
 One job on the worker, from assignment to exit: what it may send to the API.

 The output messages of one process are kept here as one message holding all their bytes.
 */
module Execution {
  import opened Common
  import opened Phases
  import opened Processes

  const COMPILE_LIMIT: nat := 256 * 1024   // per process on the worker, per session in the API
  const RUNTIME_LIMIT: nat := 1024 * 1024

  datatype Message =
    | PhaseMsg(phase: Phase)
    | CompilerOutput(bytes: seq<Byte>)
    | TerminalOutput(bytes: seq<Byte>)
    | ErrorMsg
    | ExitMsg(code: Option<int>, signal: Option<int>, reason: ExitReason)

  // ---- what a trace says --------------------------------------------------------------------

  /** The last phase reported; a job starts out queued. */
  function PhaseAfter(sent: seq<Message>): Phase {
    if sent == [] then Phase.Queued
    else
      var last := sent[|sent| - 1];
      if last.PhaseMsg? then last.phase else PhaseAfter(sent[..|sent| - 1])
  }

  /** Everything compiler and linker printed, in order. */
  function CompilerBytes(sent: seq<Message>): seq<Byte> {
    if sent == [] then []
    else
      var last := sent[|sent| - 1];
      CompilerBytes(sent[..|sent| - 1]) + if last.CompilerOutput? then last.bytes else []
  }

  /** Everything the program printed, in order. */
  function TerminalBytes(sent: seq<Message>): seq<Byte> {
    if sent == [] then []
    else
      var last := sent[|sent| - 1];
      TerminalBytes(sent[..|sent| - 1]) + if last.TerminalOutput? then last.bytes else []
  }

  /** The API's phase automaton allows every phase of the trace, and nothing follows an exit. */
  ghost predicate Conforms(sent: seq<Message>) {
    forall i :: 0 <= i < |sent| ==>
      && (i < |sent| - 1 ==> !sent[i].ExitMsg?)
      && (sent[i].PhaseMsg? ==> ValidTransition(PhaseAfter(sent[..i]), sent[i].phase))
  }

  function ExitOf(sent: seq<Message>): Option<Message> {
    if sent != [] && sent[|sent| - 1].ExitMsg? then Some(sent[|sent| - 1]) else None
  }

  /** All of the above at a glance; `ran` when the trace reports the running phase, `failed` when an error. */
  datatype Summary = Summary(
    phase: Phase, compiler: seq<Byte>, terminal: seq<Byte>, ran: bool, failed: bool, exit: Option<Message>)

  function Summarize(sent: seq<Message>): Summary {
    Summary(PhaseAfter(sent), CompilerBytes(sent), TerminalBytes(sent), PhaseMsg(Running) in sent, ErrorMsg in sent,
            ExitOf(sent))
  }

  predicate Allowed(s: Summary, m: Message) {
    s.exit.None? && (m.PhaseMsg? ==> ValidTransition(s.phase, m.phase))
  }

  function Add(s: Summary, m: Message): Summary {
    match m
    case PhaseMsg(phase) => s.(phase := phase, ran := s.ran || phase == Running)
    case CompilerOutput(bytes) => s.(compiler := s.compiler + bytes)
    case TerminalOutput(bytes) => s.(terminal := s.terminal + bytes)
    case ErrorMsg => s.(failed := true)
    case ExitMsg(_, _, _) => s.(exit := Some(m))
  }

  lemma Extended(sent: seq<Message>, m: Message)
    requires Conforms(sent) && Allowed(Summarize(sent), m)
    ensures Conforms(sent + [m]) && Summarize(sent + [m]) == Add(Summarize(sent), m)
  {
    hide ValidTransition;
    Summarized(sent, m);
    var more := sent + [m];
    forall i | 0 <= i < |more|
      ensures i < |more| - 1 ==> !more[i].ExitMsg?
      ensures more[i].PhaseMsg? ==> ValidTransition(PhaseAfter(more[..i]), more[i].phase)
    {
      assert more[..i] == sent[..i];
      assert i < |sent| ==> more[i] == sent[i];
      assert i == |sent| ==> sent[..i] == sent;
    }
  }

  lemma Summarized(sent: seq<Message>, m: Message)
    requires ExitOf(sent).None?
    ensures Summarize(sent + [m]) == Add(Summarize(sent), m)
  {
    var more := sent + [m];
    assert more[..|more| - 1] == sent && more[|more| - 1] == m;
  }

  // ---- the worker ---------------------------------------------------------------------------

  /** The channel to the API; `lossy` once a send has failed. */
  class Outbound {
    var sent: seq<Message>
    var lossy: bool

    constructor ()
      ensures sent == [] && !lossy
    {
      sent, lossy := [], false;
    }

    /** Messages the channel took. */
    method Enqueue(m: Message)
      requires Conforms(sent) && Allowed(Summarize(sent), m)
      modifies this`sent
      ensures Conforms(sent) && Summarize(sent) == Add(old(Summarize(sent)), m)
    {
      Extended(sent, m);
      sent := sent + [m];
    }

    /** A send may fail, on disconnection or after 250 ms, and then the message was not enqueued. */
    method Send(m: Message) returns (ok: bool)
      requires Conforms(sent) && Allowed(Summarize(sent), m)
      modifies this
      ensures Conforms(sent) && lossy == (old(lossy) || !ok)
      ensures Summarize(sent) == if ok then Add(old(Summarize(sent)), m) else old(Summarize(sent))
    {
      ok := *;
      if ok {
        Enqueue(m);
      } else {
        lossy := true;
      }
    }

    method Finish(phase: Phase, code: Option<int>, signal: Option<int>, reason: ExitReason) returns (ok: bool)
      requires Conforms(sent)
      requires Summarize(sent).exit.None? && ValidTransition(Summarize(sent).phase, phase) && phase != Running
      modifies this
      ensures Conforms(sent) && lossy == (old(lossy) || !ok)
      ensures Summarize(sent) == old(Summarize(sent))
                .(phase := Summarize(sent).phase, exit := if ok then Some(ExitMsg(code, signal, reason)) else None)
      ensures ok ==> Summarize(sent).phase == phase
    {
      hide Summarize, Conforms;
      ok := Send(PhaseMsg(phase));
      if ok {
        ok := Send(ExitMsg(code, signal, reason));
      }
    }
  }

  /** One compiler process: whether the time was already up, whether it could be started, what happens to it. */
  datatype Build = Build(expired: bool, spawned: bool, events: seq<Event>)

  datatype Job = Job(
    accepted: bool,    // identifier, files and terminal size were valid and the workspace could be written
    size: Size,
    compile: Build,
    link: Build,
    started: bool,     // the PTY could be screen and the program spawned
    setUp: bool,
    runtime: seq<Event>)

  /** The process runs and reaches its end, or the end of its events so far, at event `n`. */
  ghost predicate BuildEndsAt(b: Build, n: nat, result: Option<CompileResult>) {
    !b.expired && b.spawned && CompileEnds(COMPILE_LIMIT, b.events, n, result)
  }

  ghost predicate BuildEnds(b: Build, result: CompileResult) {
    exists n :: BuildEndsAt(b, n, Some(result))
  }

  ghost predicate Passes(b: Build) {
    BuildEnds(b, CompileResult.Exited(Some(0)))
  }

  ghost predicate ProgramEnds(job: Job, outcome: Outcome) {
    && Passes(job.compile) && Passes(job.link) && job.started && job.setUp
    && exists n :: RuntimeEnds(RUNTIME_LIMIT, job.runtime, n, Some(Finished(outcome)))
  }

  /** An exit that reports how the program ended. */
  ghost predicate EndedInRun(o: Outcome, exit: Message) {
    exit.ExitMsg? && exit.code == o.code && exit.signal == o.signal &&
    match exit.reason
    case Completed => o.reason == Reason.Completed
    case OutOfTime => o.reason == Reason.TimedOut
    case OutOfResources => o.reason == Reason.ResourceLimited
    case CancelledByUser => o.reason == Reason.Cancelled
    case Violation => o.reason == Reason.SandboxViolation
    case FailedToCompile | InternalError => false
  }

  /** An exit reported by one of the compiler processes. */
  ghost predicate EndedInBuild(b: Build, exit: Message) {
    exit.ExitMsg? && exit.signal.None? && (exit.code.Some? ==> exit.reason == FailedToCompile) &&
    match exit.reason
    case FailedToCompile => exit.code != Some(0) && BuildEnds(b, CompileResult.Exited(exit.code))
    case OutOfTime => b.expired || BuildEnds(b, CompileTimedOut)
    case OutOfResources => BuildEnds(b, OutputLimited) || BuildEnds(b, CompileResourceLimited)
    case CancelledByUser => BuildEnds(b, CompileCancelled)
    case _ => false
  }

  /** Why the job may report this exit. */
  ghost predicate Justified(job: Job, exit: Message) {
    || EndedInBuild(job.compile, exit)
    || (Passes(job.compile) && EndedInBuild(job.link, exit))
    || exists o :: ProgramEnds(job, o) && EndedInRun(o, exit)
  }

  /** The process could not be started, watched or read. */
  ghost predicate BuildFails(b: Build) {
    !b.expired && (!b.spawned || BuildEnds(b, CompileError))
  }

  /** Some part of the job failed other than by its own doing. */
  ghost predicate Fails(job: Job) {
    || !job.accepted
    || BuildFails(job.compile)
    || (Passes(job.compile) && BuildFails(job.link))
    || (&& Passes(job.compile) && Passes(job.link)
        && (!job.started || !job.setUp || exists n :: RuntimeEnds(RUNTIME_LIMIT, job.runtime, n, Some(Failed))))
  }

  /** How far a job got: it is still running, it ended by itself, or it failed. */
  datatype Status = Ongoing | Done | Broken

  /** The exit is there exactly when the job ended, and the last phase stands for its reason. */
  ghost predicate Ends(s: Summary, status: Status) {
    && (s.exit.Some? <==> status == Done)
    && (status == Done ==> s.exit.value.ExitMsg? && s.exit.value.reason != InternalError)
    && (status == Done ==> StandsFor(s.phase, s.exit.value.reason))
  }

  /** A process ends in one way only. */
  lemma BuildEndsOnce(b: Build, n: nat, r: Option<CompileResult>, m: nat, q: Option<CompileResult>)
    requires BuildEndsAt(b, n, r) && BuildEndsAt(b, m, q)
    ensures n == m && r == q
  {
    hide CompileVerdict;
    assert n < |b.events| ==> CompileVerdict(COMPILE_LIMIT, b.events[..n], b.events[n]).Some?;
    assert m < |b.events| ==> CompileVerdict(COMPILE_LIMIT, b.events[..m], b.events[m]).Some?;
  }

  /** One of the two compiler processes; `passed` when the job goes on. */
  method RunBuild(b: Build, size: Size, out: Outbound) returns (passed: bool, status: Status, newSize: Size)
    requires Conforms(out.sent)
    requires Summarize(out.sent).exit.None? && Summarize(out.sent).phase == Compiling
    modifies out
    ensures Conforms(out.sent) && Ends(Summarize(out.sent), status) && (old(out.lossy) ==> out.lossy)
    ensures passed <==> Passes(b)
    ensures passed ==> status == Ongoing && Summarize(out.sent).phase == Compiling && out.lossy == old(out.lossy)
    ensures status == Done ==> EndedInBuild(b, Summarize(out.sent).exit.value)
    ensures status == Broken ==> out.lossy || BuildFails(b)
    ensures status == Ongoing && !passed ==> BuildEndsAt(b, |b.events|, None)
    ensures |Summarize(out.sent).compiler| <= |old(Summarize(out.sent)).compiler| + COMPILE_LIMIT
    ensures forall n: nat, r :: BuildEndsAt(b, n, r) ==>
              && Summarize(out.sent).compiler == old(Summarize(out.sent)).compiler + ReadBytes(b.events[..n])
              && newSize == SizeAfter(size, b.events[..n])
    ensures Summarize(out.sent).terminal == old(Summarize(out.sent)).terminal
    ensures Summarize(out.sent).ran == old(Summarize(out.sent)).ran
    ensures Summarize(out.sent).failed == old(Summarize(out.sent)).failed
  {
    hide Summarize, Conforms, CompileEnds, ReadBytes, SizeAfter;
    passed, newSize := false, size;
    var ok;
    if b.expired {
      ok := out.Finish(Phase.TimedOut, None, None, OutOfTime);
      return false, if ok then Done else Broken, size;
    }
    var result, forwarded, resized, n := RunCompileProcess(b.spawned, b.events, COMPILE_LIMIT, size);
    newSize := resized;
    out.Enqueue(CompilerOutput(forwarded));
    OnlyEnd(b, n, result);
    match result {
      case None =>
        status := Ongoing;
        return;
      case Some(CompileError) =>
        status := Broken;
        return;
      case Some(Exited(code)) =>
        if code == Some(0) {
          passed, status := true, Ongoing;
          return;
        }
        ok := out.Finish(CompileFailed, code, None, FailedToCompile);
      case Some(CompileTimedOut) =>
        ok := out.Finish(Phase.TimedOut, None, None, OutOfTime);
      case Some(OutputLimited) | Some(CompileResourceLimited) =>
        ok := out.Finish(Phase.ResourceLimited, None, None, OutOfResources);
      case Some(CompileCancelled) =>
        ok := out.Finish(Phase.Cancelled, None, None, CancelledByUser);
    }
    status := if ok then Done else Broken;
  }

  /** What the end of the process says about all its ends. */
  lemma OnlyEnd(b: Build, n: nat, result: Option<CompileResult>)
    requires !b.expired && (b.spawned ==> CompileEnds(COMPILE_LIMIT, b.events, n, result))
    requires !b.spawned ==> result == Some(CompileError)
    ensures b.spawned ==> BuildEndsAt(b, n, result) && (result.None? ==> n == |b.events|)
    ensures forall m, q :: BuildEndsAt(b, m, q) ==> m == n && q == result
    ensures forall q :: BuildEnds(b, q) <==> b.spawned && result == Some(q)
  {
    forall m, q | BuildEndsAt(b, m, q) ensures m == n && q == result {
      BuildEndsOnce(b, n, result, m, q);
    }
    forall q | b.spawned && result == Some(q) ensures BuildEnds(b, q) {
      assert BuildEndsAt(b, n, Some(q));
    }
  }

  /** A job both of whose compiler processes passed has sent exactly what they printed. */
  ghost predicate BuildOutputSent(job: Job, compiler: seq<Byte>) {
    forall n: nat, r, m: nat, q :: (Passes(job.compile) && BuildEndsAt(job.compile, n, r)
                          && BuildEndsAt(job.link, m, q)) ==>
      compiler == ReadBytes(job.compile.events[..n]) + ReadBytes(job.link.events[..m])
  }

  /** The terminal has the size the resizes during both compiler processes left it at. */
  ghost predicate Resized(job: Job, size: Size) {
    forall n: nat, r, m: nat, q :: (Passes(job.compile) && BuildEndsAt(job.compile, n, r)
                          && BuildEndsAt(job.link, m, q)) ==>
      size == SizeAfter(SizeAfter(job.size, job.compile.events[..n]), job.link.events[..m])
  }

  /** The events known so far do not decide the job. */
  ghost predicate Unfinished(job: Job) {
    || BuildEndsAt(job.compile, |job.compile.events|, None)
    || (Passes(job.compile) && BuildEndsAt(job.link, |job.link.events|, None))
    || (&& Passes(job.compile) && Passes(job.link) && job.started && job.setUp
        && RuntimeEnds(RUNTIME_LIMIT, job.runtime, |job.runtime|, None))
  }

  /** The program, on a terminal of the given size; what it printed was sent. */
  method RunProgram(job: Job, size: Size, out: Outbound) returns (status: Status, screen: Option<Size>)
    requires Conforms(out.sent) && Summarize(out.sent).exit.None? && Summarize(out.sent).phase == Compiling
    requires Passes(job.compile) && Passes(job.link) && Summarize(out.sent).terminal == []
    modifies out
    ensures Conforms(out.sent) && Ends(Summarize(out.sent), status) && (old(out.lossy) ==> out.lossy)
    ensures status == Done ==> Justified(job, Summarize(out.sent).exit.value)
    ensures status == Broken ==> out.lossy || Fails(job)
    ensures status == Ongoing ==> Unfinished(job)
    ensures !out.lossy ==> Summarize(out.sent).ran
    ensures Summarize(out.sent).compiler == old(Summarize(out.sent)).compiler
    ensures Summarize(out.sent).failed == old(Summarize(out.sent)).failed
    ensures |Summarize(out.sent).terminal| <= RUNTIME_LIMIT
    ensures !out.lossy ==> ProgramOutputSent(job, Summarize(out.sent).terminal)
    ensures screen.Some? ==> screen.value == size
    ensures !out.lossy ==> (job.started <==> screen.Some?)
  {
    hide Conforms, Summarize, Passes, EndedBy, ReadBytes, BuildEndsAt, EndedInBuild, BuildFails;
    screen := None;
    var ok := out.Send(PhaseMsg(Running));
    if !ok || !job.started {
      return Broken, None;
    }
    screen := Some(size);
    var child := new Child();
    var result, forwarded, n := RunPtyProcess(child, job.setUp, job.runtime, RUNTIME_LIMIT);
    assert ProgramOutputSent(job, forwarded) by { OnlyRunEnd(job, n, result); }
    out.Enqueue(TerminalOutput(forwarded));
    if result.None? {
      return Ongoing, screen;
    }
    if result.value.Failed? {
      return Broken, screen;
    }
    var o := result.value.outcome;
    assert RuntimeEnds(RUNTIME_LIMIT, job.runtime, n, Some(Finished(o)));
    assert ProgramEnds(job, o);
    var phase, reason;
    match o.reason {
      case Completed => phase, reason := Phase.Exited, ExitReason.Completed;
      case TimedOut => phase, reason := Phase.TimedOut, OutOfTime;
      case ResourceLimited => phase, reason := Phase.ResourceLimited, OutOfResources;
      case Cancelled => phase, reason := Phase.Cancelled, CancelledByUser;
      case SandboxViolation => phase, reason := Phase.SandboxViolation, Violation;
    }
    assert EndedInRun(o, ExitMsg(o.code, o.signal, reason));
    ok := out.Finish(phase, o.code, o.signal, reason);
    status := if ok then Done else Broken;
  }

  /** A program that was started has sent exactly what it printed. */
  ghost predicate ProgramOutputSent(job: Job, terminal: seq<Byte>) {
    forall n: nat, r :: job.started && job.setUp && RuntimeEnds(RUNTIME_LIMIT, job.runtime, n, r) ==>
      terminal == ReadBytes(job.runtime[..n])
  }

  /** A run ends in one way only. */
  lemma RuntimeEndsOnce(limit: nat, events: seq<Event>, n: nat, r: Option<Result>, m: nat, q: Option<Result>)
    requires RuntimeEnds(limit, events, n, r) && RuntimeEnds(limit, events, m, q)
    ensures n == m && r == q
  {
    hide KnownExit, ReadBytes;
    if n < |events| && m < |events| {
      assert EndedBy(limit, events[..n], events[n], r.value);
      assert EndedBy(limit, events[..m], events[m], q.value);
    }
  }

  lemma OnlyRunEnd(job: Job, n: nat, result: Option<Result>)
    requires job.setUp ==> RuntimeEnds(RUNTIME_LIMIT, job.runtime, n, result)
    requires n <= |job.runtime|
    ensures ProgramOutputSent(job, ReadBytes(job.runtime[..n]))
  {
    forall m: nat, q | job.setUp && RuntimeEnds(RUNTIME_LIMIT, job.runtime, m, q) ensures m == n {
      RuntimeEndsOnce(RUNTIME_LIMIT, job.runtime, n, result, m, q);
    }
  }

  method ExecuteInner(job: Job, out: Outbound) returns (status: Status, screen: Option<Size>)
    requires out.sent == [] && !out.lossy
    modifies out
    ensures Conforms(out.sent) && Ends(Summarize(out.sent), status) && !Summarize(out.sent).failed
    ensures status == Done ==> Justified(job, Summarize(out.sent).exit.value)
    ensures status == Broken ==> out.lossy || Fails(job)
    ensures status == Ongoing ==> Unfinished(job)
    ensures |Summarize(out.sent).compiler| <= 2 * COMPILE_LIMIT && |Summarize(out.sent).terminal| <= RUNTIME_LIMIT
    ensures Summarize(out.sent).ran ==> Passes(job.compile) && Passes(job.link)
    ensures !out.lossy && job.accepted && Passes(job.compile) && Passes(job.link) ==>
              && Summarize(out.sent).ran && ProgramOutputSent(job, Summarize(out.sent).terminal)
              && (job.started <==> screen.Some?)
    ensures screen.Some? ==> Resized(job, screen.value)
    ensures !out.lossy && job.accepted ==> BuildOutputSent(job, Summarize(out.sent).compiler)
  {
    hide Conforms, Passes, RuntimeEnds, ReadBytes, SizeAfter, BuildEndsAt, EndedInBuild, BuildFails, Summarize;
    assert Conforms(out.sent) && Summarize(out.sent) == Summary(Phase.Queued, [], [], false, false, None) by {
      NothingSent();
    }
    screen := None;
    if !job.accepted {
      return Broken, None;
    }
    var ok := out.Send(PhaseMsg(Compiling));
    if !ok {
      return Broken, None;
    }
    var passed, size;
    passed, status, size := RunBuild(job.compile, job.size, out);
    if !passed {
      return;
    }
    passed, status, size := RunBuild(job.link, size, out);
    if !passed {
      return;
    }
    status, screen := RunProgram(job, size, out);
  }

  lemma BuildFate(b: Build, exit: Message)
    ensures EndedInBuild(b, exit) ==> !Passes(b) && !BuildFails(b) && !BuildEndsAt(b, |b.events|, None)
    ensures BuildFails(b) ==> !Passes(b) && !BuildEndsAt(b, |b.events|, None)
    ensures BuildEndsAt(b, |b.events|, None) ==> !Passes(b)
  {
    hide CompileEnds;
    forall q, r | BuildEnds(b, q) && BuildEnds(b, r) ensures q == r {
      var n :| BuildEndsAt(b, n, Some(q));
      var m :| BuildEndsAt(b, m, Some(r));
      BuildEndsOnce(b, n, Some(q), m, Some(r));
    }
    forall q | BuildEnds(b, q) ensures !BuildEndsAt(b, |b.events|, None) {
      var n :| BuildEndsAt(b, n, Some(q));
      if BuildEndsAt(b, |b.events|, None) {
        BuildEndsOnce(b, n, Some(q), |b.events|, None);
      }
    }
  }

  /** The three ways a job can go exclude each other, so what happened to its processes settles its status. */
  lemma OneFate(job: Job, exit: Message)
    requires job.accepted
    ensures Justified(job, exit) ==> !Fails(job) && !Unfinished(job)
    ensures Fails(job) ==> !Unfinished(job)
  {
    hide Passes, BuildEndsAt, EndedInBuild, BuildFails, RuntimeEnds;
    BuildFate(job.compile, exit);
    BuildFate(job.link, exit);
    forall n, r, m, q | RuntimeEnds(RUNTIME_LIMIT, job.runtime, n, r) && RuntimeEnds(RUNTIME_LIMIT, job.runtime, m, q)
      ensures r == q
    {
      RuntimeEndsOnce(RUNTIME_LIMIT, job.runtime, n, r, m, q);
    }
  }

  lemma NothingSent()
    ensures Conforms([]) && Summarize([]) == Summary(Phase.Queued, [], [], false, false, None)
  {
  }

  /**
   A job reports at most one exit, as its last message; every phase it reports is one the API
   accepts; an internal error is reported only for a job that failed or could not be heard.
   */
  method ExecuteAssignment(job: Job, out: Outbound) returns (status: Status, screen: Option<Size>)
    requires out.sent == [] && !out.lossy
    modifies out
    ensures Conforms(out.sent)
    ensures status != Broken ==> Ends(Summarize(out.sent), status)
    ensures status == Done ==> Justified(job, Summarize(out.sent).exit.value)
    ensures status == Ongoing ==> Unfinished(job)
    ensures status == Broken ==> Summarize(out.sent).exit in {None, Some(ExitMsg(None, None, InternalError))}
    ensures status == Broken ==>
              out.lossy || (Fails(job) && Summarize(out.sent).exit.Some? && Summarize(out.sent).failed)
    ensures Summarize(out.sent).failed ==> status == Broken
    ensures |Summarize(out.sent).compiler| <= 2 * COMPILE_LIMIT && |Summarize(out.sent).terminal| <= RUNTIME_LIMIT
    ensures !out.lossy && job.accepted && Passes(job.compile) && Passes(job.link) ==>
              && Summarize(out.sent).ran && ProgramOutputSent(job, Summarize(out.sent).terminal)
              && (job.started <==> screen.Some?)
    ensures screen.Some? ==> Resized(job, screen.value)
    ensures !out.lossy && job.accepted ==> BuildOutputSent(job, Summarize(out.sent).compiler)
  {
    hide Passes, BuildOutputSent, ProgramOutputSent, Resized, Fails, Justified, Unfinished;
    status, screen := ExecuteInner(job, out);
    if status == Broken {
      var _ := out.Send(ErrorMsg);
      var _ := out.Send(ExitMsg(None, None, InternalError));
    }
  }
}

/**
 The worker's two process loops, over every order of timer, control, pipe and poll events.

 An event carries the outcome of the operating-system or channel call it leads to.  A
 `select!` never takes a branch whose condition is false, so such events are passed over.
 What a loop must do with an event is stated from the events before it alone; the methods
 compute it from running variables.
 */
module Processes {
  import opened Common

  datatype ProcessExit = ProcessExit(code: Option<int>, signal: Option<int>)

  datatype Poll = StillRunning | Ended(exit: ProcessExit) | PollError

  datatype Queueing = Queued | QueueFull | QueueClosed

  datatype Size = Size(cols: int, rows: int)

  datatype Control = Input(queueing: Queueing) | Resize(size: Size, done: bool) | ResourceLimit | Cancel

  datatype Event =
    | Deadline
    | DrainDeadline
    | Controls(control: Option<Control>)        // None: the control channel closed
    | Data(bytes: seq<Byte>, delivered: bool)   // `delivered`: the API's channel took the message
    | Closed                                    // a reader reached the end of its pipe
    | ChannelGone                               // every reader is gone
    | ReaderFailed
    | WriterFailed(poll: Poll)
    | WriterGone
    | Tick(poll: Poll)

  // ---- what the events so far determine --------------------------------------------------

  /** The exit status of the process, if it was polled successfully. */
  function KnownExit(before: seq<Event>): Option<ProcessExit> {
    if before == [] then None
    else
      var earlier := KnownExit(before[..|before| - 1]);
      var last := before[|before| - 1];
      if earlier.None? && last.Tick? && last.poll.Ended? then Some(last.poll.exit) else earlier
  }

  /** Everything the readers delivered, in order. */
  function ReadBytes(before: seq<Event>): seq<Byte> {
    if before == [] then []
    else
      var last := before[|before| - 1];
      ReadBytes(before[..|before| - 1]) + if last.Data? then last.bytes else []
  }

  function ClosedPipes(before: seq<Event>): nat {
    if before == [] then 0
    else ClosedPipes(before[..|before| - 1]) + if before[|before| - 1].Closed? then 1 else 0
  }

  /** The terminal size after the resizes that reached the process while it ran. */
  function SizeAfter(size: Size, before: seq<Event>): Size {
    if before == [] then size
    else
      var last := before[|before| - 1];
      if KnownExit(before[..|before| - 1]).None? && last.Controls? && last.control.Some? && last.control.value.Resize?
      then last.control.value.size
      else SizeAfter(size, before[..|before| - 1])
  }

  /** The events up to and including the next one. */
  lemma OneMore(events: seq<Event>, i: nat)
    requires i < |events|
    ensures events[..i + 1][..i] == events[..i] && events[..i + 1][i] == events[i]
  {
  }

  // ---- running the compiled program on a PTY ---------------------------------------------

  datatype Reason = Completed | TimedOut | ResourceLimited | Cancelled | SandboxViolation

  datatype Outcome = Outcome(code: Option<int>, signal: Option<int>, reason: Reason)

  datatype Result = Finished(outcome: Outcome) | Failed

  const SIGKILL := 9
  const SIGXCPU := 24
  const SIGXFSZ := 25
  const SIGSYS := 31

  /** The status says that signal `n` killed the program; a shell in between reports 128 + n. */
  predicate KilledBy(exit: ProcessExit, n: int) {
    exit.code == Some(128 + n) || exit.signal == Some(n)
  }

  predicate OverLimit(exit: ProcessExit) {
    KilledBy(exit, SIGKILL) || KilledBy(exit, SIGXCPU) || KilledBy(exit, SIGXFSZ)
  }

  /** What the outcome of a program that ended with this status must say. */
  predicate Tells(exit: ProcessExit, o: Outcome) {
    && o.code == exit.code && o.signal == exit.signal
    && (o.reason == SandboxViolation <==> KilledBy(exit, SIGSYS))
    && (o.reason == ResourceLimited <==> !KilledBy(exit, SIGSYS) && OverLimit(exit))
    && (o.reason == Completed <==> !KilledBy(exit, SIGSYS) && !OverLimit(exit))
  }

  function ClassifyRuntimeExit(exit: ProcessExit): (o: Outcome)
    ensures Tells(exit, o)
  {
    var reason :=
      if exit.code == Some(159) || exit.signal == Some(31) then SandboxViolation
      else if exit.code in {Some(137), Some(152), Some(153)} || exit.signal in {Some(9), Some(24), Some(25)}
      then ResourceLimited
      else Completed;
    Outcome(exit.code, exit.signal, reason)
  }

  /** The worker stopped the program for this reason on event `e`. */
  predicate StoppedBy(limit: nat, before: seq<Event>, e: Event, reason: Reason) {
    var running := KnownExit(before).None?;
    match reason
    case TimedOut => running && e == Deadline
    case Cancelled => running && (e == Controls(None) || e == Controls(Some(Cancel)))
    case ResourceLimited =>
      || (e.Data? && |ReadBytes(before)| + |e.bytes| > limit)
      || (running && (e == Controls(Some(ResourceLimit)) || e == Controls(Some(Input(QueueFull)))))
    case Completed | SandboxViolation => false
  }

  /** The program's status is known and nothing more is to be read, or the failing writer found it. */
  predicate CollectedBy(before: seq<Event>, e: Event, exit: ProcessExit) {
    if e.Closed? || e.ChannelGone? || e.DrainDeadline? then KnownExit(before) == Some(exit)
    else KnownExit(before).None? && e == WriterFailed(Ended(exit))
  }

  /** Output could not be passed on, or the program could not be watched, read from or written to. */
  predicate FailedBy(limit: nat, before: seq<Event>, e: Event) {
    match e
    case Data(bytes, delivered) => |ReadBytes(before)| + |bytes| <= limit && !delivered
    case Controls(Some(Input(QueueClosed))) | Controls(Some(Resize(_, false))) => KnownExit(before).None?
    case WriterFailed(poll) => KnownExit(before).None? && !poll.Ended?
    case ReaderFailed | WriterGone | Tick(PollError) => KnownExit(before).None?
    case _ => false
  }

  /** The run ends with event `e` after the events `before`, and with this result. */
  ghost predicate EndedBy(limit: nat, before: seq<Event>, e: Event, result: Result) {
    match result
    case Failed => FailedBy(limit, before, e)
    case Finished(o) =>
      || (o.code == None && o.signal == None && StoppedBy(limit, before, e, o.reason))
      || (exists exit :: CollectedBy(before, e, exit) && Tells(exit, o))
  }

  /** The loop passed over the events before `consumed`, none of which ends the run, and returned on that one. */
  ghost predicate RuntimeEnds(limit: nat, events: seq<Event>, consumed: nat, result: Option<Result>) {
    && consumed <= |events|
    && (forall j, r :: 0 <= j < consumed ==> !EndedBy(limit, events[..j], events[j], r))
    && (result.None? <==> consumed == |events|)
    && (consumed < |events| ==> EndedBy(limit, events[..consumed], events[consumed], result.value))
  }

  class Child {
    var reaps: nat   // times its exit status was collected

    constructor ()
      ensures reaps == 0
    {
      reaps := 0;
    }

    method Reap()
      modifies this
      ensures reaps == old(reaps) + 1
    {
      reaps := reaps + 1;
    }
  }

  class PtyChildGuard {
    const spawned: Child
    var child: Child?

    /** While the guard holds the child it has not been reaped; afterwards exactly once. */
    ghost predicate Valid()
      reads this, spawned
    {
      && (child != null ==> child == spawned)
      && spawned.reaps == if child != null then 0 else 1
    }

    constructor (spawned: Child)
      requires spawned.reaps == 0
      ensures this.spawned == spawned && child == spawned && Valid()
    {
      this.spawned := spawned;
      child := spawned;
    }

    /** `requires child != null` is the `expect` of the original. */
    method TryWait(poll: Poll)
      requires Valid() && child != null
      modifies this, spawned
      ensures Valid() && (child == null <==> poll.Ended?)
    {
      if poll.Ended? {
        child.Reap();
        child := null;
      }
    }

    method TerminateAndReap()
      requires Valid()
      modifies this, spawned
      ensures Valid() && child == null
    {
      if child != null {
        var c := child;
        child := null;
        c.Reap();
      }
    }
  }

  /**
   The select loop.  Polling the child always finds it unreaped, the exit status is there
   whenever it is unwrapped, and the guard knows at every point whether it still owns the child.
   */
  method SelectLoop(guard: PtyChildGuard, events: seq<Event>, limit: nat)
    returns (result: Option<Result>, forwarded: seq<Byte>, ghost consumed: nat)
    requires guard.Valid() && guard.child != null
    modifies guard, guard.spawned
    ensures guard.Valid()
    ensures RuntimeEnds(limit, events, consumed, result)
    ensures forwarded == ReadBytes(events[..consumed]) && |forwarded| <= limit
  {
    var bytesSent: nat := 0;
    var processExit: Option<ProcessExit> := None;
    forwarded := [];
    for i := 0 to |events|
      invariant guard.Valid() && (guard.child != null <==> processExit.None?)
      invariant processExit == KnownExit(events[..i])
      invariant forwarded == ReadBytes(events[..i]) && bytesSent == |forwarded| <= limit
      invariant forall j, r :: 0 <= j < i ==> !EndedBy(limit, events[..j], events[j], r)
    {
      var event := events[i];
      OneMore(events, i);
      consumed := i;
      match event {
        case Deadline =>
          if processExit.None? {
            guard.TerminateAndReap();
            result := Some(Finished(Outcome(None, None, TimedOut)));
            return;
          }
        case DrainDeadline =>
          if processExit.Some? {
            result := Some(Finished(ClassifyRuntimeExit(processExit.value)));
            return;
          }
        case Controls(control) =>
          if processExit.None? {
            match control {
              case Some(Input(Queued)) =>
              case Some(Input(QueueFull)) =>
                guard.TerminateAndReap();
                result := Some(Finished(Outcome(None, None, ResourceLimited)));
                return;
              case Some(Input(QueueClosed)) =>
                guard.TerminateAndReap();
                result := Some(Failed);
                return;
              case Some(Resize(_, done)) =>
                if !done {
                  result := Some(Failed);
                  return;
                }
              case None | Some(Cancel) =>
                guard.TerminateAndReap();
                result := Some(Finished(Outcome(None, None, Cancelled)));
                return;
              case Some(ResourceLimit) =>
                guard.TerminateAndReap();
                result := Some(Finished(Outcome(None, None, ResourceLimited)));
                return;
            }
          }
        case Data(bytes, delivered) =>
          bytesSent := bytesSent + |bytes|;
          if bytesSent > limit {
            guard.TerminateAndReap();
            result := Some(Finished(Outcome(None, None, ResourceLimited)));
            return;
          }
          if !delivered {
            result := Some(Failed);
            return;
          }
          forwarded := forwarded + bytes;
        case Closed | ChannelGone =>
          if processExit.Some? {
            result := Some(Finished(ClassifyRuntimeExit(processExit.value)));
            return;
          }
        case ReaderFailed =>
          if processExit.None? {
            guard.TerminateAndReap();
            result := Some(Failed);
            return;
          }
        case WriterFailed(poll) =>
          if processExit.None? {
            guard.TryWait(poll);
            if poll.Ended? {
              result := Some(Finished(ClassifyRuntimeExit(poll.exit)));
              return;
            }
            if poll.StillRunning? {
              guard.TerminateAndReap();
            }
            result := Some(Failed);
            return;
          }
        case WriterGone =>
          if processExit.None? {
            guard.TerminateAndReap();
            result := Some(Failed);
            return;
          }
        case Tick(poll) =>
          if processExit.None? {
            guard.TryWait(poll);
            if poll.PollError? {
              result := Some(Failed);
              return;
            }
            if poll.Ended? {
              processExit := Some(poll.exit);
            }
          }
      }
    }
    result, consumed := None, |events|;
    assert events[..|events|] == events;
  }

  /**
   `setUp` tells whether the reader, the writer and their threads could be created.  On every
   return, error paths included, the guard's drop has left the child reaped exactly once.
   */
  method RunPtyProcess(child: Child, setUp: bool, events: seq<Event>, limit: nat)
    returns (result: Option<Result>, forwarded: seq<Byte>, ghost consumed: nat)
    requires child.reaps == 0
    modifies child
    ensures !setUp ==> result == Some(Failed) && consumed == 0
    ensures setUp ==> RuntimeEnds(limit, events, consumed, result)
    ensures consumed <= |events| && forwarded == ReadBytes(events[..consumed]) && |forwarded| <= limit
    ensures result.Some? ==> child.reaps == 1
    ensures result.None? ==> child.reaps <= 1
  {
    var guard := new PtyChildGuard(child);
    if !setUp {
      guard.TerminateAndReap();
      return Some(Failed), [], 0;
    }
    result, forwarded, consumed := SelectLoop(guard, events, limit);
    if result.Some? {
      guard.TerminateAndReap();
    }
  }

  // ---- compiling and linking ----------------------------------------------------------------

  datatype CompileResult =
    | Exited(code: Option<int>)
    | CompileTimedOut
    | OutputLimited
    | CompileResourceLimited
    | CompileCancelled
    | CompileError

  /** How compiling ends with `e`, if it does; both pipes must close before the exit code counts. */
  function CompileVerdict(limit: nat, before: seq<Event>, e: Event): Option<CompileResult> {
    var exit := KnownExit(before);
    match e
    case Data(bytes, delivered) =>
      if |ReadBytes(before)| + |bytes| > limit then Some(OutputLimited)
      else if !delivered then Some(CompileError)
      else None
    case Closed => if exit.Some? && ClosedPipes(before) >= 1 then Some(Exited(exit.value.code)) else None
    case ChannelGone | DrainDeadline => if exit.Some? then Some(Exited(exit.value.code)) else None
    case _ =>
      if exit.Some? then None
      else
        match e
        case Deadline => Some(CompileTimedOut)
        case Controls(None) | Controls(Some(Cancel)) => Some(CompileCancelled)
        case Controls(Some(ResourceLimit)) => Some(CompileResourceLimited)
        case Tick(PollError) => Some(CompileError)
        case Tick(Ended(x)) => if ClosedPipes(before) >= 2 then Some(Exited(x.code)) else None
        case _ => None
  }

  ghost predicate CompileEnds(limit: nat, events: seq<Event>, consumed: nat, result: Option<CompileResult>) {
    && consumed <= |events|
    && (forall j :: 0 <= j < consumed ==> CompileVerdict(limit, events[..j], events[j]).None?)
    && (result.None? <==> consumed == |events|)
    && (consumed < |events| ==> result == CompileVerdict(limit, events[..consumed], events[consumed]))
  }

  method RunCompileProcess(spawned: bool, events: seq<Event>, limit: nat, size: Size)
    returns (result: Option<CompileResult>, forwarded: seq<Byte>, newSize: Size, ghost consumed: nat)
    ensures !spawned ==> result == Some(CompileError) && consumed == 0
    ensures spawned ==> CompileEnds(limit, events, consumed, result)
    ensures consumed <= |events| && forwarded == ReadBytes(events[..consumed]) && |forwarded| <= limit
    ensures newSize == SizeAfter(size, events[..consumed])
  {
    var bytesSent: nat := 0;
    var pipesClosed: nat := 0;
    var exitCode: Option<Option<int>> := None;
    forwarded, newSize := [], size;
    if !spawned {
      return Some(CompileError), [], size, 0;
    }
    for i := 0 to |events|
      invariant exitCode == match KnownExit(events[..i]) case None => None case Some(x) => Some(x.code)
      invariant pipesClosed == ClosedPipes(events[..i])
      invariant forwarded == ReadBytes(events[..i]) && bytesSent == |forwarded| <= limit
      invariant newSize == SizeAfter(size, events[..i])
      invariant forall j :: 0 <= j < i ==> CompileVerdict(limit, events[..j], events[j]).None?
    {
      var event := events[i];
      OneMore(events, i);
      consumed := i;
      match event {
        case Deadline =>
          if exitCode.None? {
            result := Some(CompileTimedOut);
            return;
          }
        case DrainDeadline | ChannelGone =>
          if exitCode.Some? {
            result := Some(Exited(exitCode.value));
            return;
          }
        case Controls(control) =>
          if exitCode.None? {
            match control {
              case None | Some(Cancel) =>
                result := Some(CompileCancelled);
                return;
              case Some(ResourceLimit) =>
                result := Some(CompileResourceLimited);
                return;
              case Some(Resize(s, _)) =>
                newSize := s;
              case Some(Input(_)) =>
            }
          }
        case Data(bytes, delivered) =>
          bytesSent := bytesSent + |bytes|;
          if bytesSent > limit {
            result := Some(OutputLimited);
            return;
          }
          if !delivered {
            result := Some(CompileError);
            return;
          }
          forwarded := forwarded + bytes;
        case Closed =>
          pipesClosed := pipesClosed + 1;
          if pipesClosed >= 2 && exitCode.Some? {
            result := Some(Exited(exitCode.value));
            return;
          }
        case Tick(poll) =>
          if exitCode.None? {
            if poll.PollError? {
              result := Some(CompileError);
              return;
            }
            if poll.Ended? {
              exitCode := Some(poll.exit.code);
              if pipesClosed >= 2 {
                result := Some(Exited(exitCode.value));
                return;
              }
            }
          }
        case ReaderFailed | WriterFailed(_) | WriterGone =>
      }
    }
    result, consumed := None, |events|;
    assert events[..|events|] == events;
  }
}

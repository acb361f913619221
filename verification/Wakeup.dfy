/**
 No lost wakeup: a parked dispatcher without a permit has nothing to do, or some
 operation stands between its change and its `notify_one`.
 */
module Wakeup {
  import opened ControlPlane

  /** An activation or completion of this session has yet to notify for a change it made. */
  predicate WillSignal(x: Session) {
    x.act == Waking || x.stage == Tallying || x.stage == Removing || x.stage == Signalling
  }

  /** This thread has yet to notify for a change it made. */
  predicate WillNotify(op: Op) {
    op.Notifying? || op.OrphanLookup? || op.AwaitClose? || (op.Complete? && op.unregistering)
  }

  ghost predicate NoticeDue(info: map<SessionId, Session>, threads: map<ThreadId, Op>) {
    || (exists id :: id in info && WillSignal(info[id]))
    || (exists t :: t in threads && WillNotify(threads[t]))
  }

  /** The dispatcher will be woken. */
  ghost predicate Covered(s: State) {
    s.permit || NoticeDue(s.sessions.info, s.ops.threads)
  }

  ghost predicate WakeOk(c: Config, s: State) {
    && (s.disp.Parked? ==> s.queue == [] || Blocked(c, s.workers) || Covered(s))
    && (s.disp.Requeue? && s.disp.failed.None? ==> Blocked(c, s.workers) || Covered(s))
  }

  lemma SessionNoticeKept(info: map<SessionId, Session>, threads: map<ThreadId, Op>, id: SessionId, y: Session)
    requires NoticeDue(info, threads)
    requires id in info && WillSignal(info[id]) ==> WillSignal(y)
    ensures NoticeDue(info[id := y], threads)
  {
    if i :| i in info && WillSignal(info[i]) {
      assert i in info[id := y] && WillSignal(info[id := y][i]);
    }
  }

  lemma ThreadNoticeKept(info: map<SessionId, Session>, threads: map<ThreadId, Op>, t: ThreadId,
                         threads': map<ThreadId, Op>)
    requires NoticeDue(info, threads)
    requires forall u :: u in threads && u != t ==> u in threads' && threads'[u] == threads[u]
    requires t in threads && WillNotify(threads[t]) ==> t in threads' && WillNotify(threads'[t])
    ensures NoticeDue(info, threads')
  {
    if u :| u in threads && WillNotify(threads[u]) {
      assert u in threads' && WillNotify(threads'[u]);
    }
  }

  /** Nothing the dispatcher waits for gets better without notice. */
  lemma WakeFrame(c: Config, s: State, s': State)
    requires WakeOk(c, s)
    requires Covered(s) ==> Covered(s')
    requires s'.disp == s.disp
    requires s'.workers == s.workers && (s.queue == [] ==> s'.queue == [])
    ensures WakeOk(c, s')
  {
  }
}

/**
 Queue discipline: everything dispatched, followed by the job in the dispatcher's hand,
 followed by the queue, is a subsequence of the activation order.
 */
module Line {
  import opened Common
  import opened ControlPlane
  import opened Sessions
  import opened Subsequences

  /** The job the dispatcher has popped and neither assigned nor put back. */
  function Hand(disp: Dispatcher): seq<SessionId> {
    if disp.Popped? || disp.Found? || disp.Requeue? then [disp.id] else []
  }

  function LineUp(dispatched: seq<SessionId>, disp: Dispatcher, queue: seq<SessionId>): seq<SessionId> {
    dispatched + (Hand(disp) + queue)
  }

  /** Each session is activated once, and only entered ones are. */
  ghost predicate ActivatedOk(info: map<SessionId, Session>, activated: seq<SessionId>) {
    && Distinct(activated)
    && forall id :: id in activated ==> id in info && Entered(info[id])
  }

  ghost predicate LineOk(log: History, disp: Dispatcher, queue: seq<SessionId>) {
    Subsequence(LineUp(log.dispatched, disp, queue), log.activated)
  }

  /** `queue.len() + pending_activations` may pass the capacity only by the job in hand. */
  predicate CapacityOk(c: Config, limits: Limits, disp: Dispatcher, queue: seq<SessionId>) {
    |queue| + |Hand(disp)| + limits.pending <= c.queueCapacity + 1
  }

  lemma {:induction false} WithoutIsSub(q: seq<SessionId>, id: SessionId)
    ensures Subsequence(Without(q, id), q)
    ensures |Without(q, id)| <= |q|
    ensures forall other :: other in Without(q, id) <==> other in q && other != id
  {
    if q == [] {
      SubRefl(q);
    } else {
      WithoutIsSub(q[1..], id);
      assert q == [q[0]] + q[1..];
      if q[0] == id {
        SubEmpty([q[0]]);
        SubConcat([], [q[0]], Without(q[1..], id), q[1..]);
        assert [] + Without(q[1..], id) == Without(q, id);
      } else {
        SubRefl([q[0]]);
        SubConcat([q[0]], [q[0]], Without(q[1..], id), q[1..]);
      }
    }
  }

  /** A line-up that is part of a good one is good. */
  lemma Shrunk(log: History, disp: Dispatcher, queue: seq<SessionId>, disp': Dispatcher, queue': seq<SessionId>)
    requires LineOk(log, disp, queue)
    requires Subsequence(Hand(disp') + queue', Hand(disp) + queue)
    ensures LineOk(log, disp', queue')
  {
    SubRefl(log.dispatched);
    SubConcat(log.dispatched, log.dispatched, Hand(disp') + queue', Hand(disp) + queue);
    SubTrans(LineUp(log.dispatched, disp', queue'), LineUp(log.dispatched, disp, queue), log.activated);
  }

  lemma RetainKeepsLine(log: History, disp: Dispatcher, queue: seq<SessionId>, id: SessionId)
    requires LineOk(log, disp, queue)
    ensures LineOk(log, disp, Without(queue, id))
  {
    WithoutIsSub(queue, id);
    SubRefl(Hand(disp));
    SubConcat(Hand(disp), Hand(disp), Without(queue, id), queue);
    Shrunk(log, disp, queue, disp, Without(queue, id));
  }

  /** Dropping the job in hand. */
  lemma DropKeepsLine(log: History, disp: Dispatcher, queue: seq<SessionId>)
    requires LineOk(log, disp, queue)
    ensures LineOk(log, Polling, queue)
  {
    SubRefl(queue);
    SubEmpty(Hand(disp));
    SubConcat([], Hand(disp), queue, queue);
    assert Hand(Polling) + queue == [] + queue;
    Shrunk(log, disp, queue, Polling, queue);
  }

  /** Popping, putting back and waiting move the boundary between hand and queue only. */
  lemma MoveKeepsLine(log: History, disp: Dispatcher, queue: seq<SessionId>, disp': Dispatcher, queue': seq<SessionId>)
    requires LineOk(log, disp, queue)
    requires Hand(disp') + queue' == Hand(disp) + queue
    ensures LineOk(log, disp', queue')
  {
    SubRefl(Hand(disp) + queue);
    Shrunk(log, disp, queue, disp', queue');
  }

  lemma EnqueueKeepsLine(info: map<SessionId, Session>, log: History, disp: Dispatcher, queue: seq<SessionId>,
                         id: SessionId)
    requires LineOk(log, disp, queue) && ActivatedOk(info, log.activated)
    requires id in info && info[id].act == Enqueueing
    ensures LineOk(log.(activated := log.activated + [id]), disp, queue + [id])
    ensures ActivatedOk(info[id := info[id].(act := Waking)], log.activated + [id])
  {
    SubRefl([id]);
    SubConcat(LineUp(log.dispatched, disp, queue), log.activated, [id], [id]);
    assert LineUp(log.dispatched, disp, queue + [id]) == LineUp(log.dispatched, disp, queue) + [id];
    assert id !in log.activated;
  }

  lemma AssignKeepsLine(log: History, disp: Dispatcher, queue: seq<SessionId>, id: SessionId)
    requires LineOk(log, disp, queue) && Hand(disp) == [id]
    ensures LineOk(log.(dispatched := log.dispatched + [id]), Polling, queue)
  {
    assert LineUp(log.dispatched + [id], Polling, queue) == LineUp(log.dispatched, disp, queue);
  }

  /** The job in hand was activated and has not been dispatched before. */
  lemma HandIsNew(info: map<SessionId, Session>, log: History, disp: Dispatcher, queue: seq<SessionId>)
    requires LineOk(log, disp, queue) && ActivatedOk(info, log.activated)
    requires Hand(disp) != []
    ensures Hand(disp)[0] in info && Entered(info[Hand(disp)[0]])
    ensures Hand(disp)[0] !in log.dispatched
  {
    var up := LineUp(log.dispatched, disp, queue);
    SubDistinct(up, log.activated);
    assert up[|log.dispatched|] == Hand(disp)[0];
    assert forall i :: 0 <= i < |log.dispatched| ==> up[i] == log.dispatched[i];
  }
}

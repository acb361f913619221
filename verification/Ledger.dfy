/**
 The reservation counters and the session totals are exact counts over the sessions.
 */
module Ledger {
  import opened Common
  import opened ControlPlane
  import opened Sessions

  /** The session's visitor and address slots are taken: reserved, or released but not yet booked. */
  predicate HoldsSlot(x: Session) {
    x.limitsReserved || x.stage.ReleaseBook?
  }

  /** The session counts as a pending activation. */
  predicate AwaitsEntry(x: Session) {
    x.pendingActivation || x.act == Enqueueing || x.stage == ReleaseBook(true)
  }

  function VisitorOf(x: Session): string { x.visitor }

  function IpOf(x: Session): string { x.ip }

  /** The sessions that hold a slot of the visitor, or of the address, `k`. */
  function Holders(info: map<SessionId, Session>, key: Session -> string, k: string): set<SessionId> {
    set id | id in info && HoldsSlot(info[id]) && key(info[id]) == k
  }

  function Awaiting(info: map<SessionId, Session>): set<SessionId> {
    set id | id in info && AwaitsEntry(info[id])
  }

  /** A counter map is exact, within its cap, and keeps no zero entry. */
  ghost predicate CountersOk(cap: nat, info: map<SessionId, Session>, key: Session -> string,
                             counts: map<string, nat>) {
    && (forall k :: Lookup(counts, k) == |Holders(info, key, k)|)
    && (forall k :: Lookup(counts, k) <= cap)
    && (forall k :: k in counts ==> counts[k] > 0)
  }

  ghost predicate LimitsOk(c: Config, info: map<SessionId, Session>, limits: Limits) {
    && CountersOk(c.visitorConcurrency, info, VisitorOf, limits.byVisitor)
    && CountersOk(c.ipConcurrency, info, IpOf, limits.byIp)
    && limits.pending == |Awaiting(info)|
  }

  lemma UpdatedSize(a: set<SessionId>, b: set<SessionId>, id: SessionId)
    requires forall other :: other != id ==> (other in a <==> other in b)
    ensures |b| == |a| - (if id in a then 1 else 0) + (if id in b then 1 else 0)
  {
    assert a - {id} == b - {id};
    assert |a - {id}| == |a| - if id in a then 1 else 0;
    assert |b - {id}| == |b| - if id in b then 1 else 0;
  }

  lemma HoldersUpdate(info: map<SessionId, Session>, key: Session -> string, id: SessionId, y: Session, k: string)
    requires id in info ==> key(info[id]) == key(y)
    ensures |Holders(info[id := y], key, k)| == |Holders(info, key, k)|
              - (if id in info && HoldsSlot(info[id]) && k == key(y) then 1 else 0)
              + (if HoldsSlot(y) && k == key(y) then 1 else 0)
  {
    hide HoldsSlot;
    UpdatedSize(Holders(info, key, k), Holders(info[id := y], key, k), id);
  }

  lemma AwaitingUpdate(info: map<SessionId, Session>, id: SessionId, y: Session)
    ensures Awaiting(info[id := y]) == if AwaitsEntry(y) then Awaiting(info) + {id} else Awaiting(info) - {id}
  {
    if AwaitsEntry(y) {
      assert Awaiting(info[id := y]) == Awaiting(info) + {id};
    } else {
      assert Awaiting(info[id := y]) == Awaiting(info) - {id};
    }
  }

  lemma SlotKept(cap: nat, info: map<SessionId, Session>, key: Session -> string, counts: map<string, nat>,
                 id: SessionId, y: Session)
    requires CountersOk(cap, info, key, counts)
    requires id in info ==> key(info[id]) == key(y)
    requires HoldsSlot(y) == (id in info && HoldsSlot(info[id]))
    ensures CountersOk(cap, info[id := y], key, counts)
  {
    hide Holders, HoldsSlot, Lookup;
    forall k ensures Lookup(counts, k) == |Holders(info[id := y], key, k)| {
      HoldersUpdate(info, key, id, y, k);
    }
  }

  lemma SlotTaken(cap: nat, info: map<SessionId, Session>, key: Session -> string, counts: map<string, nat>,
                  id: SessionId, y: Session)
    requires CountersOk(cap, info, key, counts)
    requires id in info && key(info[id]) == key(y) && !HoldsSlot(info[id]) && HoldsSlot(y)
    requires Lookup(counts, key(y)) < cap
    ensures CountersOk(cap, info[id := y], key, Increment(counts, key(y)))
  {
    hide Holders, HoldsSlot;
    var counts' := Increment(counts, key(y));
    forall k ensures Lookup(counts', k) == |Holders(info[id := y], key, k)| <= cap {
      HoldersUpdate(info, key, id, y, k);
      assert Lookup(counts, k) == |Holders(info, key, k)| <= cap;
    }
  }

  /** The subtraction does not clip: the counter holds what is given back. */
  lemma SlotGivenBack(cap: nat, info: map<SessionId, Session>, key: Session -> string, counts: map<string, nat>,
                      id: SessionId, y: Session)
    requires CountersOk(cap, info, key, counts)
    requires id in info && key(info[id]) == key(y) && HoldsSlot(info[id]) && !HoldsSlot(y)
    ensures Lookup(counts, key(y)) > 0
    ensures CountersOk(cap, info[id := y], key, Decrement(counts, key(y)))
  {
    hide Holders, HoldsSlot;
    HoldersUpdate(info, key, id, y, key(y));
    assert Lookup(counts, key(y)) == |Holders(info, key, key(y))|;
    var counts' := Decrement(counts, key(y));
    forall k ensures Lookup(counts', k) == |Holders(info[id := y], key, k)| <= cap {
      HoldersUpdate(info, key, id, y, k);
      assert Lookup(counts, k) == |Holders(info, key, k)| <= cap;
    }
  }

  /** A change that touches neither the slot nor the pending activation leaves the ledger exact. */
  lemma LedgerUntouched(c: Config, info: map<SessionId, Session>, id: SessionId, y: Session, limits: Limits)
    requires LimitsOk(c, info, limits)
    requires id in info ==> info[id].visitor == y.visitor && info[id].ip == y.ip
    requires HoldsSlot(y) == (id in info && HoldsSlot(info[id]))
    requires AwaitsEntry(y) == (id in info && AwaitsEntry(info[id]))
    ensures LimitsOk(c, info[id := y], limits)
  {
    AwaitingUpdate(info, id, y);
    assert Awaiting(info[id := y]) == Awaiting(info);
    SlotKept(c.visitorConcurrency, info, VisitorOf, limits.byVisitor, id, y);
    SlotKept(c.ipConcurrency, info, IpOf, limits.byIp, id, y);
  }

  /** `consume_ticket` books exactly the reservation it takes. */
  lemma ReserveKeepsLedger(c: Config, info: map<SessionId, Session>, id: SessionId, limits: Limits)
    requires LimitsOk(c, info, limits) && id in info && SessionOk(info[id])
    requires !info[id].ticketConsumed && !info[id].finished
    requires Lookup(limits.byVisitor, info[id].visitor) < c.visitorConcurrency
    requires Lookup(limits.byIp, info[id].ip) < c.ipConcurrency
    ensures LimitsOk(c, info[id := Consumed(info[id])], Reserve(limits, info[id]))
  {
    var y := Consumed(info[id]);
    AwaitingUpdate(info, id, y);
    assert id !in Awaiting(info);
    SlotTaken(c.visitorConcurrency, info, VisitorOf, limits.byVisitor, id, y);
    SlotTaken(c.ipConcurrency, info, IpOf, limits.byIp, id, y);
  }

  /** `activate_session` moves one session from pending to queued; the subtraction does not clip. */
  lemma EnqueueKeepsLedger(c: Config, info: map<SessionId, Session>, id: SessionId, limits: Limits)
    requires LimitsOk(c, info, limits) && id in info && SessionOk(info[id]) && info[id].act == Enqueueing
    ensures limits.pending > 0
    ensures LimitsOk(c, info[id := info[id].(act := Waking)], limits.(pending := SatDec(limits.pending)))
  {
    var y := info[id].(act := Waking);
    AwaitingUpdate(info, id, y);
    assert id in Awaiting(info);
    SlotKept(c.visitorConcurrency, info, VisitorOf, limits.byVisitor, id, y);
    SlotKept(c.ipConcurrency, info, IpOf, limits.byIp, id, y);
  }

  /** `release_limits` gives back exactly what was reserved, and none of its subtractions clips. */
  lemma BookKeepsLedger(c: Config, info: map<SessionId, Session>, id: SessionId, limits: Limits)
    requires LimitsOk(c, info, limits) && id in info && SessionOk(info[id]) && info[id].stage.ReleaseBook?
    ensures Lookup(limits.byVisitor, info[id].visitor) > 0 && Lookup(limits.byIp, info[id].ip) > 0
    ensures info[id].stage.wasPending ==> limits.pending > 0
    ensures LimitsOk(c, info[id := Advanced(info[id])], Booked(limits, info[id], info[id].stage.wasPending))
  {
    var y := Advanced(info[id]);
    AwaitingUpdate(info, id, y);
    if info[id].stage.wasPending {
      assert id in Awaiting(info);
    } else {
      assert Awaiting(info[id := y]) == Awaiting(info);
    }
    SlotGivenBack(c.visitorConcurrency, info, VisitorOf, limits.byVisitor, id, y);
    SlotGivenBack(c.ipConcurrency, info, IpOf, limits.byIp, id, y);
  }

  // ---- totals ---------------------------------------------------------------------------

  /** The session still sits in the `sessions` table. */
  predicate InTable(x: Session) {
    x.stage != Signalling && x.stage != Closed
  }

  /** `completed_total` counts the session. */
  predicate InTotal(x: Session) {
    x.stage == Removing || x.stage == Signalling || x.stage == Closed
  }

  function Tallied(info: map<SessionId, Session>): set<SessionId> {
    set id | id in info && InTotal(info[id])
  }

  /** The sessions that sit in the table are the live ones. */
  ghost predicate LiveOk(info: map<SessionId, Session>, live: set<SessionId>) {
    forall id :: id in live <==> id in info && InTable(info[id])
  }

  ghost predicate TableOk(c: Config, t: Table) {
    && LiveOk(t.info, t.live)
    && |t.live| <= c.sessionCapacity
    && t.uncounted <= t.info.Keys
    && t.createdTotal + |t.uncounted| == |t.info|
    && t.completedTotal == |Tallied(t.info)|
  }

  lemma TalliedUpdate(info: map<SessionId, Session>, id: SessionId, y: Session)
    ensures |Tallied(info[id := y])| == |Tallied(info)|
              - (if id in info && InTotal(info[id]) then 1 else 0) + (if InTotal(y) then 1 else 0)
  {
    hide InTotal;
    UpdatedSize(Tallied(info), Tallied(info[id := y]), id);
  }

  lemma UpdateSize(info: map<SessionId, Session>, id: SessionId, y: Session)
    ensures |info[id := y]| == |info| + (if id in info then 0 else 1)
  {
    assert info[id := y].Keys == info.Keys + {id};
  }

  lemma LiveUpdate(info: map<SessionId, Session>, live: set<SessionId>, id: SessionId, y: Session)
    requires LiveOk(info, live)
    ensures LiveOk(info[id := y], if InTable(y) then live + {id} else live - {id})
  {
    hide InTable;
  }

  lemma TableUntouched(c: Config, t: Table, id: SessionId, y: Session)
    requires TableOk(c, t) && id in t.info
    requires InTable(y) == InTable(t.info[id]) && InTotal(y) == InTotal(t.info[id])
    ensures TableOk(c, t.(info := t.info[id := y]))
  {
    hide Tallied, InTable, InTotal;
    LiveUpdate(t.info, t.live, id, y);
    assert t.live == if InTable(y) then t.live + {id} else t.live - {id};
    TalliedUpdate(t.info, id, y);
    UpdateSize(t.info, id, y);
  }

  lemma AddSize(a: set<SessionId>, id: SessionId)
    requires id !in a
    ensures |a + {id}| == |a| + 1
  {
  }

  lemma InsertKeepsTable(c: Config, t: Table, id: SessionId, y: Session)
    requires TableOk(c, t) && id !in t.info && |t.live| < c.sessionCapacity && InTable(y) && !InTotal(y)
    ensures TableOk(c, t.(info := t.info[id := y], live := t.live + {id}, uncounted := t.uncounted + {id}))
  {
    hide Tallied, InTable, InTotal, LiveOk;
    LiveUpdate(t.info, t.live, id, y);
    TalliedUpdate(t.info, id, y);
    UpdateSize(t.info, id, y);
    assert id !in t.live by { NotLive(t.info, t.live, id); }
    AddSize(t.live, id);
    AddSize(t.uncounted, id);
  }

  lemma NotLive(info: map<SessionId, Session>, live: set<SessionId>, id: SessionId)
    requires LiveOk(info, live) && id !in info
    ensures id !in live
  {
  }

  lemma CreateKeepsTable(c: Config, s: State, id: SessionId, visitor: string, ip: string)
    requires TableOk(c, s.sessions) && id !in s.sessions.info && |s.sessions.live| < c.sessionCapacity
    ensures TableOk(c, Create(s, id, visitor, ip).sessions)
  {
    hide TableOk, InTable, InTotal;
    NewInTable(visitor, ip);
    InsertKeepsTable(c, s.sessions, id, NewSession(visitor, ip));
  }

  lemma NewInTable(visitor: string, ip: string)
    ensures InTable(NewSession(visitor, ip)) && !InTotal(NewSession(visitor, ip))
  {
  }

  lemma TallyKeepsTable(c: Config, t: Table, id: SessionId)
    requires TableOk(c, t) && id in t.info && t.info[id].stage == Tallying
    ensures TableOk(c, t.(info := t.info[id := t.info[id].(stage := Removing)], completedTotal := t.completedTotal + 1))
  {
    hide Tallied;
    var y := t.info[id].(stage := Removing);
    LiveUpdate(t.info, t.live, id, y);
    assert t.live + {id} == t.live;
    TalliedUpdate(t.info, id, y);
    UpdateSize(t.info, id, y);
  }

  lemma RemoveKeepsTable(c: Config, t: Table, id: SessionId)
    requires TableOk(c, t) && id in t.info && t.info[id].stage == Removing
    ensures TableOk(c, t.(info := t.info[id := t.info[id].(stage := Signalling)], live := t.live - {id}))
  {
    hide Tallied, LiveOk;
    var y := t.info[id].(stage := Signalling);
    LiveUpdate(t.info, t.live, id, y);
    TalliedUpdate(t.info, id, y);
    UpdateSize(t.info, id, y);
    assert |t.live - {id}| <= |t.live|;
  }

  lemma AdvancedInTable(x: Session)
    requires x.stage != Tallying && x.stage != Removing
    ensures InTable(Advanced(x)) == InTable(x) && InTotal(Advanced(x)) == InTotal(x)
  {
  }

  lemma AdvanceKeepsTable(c: Config, t: Table, id: SessionId)
    requires TableOk(c, t) && id in t.info
    ensures TableOk(c, AdvanceTable(t, id))
  {
    hide TableOk, InTable, InTotal;
    var x := t.info[id];
    if x.stage == Tallying {
      TallyKeepsTable(c, t, id);
    } else if x.stage == Removing {
      RemoveKeepsTable(c, t, id);
    } else {
      AdvancedInTable(x);
      TableUntouched(c, t, id, Advanced(x));
      assert AdvanceTable(t, id) == t.(info := t.info[id := Advanced(x)]);
    }
  }

  /** Sessions created, minus those not yet counted, are the completed ones plus the live ones. */
  lemma TotalsBalance(c: Config, t: Table)
    requires TableOk(c, t)
    requires t.uncounted == {}
    requires forall id :: id in t.info ==> t.info[id].stage == Open || t.info[id].stage == Closed
    ensures t.createdTotal == t.completedTotal + |t.live|
  {
    assert t.info.Keys == Tallied(t.info) + t.live;
    assert Tallied(t.info) !! t.live;
  }
}

/**
 The language server's session table.  Each method is one synchronous segment; between two
 segments of a creation any others may run, so a creation under way is kept in `creating`.
 */
module SessionManager {
  import opened Common

  type Id = nat

  datatype Client = Client(visitor: string, ip: string)

  datatype SessionState = Waiting | Authorized | Connected

  datatype Managed = Managed(client: Client, state: SessionState)

  datatype LimitError = ShuttingDown | Global | Visitor | Ip

  datatype Refusal = NotFound | MissingTicket | TicketUsed | BadTicket

  function VisitorOf(c: Client): string { c.visitor }

  function IpOf(c: Client): string { c.ip }

  /** The entries whose client has the visitor, or the address, `k`. */
  function With(m: map<Id, Client>, key: Client -> string, k: string): set<Id> {
    set id | id in m && key(m[id]) == k
  }

  function Clients(sessions: map<Id, Managed>): map<Id, Client> {
    map id | id in sessions :: sessions[id].client
  }

  /** A counter map is exact and keeps no zero entry. */
  ghost predicate CountsExactly(counts: map<string, nat>, m: map<Id, Client>, key: Client -> string) {
    (forall k :: Lookup(counts, k) == |With(m, key, k)|) && (forall k :: k in counts ==> counts[k] > 0)
  }

  /** Sessions and creations under way together stay within the cap for every key. */
  ghost predicate Capped(cap: nat, live: map<Id, Client>, creating: map<Id, Client>, key: Client -> string) {
    forall k :: |With(live, key, k)| + |With(creating, key, k)| <= cap
  }

  lemma WithAdded(m: map<Id, Client>, key: Client -> string, id: Id, c: Client, k: string)
    requires id !in m
    ensures |With(m[id := c], key, k)| == |With(m, key, k)| + if key(c) == k then 1 else 0
  {
    var a, b := With(m, key, k), With(m[id := c], key, k);
    assert id !in a;
    assert b == if key(c) == k then a + {id} else a;
  }

  lemma WithRemoved(m: map<Id, Client>, key: Client -> string, id: Id, k: string)
    requires id in m
    ensures |With(m - {id}, key, k)| == |With(m, key, k)| - if key(m[id]) == k then 1 else 0
  {
    assert (m - {id})[id := m[id]] == m;
    WithAdded(m - {id}, key, id, m[id], k);
  }

  lemma CountsAdded(counts: map<string, nat>, m: map<Id, Client>, key: Client -> string, id: Id, c: Client)
    requires CountsExactly(counts, m, key) && id !in m
    ensures CountsExactly(Increment(counts, key(c)), m[id := c], key)
  {
    forall k ensures Lookup(Increment(counts, key(c)), k) == |With(m[id := c], key, k)| {
      WithAdded(m, key, id, c, k);
    }
  }

  lemma CountsRemoved(counts: map<string, nat>, m: map<Id, Client>, key: Client -> string, id: Id)
    requires CountsExactly(counts, m, key) && id in m
    ensures Lookup(counts, key(m[id])) > 0
    ensures CountsExactly(Decrement(counts, key(m[id])), m - {id}, key)
  {
    assert id in With(m, key, key(m[id]));
    forall k ensures Lookup(Decrement(counts, key(m[id])), k) == |With(m - {id}, key, k)| {
      WithRemoved(m, key, id, k);
    }
  }

  lemma CapTaken(cap: nat, live: map<Id, Client>, creating: map<Id, Client>, key: Client -> string, id: Id, c: Client)
    requires Capped(cap, live, creating, key) && id !in creating
    requires |With(live, key, key(c))| + |With(creating, key, key(c))| < cap
    ensures Capped(cap, live, creating[id := c], key)
  {
    forall k ensures |With(live, key, k)| + |With(creating[id := c], key, k)| <= cap {
      WithAdded(creating, key, id, c, k);
    }
  }

  /** A creation that ends hands its place to the session, if there is one. */
  lemma CapHandedOver(cap: nat, live: map<Id, Client>, creating: map<Id, Client>, key: Client -> string, id: Id)
    requires Capped(cap, live, creating, key) && id in creating && id !in live
    ensures Capped(cap, live, creating - {id}, key)
    ensures Capped(cap, live[id := creating[id]], creating - {id}, key)
  {
    forall k
      ensures |With(live, key, k)| + |With(creating - {id}, key, k)| <= cap
      ensures |With(live[id := creating[id]], key, k)| + |With(creating - {id}, key, k)| <= cap
    {
      WithRemoved(creating, key, id, k);
      WithAdded(live, key, id, creating[id], k);
    }
  }

  lemma CapGivenBack(cap: nat, live: map<Id, Client>, creating: map<Id, Client>, key: Client -> string, id: Id)
    requires Capped(cap, live, creating, key) && id in live
    ensures Capped(cap, live - {id}, creating, key)
  {
    forall k ensures |With(live - {id}, key, k)| + |With(creating, key, k)| <= cap {
      WithRemoved(live, key, id, k);
    }
  }

  datatype Limits = Limits(sessions: nat, perVisitor: nat, perIp: nat)

  /** No cap is exceeded by the sessions together with the creations under way. */
  ghost predicate WithinLimits(l: Limits, sessions: map<Id, Managed>, creating: map<Id, Client>) {
    && sessions.Keys !! creating.Keys
    && |sessions| + |creating| <= l.sessions
    && Capped(l.perVisitor, Clients(sessions), creating, VisitorOf)
    && Capped(l.perIp, Clients(sessions), creating, IpOf)
  }

  lemma ClientsAt(sessions: map<Id, Managed>)
    ensures Clients(sessions).Keys == sessions.Keys
    ensures forall id :: id in sessions ==> Clients(sessions)[id] == sessions[id].client
  {
  }

  lemma OneKeyLess<T>(m: map<Id, T>, id: Id)
    requires id in m
    ensures |m| == |m - {id}| + 1
  {
    assert m.Keys == (m - {id}).Keys + {id};
  }

  lemma OneKeyMore<T>(m: map<Id, T>, id: Id, x: T)
    requires id !in m
    ensures |m[id := x]| == |m| + 1
  {
    assert m[id := x].Keys == m.Keys + {id};
  }

  lemma ReserveKeepsLimits(l: Limits, sessions: map<Id, Managed>, creating: map<Id, Client>, id: Id, c: Client)
    requires WithinLimits(l, sessions, creating) && id !in sessions && id !in creating
    requires |sessions| + |creating| < l.sessions
    requires |With(Clients(sessions), VisitorOf, c.visitor)| + |With(creating, VisitorOf, c.visitor)| < l.perVisitor
    requires |With(Clients(sessions), IpOf, c.ip)| + |With(creating, IpOf, c.ip)| < l.perIp
    ensures WithinLimits(l, sessions, creating[id := c])
  {
    hide Capped, With, Clients;
    OneKeyMore(creating, id, c);
    CapTaken(l.perVisitor, Clients(sessions), creating, VisitorOf, id, c);
    CapTaken(l.perIp, Clients(sessions), creating, IpOf, id, c);
  }

  lemma EndKeepsLimits(l: Limits, sessions: map<Id, Managed>, creating: map<Id, Client>, id: Id)
    requires WithinLimits(l, sessions, creating) && id in creating
    ensures WithinLimits(l, sessions, creating - {id})
    ensures WithinLimits(l, sessions[id := Managed(creating[id], Waiting)], creating - {id})
  {
    hide Capped, With, Clients;
    var more := sessions[id := Managed(creating[id], Waiting)];
    ClientsAt(sessions);
    ClientsAt(more);
    assert Clients(more) == Clients(sessions)[id := creating[id]];
    OneKeyLess(creating, id);
    OneKeyMore(sessions, id, Managed(creating[id], Waiting));
    CapHandedOver(l.perVisitor, Clients(sessions), creating, VisitorOf, id);
    CapHandedOver(l.perIp, Clients(sessions), creating, IpOf, id);
  }

  lemma StateKeepsLimits(l: Limits, sessions: map<Id, Managed>, creating: map<Id, Client>, id: Id, state: SessionState)
    requires WithinLimits(l, sessions, creating) && id in sessions
    ensures WithinLimits(l, sessions[id := sessions[id].(state := state)], creating)
  {
    hide Capped, With, Clients;
    var changed := sessions[id := sessions[id].(state := state)];
    ClientsAt(sessions);
    ClientsAt(changed);
    assert Clients(changed) == Clients(sessions);
    assert changed.Keys == sessions.Keys;
  }

  lemma CloseKeepsLimits(l: Limits, sessions: map<Id, Managed>, creating: map<Id, Client>, id: Id)
    requires WithinLimits(l, sessions, creating) && id in sessions
    ensures WithinLimits(l, sessions - {id}, creating)
  {
    hide Capped, With, Clients;
    ClientsAt(sessions);
    ClientsAt(sessions - {id});
    assert Clients(sessions - {id}) == Clients(sessions) - {id};
    OneKeyLess(sessions, id);
    CapGivenBack(l.perVisitor, Clients(sessions), creating, VisitorOf, id);
    CapGivenBack(l.perIp, Clients(sessions), creating, IpOf, id);
  }

  /** The sessions among `done` that belong to `k`. */
  ghost function Chosen(sessions: map<Id, Managed>, done: set<Id>, key: Client -> string, k: string): set<Id> {
    set id | id in done && id in sessions && key(sessions[id].client) == k
  }

  lemma ChosenGrows(sessions: map<Id, Managed>, done: set<Id>, key: Client -> string, k: string, id: Id)
    requires id in sessions && id !in done
    ensures |Chosen(sessions, done + {id}, key, k)|
         == |Chosen(sessions, done, key, k)| + if key(sessions[id].client) == k then 1 else 0
  {
    var before, after := Chosen(sessions, done, key, k), Chosen(sessions, done + {id}, key, k);
    assert after == if key(sessions[id].client) == k then before + {id} else before;
  }

  lemma AllChosen(sessions: map<Id, Managed>, key: Client -> string, k: string)
    ensures Chosen(sessions, sessions.Keys, key, k) == With(Clients(sessions), key, k)
  {
  }

  // ---- the life of a session ---------------------------------------------------------------

  /** What the manager has done, in order. */
  datatype Event =
    | Reserving(id: Id) | Publishing(id: Id) | Abandoning(id: Id)
    | Authorizing(id: Id) | Attaching(id: Id) | Closing(id: Id)
    | Halting

  datatype Life = New | Creating | Live(state: SessionState) | Gone | Impossible

  /** The only life a session may lead. */
  function Onward(life: Life, e: Event): Life {
    match e
    case Reserving(_) => if life == New then Creating else Impossible
    case Publishing(_) => if life == Creating then Live(Waiting) else Impossible
    case Abandoning(_) => if life == Creating then Gone else Impossible
    case Authorizing(_) => if life == Live(Waiting) then Live(Authorized) else Impossible
    case Attaching(_) => if life == Live(Authorized) then Live(Connected) else Impossible
    case Closing(_) => if life.Live? then Gone else Impossible
    case Halting => life
  }

  function LifeOf(log: seq<Event>, id: Id): Life {
    if log == [] then New
    else
      var life := LifeOf(log[..|log| - 1], id);
      var e := log[|log| - 1];
      if e.Halting? || e.id != id then life else Onward(life, e)
  }

  function Times(log: seq<Event>, e: Event): nat {
    if log == [] then 0 else Times(log[..|log| - 1], e) + if log[|log| - 1] == e then 1 else 0
  }

  /** In a possible life a ticket is accepted at most once and a socket attached at most once, after it. */
  lemma {:induction false} OnceInALife(log: seq<Event>, id: Id)
    requires LifeOf(log, id) != Impossible
    ensures Times(log, Attaching(id)) <= Times(log, Authorizing(id)) <= 1
    ensures LifeOf(log, id) in {New, Creating, Live(Waiting)} ==> Times(log, Authorizing(id)) == 0
    ensures LifeOf(log, id) in {New, Creating, Live(Waiting), Live(Authorized)} ==> Times(log, Attaching(id)) == 0
    ensures LifeOf(log, id) == Live(Authorized) ==> Times(log, Authorizing(id)) == 1
  {
    if log != [] {
      OnceInALife(log[..|log| - 1], id);
    }
  }

  /** The tables show where in its life each session is. */
  ghost predicate Shows(sessions: map<Id, Managed>, creating: map<Id, Client>, id: Id, life: Life) {
    if id in creating then life == Creating
    else if id in sessions then life == Live(sessions[id].state)
    else life == New || life == Gone
  }

  ghost predicate LogOk(log: seq<Event>, sessions: map<Id, Managed>, creating: map<Id, Client>, halted: bool) {
    && (forall id :: Shows(sessions, creating, id, LifeOf(log, id)))
    && (halted <==> Halting in log)
    && (forall i, j :: 0 <= i < j < |log| && log[i].Halting? ==> !log[j].Reserving?)
  }

  lemma LifeAfter(log: seq<Event>, e: Event, id: Id)
    ensures LifeOf(log + [e], id) == if e.Halting? || e.id != id then LifeOf(log, id) else Onward(LifeOf(log, id), e)
  {
    assert (log + [e])[..|log|] == log;
  }

  /** One more event, of one session, keeps the log in step with the tables. */
  lemma LogGrows(log: seq<Event>, sessions: map<Id, Managed>, creating: map<Id, Client>, halted: bool, e: Event,
                 sessions': map<Id, Managed>, creating': map<Id, Client>)
    requires LogOk(log, sessions, creating, halted) && !e.Halting? && (e.Reserving? ==> !halted)
    requires forall id :: id != e.id ==>
               && (id in creating <==> id in creating') && (id in sessions <==> id in sessions')
               && (id in sessions ==> sessions'[id] == sessions[id])
    requires Shows(sessions', creating', e.id, Onward(LifeOf(log, e.id), e))
    ensures LogOk(log + [e], sessions', creating', halted)
  {
    var more := log + [e];
    forall id ensures Shows(sessions', creating', id, LifeOf(more, id)) {
      LifeAfter(log, e, id);
      assert Shows(sessions, creating, id, LifeOf(log, id));
    }
    assert forall i :: 0 <= i < |log| ==> more[i] == log[i];
    assert more[|log|] == e;
  }

  lemma LogHalts(log: seq<Event>, sessions: map<Id, Managed>, creating: map<Id, Client>, halted: bool)
    requires LogOk(log, sessions, creating, halted)
    ensures LogOk(log + [Halting], sessions, creating, true)
  {
    var more := log + [Halting];
    forall id ensures Shows(sessions, creating, id, LifeOf(more, id)) {
      LifeAfter(log, Halting, id);
      assert Shows(sessions, creating, id, LifeOf(log, id));
    }
    assert forall i :: 0 <= i < |log| ==> more[i] == log[i];
    assert more[|log|] == Halting;
  }

  class LspSessionManager {
    const limits: Limits
    var sessions: map<Id, Managed>
    var pendingVisitors: map<string, nat>
    var pendingIps: map<string, nat>
    var pendingCount: int
    var shuttingDown: bool
    ghost var creating: map<Id, Client>
    ghost var log: seq<Event>

    /** The pending counters count the creations under way. */
    ghost predicate CountersValid()
      reads this
    {
      && pendingCount == |creating|
      && CountsExactly(pendingVisitors, creating, VisitorOf)
      && CountsExactly(pendingIps, creating, IpOf)
    }

    ghost predicate Valid()
      reads this
    {
      && CountersValid() && WithinLimits(limits, sessions, creating)
      && LogOk(log, sessions, creating, shuttingDown)
    }

    /** Whatever was called in whatever order: no session was authorized or attached twice. */
    lemma NeverTwice(id: Id)
      requires Valid()
      ensures Times(log, Authorizing(id)) <= 1 && Times(log, Attaching(id)) <= Times(log, Authorizing(id))
    {
      assert Shows(sessions, creating, id, LifeOf(log, id));
      OnceInALife(log, id);
    }

    /** And after a shutdown no creation was started. */
    lemma NothingStartsAfterShutdown(i: nat, j: nat)
      requires Valid() && i < j < |log| && log[i] == Halting
      ensures !log[j].Reserving?
    {
    }

    /** Nor are the caps exceeded, by sessions and creations under way together. */
    lemma CapsHold(k: string)
      requires Valid()
      ensures |sessions| + |creating| <= limits.sessions
      ensures |With(Clients(sessions), VisitorOf, k)| + |With(creating, VisitorOf, k)| <= limits.perVisitor
      ensures |With(Clients(sessions), IpOf, k)| + |With(creating, IpOf, k)| <= limits.perIp
    {
    }

    constructor (limits: Limits)
      ensures Valid() && this.limits == limits && sessions == map[] && creating == map[] && !shuttingDown
      ensures log == []
    {
      this.limits := limits;
      sessions, creating, log := map[], map[], [];
      pendingVisitors, pendingIps, pendingCount, shuttingDown := map[], map[], 0, false;
    }

    /** `countSessions`. */
    method CountSessions(key: Client -> string, k: string) returns (count: nat)
      ensures count == |With(Clients(sessions), key, k)|
    {
      hide Chosen, With, Clients;
      count := 0;
      var rest := sessions.Keys;
      ghost var done: set<Id> := {};
      assert |Chosen(sessions, done, key, k)| == 0 by {
        NoneChosen(sessions, key, k);
      }
      while rest != {}
        invariant rest + done == sessions.Keys && rest !! done
        invariant count == |Chosen(sessions, done, key, k)|
        decreases |rest|
      {
        var id :| id in rest;
        ChosenGrows(sessions, done, key, k, id);
        rest, done := rest - {id}, done + {id};
        if key(sessions[id].client) == k {
          count := count + 1;
        }
      }
      assert done == sessions.Keys;
      AllChosen(sessions, key, k);
    }

    /** A place is taken exactly when the service runs on and every cap leaves one; else nothing changes. */
    method Reserve(id: Id, client: Client) returns (error: Option<LimitError>)
      requires Valid() && LifeOf(log, id) == New
      modifies this
      ensures Valid() && sessions == old(sessions) && shuttingDown == old(shuttingDown)
      ensures error.None? <==>
              && !shuttingDown
              && |sessions| + old(|creating|) < limits.sessions
              && |With(Clients(sessions), VisitorOf, client.visitor)| + |With(old(creating), VisitorOf, client.visitor)|
                 < limits.perVisitor
              && |With(Clients(sessions), IpOf, client.ip)| + |With(old(creating), IpOf, client.ip)| < limits.perIp
      ensures error == Some(ShuttingDown) <==> shuttingDown
      ensures error == Some(Global) <==> !shuttingDown && |sessions| + old(|creating|) >= limits.sessions
      ensures error == Some(Visitor) ==>
                |With(Clients(sessions), VisitorOf, client.visitor)| + |With(old(creating), VisitorOf, client.visitor)|
                >= limits.perVisitor
      ensures error == Some(Ip) ==>
                && |With(Clients(sessions), VisitorOf, client.visitor)|
                   + |With(old(creating), VisitorOf, client.visitor)| < limits.perVisitor
                && |With(Clients(sessions), IpOf, client.ip)| + |With(old(creating), IpOf, client.ip)| >= limits.perIp
      ensures creating == if error.None? then old(creating)[id := client] else old(creating)
      ensures log == if error.None? then old(log) + [Reserving(id)] else old(log)
    {
      hide CountsExactly, WithinLimits, With, Clients, LogOk, LifeOf;
      NewIsNowhere(id);
      if shuttingDown {
        return Some(ShuttingDown);
      }
      var liveOfVisitor := CountSessions(VisitorOf, client.visitor);
      var liveOfIp := CountSessions(IpOf, client.ip);
      Pending(client);
      if |sessions| + pendingCount >= limits.sessions {
        return Some(Global);
      }
      if liveOfVisitor + Lookup(pendingVisitors, client.visitor) >= limits.perVisitor {
        return Some(Visitor);
      }
      if liveOfIp + Lookup(pendingIps, client.ip) >= limits.perIp {
        return Some(Ip);
      }
      CountsAdded(pendingVisitors, creating, VisitorOf, id, client);
      CountsAdded(pendingIps, creating, IpOf, id, client);
      ReserveKeepsLimits(limits, sessions, creating, id, client);
      OneKeyMore(creating, id, client);
      LogGrows(log, sessions, creating, shuttingDown, Reserving(id), sessions, creating[id := client]);
      log := log + [Reserving(id)];
      pendingCount := pendingCount + 1;
      pendingVisitors := Increment(pendingVisitors, client.visitor);
      pendingIps := Increment(pendingIps, client.ip);
      creating := creating[id := client];
      return None;
    }

    lemma NewIsNowhere(id: Id)
      requires Valid() && LifeOf(log, id) == New
      ensures id !in sessions && id !in creating
    {
      assert Shows(sessions, creating, id, LifeOf(log, id));
    }

    lemma LifeNow(id: Id)
      requires Valid()
      ensures Shows(sessions, creating, id, LifeOf(log, id))
    {
    }

    lemma Pending(client: Client)
      requires CountersValid()
      ensures Lookup(pendingVisitors, client.visitor) == |With(creating, VisitorOf, client.visitor)|
      ensures Lookup(pendingIps, client.ip) == |With(creating, IpOf, client.ip)|
    {
    }

    /** `#release`: no counter is missing or goes below zero. */
    method Release(id: Id, client: Client)
      requires CountersValid() && id in creating && creating[id] == client
      modifies this`pendingCount, this`pendingVisitors, this`pendingIps, this`creating
      ensures CountersValid()
      ensures sessions == old(sessions) && shuttingDown == old(shuttingDown) && creating == old(creating) - {id}
    {
      hide CountsExactly, With, Lookup, Decrement;
      CountsRemoved(pendingVisitors, creating, VisitorOf, id);
      CountsRemoved(pendingIps, creating, IpOf, id);
      OneKeyLess(creating, id);
      pendingCount := pendingCount - 1;
      pendingVisitors := Decrement(pendingVisitors, client.visitor);
      pendingIps := Decrement(pendingIps, client.ip);
      creating := creating - {id};
    }

    /** The end of a successful creation: the session appears and the reservation goes, in one segment. */
    method Publish(id: Id, client: Client)
      requires Valid() && id in creating && creating[id] == client
      modifies this
      ensures Valid() && shuttingDown == old(shuttingDown)
      ensures sessions == old(sessions)[id := Managed(client, Waiting)] && creating == old(creating) - {id}
      ensures log == old(log) + [Publishing(id)]
    {
      hide CountsExactly, WithinLimits, LogOk, LifeOf;
      EndKeepsLimits(limits, sessions, creating, id);
      LifeNow(id);
      LogGrows(log, sessions, creating, shuttingDown, Publishing(id),
               sessions[id := Managed(client, Waiting)], creating - {id});
      log := log + [Publishing(id)];
      sessions := sessions[id := Managed(client, Waiting)];
      Release(id, client);
    }

    /** The end of a failed creation, once its workspace is removed. */
    method Abandon(id: Id, client: Client)
      requires Valid() && id in creating && creating[id] == client
      modifies this
      ensures Valid() && shuttingDown == old(shuttingDown)
      ensures sessions == old(sessions) && creating == old(creating) - {id}
      ensures log == old(log) + [Abandoning(id)]
    {
      hide CountsExactly, WithinLimits, LogOk, LifeOf;
      EndKeepsLimits(limits, sessions, creating, id);
      LifeNow(id);
      assert id !in sessions by { CreatingIsNotLive(id); }
      LogGrows(log, sessions, creating, shuttingDown, Abandoning(id), sessions, creating - {id});
      log := log + [Abandoning(id)];
      Release(id, client);
    }

    lemma CreatingIsNotLive(id: Id)
      requires Valid() && id in creating
      ensures id !in sessions
    {
    }

    /** A connection ticket is good once: a second use finds the session past waiting. */
    method AuthorizeWebSocket(id: Id, ticket: Option<bool>) returns (refusal: Option<Refusal>)
      requires Valid()
      modifies this`sessions, this`log
      ensures Valid()
      ensures refusal.None? <==> id in old(sessions) && old(sessions[id].state) == Waiting && ticket == Some(true)
      ensures refusal.None? ==> sessions == old(sessions)[id := old(sessions[id]).(state := Authorized)]
      ensures refusal.Some? ==> sessions == old(sessions)
      ensures refusal == Some(NotFound) <==> id !in old(sessions)
      ensures refusal == Some(MissingTicket) <==> id in old(sessions) && ticket.None?
      ensures refusal == Some(BadTicket) <==>
              id in old(sessions) && old(sessions[id].state) == Waiting && ticket == Some(false)
      ensures refusal == Some(TicketUsed) <==>
              id in old(sessions) && ticket.Some? && old(sessions[id].state) != Waiting
      ensures log == if refusal.None? then old(log) + [Authorizing(id)] else old(log)
    {
      hide CountsExactly, WithinLimits, LogOk, LifeOf;
      if id !in sessions {
        return Some(NotFound);
      }
      if ticket.None? {
        return Some(MissingTicket);
      }
      if sessions[id].state != Waiting {
        return Some(TicketUsed);
      }
      if !ticket.value {
        return Some(BadTicket);
      }
      StateKeepsLimits(limits, sessions, creating, id, Authorized);
      LiveLife(id);
      LogGrows(log, sessions, creating, shuttingDown, Authorizing(id),
               sessions[id := sessions[id].(state := Authorized)], creating);
      log := log + [Authorizing(id)];
      sessions := sessions[id := sessions[id].(state := Authorized)];
      return None;
    }

    method AttachWebSocket(id: Id) returns (attached: bool)
      requires Valid()
      modifies this`sessions, this`log
      ensures Valid()
      ensures attached <==> id in old(sessions) && old(sessions[id].state) == Authorized
      ensures sessions == if attached then old(sessions)[id := old(sessions[id]).(state := Connected)]
                          else old(sessions)
      ensures log == if attached then old(log) + [Attaching(id)] else old(log)
    {
      hide CountsExactly, WithinLimits, LogOk, LifeOf;
      attached := id in sessions && sessions[id].state == Authorized;
      if attached {
        StateKeepsLimits(limits, sessions, creating, id, Connected);
        LiveLife(id);
        LogGrows(log, sessions, creating, shuttingDown, Attaching(id),
                 sessions[id := sessions[id].(state := Connected)], creating);
        log := log + [Attaching(id)];
        sessions := sessions[id := sessions[id].(state := Connected)];
      }
    }

    /** Closing takes the session off the table at once, whatever is still to be torn down. */
    method BeginCleanup(id: Id) returns (found: bool)
      requires Valid()
      modifies this`sessions, this`log
      ensures Valid() && found == (id in old(sessions)) && sessions == old(sessions) - {id}
      ensures log == if found then old(log) + [Closing(id)] else old(log)
    {
      hide CountsExactly, WithinLimits, LogOk, LifeOf;
      found := id in sessions;
      if found {
        CloseKeepsLimits(limits, sessions, creating, id);
        LiveLife(id);
        LogGrows(log, sessions, creating, shuttingDown, Closing(id), sessions - {id}, creating);
        log := log + [Closing(id)];
        sessions := sessions - {id};
      } else {
        assert sessions - {id} == sessions;
      }
    }

    lemma LiveLife(id: Id)
      requires Valid() && id in sessions
      ensures LifeOf(log, id) == Live(sessions[id].state) && id !in creating
    {
      assert Shows(sessions, creating, id, LifeOf(log, id));
    }

    /**
     The synchronous part of a shutdown empties the table; no creation can start any more, and only
     those under way can still add a session.
     */
    method Shutdown()
      requires Valid()
      modifies this`sessions, this`shuttingDown, this`log
      ensures Valid() && shuttingDown && sessions == map[]
      ensures old(log) + [Halting] <= log
    {
      LogHalts(log, sessions, creating, shuttingDown);
      shuttingDown := true;
      log := log + [Halting];
      var rest := sessions.Keys;
      while rest != {}
        invariant Valid() && shuttingDown && sessions.Keys == rest
        invariant old(log) + [Halting] <= log
        decreases |rest|
      {
        var id :| id in rest;
        var _ := BeginCleanup(id);
        rest := rest - {id};
      }
    }
  }

  lemma NoneChosen(sessions: map<Id, Managed>, key: Client -> string, k: string)
    ensures Chosen(sessions, {}, key, k) == {}
  {
  }
}

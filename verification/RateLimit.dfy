/** The web server's fixed-window rate limiter with its bounded, lazily cleaned store. */
module RateLimit {
  import opened Common
  import opened Windows

  datatype Rule = Rule(key: string, limit: nat, windowMs: nat)
  datatype Entry = Entry(count: nat, resetAt: int)
  datatype Verdict = Verdict(allowed: bool, remaining: nat, retryAfterSeconds: nat)

  const MAX_RATE_LIMIT_ENTRIES := 10000
  const CLEANUP_INTERVAL := 256

  /** `Math.max(1, Math.ceil(ms / 1000))`. */
  function RetrySeconds(ms: int): (s: nat)
    ensures s >= 1 && 1000 * s >= ms
    ensures s > 1 ==> 1000 * (s - 1) < ms
  {
    if ms <= 1000 then 1 else (ms + 999) / 1000
  }

  /** The entries that have not expired. */
  function Cleaned(store: map<string, Entry>, now: int): map<string, Entry> {
    map k | k in store && store[k].resetAt > now :: store[k]
  }

  /** The store after the lazy cleanup of the `operation`-th call. */
  function Tidied(store: map<string, Entry>, operation: nat, now: int): map<string, Entry> {
    if operation % CLEANUP_INTERVAL == 0 || |store| >= MAX_RATE_LIMIT_ENTRIES then Cleaned(store, now) else store
  }

  /** The entry a request is counted in: the running one, or a new window. */
  function Current(store: map<string, Entry>, rule: Rule, now: int): Entry {
    if rule.key in store && store[rule.key].resetAt > now then store[rule.key] else Entry(0, now + rule.windowMs)
  }

  function Judge(rule: Rule, entry: Entry, now: int): Verdict {
    Verdict(entry.count <= rule.limit,
            if rule.limit > entry.count then rule.limit - entry.count else 0,
            if entry.count <= rule.limit then 0 else RetrySeconds(entry.resetAt - now))
  }

  /** Counting a request without looking at the size of the store. */
  function Count(store: map<string, Entry>, rule: Rule, now: int): (map<string, Entry>, Verdict) {
    var entry := Current(store, rule, now);
    var counted := entry.(count := entry.count + 1);
    (store[rule.key := counted], Judge(rule, counted, now))
  }

  predicate HasRoom(store: map<string, Entry>, key: string) {
    key in store || |store| < MAX_RATE_LIMIT_ENTRIES
  }

  /** `consumeRateLimit` with the counter of calls so far. */
  function Consume(store: map<string, Entry>, operation: nat, rule: Rule, now: int): (map<string, Entry>, Verdict) {
    var tidy := Tidied(store, operation, now);
    if HasRoom(tidy, rule.key) then Count(tidy, rule, now)
    else (tidy, Verdict(false, 0, RetrySeconds(rule.windowMs)))
  }

  class RateLimiter {
    var store: map<string, Entry>
    var operationCount: nat

    ghost predicate Valid()
      reads this
    {
      |store| <= MAX_RATE_LIMIT_ENTRIES
    }

    constructor ()
      ensures Valid() && store == map[] && operationCount == 0
    {
      store, operationCount := map[], 0;
    }

    /** The cleanup loop deletes exactly the expired entries, in whatever order the map yields them. */
    method CleanupExpiredEntries(now: int)
      modifies this`store
      ensures store == Cleaned(old(store), now)
    {
      var todo := store.Keys;
      while todo != {}
        invariant todo <= store.Keys <= old(store).Keys
        invariant forall k :: k in store ==> store[k] == old(store)[k]
        invariant forall k :: k in old(store) && k !in todo ==> (k in store <==> old(store)[k].resetAt > now)
        decreases todo
      {
        var k :| k in todo;
        if store[k].resetAt <= now {
          store := store - {k};
        }
        todo := todo - {k};
      }
    }

    /** The store never exceeds its maximum, and the answer is the one `Consume` gives. */
    method ConsumeRateLimit(rule: Rule, now: int) returns (verdict: Verdict)
      requires Valid()
      modifies this
      ensures Valid() && operationCount == old(operationCount) + 1
      ensures (store, verdict) == Consume(old(store), operationCount, rule, now)
    {
      hide Cleaned, Judge;
      operationCount := operationCount + 1;
      if operationCount % CLEANUP_INTERVAL == 0 || |store| >= MAX_RATE_LIMIT_ENTRIES {
        CleanupExpiredEntries(now);
        CleanedSize(old(store), now);
      }
      if rule.key !in store && |store| >= MAX_RATE_LIMIT_ENTRIES {
        return Verdict(false, 0, RetrySeconds(rule.windowMs));
      }
      var entry := if rule.key !in store || store[rule.key].resetAt <= now
                   then Entry(0, now + rule.windowMs) else store[rule.key];
      entry := entry.(count := entry.count + 1);
      assert store[rule.key := entry].Keys == store.Keys + {rule.key};
      store := store[rule.key := entry];
      verdict := Assess(rule, entry, now);
    }
  }

  method Assess(rule: Rule, entry: Entry, now: int) returns (verdict: Verdict)
    ensures verdict == Judge(rule, entry, now)
  {
    var allowed := entry.count <= rule.limit;
    var difference := rule.limit - entry.count;
    var remaining := if difference > 0 then difference else 0;
    verdict := Verdict(allowed, remaining, if allowed then 0 else RetrySeconds(entry.resetAt - now));
  }

  lemma CleanedSize(store: map<string, Entry>, now: int)
    ensures |Cleaned(store, now)| <= |store|
  {
    var c := Cleaned(store, now);
    assert c.Keys <= store.Keys;
    assert store.Keys == c.Keys + (store.Keys - c.Keys);
    assert |c.Keys| <= |store.Keys|;
  }

  // ---- runs -----------------------------------------------------------------------------

  datatype Call = Call(rule: Rule, now: int)

  /** A clock that does not go back, and one rule per key. */
  ghost predicate WellTimed(calls: seq<Call>) {
    && (forall i, j :: 0 <= i < j < |calls| ==> calls[i].now <= calls[j].now)
    && (forall i, j :: 0 <= i < j < |calls| && calls[i].rule.key == calls[j].rule.key ==>
          calls[i].rule == calls[j].rule)
  }

  /** The store after a run of calls from the empty store. */
  function StoreAfter(calls: seq<Call>): map<string, Entry> {
    if calls == [] then map[]
    else
      var last := calls[|calls| - 1];
      Consume(StoreAfter(calls[..|calls| - 1]), |calls|, last.rule, last.now).0
  }

  /** What the last call of a run was answered. */
  function LastVerdict(calls: seq<Call>): Verdict
    requires calls != []
  {
    var last := calls[|calls| - 1];
    Consume(StoreAfter(calls[..|calls| - 1]), |calls|, last.rule, last.now).1
  }

  /** The admissions of one key, each with the start of the window it was counted in. */
  function Admissions(calls: seq<Call>, key: string): seq<Admission> {
    if calls == [] then []
    else
      var last := calls[|calls| - 1];
      var before := Admissions(calls[..|calls| - 1], key);
      if last.rule.key == key && LastVerdict(calls).allowed && key in StoreAfter(calls)
      then before + [Admission(last.now, StoreAfter(calls)[key].resetAt - last.rule.windowMs)]
      else before
  }

  /** Requests of `key` admitted in the half-open interval `[from, to)`. */
  function AdmittedIn(calls: seq<Call>, key: string, from: int, to: int): nat {
    if calls == [] then 0
    else
      var last := calls[|calls| - 1];
      AdmittedIn(calls[..|calls| - 1], key, from, to)
      + if last.rule.key == key && LastVerdict(calls).allowed && from <= last.now < to then 1 else 0
  }

  function Min(a: nat, b: nat): nat {
    if a < b then a else b
  }

  /** The log knows exactly how many requests of the window that starts at `start` were admitted, and its opening. */
  ghost predicate TracksEntry(entry: Entry, log: seq<Admission>, length: nat, limit: nat) {
    var start := entry.resetAt - length;
    && (forall i :: 0 <= i < |log| ==> log[i].window == start || log[i].window + length <= start)
    && InWindow(log, start) == Min(entry.count, limit)
    && (entry.count > 0 && limit > 0 ==> OpenedAt(log, start))
  }

  /** How the store's entry of a key relates to what was admitted so far. */
  ghost predicate Tracks(store: map<string, Entry>, key: string, log: seq<Admission>, length: nat, limit: nat,
                         now: int) {
    && Windowed(log, length, limit) && Opened(log)
    && (if key in store then
          store[key].resetAt - length <= now && store[key].count > 0 && TracksEntry(store[key], log, length, limit)
        else forall i :: 0 <= i < |log| ==> log[i].window + length <= now)
  }

  lemma TracksCleaned(store: map<string, Entry>, operation: nat, key: string, log: seq<Admission>, length: nat,
                      limit: nat, now: int, now': int)
    requires Tracks(store, key, log, length, limit, now) && now <= now'
    ensures Tracks(Tidied(store, operation, now'), key, log, length, limit, now')
  {
    hide InWindow, OpenedAt;
  }

  /** Where the window a request is counted in starts, and what the log knows of it. */
  lemma CurrentWindow(store: map<string, Entry>, rule: Rule, log: seq<Admission>, now: int)
    requires Tracks(store, rule.key, log, rule.windowMs, rule.limit, now) && rule.windowMs > 0
    ensures var entry := Current(store, rule, now);
            var start := entry.resetAt - rule.windowMs;
            && start <= now < start + rule.windowMs && (entry.count == 0 ==> start == now)
            && TracksEntry(entry, log, rule.windowMs, rule.limit)
  {
    hide InWindow, OpenedAt;
    if !(rule.key in store && store[rule.key].resetAt > now) {
      NoneInWindow(log, now);
    }
  }

  lemma CountTracks(store: map<string, Entry>, rule: Rule, log: seq<Admission>, now: int)
    requires Tracks(store, rule.key, log, rule.windowMs, rule.limit, now) && rule.windowMs > 0
    ensures var (store', verdict) := Count(store, rule, now);
            var a := Admission(now, store'[rule.key].resetAt - rule.windowMs);
            Tracks(store', rule.key, if verdict.allowed then log + [a] else log, rule.windowMs, rule.limit, now)
  {
    hide Windowed, Opened, OpenedAt, InWindow, RetrySeconds, Current;
    var entry := Current(store, rule, now);
    var a := Admission(now, entry.resetAt - rule.windowMs);
    CurrentWindow(store, rule, log, now);
    if entry.count + 1 <= rule.limit {
      AdmissionKeepsWindows(log, a, rule.windowMs, rule.limit);
      OpenedAppend(log, a);
      assert forall i :: 0 <= i < |log + [a]| ==> (log + [a])[i] == if i < |log| then log[i] else a;
    }
  }

  lemma TracksLater(store: map<string, Entry>, key: string, log: seq<Admission>, length: nat, limit: nat,
                    now: int, now': int)
    requires Tracks(store, key, log, length, limit, now) && now <= now'
    ensures Tracks(store, key, log, length, limit, now')
  {
    hide InWindow, OpenedAt;
  }

  lemma OtherKeyTracks(store: map<string, Entry>, call: Call, rule: Rule, log: seq<Admission>)
    requires Tracks(store, rule.key, log, rule.windowMs, rule.limit, call.now) && call.rule.key != rule.key
    ensures Tracks(Count(store, call.rule, call.now).0, rule.key, log, rule.windowMs, rule.limit, call.now)
  {
    hide Windowed, Opened, TracksEntry, RetrySeconds, Current;
  }

  lemma CallTracks(store: map<string, Entry>, operation: nat, call: Call, rule: Rule, log: seq<Admission>)
    requires Tracks(store, rule.key, log, rule.windowMs, rule.limit, call.now) && rule.windowMs > 0
    requires call.rule.key == rule.key ==> call.rule == rule
    ensures var (store', verdict) := Consume(store, operation, call.rule, call.now);
            var log' := if call.rule == rule && verdict.allowed && rule.key in store'
                        then log + [Admission(call.now, store'[rule.key].resetAt - rule.windowMs)] else log;
            Tracks(store', rule.key, log', rule.windowMs, rule.limit, call.now)
  {
    hide Windowed, InWindow, Tidied, RetrySeconds, Judge, Current, Tracks;
    var tidy := Tidied(store, operation, call.now);
    TracksCleaned(store, operation, rule.key, log, rule.windowMs, rule.limit, call.now, call.now);
    if HasRoom(tidy, call.rule.key) {
      if call.rule == rule {
        CountTracks(tidy, rule, log, call.now);
      } else {
        OtherKeyTracks(tidy, call, rule, log);
      }
    }
  }

  lemma NothingTracked(rule: Rule, now: int)
    ensures Tracks(map[], rule.key, [], rule.windowMs, rule.limit, now)
  {
  }

  lemma {:induction false} RunTracks(calls: seq<Call>, rule: Rule, now: int)
    requires WellTimed(calls) && rule.windowMs > 0
    requires forall i :: 0 <= i < |calls| ==> calls[i].now <= now
    requires forall i :: 0 <= i < |calls| && calls[i].rule.key == rule.key ==> calls[i].rule == rule
    ensures Tracks(StoreAfter(calls), rule.key, Admissions(calls, rule.key), rule.windowMs, rule.limit, now)
    decreases |calls|
  {
    hide Tracks, Consume;
    if calls == [] {
      NothingTracked(rule, now);
    } else {
      var front := calls[..|calls| - 1];
      var last := calls[|calls| - 1];
      RunTracks(front, rule, last.now);
      CallTracks(StoreAfter(front), |calls|, last, rule, Admissions(front, rule.key));
      TracksLater(StoreAfter(calls), rule.key, Admissions(calls, rule.key), rule.windowMs, rule.limit, last.now, now);
    }
  }

  /** An admitted request always leaves its entry in the store. */
  lemma {:induction false} AdmissionsCount(calls: seq<Call>, key: string, from: int, to: int)
    ensures AdmittedIn(calls, key, from, to) == InInterval(Admissions(calls, key), from, to)
    decreases |calls|
  {
    if calls != [] {
      var last := calls[|calls| - 1];
      AdmissionsCount(calls[..|calls| - 1], key, from, to);
      if last.rule.key == key && LastVerdict(calls).allowed && key in StoreAfter(calls) {
        InIntervalAppend(Admissions(calls[..|calls| - 1], key),
                         Admission(last.now, StoreAfter(calls)[key].resetAt - last.rule.windowMs), from, to);
      }
    }
  }

  /**
   Any half-open interval of one window length admits at most twice the limit less one, per key:
   a window that reaches into the interval was opened, and first counted, before it.
   */
  lemma AtMostTwiceLessOne(calls: seq<Call>, rule: Rule, from: int)
    requires WellTimed(calls)
    requires forall i :: 0 <= i < |calls| && calls[i].rule.key == rule.key ==> calls[i].rule == rule
    ensures AdmittedIn(calls, rule.key, from, from + rule.windowMs)
         <= if rule.limit == 0 then 0 else 2 * rule.limit - 1
  {
    hide Windowed, Opened, TracksEntry;
    AdmissionsCount(calls, rule.key, from, from + rule.windowMs);
    if rule.windowMs > 0 && calls != [] {
      RunTracks(calls, rule, calls[|calls| - 1].now);
      if rule.limit > 0 {
        TwiceLessOne(Admissions(calls, rule.key), rule.windowMs, rule.limit, from);
      } else {
        TwiceTheLimit(Admissions(calls, rule.key), rule.windowMs, rule.limit, from);
      }
    } else {
      EmptyInterval(Admissions(calls, rule.key), from, from + rule.windowMs);
    }
  }

  /** The plain limit holds for every interval that no window opened before it reaches into. */
  lemma AlignedAtMostLimitOf(calls: seq<Call>, rule: Rule, from: int)
    requires WellTimed(calls)
    requires forall i :: 0 <= i < |calls| && calls[i].rule.key == rule.key ==> calls[i].rule == rule
    requires var log := Admissions(calls, rule.key);
             forall i :: 0 <= i < |log| && from <= log[i].time < from + rule.windowMs ==> from <= log[i].window
    ensures AdmittedIn(calls, rule.key, from, from + rule.windowMs) <= rule.limit
  {
    hide WellTimed, Windowed, Opened, TracksEntry, Admissions, AdmittedIn, InInterval, StoreAfter;
    AdmissionsCount(calls, rule.key, from, from + rule.windowMs);
    if calls == [] || rule.windowMs == 0 {
      assert calls == [] ==> Admissions(calls, rule.key) == [] by { NoAdmissions(rule.key); }
      EmptyInterval(Admissions(calls, rule.key), from, from + rule.windowMs);
    } else {
      assert forall i :: 0 <= i < |calls| ==> calls[i].now <= calls[|calls| - 1].now by { LastIsLatest(calls); }
      RunTracks(calls, rule, calls[|calls| - 1].now);
      AlignedAtMostLimit(Admissions(calls, rule.key), rule.windowMs, rule.limit, from);
    }
  }

  lemma NoAdmissions(key: string)
    ensures Admissions([], key) == []
  {
  }

  lemma LastIsLatest(calls: seq<Call>)
    requires WellTimed(calls) && calls != []
    ensures forall i :: 0 <= i < |calls| ==> calls[i].now <= calls[|calls| - 1].now
  {
  }

  // ---- the bound is reached -----------------------------------------------------------------

  /** One call at 0, `a` calls just before the window ends, `b` calls when it has ended. */
  function Burst(rule: Rule, a: nat, b: nat): seq<Call>
    decreases a + b
  {
    if b > 0 then Burst(rule, a, b - 1) + [Call(rule, rule.windowMs)]
    else if a > 0 then Burst(rule, a - 1, 0) + [Call(rule, rule.windowMs - 1)]
    else [Call(rule, 0)]
  }

  /** The store knows no other key. */
  ghost predicate Alone(store: map<string, Entry>, key: string) {
    store.Keys <= {key}
  }

  lemma TidyAlone(store: map<string, Entry>, operation: nat, rule: Rule, now: int)
    requires Alone(store, rule.key)
    ensures Alone(Tidied(store, operation, now), rule.key)
    ensures Current(Tidied(store, operation, now), rule, now) == Current(store, rule, now)
  {
  }

  lemma ConsumeAlone(store: map<string, Entry>, operation: nat, rule: Rule, now: int)
    requires Alone(store, rule.key)
    ensures var (store', verdict) := Consume(store, operation, rule, now);
            var entry := Current(store, rule, now);
            && store' == map[rule.key := entry.(count := entry.count + 1)]
            && (verdict.allowed <==> entry.count < rule.limit)
  {
    hide RetrySeconds, Tidied, Current;
    var tidy := Tidied(store, operation, now);
    TidyAlone(store, operation, rule, now);
    assert |tidy| < MAX_RATE_LIMIT_ENTRIES by {
      assert tidy.Keys == {} || tidy.Keys == {rule.key};
    }
  }

  /** The next call of a run that knows only this key. */
  lemma NextCall(calls: seq<Call>, rule: Rule, now: int, from: int, to: int)
    requires Alone(StoreAfter(calls), rule.key)
    ensures var more := calls + [Call(rule, now)];
            var entry := Current(StoreAfter(calls), rule, now);
            && StoreAfter(more) == map[rule.key := entry.(count := entry.count + 1)]
            && AdmittedIn(more, rule.key, from, to) == AdmittedIn(calls, rule.key, from, to)
                 + if entry.count < rule.limit && from <= now < to then 1 else 0
  {
    hide Alone, Consume, Current;
    var more := calls + [Call(rule, now)];
    assert more[..|more| - 1] == calls && more[|more| - 1] == Call(rule, now);
    ConsumeAlone(StoreAfter(calls), |more|, rule, now);
  }

  lemma {:induction false} FirstPart(rule: Rule, a: nat)
    requires rule.windowMs >= 2 && a < rule.limit
    ensures StoreAfter(Burst(rule, a, 0)) == map[rule.key := Entry(a + 1, rule.windowMs)]
    ensures AdmittedIn(Burst(rule, a, 0), rule.key, 1, 1 + rule.windowMs) == a
    decreases a
  {
    hide StoreAfter, AdmittedIn;
    if a == 0 {
      NothingYet(rule.key, 1, 1 + rule.windowMs);
      NextCall([], rule, 0, 1, 1 + rule.windowMs);
      assert [] + [Call(rule, 0)] == [Call(rule, 0)];
    } else {
      FirstPart(rule, a - 1);
      NextCall(Burst(rule, a - 1, 0), rule, rule.windowMs - 1, 1, 1 + rule.windowMs);
    }
  }

  lemma NothingYet(key: string, from: int, to: int)
    ensures StoreAfter([]) == map[] && AdmittedIn([], key, from, to) == 0
  {
  }

  lemma {:induction false} SecondPart(rule: Rule, a: nat, b: nat)
    requires rule.windowMs >= 2 && a < rule.limit && 1 <= b <= rule.limit
    ensures StoreAfter(Burst(rule, a, b)) == map[rule.key := Entry(b, 2 * rule.windowMs)]
    ensures AdmittedIn(Burst(rule, a, b), rule.key, 1, 1 + rule.windowMs) == a + b
    decreases b
  {
    hide StoreAfter, AdmittedIn;
    if b == 1 {
      FirstPart(rule, a);
    } else {
      SecondPart(rule, a, b - 1);
    }
    NextCall(Burst(rule, a, b - 1), rule, rule.windowMs, 1, 1 + rule.windowMs);
  }

  lemma {:induction false} BurstTimes(rule: Rule, a: nat, b: nat)
    requires rule.windowMs >= 2
    ensures forall i :: 0 <= i < |Burst(rule, a, b)| ==>
              Burst(rule, a, b)[i].rule == rule
              && Burst(rule, a, b)[i].now <= if b > 0 then rule.windowMs else rule.windowMs - 1
    ensures WellTimed(Burst(rule, a, b))
    decreases a + b
  {
    if b > 0 {
      BurstTimes(rule, a, b - 1);
    } else if a > 0 {
      BurstTimes(rule, a - 1, 0);
    }
  }

  /** For every limit and every window of at least 2 ms some run admits that many within one window length. */
  lemma TwiceLessOneIsReached(rule: Rule)
    requires rule.windowMs >= 2 && rule.limit >= 1
    ensures var calls := Burst(rule, rule.limit - 1, rule.limit);
            WellTimed(calls) && AdmittedIn(calls, rule.key, 1, 1 + rule.windowMs) == 2 * rule.limit - 1
  {
    hide WellTimed, AdmittedIn, Burst;
    BurstTimes(rule, rule.limit - 1, rule.limit);
    SecondPart(rule, rule.limit - 1, rule.limit);
  }

  /** Every call of the key uses the rule. */
  ghost predicate OneRule(calls: seq<Call>, rule: Rule) {
    forall i :: 0 <= i < |calls| && calls[i].rule.key == rule.key ==> calls[i].rule == rule
  }

  /** No run admits more than the limit within one window length. */
  ghost predicate KeepsLimit(rule: Rule) {
    forall calls, from :: WellTimed(calls) && OneRule(calls, rule) ==> Within(calls, rule, from)
  }

  predicate Within(calls: seq<Call>, rule: Rule, from: int) {
    AdmittedIn(calls, rule.key, from, from + rule.windowMs) <= rule.limit
  }

  /** Windows of at most 1 ms admit within their own millisecond only. */
  lemma ShortWindows(calls: seq<Call>, rule: Rule, from: int)
    requires WellTimed(calls) && OneRule(calls, rule) && rule.windowMs <= 1
    ensures Within(calls, rule, from)
  {
    hide WellTimed, Opened, TracksEntry, Admissions, AdmittedIn, InInterval, InWindow, StoreAfter;
    var log := Admissions(calls, rule.key);
    assert rule.windowMs == 1 ==>
        forall i :: 0 <= i < |log| && from <= log[i].time < from + rule.windowMs ==> from <= log[i].window by {
      if rule.windowMs == 1 {
        if calls == [] {
          NoAdmissions(rule.key);
        } else {
          LastIsLatest(calls);
          RunTracks(calls, rule, calls[|calls| - 1].now);
        }
      }
    }
    AlignedAtMostLimitOf(calls, rule, from);
  }

  /** A rule keeps to its limit in every interval of one window length exactly when limit or window is at most 1. */
  lemma KeepsLimitIff(rule: Rule)
    ensures KeepsLimit(rule) <==> rule.limit <= 1 || rule.windowMs <= 1
  {
    hide WellTimed, AdmittedIn;
    if rule.windowMs <= 1 {
      forall calls, from | WellTimed(calls) && OneRule(calls, rule) ensures Within(calls, rule, from) {
        ShortWindows(calls, rule, from);
      }
    } else if rule.limit <= 1 {
      forall calls, from | WellTimed(calls) && OneRule(calls, rule) ensures Within(calls, rule, from) {
        AtMostTwiceLessOne(calls, rule, from);
      }
    } else {
      var calls := Burst(rule, rule.limit - 1, rule.limit);
      TwiceLessOneIsReached(rule);
      BurstTimes(rule, rule.limit - 1, rule.limit);
      assert OneRule(calls, rule) && !Within(calls, rule, 1);
    }
  }

  // ---- which requests are refused -------------------------------------------------------------

  /** A running window has admitted as many requests as the limit allows. */
  ghost predicate Exhausted(log: seq<Admission>, rule: Rule, now: int) {
    exists w :: w <= now < w + rule.windowMs && InWindow(log, w) == rule.limit
  }

  lemma CountRefusesIff(store: map<string, Entry>, rule: Rule, log: seq<Admission>, now: int)
    requires Tracks(store, rule.key, log, rule.windowMs, rule.limit, now) && rule.windowMs > 0 && rule.limit > 0
    ensures Count(store, rule, now).1.allowed <==> !Exhausted(log, rule, now)
  {
    hide Windowed, Opened, OpenedAt, InWindow, RetrySeconds, Current;
    CurrentWindow(store, rule, log, now);
    var start := Current(store, rule, now).resetAt - rule.windowMs;
    forall w | w <= now < w + rule.windowMs && InWindow(log, w) == rule.limit ensures w == start {
      if w != start {
        NoneOutside(log, w, start, rule.windowMs);
      }
    }
  }

  lemma NoneOutside(log: seq<Admission>, w: int, start: int, length: nat)
    requires forall i :: 0 <= i < |log| ==> log[i].window == start || log[i].window + length <= start
    requires start <= w + length && w != start && w > start - length
    ensures InWindow(log, w) == 0
  {
    NoneInWindow(log, w);
  }

  /** A window of no length has always ended. */
  lemma {:induction false} EmptyWindowsEnd(calls: seq<Call>, rule: Rule, now: int)
    requires WellTimed(calls) && rule.windowMs == 0
    requires forall i :: 0 <= i < |calls| ==> calls[i].now <= now
    requires forall i :: 0 <= i < |calls| && calls[i].rule.key == rule.key ==> calls[i].rule == rule
    ensures rule.key in StoreAfter(calls) ==> StoreAfter(calls)[rule.key].resetAt <= now
    decreases |calls|
  {
    hide RetrySeconds, Judge;
    if calls != [] {
      var front := calls[..|calls| - 1];
      var last := calls[|calls| - 1];
      EmptyWindowsEnd(front, rule, last.now);
    }
  }

  lemma LastOf(calls: seq<Call>, last: Call)
    requires WellTimed(calls + [last])
    ensures LastVerdict(calls + [last]) == Consume(StoreAfter(calls), |calls| + 1, last.rule, last.now).1
    ensures WellTimed(calls)
    ensures forall i :: 0 <= i < |calls| ==> calls[i].now <= last.now
    ensures forall i :: 0 <= i < |calls| && calls[i].rule.key == last.rule.key ==> calls[i].rule == last.rule
  {
    hide Consume, StoreAfter;
    var more := calls + [last];
    assert more[..|more| - 1] == calls && more[|more| - 1] == last;
    assert forall i :: 0 <= i < |calls| ==> more[i] == calls[i];
  }

  /**
   A request is refused exactly when the store has no room for its key, when the limit is zero,
   or when the limit is used up in a window that is still running.
   */
  lemma RefusedIff(calls: seq<Call>, last: Call)
    requires WellTimed(calls + [last])
    ensures !LastVerdict(calls + [last]).allowed <==>
            || !HasRoom(Tidied(StoreAfter(calls), |calls| + 1, last.now), last.rule.key)
            || last.rule.limit == 0
            || Exhausted(Admissions(calls, last.rule.key), last.rule, last.now)
  {
    hide WellTimed, Tracks, StoreAfter, Admissions, LastVerdict, RetrySeconds, Exhausted, HasRoom, InWindow;
    LastOf(calls, last);
    var rule, operation := last.rule, |calls| + 1;
    var log := Admissions(calls, rule.key);
    if rule.windowMs == 0 {
      EmptyWindowsEnd(calls, rule, last.now);
      assert !Exhausted(log, rule, last.now) by { NeverExhausted(log, rule, last.now); }
    } else {
      RunTracks(calls, rule, last.now);
      TracksCleaned(StoreAfter(calls), operation, rule.key, log, rule.windowMs, rule.limit, last.now, last.now);
      if rule.limit > 0 {
        CountRefusesIff(Tidied(StoreAfter(calls), operation, last.now), rule, log, last.now);
      }
    }
  }

  lemma NeverExhausted(log: seq<Admission>, rule: Rule, now: int)
    requires rule.windowMs == 0
    ensures !Exhausted(log, rule, now)
  {
  }

  // ---- what the answer promises -----------------------------------------------------------------

  /** What `remaining` says: while the window runs, so many more requests of the key are admitted. */
  lemma RemainingIsLeft(store: map<string, Entry>, operation: nat, rule: Rule, now: int, operation': nat, now': int)
    requires Consume(store, operation, rule, now).1.allowed
    requires var store' := Consume(store, operation, rule, now).0;
             rule.key in store' && now <= now' < store'[rule.key].resetAt
    ensures var (store', v) := Consume(store, operation, rule, now);
            var v' := Consume(store', operation', rule, now').1;
            && (v'.allowed <==> v.remaining > 0)
            && (v'.allowed ==> v'.remaining == v.remaining - 1)
  {
    hide RetrySeconds;
  }

  /** What `retryAfterSeconds` says: whoever waits that long after using up a window is admitted. */
  lemma RetryIsHonoured(store: map<string, Entry>, operation: nat, rule: Rule, now: int, operation': nat, now': int)
    requires |store| <= MAX_RATE_LIMIT_ENTRIES && rule.limit > 0
    requires HasRoom(Tidied(store, operation, now), rule.key)
    requires var (store', v) := Consume(store, operation, rule, now);
             !v.allowed && now' >= now + 1000 * v.retryAfterSeconds
    ensures var store' := Consume(store, operation, rule, now).0;
            Consume(store', operation', rule, now').1.allowed
  {
    hide RetrySeconds;
    var store' := Consume(store, operation, rule, now).0;
    var tidy := Tidied(store, operation, now);
    CleanedSize(store, now);
    assert store'.Keys == tidy.Keys + {rule.key};
    if rule.key !in Tidied(store', operation', now') {
      assert Cleaned(store', now').Keys <= store'.Keys - {rule.key};
      SmallerKeys(Cleaned(store', now').Keys, store'.Keys - {rule.key});
    }
  }

  lemma SmallerKeys(a: set<string>, b: set<string>)
    requires a <= b
    ensures |a| <= |b|
  {
    assert b == a + (b - a);
  }

  // ---- eviction is invisible ------------------------------------------------------------

  /** The entry of `key` that still counts at `now`. */
  function Running(store: map<string, Entry>, key: string, now: int): Option<Entry> {
    if key in store && store[key].resetAt > now then Some(store[key]) else None
  }

  /** Two stores that no request at `now` or later can tell apart. */
  ghost predicate Alike(a: map<string, Entry>, b: map<string, Entry>, now: int) {
    forall key :: Running(a, key, now) == Running(b, key, now)
  }

  lemma AlikeStep(a: map<string, Entry>, b: map<string, Entry>, operation: nat, rule: Rule, now: int)
    requires Alike(a, b, now) && HasRoom(Tidied(a, operation, now), rule.key)
    ensures Consume(a, operation, rule, now).1 == Count(b, rule, now).1
    ensures Alike(Consume(a, operation, rule, now).0, Count(b, rule, now).0, now)
  {
    hide RetrySeconds;
    var tidy := Tidied(a, operation, now);
    assert Alike(tidy, b, now) by { TidyAlike(a, operation, now); }
    assert Running(tidy, rule.key, now) == Running(b, rule.key, now);
    assert Current(tidy, rule, now) == Current(b, rule, now);
    CountAlike(tidy, b, rule, now);
  }

  lemma TidyAlike(a: map<string, Entry>, operation: nat, now: int)
    ensures Alike(Tidied(a, operation, now), a, now)
  {
  }

  lemma CountAlike(a: map<string, Entry>, b: map<string, Entry>, rule: Rule, now: int)
    requires Alike(a, b, now)
    ensures Alike(Count(a, rule, now).0, Count(b, rule, now).0, now)
  {
    hide RetrySeconds, Judge;
    assert Running(a, rule.key, now) == Running(b, rule.key, now);
    assert Current(a, rule, now) == Current(b, rule, now);
    forall key ensures Running(Count(a, rule, now).0, key, now) == Running(Count(b, rule, now).0, key, now) {
      assert Running(a, key, now) == Running(b, key, now);
    }
  }

  lemma AlikeLater(a: map<string, Entry>, b: map<string, Entry>, now: int, now': int)
    requires Alike(a, b, now) && now <= now'
    ensures Alike(a, b, now')
  {
    forall key ensures Running(a, key, now') == Running(b, key, now') {
      assert Running(a, key, now) == Running(b, key, now);
    }
  }

  /** The reference: no cleanup, no maximum. */
  function UnboundedAfter(calls: seq<Call>): map<string, Entry> {
    if calls == [] then map[]
    else
      var last := calls[|calls| - 1];
      Count(UnboundedAfter(calls[..|calls| - 1]), last.rule, last.now).0
  }

  /** Every call of the run found room for its key. */
  ghost predicate Roomy(calls: seq<Call>)
    decreases |calls|
  {
    calls != [] ==>
      var front := calls[..|calls| - 1];
      var last := calls[|calls| - 1];
      Roomy(front) && HasRoom(Tidied(StoreAfter(front), |calls|, last.now), last.rule.key)
  }

  lemma {:induction false} RunAlike(calls: seq<Call>, now: int)
    requires WellTimed(calls) && Roomy(calls)
    requires forall i :: 0 <= i < |calls| ==> calls[i].now <= now
    ensures Alike(StoreAfter(calls), UnboundedAfter(calls), now)
    decreases |calls|
  {
    hide Alike, Consume, Count, Tidied, HasRoom;
    if calls == [] {
      EmptyAlike(now);
    } else {
      var front := calls[..|calls| - 1];
      var last := calls[|calls| - 1];
      RunAlike(front, last.now);
      AlikeStep(StoreAfter(front), UnboundedAfter(front), |calls|, last.rule, last.now);
      AlikeLater(StoreAfter(calls), UnboundedAfter(calls), last.now, now);
    }
  }

  lemma EmptyAlike(now: int)
    ensures Alike(map[], map[], now)
  {
  }

  /** While the store has room, evicting expired entries never changes an answer. */
  lemma EvictionIsInvisible(calls: seq<Call>)
    requires calls != [] && WellTimed(calls) && Roomy(calls)
    ensures var last := calls[|calls| - 1];
            LastVerdict(calls) == Count(UnboundedAfter(calls[..|calls| - 1]), last.rule, last.now).1
  {
    hide Alike, Consume, Count, Tidied, HasRoom;
    var front := calls[..|calls| - 1];
    var last := calls[|calls| - 1];
    RunAlike(front, last.now);
    AlikeStep(StoreAfter(front), UnboundedAfter(front), |calls|, last.rule, last.now);
  }

  /** The store never exceeds its maximum. */
  lemma {:induction false} StoreIsBounded(calls: seq<Call>)
    ensures |StoreAfter(calls)| <= 10000
    decreases |calls|
  {
    hide RetrySeconds, Judge;
    if calls != [] {
      var front := calls[..|calls| - 1];
      var last := calls[|calls| - 1];
      StoreIsBounded(front);
      CleanedSize(StoreAfter(front), last.now);
      var tidy := Tidied(StoreAfter(front), |calls|, last.now);
      assert StoreAfter(calls).Keys == tidy.Keys || StoreAfter(calls).Keys == tidy.Keys + {last.rule.key};
    }
  }
}

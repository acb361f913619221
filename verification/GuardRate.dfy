/** The guard's client message window obeys the same bound as the web server's limiter. */
module GuardRate {
  import opened Common
  import opened Text
  import opened Json
  import opened Guard
  import opened GuardLedger
  import opened Windows

  /** The message is within the rate and size budget. */
  predicate Passes(c: GuardConfig, g: GuardState, m: Message) {
    BudgetAnswer(c, AtTime(c, g.(update := None), m.now), m.bytes) == Accepted
  }

  /** What follows the budget leaves the window alone. */
  lemma BodyLeavesWindow(c: GuardConfig, g: GuardState, m: Message)
    ensures var g' := OnBody(c, g, m).0;
            g'.windowStartedAt == g.windowStartedAt && g'.messagesInWindow == g.messagesInWindow
  {
    hide WithinSession, KindOf, AsAscii, MayCall, TotalBytes, OpenEdit, ChangeEdit, SaveEdit;
  }

  /** The window after a message: restarted when due, and one message fuller if it passed. */
  lemma WindowStep(c: GuardConfig, g: GuardState, m: Message)
    ensures var g' := OnMessage(c, g, m).0;
            var due := m.now - g.windowStartedAt >= c.rateWindowMs;
            && g'.windowStartedAt == (if due then m.now else g.windowStartedAt)
            && g'.messagesInWindow == (if due then 0 else g.messagesInWindow) + (if Passes(c, g, m) then 1 else 0)
    ensures Passes(c, g, m) ==> OnMessage(c, g, m).0.messagesInWindow <= c.maxMessagesPerWindow
  {
    hide OnBody;
    var g1 := AtTime(c, g.(update := None), m.now);
    BodyLeavesWindow(c, Charged(g1, m.bytes), m);
  }

  /** The messages among the first `n` that passed, with the window they were counted in. */
  ghost function Passed(c: GuardConfig, gs: seq<GuardState>, ms: seq<Message>, n: nat): seq<Admission>
    requires IsSession(c, gs, ms) && n <= |ms|
  {
    if n == 0 then []
    else Passed(c, gs, ms, n - 1)
         + if Passes(c, gs[n - 1], ms[n - 1]) then [Admission(ms[n - 1].now, gs[n].windowStartedAt)] else []
  }

  /** The clock does not go back. */
  ghost predicate Clocked(gs: seq<GuardState>, ms: seq<Message>) {
    && (forall i, j :: 0 <= i < j < |ms| ==> ms[i].now <= ms[j].now)
    && (|ms| > 0 && |gs| > 0 ==> gs[0].windowStartedAt <= ms[0].now)
  }

  /** The guard's own counter covers what the log holds of the running window. */
  ghost predicate Covers(c: GuardConfig, g: GuardState, log: seq<Admission>) {
    && Windowed(log, c.rateWindowMs, c.maxMessagesPerWindow)
    && (forall i :: 0 <= i < |log| ==>
          log[i].window == g.windowStartedAt || log[i].window + c.rateWindowMs <= g.windowStartedAt)
    && InWindow(log, g.windowStartedAt) <= g.messagesInWindow
  }

  lemma Restarted(c: GuardConfig, g: GuardState, log: seq<Admission>, now: int)
    requires Covers(c, g, log) && c.rateWindowMs > 0 && now - g.windowStartedAt >= c.rateWindowMs
    ensures Covers(c, g.(windowStartedAt := now, messagesInWindow := 0), log)
  {
    NoneInWindow(log, now);
  }

  lemma Counted(c: GuardConfig, g: GuardState, log: seq<Admission>, now: int)
    requires Covers(c, g, log) && g.windowStartedAt <= now < g.windowStartedAt + c.rateWindowMs
    requires g.messagesInWindow < c.maxMessagesPerWindow
    ensures Covers(c, g.(messagesInWindow := g.messagesInWindow + 1), log + [Admission(now, g.windowStartedAt)])
  {
    AdmissionKeepsWindows(log, Admission(now, g.windowStartedAt), c.rateWindowMs, c.maxMessagesPerWindow);
  }

  lemma CoverStep(c: GuardConfig, g: GuardState, m: Message, log: seq<Admission>)
    requires Covers(c, g, log) && c.rateWindowMs > 0 && g.windowStartedAt <= m.now
    ensures var g' := OnMessage(c, g, m).0;
            && g'.windowStartedAt <= m.now
            && Covers(c, g', log + if Passes(c, g, m) then [Admission(m.now, g'.windowStartedAt)] else [])
  {
    hide OnMessage, InWindow, Windowed;
    WindowStep(c, g, m);
    var due := m.now - g.windowStartedAt >= c.rateWindowMs;
    var g1 := if due then g.(windowStartedAt := m.now, messagesInWindow := 0) else g;
    if due {
      Restarted(c, g, log, m.now);
    }
    if Passes(c, g, m) {
      Counted(c, g1, log, m.now);
    } else {
      assert log + [] == log;
    }
  }

  lemma {:induction false} RunCovers(c: GuardConfig, gs: seq<GuardState>, ms: seq<Message>, n: nat)
    requires IsSession(c, gs, ms) && Clocked(gs, ms) && c.rateWindowMs > 0 && n <= |ms|
    ensures Covers(c, gs[n], Passed(c, gs, ms, n))
    ensures n > 0 ==> gs[n].windowStartedAt <= ms[n - 1].now
  {
    hide Covers, OnMessage, Passes;
    if n == 0 {
      EmptyCovers(c, gs[0]);
    } else {
      RunCovers(c, gs, ms, n - 1);
      assert gs[n - 1 + 1] == OnMessage(c, gs[n - 1], ms[n - 1]).0;
      CoverStep(c, gs[n - 1], ms[n - 1], Passed(c, gs, ms, n - 1));
    }
  }

  lemma EmptyCovers(c: GuardConfig, g: GuardState)
    ensures Covers(c, g, [])
  {
  }

  /** Any half-open interval of one window length lets at most twice the limit pass. */
  lemma ClientRateBound(c: GuardConfig, gs: seq<GuardState>, ms: seq<Message>, from: int)
    requires IsSession(c, gs, ms) && Clocked(gs, ms)
    ensures InInterval(Passed(c, gs, ms, |ms|), from, from + c.rateWindowMs) <= 2 * c.maxMessagesPerWindow
  {
    hide OnMessage, Passes;
    if c.rateWindowMs > 0 {
      RunCovers(c, gs, ms, |ms|);
      TwiceTheLimit(Passed(c, gs, ms, |ms|), c.rateWindowMs, c.maxMessagesPerWindow, from);
    } else {
      EmptyInterval(Passed(c, gs, ms, |ms|), from, from + c.rateWindowMs);
    }
  }

  /** The plain limit holds for every interval that no window opened before it reaches into. */
  lemma ClientRateAligned(c: GuardConfig, gs: seq<GuardState>, ms: seq<Message>, from: int)
    requires IsSession(c, gs, ms) && Clocked(gs, ms)
    requires var log := Passed(c, gs, ms, |ms|);
             forall i :: 0 <= i < |log| && from <= log[i].time < from + c.rateWindowMs ==> from <= log[i].window
    ensures InInterval(Passed(c, gs, ms, |ms|), from, from + c.rateWindowMs) <= c.maxMessagesPerWindow
  {
    hide OnMessage, Passes, Passed;
    if c.rateWindowMs > 0 {
      RunCovers(c, gs, ms, |ms|);
      AlignedAtMostLimit(Passed(c, gs, ms, |ms|), c.rateWindowMs, c.maxMessagesPerWindow, from);
    } else {
      EmptyInterval(Passed(c, gs, ms, |ms|), from, from + c.rateWindowMs);
    }
  }

  // ---- the bound is reached ---------------------------------------------------------------------

  function FromAscii(s: string): Text
    requires forall i :: 0 <= i < |s| ==> s[i] as int < 0x80
  {
    seq(|s|, i requires 0 <= i < |s| => s[i] as int)
  }

  lemma AsciiBack(s: string)
    requires forall i :: 0 <= i < |s| ==> s[i] as int < 0x80
    ensures AsAscii(FromAscii(s)) == s
  {
  }

  /** A message the guard accepts whenever the budget does. */
  function Harmless(size: nat, now: int): Message {
    Message(size, now, Some(Obj([Field("jsonrpc", Str(FromAscii("2.0"))),
                               Field("method", Str(FromAscii("$/setTrace")))])))
  }

  lemma HarmlessBody(c: GuardConfig, size: nat, now: int)
    ensures var m := Harmless(size, now);
            && IsEnvelope(m) && WithinSession(c, m.body.value)
            && Get(m.body.value, "method") == Defined(Str(FromAscii("$/setTrace")))
  {
    var a, b := Field("jsonrpc", Str(FromAscii("2.0"))), Field("method", Str(FromAscii("$/setTrace")));
    AsciiBack("2.0");
    assert [a, b][1..] == [b] && [b][1..] == [];
    assert Find([a, b], "jsonrpc") == Defined(a.value);
    assert Find([b], "method") == Defined(b.value);
    assert a.name != "method" by { assert |a.name| != |"method"|; }
    assert Find([a, b], "method") == Find([a, b][1..], "method");
    assert FieldsWeight([b]) == 0 && FieldsWeight([a, b]) == 0;
    assert FieldsShallow([b], 1) && FieldsShallow([a, b], 1);
    assert a.name[0] == 'j' && b.name[0] == 'm';
    assert FieldsClean([b], c.documentUris, c.workspaceUri) && FieldsClean([a, b], c.documentUris, c.workspaceUri);
  }

  lemma HarmlessIsAccepted(c: GuardConfig, g: GuardState, size: nat, now: int)
    requires Passes(c, g, Harmless(size, now))
    ensures OnMessage(c, g, Harmless(size, now)).1 == Accepted
    ensures OnMessage(c, g, Harmless(size, now)).0.sessionBytes == g.sessionBytes + size
  {
    hide WithinSession, IsEnvelope, Get, ContentOk, AsAscii;
    HarmlessBody(c, size, now);
    AsciiBack("$/setTrace");
    assert KindOf("$/setTrace") == Ignored;
    var g1 := Charged(AtTime(c, g.(update := None), now), size);
    var params := Get(Harmless(size, now).body.value, "params");
    assert OnBody(c, g1, Harmless(size, now)) == OnMethod(c, g1, Ignored, params);
    IgnoredIsOk(c, g1, size, now);
  }

  lemma IgnoredIsOk(c: GuardConfig, g: GuardState, size: nat, now: int)
    ensures ContentOk(c, g.documents, Ignored, Get(Harmless(size, now).body.value, "params"))
  {
  }

  lemma {:induction false} PassedPrefix(c: GuardConfig, gs: seq<GuardState>, ms: seq<Message>,
                                        gs': seq<GuardState>, ms': seq<Message>, n: nat)
    requires IsSession(c, gs, ms) && IsSession(c, gs', ms') && gs <= gs' && ms <= ms' && n <= |ms|
    ensures Passed(c, gs', ms', n) == Passed(c, gs, ms, n)
  {
    hide OnMessage, Passes;
    if n > 0 {
      PassedPrefix(c, gs, ms, gs', ms', n - 1);
    }
  }

  ghost predicate AllAccepted(c: GuardConfig, gs: seq<GuardState>, ms: seq<Message>)
    requires |gs| == |ms| + 1
  {
    forall i :: 0 <= i < |ms| ==> OnMessage(c, gs[i], ms[i]).1 == Accepted
  }

  /** A session in which every message so far was accepted and lies between `lo` and `now`. */
  ghost predicate Flooded(c: GuardConfig, gs: seq<GuardState>, ms: seq<Message>, size: nat, lo: int, now: int) {
    && IsSession(c, gs, ms) && Clocked(gs, ms) && AllAccepted(c, gs, ms)
    && (forall i :: 0 <= i < |ms| ==> lo <= ms[i].now <= now && ms[i].bytes == size)
    && gs[0].windowStartedAt <= lo
    && gs[|ms|].sessionBytes == size * |ms|
  }

  lemma SessionGrows(c: GuardConfig, gs: seq<GuardState>, ms: seq<Message>, m: Message)
    requires IsSession(c, gs, ms)
    ensures IsSession(c, gs + [OnMessage(c, gs[|ms|], m).0], ms + [m])
  {
    hide OnMessage;
    var gs', ms' := gs + [OnMessage(c, gs[|ms|], m).0], ms + [m];
    assert gs'[0] == gs[0];
    forall i | 0 <= i < |ms'| ensures gs'[i + 1] == OnMessage(c, gs'[i], ms'[i]).0 {
      assert i < |ms| ==> ms'[i] == ms[i] && gs'[i] == gs[i] && gs'[i + 1] == gs[i + 1];
    }
  }

  lemma AcceptedGrows(c: GuardConfig, gs: seq<GuardState>, ms: seq<Message>, g: GuardState, m: Message)
    requires |gs| == |ms| + 1 && AllAccepted(c, gs, ms) && OnMessage(c, gs[|ms|], m).1 == Accepted
    ensures AllAccepted(c, gs + [g], ms + [m])
  {
    hide OnMessage;
    var gs', ms' := gs + [g], ms + [m];
    forall i | 0 <= i < |ms'| ensures OnMessage(c, gs'[i], ms'[i]).1 == Accepted {
      assert gs'[i] == gs[i] && ms'[i] == if i < |ms| then ms[i] else m;
    }
  }

  lemma ClockGrows(gs: seq<GuardState>, ms: seq<Message>, g: GuardState, m: Message, lo: int, now: int)
    requires |gs| == |ms| + 1 && Clocked(gs, ms) && gs[0].windowStartedAt <= lo <= m.now && now <= m.now
    requires forall i :: 0 <= i < |ms| ==> lo <= ms[i].now <= now
    ensures Clocked(gs + [g], ms + [m])
    ensures forall i :: 0 <= i < |ms + [m]| ==> lo <= (ms + [m])[i].now <= m.now
  {
  }

  /** One more harmless message. */
  lemma OneMoreMessage(c: GuardConfig, gs: seq<GuardState>, ms: seq<Message>, size: nat, lo: int, before: int,
                       now: int, to: int)
    returns (gs': seq<GuardState>, ms': seq<Message>)
    requires Flooded(c, gs, ms, size, lo, before) && lo <= before <= now < to
    requires Passes(c, gs[|ms|], Harmless(size, now))
    ensures Flooded(c, gs', ms', size, lo, now) && |ms'| == |ms| + 1
    ensures InInterval(Passed(c, gs', ms', |ms'|), lo, to) == InInterval(Passed(c, gs, ms, |ms|), lo, to) + 1
    ensures gs'[|ms'|] == OnMessage(c, gs[|ms|], Harmless(size, now)).0
  {
    hide OnMessage, Passes, Harmless, IsSession, AllAccepted, Clocked, InInterval;
    assert |gs| == |ms| + 1 by { SessionSize(c, gs, ms); }
    var m, g' := Harmless(size, now), OnMessage(c, gs[|ms|], Harmless(size, now)).0;
    gs', ms' := gs + [g'], ms + [m];
    HarmlessNow(size, now);
    HarmlessIsAccepted(c, gs[|ms|], size, now);
    SessionGrows(c, gs, ms, m);
    AcceptedGrows(c, gs, ms, g', m);
    ClockGrows(gs, ms, g', m, lo, before);
    PassedPrefix(c, gs, ms, gs', ms', |ms|);
    InIntervalAppend(Passed(c, gs, ms, |ms|), Admission(now, g'.windowStartedAt), lo, to);
    assert size * |ms'| == size * |ms| + size;
    assert forall i :: 0 <= i < |ms'| ==> ms'[i].bytes == size by {
      assert forall i :: 0 <= i < |ms| ==> ms'[i] == ms[i];
    }
  }

  lemma SessionSize(c: GuardConfig, gs: seq<GuardState>, ms: seq<Message>)
    requires IsSession(c, gs, ms)
    ensures |gs| == |ms| + 1
  {
  }

  lemma HarmlessNow(size: nat, now: int)
    ensures Harmless(size, now).now == now && Harmless(size, now).bytes == size
  {
  }

  /** A harmless message passes while its window and the session's bytes last. */
  lemma NextPasses(c: GuardConfig, g: GuardState, size: nat, now: int, n: nat, total: nat)
    requires g.sessionBytes == size * n && n < total && size * total <= c.maxSessionBytes
    requires now - g.windowStartedAt >= c.rateWindowMs || g.messagesInWindow < c.maxMessagesPerWindow
    requires c.maxMessagesPerWindow > 0
    ensures Passes(c, g, Harmless(size, now))
  {
    hide Harmless;
    HarmlessNow(size, now);
    assert size * (n + 1) == size * n + size;
    Scales(size, n + 1, total);
  }

  lemma Scales(size: nat, a: nat, b: nat)
    requires a <= b
    ensures size * a <= size * b
  {
  }

  /** What the flood has reached. */
  ghost predicate Reached(c: GuardConfig, gs: seq<GuardState>, ms: seq<Message>, size: nat, start: int,
                          a: nat, b: nat) {
    var lo, end := start + c.rateWindowMs - 1, start + c.rateWindowMs;
    && Flooded(c, gs, ms, size, lo, if b > 0 then end else lo) && |ms| == a + b
    && gs[|ms|].windowStartedAt == (if b > 0 then end else start)
    && gs[|ms|].messagesInWindow == (if b > 0 then b else a)
    && InInterval(Passed(c, gs, ms, |ms|), lo, lo + c.rateWindowMs) == a + b
  }

  lemma FloodStep(c: GuardConfig, gs: seq<GuardState>, ms: seq<Message>, size: nat, start: int, a: nat, b: nat,
                  more: bool, total: nat)
    returns (gs': seq<GuardState>, ms': seq<Message>)
    requires c.rateWindowMs >= 2 && Reached(c, gs, ms, size, start, a, b)
    requires a + b < total && size * total <= c.maxSessionBytes
    requires if more then b < c.maxMessagesPerWindow else a < c.maxMessagesPerWindow && b == 0
    ensures Reached(c, gs', ms', size, start, if more then a else a + 1, if more then b + 1 else 0)
  {
    hide OnMessage, InInterval, Passed, AllAccepted, IsSession, Clocked, Passes, Harmless;
    var lo, end := start + c.rateWindowMs - 1, start + c.rateWindowMs;
    SessionSize(c, gs, ms);
    var now := if more then end else lo;
    NextPasses(c, gs[|ms|], size, now, |ms|, total);
    WindowStep(c, gs[|ms|], Harmless(size, now));
    HarmlessNow(size, now);
    gs', ms' := OneMoreMessage(c, gs, ms, size, lo, if b > 0 then end else lo, now, lo + c.rateWindowMs);
  }

  /** `a` messages just before the first window ends, then `b` when it has ended. */
  lemma {:induction false} Flood(c: GuardConfig, size: nat, start: int, a: nat, b: nat, total: nat)
    returns (gs: seq<GuardState>, ms: seq<Message>)
    requires c.rateWindowMs >= 2 && a <= c.maxMessagesPerWindow && b <= c.maxMessagesPerWindow
    requires a + b <= total && size * total <= c.maxSessionBytes
    ensures Reached(c, gs, ms, size, start, a, b)
    decreases a + b
  {
    hide Reached;
    if b > 0 {
      gs, ms := Flood(c, size, start, a, b - 1, total);
      gs, ms := FloodStep(c, gs, ms, size, start, a, b - 1, true, total);
    } else if a > 0 {
      gs, ms := Flood(c, size, start, a - 1, 0, total);
      gs, ms := FloodStep(c, gs, ms, size, start, a - 1, 0, false, total);
    } else {
      gs, ms := [Fresh(start)], [];
      NothingReached(c, size, start);
    }
  }

  lemma NothingReached(c: GuardConfig, size: nat, start: int)
    requires c.rateWindowMs >= 2
    ensures Reached(c, [Fresh(start)], [], size, start, 0, 0)
  {
    hide OnMessage, AllAccepted;
    NothingPassed(c, [Fresh(start)], []);
  }

  lemma NothingPassed(c: GuardConfig, gs: seq<GuardState>, ms: seq<Message>)
    requires IsSession(c, gs, ms) && ms == []
    ensures Passed(c, gs, ms, 0) == [] && AllAccepted(c, gs, ms)
  {
  }

  /** The first window opens empty, so twice the limit is reached: by a session whose every message is accepted. */
  lemma TwiceIsReached(c: GuardConfig, size: nat, start: int) returns (gs: seq<GuardState>, ms: seq<Message>)
    requires c.rateWindowMs >= 2 && size * (2 * c.maxMessagesPerWindow) <= c.maxSessionBytes
    ensures IsSession(c, gs, ms) && Clocked(gs, ms) && AllAccepted(c, gs, ms)
    ensures forall i :: 0 <= i < |ms| ==> ms[i].bytes == size
    ensures var from := start + c.rateWindowMs - 1;
            InInterval(Passed(c, gs, ms, |ms|), from, from + c.rateWindowMs) == 2 * c.maxMessagesPerWindow
  {
    hide OnMessage, AllAccepted, Passed, InInterval;
    gs, ms := Flood(c, size, start, c.maxMessagesPerWindow, c.maxMessagesPerWindow, 2 * c.maxMessagesPerWindow);
  }

  // ---- when the plain limit holds -----------------------------------------------------------------

  /** A session of accepted messages of at least `size` bytes each. */
  ghost predicate Proper(c: GuardConfig, size: nat, gs: seq<GuardState>, ms: seq<Message>) {
    && IsSession(c, gs, ms) && Clocked(gs, ms) && AllAccepted(c, gs, ms)
    && forall i :: 0 <= i < |ms| ==> ms[i].bytes >= size
  }

  ghost predicate Within(c: GuardConfig, gs: seq<GuardState>, ms: seq<Message>, from: int) {
    IsSession(c, gs, ms) ==>
      InInterval(Passed(c, gs, ms, |ms|), from, from + c.rateWindowMs) <= c.maxMessagesPerWindow
  }

  /** No such session lets more than the limit through within one window length. */
  ghost predicate KeepsLimit(c: GuardConfig, size: nat) {
    forall gs, ms, from :: Proper(c, size, gs, ms) ==> Within(c, gs, ms, from)
  }

  lemma BodyLeavesBytes(c: GuardConfig, g: GuardState, m: Message)
    ensures OnBody(c, g, m).0.sessionBytes == g.sessionBytes
  {
    hide WithinSession, KindOf, AsAscii, MayCall, TotalBytes, OpenEdit, ChangeEdit, SaveEdit;
  }

  lemma BytesStep(c: GuardConfig, g: GuardState, m: Message)
    ensures OnMessage(c, g, m).0.sessionBytes == g.sessionBytes + if Passes(c, g, m) then m.bytes else 0
  {
    hide OnBody;
    BodyLeavesBytes(c, Charged(AtTime(c, g.(update := None), m.now), m.bytes), m);
  }

  /** The session's bytes pay for every message that passed. */
  lemma {:induction false} BytesCover(c: GuardConfig, size: nat, gs: seq<GuardState>, ms: seq<Message>, n: nat)
    requires IsSession(c, gs, ms) && n <= |ms| && forall i :: 0 <= i < |ms| ==> ms[i].bytes >= size
    ensures size * |Passed(c, gs, ms, n)| <= gs[n].sessionBytes
  {
    hide OnMessage, Passes;
    if n > 0 {
      BytesCover(c, size, gs, ms, n - 1);
      BytesStep(c, gs[n - 1], ms[n - 1]);
      assert gs[n - 1 + 1] == OnMessage(c, gs[n - 1], ms[n - 1]).0;
      if Passes(c, gs[n - 1], ms[n - 1]) {
        assert |Passed(c, gs, ms, n)| == |Passed(c, gs, ms, n - 1)| + 1;
        assert size * |Passed(c, gs, ms, n)| == size * |Passed(c, gs, ms, n - 1)| + size;
      }
    }
  }

  lemma {:induction false} IntervalSize(log: seq<Admission>, from: int, to: int)
    ensures InInterval(log, from, to) <= |log|
  {
    if log != [] {
      IntervalSize(log[..|log| - 1], from, to);
    }
  }

  /** The session's byte budget ends before the limit is passed. */
  lemma TooFewBytes(c: GuardConfig, size: nat, gs: seq<GuardState>, ms: seq<Message>, from: int)
    requires Proper(c, size, gs, ms) && size * (c.maxMessagesPerWindow + 1) > c.maxSessionBytes
    ensures Within(c, gs, ms, from)
  {
    hide OnMessage, AllAccepted, Passed, InInterval;
    var log := Passed(c, gs, ms, |ms|);
    BytesCover(c, size, gs, ms, |ms|);
    LedgerAlways(c, gs, ms, |ms|);
    IntervalSize(log, from, from + c.rateWindowMs);
    if |log| >= c.maxMessagesPerWindow + 1 {
      Scales(size, c.maxMessagesPerWindow + 1, |log|);
    }
  }

  lemma ShortWindows(c: GuardConfig, size: nat, gs: seq<GuardState>, ms: seq<Message>, from: int)
    requires Proper(c, size, gs, ms) && c.rateWindowMs <= 1
    ensures Within(c, gs, ms, from)
  {
    hide OnMessage, AllAccepted, Passed, InInterval, InWindow, Passes;
    if c.rateWindowMs == 1 {
      RunCovers(c, gs, ms, |ms|);
    }
    ClientRateAligned(c, gs, ms, from);
  }

  /**
   The plain limit holds in every interval of one window length exactly when it is zero, the
   window is at most 1 ms, or the session's bytes do not last for one message more than the limit.
   */
  lemma KeepsLimitIff(c: GuardConfig, size: nat)
    ensures KeepsLimit(c, size) <==>
            || c.maxMessagesPerWindow == 0
            || c.rateWindowMs <= 1
            || size * (c.maxMessagesPerWindow + 1) > c.maxSessionBytes
  {
    hide Proper, Within;
    var limit := c.maxMessagesPerWindow;
    if limit == 0 || c.rateWindowMs <= 1 || size * (limit + 1) > c.maxSessionBytes {
      forall gs, ms, from | Proper(c, size, gs, ms) ensures Within(c, gs, ms, from) {
        KeepsWithin(c, size, gs, ms, from);
      }
    } else {
      var gs, ms, from := OneTooMany(c, size);
      assert Proper(c, size, gs, ms) && !Within(c, gs, ms, from);
    }
  }

  lemma KeepsWithin(c: GuardConfig, size: nat, gs: seq<GuardState>, ms: seq<Message>, from: int)
    requires Proper(c, size, gs, ms)
    requires || c.maxMessagesPerWindow == 0 || c.rateWindowMs <= 1
             || size * (c.maxMessagesPerWindow + 1) > c.maxSessionBytes
    ensures Within(c, gs, ms, from)
  {
    hide OnMessage, AllAccepted, Passed, InInterval;
    if c.rateWindowMs <= 1 {
      ShortWindows(c, size, gs, ms, from);
    } else if c.maxMessagesPerWindow == 0 {
      ClientRateBound(c, gs, ms, from);
    } else {
      TooFewBytes(c, size, gs, ms, from);
    }
  }

  lemma OneTooMany(c: GuardConfig, size: nat) returns (gs: seq<GuardState>, ms: seq<Message>, from: int)
    requires c.maxMessagesPerWindow > 0 && c.rateWindowMs >= 2
    requires size * (c.maxMessagesPerWindow + 1) <= c.maxSessionBytes
    ensures Proper(c, size, gs, ms) && !Within(c, gs, ms, from)
  {
    hide OnMessage, AllAccepted, Passed, InInterval;
    gs, ms := Flood(c, size, 0, c.maxMessagesPerWindow, 1, c.maxMessagesPerWindow + 1);
    from := c.rateWindowMs - 1;
  }
}

/**
 Fixed windows: why any interval of one window length admits at most twice the limit.
 */
module Windows {

  /** An admitted request: when, and the start of the window it was counted in. */
  datatype Admission = Admission(time: int, window: int)

  function InWindow(log: seq<Admission>, w: int): nat {
    if log == [] then 0
    else InWindow(log[..|log| - 1], w) + if log[|log| - 1].window == w then 1 else 0
  }

  /** Admissions in the half-open interval `[from, to)`. */
  function InInterval(log: seq<Admission>, from: int, to: int): nat {
    if log == [] then 0
    else InInterval(log[..|log| - 1], from, to) + if from <= log[|log| - 1].time < to then 1 else 0
  }

  /** Admissions come in windows that do not overlap, none with more than `limit` of them. */
  ghost predicate Windowed(log: seq<Admission>, length: nat, limit: nat) {
    && (forall i :: 0 <= i < |log| ==> log[i].window <= log[i].time < log[i].window + length)
    && (forall i, j :: 0 <= i < j < |log| ==>
          log[i].window == log[j].window || log[i].window + length <= log[j].window)
    && (forall w :: InWindow(log, w) <= limit)
  }

  lemma InWindowAppend(log: seq<Admission>, a: Admission, w: int)
    ensures InWindow(log + [a], w) == InWindow(log, w) + if a.window == w then 1 else 0
  {
    assert (log + [a])[..|log|] == log;
  }

  lemma InIntervalAppend(log: seq<Admission>, a: Admission, from: int, to: int)
    ensures InInterval(log + [a], from, to) == InInterval(log, from, to) + if from <= a.time < to then 1 else 0
  {
    assert (log + [a])[..|log|] == log;
  }

  /** If all admissions of the interval fall into two windows, their number is bounded by the two counts. */
  lemma {:induction false} TwoWindows(log: seq<Admission>, from: int, to: int, w1: int, w2: int)
    requires forall i :: 0 <= i < |log| && from <= log[i].time < to ==> log[i].window == w1 || log[i].window == w2
    ensures InInterval(log, from, to) <= InWindow(log, w1) + InWindow(log, w2)
  {
    if log != [] {
      TwoWindows(log[..|log| - 1], from, to, w1, w2);
    }
  }

  /** Any half-open interval of the window's length admits at most twice the limit. */
  lemma TwiceTheLimit(log: seq<Admission>, length: nat, limit: nat, from: int)
    requires Windowed(log, length, limit)
    ensures InInterval(log, from, from + length) <= 2 * limit
  {
    var to := from + length;
    var w1, w2 := from - 1, from;
    if i :| 0 <= i < |log| && from <= log[i].time < to && log[i].window < from {
      w1 := log[i].window;
    }
    if j :| 0 <= j < |log| && from <= log[j].time < to && log[j].window >= from {
      w2 := log[j].window;
    }
    TwoWindows(log, from, to, w1, w2);
  }

  /** Every window was opened by an admission at its very start. */
  ghost predicate Opened(log: seq<Admission>) {
    forall i :: 0 <= i < |log| ==> OpenedAt(log, log[i].window)
  }

  ghost predicate OpenedAt(log: seq<Admission>, w: int) {
    exists j :: 0 <= j < |log| && log[j] == Admission(w, w)
  }

  lemma OpenedAppend(log: seq<Admission>, a: Admission)
    requires Opened(log) && (OpenedAt(log, a.window) || a.time == a.window)
    ensures Opened(log + [a]) && OpenedAt(log + [a], a.window)
  {
    var more := log + [a];
    forall w | OpenedAt(log, w) ensures OpenedAt(more, w) {
      var j :| 0 <= j < |log| && log[j] == Admission(w, w);
      assert more[j] == Admission(w, w);
    }
    assert more[|log|] == a;
    forall i | 0 <= i < |more| ensures OpenedAt(more, more[i].window) {
      assert i < |log| ==> more[i] == log[i];
    }
  }

  /** As `TwoWindows`, when one admission of the first window lies outside the interval. */
  lemma {:induction false} TwoWindowsLessOne(log: seq<Admission>, from: int, to: int, w1: int, w2: int, j: nat)
    requires forall i :: 0 <= i < |log| && from <= log[i].time < to ==> log[i].window == w1 || log[i].window == w2
    requires j < |log| && log[j].window == w1 && !(from <= log[j].time < to)
    ensures InInterval(log, from, to) + 1 <= InWindow(log, w1) + InWindow(log, w2)
  {
    var front := log[..|log| - 1];
    if j == |log| - 1 {
      TwoWindows(front, from, to, w1, w2);
    } else {
      TwoWindowsLessOne(front, from, to, w1, w2, j);
    }
  }

  /** A window opened before the interval leaves at least its opening admission outside. */
  lemma TwiceLessOne(log: seq<Admission>, length: nat, limit: nat, from: int)
    requires Windowed(log, length, limit) && Opened(log) && limit > 0
    ensures InInterval(log, from, from + length) <= 2 * limit - 1
  {
    hide InWindow, InInterval;
    if i :| 0 <= i < |log| && from <= log[i].time < from + length && log[i].window < from {
      var w1, w2 := log[i].window, from;
      assert OpenedAt(log, w1);
      var j :| 0 <= j < |log| && log[j] == Admission(w1, w1);
      if k :| 0 <= k < |log| && from <= log[k].time < from + length && log[k].window >= from {
        w2 := log[k].window;
      }
      TwoWindowsLessOne(log, from, from + length, w1, w2, j);
      assert InWindow(log, w1) <= limit && InWindow(log, w2) <= limit;
    } else {
      AlignedAtMostLimit(log, length, limit, from);
    }
  }

  lemma {:induction false} OneWindow(log: seq<Admission>, from: int, to: int, w: int)
    requires forall i :: 0 <= i < |log| && from <= log[i].time < to ==> log[i].window == w
    ensures InInterval(log, from, to) <= InWindow(log, w)
  {
    if log != [] {
      OneWindow(log[..|log| - 1], from, to, w);
    }
  }

  /** The plain limit holds for every interval into which no earlier window reaches. */
  lemma AlignedAtMostLimit(log: seq<Admission>, length: nat, limit: nat, from: int)
    requires Windowed(log, length, limit)
    requires forall i :: 0 <= i < |log| && from <= log[i].time < from + length ==> from <= log[i].window
    ensures InInterval(log, from, from + length) <= limit
  {
    hide InWindow, InInterval;
    var w := from;
    if i :| 0 <= i < |log| && from <= log[i].time < from + length {
      w := log[i].window;
    }
    OneWindow(log, from, from + length, w);
    assert InWindow(log, w) <= limit;
  }

  /** No admission so far belongs to the window `w`. */
  lemma {:induction false} NoneInWindow(log: seq<Admission>, w: int)
    requires forall i :: 0 <= i < |log| ==> log[i].window != w
    ensures InWindow(log, w) == 0
  {
    if log != [] {
      NoneInWindow(log[..|log| - 1], w);
    }
  }

  /** One more admission in the latest window. */
  lemma AdmissionKeepsWindows(log: seq<Admission>, a: Admission, length: nat, limit: nat)
    requires Windowed(log, length, limit) && a.window <= a.time < a.window + length
    requires forall i :: 0 <= i < |log| ==> log[i].window == a.window || log[i].window + length <= a.window
    requires InWindow(log, a.window) < limit
    ensures Windowed(log + [a], length, limit)
    ensures InWindow(log + [a], a.window) == InWindow(log, a.window) + 1
  {
    hide InWindow;
    var more := log + [a];
    InWindowAppend(log, a, a.window);
    forall w ensures InWindow(more, w) <= limit {
      InWindowAppend(log, a, w);
      assert InWindow(log, w) <= limit;
    }
    forall i | 0 <= i < |more| ensures more[i].window <= more[i].time < more[i].window + length {
      assert more[i] == if i < |log| then log[i] else a;
    }
    forall i, j | 0 <= i < j < |more|
      ensures more[i].window == more[j].window || more[i].window + length <= more[j].window
    {
      assert more[i] == log[i] && more[j] == if j < |log| then log[j] else a;
    }
  }

  lemma {:induction false} EmptyInterval(log: seq<Admission>, from: int, to: int)
    requires log == [] || to <= from
    ensures InInterval(log, from, to) == 0
  {
    if log != [] {
      EmptyInterval(log[..|log| - 1], from, to);
    }
  }
}

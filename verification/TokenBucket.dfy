/** The executor API's per-socket token bucket, over exact reals. */
module TokenBucket {

  const BURST := 32.0
  const RATE := 16.0

  datatype Bucket = Bucket(tokens: real, lastRefill: real)

  function Min(a: real, b: real): real { if a < b then a else b }

  /** Tokens after refilling up to `now`; a clock that went back adds nothing. */
  function Refilled(b: Bucket, now: real): real {
    Min(b.tokens + (if now > b.lastRefill then now - b.lastRefill else 0.0) * RATE, BURST)
  }

  predicate Allows(b: Bucket, now: real) {
    Refilled(b, now) >= 1.0
  }

  function After(b: Bucket, now: real): Bucket {
    Bucket(Refilled(b, now) - (if Allows(b, now) then 1.0 else 0.0), now)
  }

  predicate Sound(b: Bucket) {
    0.0 <= b.tokens <= BURST
  }

  /** When the bucket will be full again if nothing more is spent. */
  function FullAt(b: Bucket): real {
    b.lastRefill + (BURST - b.tokens) / RATE
  }

  function Max(a: real, b: real): real { if a > b then a else b }

  /**
   The bucket schedules messages 1/16 s apart with 31 of them in advance: a message is let through
   exactly when it comes no more than 31/16 s before the bucket would be full, and moves that time
   on by 1/16 s.
   */
  lemma Schedules(b: Bucket, now: real)
    requires now >= b.lastRefill
    ensures Allows(b, now) <==> FullAt(b) <= now + 31.0 / 16.0
    ensures FullAt(After(b, now)) == Max(FullAt(b), now) + if Allows(b, now) then 1.0 / 16.0 else 0.0
  {
    assert (FullAt(b) - now) * RATE == BURST - b.tokens - (now - b.lastRefill) * RATE;
  }

  class ClientMessageRateLimiter {
    var tokens: real
    var lastRefill: real

    ghost function View(): Bucket
      reads this
    {
      Bucket(tokens, lastRefill)
    }

    ghost predicate Valid()
      reads this
    {
      Sound(View())
    }

    constructor (now: real)
      ensures Valid() && View() == Bucket(BURST, now) && FullAt(View()) == now
    {
      tokens, lastRefill := BURST, now;
    }

    /** Allowed exactly when the schedule has room; a clock that went back only loses its refill. */
    method AllowAt(now: real) returns (allowed: bool)
      requires Valid()
      modifies this
      ensures Valid() && allowed == Allows(old(View()), now) && View() == After(old(View()), now)
      ensures now >= old(lastRefill) ==>
                && (allowed <==> old(FullAt(View())) <= now + (BURST - 1.0) / RATE)
                && FullAt(View()) == Max(old(FullAt(View())), now) + if allowed then 1.0 / RATE else 0.0
      ensures now < old(lastRefill) ==>
                (allowed <==> old(tokens) >= 1.0) && tokens == old(tokens) - if allowed then 1.0 else 0.0
    {
      if now >= lastRefill {
        Schedules(View(), now);
      }
      var elapsed := if now > lastRefill then now - lastRefill else 0.0;
      tokens := Min(tokens + elapsed * RATE, BURST);
      lastRefill := now;
      if tokens < 1.0 {
        return false;
      }
      tokens := tokens - 1.0;
      return true;
    }
  }

  /** The bucket after calls at the given times. */
  function Run(b: Bucket, times: seq<real>): Bucket {
    if times == [] then b else After(Run(b, times[..|times| - 1]), times[|times| - 1])
  }

  /** Messages admitted among the calls. */
  function Admitted(b: Bucket, times: seq<real>): nat {
    if times == [] then 0
    else Admitted(b, times[..|times| - 1])
         + if Allows(Run(b, times[..|times| - 1]), times[|times| - 1]) then 1 else 0
  }

  ghost predicate Ascending(from: real, times: seq<real>) {
    && (forall i :: 0 <= i < |times| ==> from <= times[i])
    && (forall i, j :: 0 <= i < j < |times| ==> times[i] <= times[j])
  }

  lemma {:induction false} RunSound(b: Bucket, times: seq<real>)
    requires Sound(b)
    ensures Sound(Run(b, times))
  {
    if times != [] {
      RunSound(b, times[..|times| - 1]);
    }
  }

  /** What was admitted plus what is left is at most the start plus the refill. */
  lemma {:induction false} Conservation(b: Bucket, times: seq<real>)
    requires Sound(b) && Ascending(b.lastRefill, times)
    ensures var r := Run(b, times);
            Admitted(b, times) as real + r.tokens <= b.tokens + RATE * (r.lastRefill - b.lastRefill)
    ensures times != [] ==> Run(b, times).lastRefill == times[|times| - 1]
    ensures times == [] ==> Run(b, times).lastRefill == b.lastRefill
  {
    if times != [] {
      Conservation(b, times[..|times| - 1]);
    }
  }

  /** The bucket between call `i` and call `j` of a run is the run of the calls in between. */
  lemma {:induction false} RunSplit(b: Bucket, times: seq<real>, i: nat)
    requires i <= |times|
    ensures Run(b, times) == Run(Run(b, times[..i]), times[i..])
    ensures Admitted(b, times) == Admitted(b, times[..i]) + Admitted(Run(b, times[..i]), times[i..])
    decreases |times|
  {
    if i == |times| {
      assert times[..i] == times && times[i..] == [];
    } else {
      var front := times[..|times| - 1];
      RunSplit(b, front, i);
      assert front[..i] == times[..i];
      assert times[i..][..|times| - i - 1] == front[i..];
    }
  }

  /** Between the calls at times `s` and `t`, both included, at most 32 + 16 (t - s) messages are admitted. */
  lemma BurstBound(start: real, times: seq<real>, i: nat, j: nat)
    requires i <= j < |times| && Ascending(start, times)
    ensures var b := Bucket(BURST, start);
            (Admitted(b, times[..j + 1]) - Admitted(b, times[..i])) as real <= 32.0 + 16.0 * (times[j] - times[i])
  {
    var b := Bucket(BURST, start);
    var upto := times[..j + 1];
    RunSplit(b, upto, i);
    assert upto[..i] == times[..i];
    var mid := Run(b, times[..i]);
    RunSound(b, times[..i]);
    var rest := upto[i..];
    var first := Bucket(Refilled(mid, times[i]), times[i]);
    RefillFirst(mid, rest, first);
    Conservation(first, rest);
    RunSound(first, rest);
    assert rest[|rest| - 1] == times[j];
  }

  /** Refilling up to the first call beforehand changes nothing. */
  lemma {:induction false} RefillFirst(b: Bucket, times: seq<real>, first: Bucket)
    requires Sound(b) && times != [] && first == Bucket(Refilled(b, times[0]), times[0])
    ensures Admitted(b, times) == Admitted(first, times) && Run(b, times) == Run(first, times)
  {
    if |times| == 1 {
      assert times[..0] == [];
    } else {
      RefillFirst(b, times[..|times| - 1], first);
    }
  }

  /** A client that leaves at least 1/16 s between messages is never refused. */
  lemma SpacedIsNeverRefused(start: real, times: seq<real>, i: nat)
    requires i < |times| && Ascending(start, times)
    requires forall k :: 0 <= k < |times| - 1 ==> times[k + 1] - times[k] >= 1.0 / 16.0
    ensures Allows(Run(Bucket(BURST, start), times[..i]), times[i])
  {
    var b := Bucket(BURST, start);
    RunSound(b, times[..i]);
    if i > 0 {
      assert times[i - 1 + 1] - times[i - 1] >= 1.0 / 16.0;
      assert times[..i][..i - 1] == times[..i - 1];
      var prev := Run(b, times[..i]);
      assert prev.lastRefill == times[i - 1];
    }
  }
}

/** The clock and the rate limiter of src/rate_limiter.rs. */

/** Instants are nanoseconds on one clock; durations are differences of instants. */
module Clock {
  type Time = int

  const MILLISECOND: nat := 1_000_000

  /** `Instant::duration_since` saturates at zero. */
  function DurationSince(now: Time, earlier: Time): nat {
    if now < earlier then 0 else now - earlier
  }

  ghost predicate NonDecreasing(times: seq<Time>) {
    forall i, j :: 0 <= i < j < |times| ==> times[i] <= times[j]
  }
}

module RateLimiters {
  import opened Clock

  /** The value of a limiter: what a `RateLimiter` object holds at some moment. */
  datatype Limiter = Limiter(limit: nat, last: Time) {
    predicate Due(now: Time) {
      DurationSince(now, last) >= limit
    }

    function Checked(now: Time): Limiter {
      if Due(now) then this.(last := now) else this
    }

    function Restarted(now: Time): Limiter {
      this.(last := now - limit)
    }
  }

  function NewLimiter(limit: nat, now: Time): Limiter {
    Limiter(limit, now - limit)
  }

  class RateLimiter {
    const limit: nat
    var last: Time

    function Value(): Limiter
      reads this
    {
      Limiter(limit, last)
    }

    constructor (limit: nat, now: Time)
      ensures Value() == NewLimiter(limit, now)
    {
      this.limit := limit;
      this.last := now - limit;
    }

    method Reset(now: Time)
      modifies this
      ensures Value() == old(Value()).Restarted(now)
    {
      last := now - limit;
    }

    /** Fires when the limit has passed since it last did, and notes the moment. */
    method Check(now: Time) returns (reached: bool)
      modifies this
      ensures reached == old(Value()).Due(now)
      ensures Value() == old(Value()).Checked(now)
    {
      if DurationSince(now, last) >= limit {
        last := now;
        reached := true;
      } else {
        reached := false;
      }
    }
  }

  // ----- what a run of checks without a reset guarantees

  function AfterChecks(l: Limiter, times: seq<Time>): Limiter {
    if times == [] then l
    else AfterChecks(l, times[..|times| - 1]).Checked(times[|times| - 1])
  }

  /** How many of the checks at these times return true. */
  function Firings(l: Limiter, times: seq<Time>): nat {
    if times == [] then 0
    else
      var before := times[..|times| - 1];
      Firings(l, before) + if AfterChecks(l, before).Due(times[|times| - 1]) then 1 else 0
  }

  /** n steps of `limit` are one more step than n - 1 of them. */
  lemma OneMoreStep(n: int, limit: nat)
    ensures n * limit == (n - 1) * limit + limit
  {
  }

  lemma MultiplesGrow(a: int, b: int, limit: nat)
    ensures a <= b ==> a * limit <= b * limit
  {
  }

  /** From "n whole steps fit into the elapsed time" to "n is at most elapsed / limit". */
  lemma StepsFit(n: nat, limit: nat, elapsed: nat)
    requires limit > 0 && n * limit <= elapsed
    ensures n <= elapsed / limit
  {
    MultiplesGrow(elapsed / limit + 1, n, limit);
  }

  lemma {:induction false} FiringsLeaveLast(l: Limiter, times: seq<Time>)
    requires times != [] && NonDecreasing(times)
    ensures Firings(l, times) > 0 ==>
              times[0] + (Firings(l, times) - 1) * l.limit
              <= AfterChecks(l, times).last <= times[|times| - 1]
    ensures AfterChecks(l, times).limit == l.limit
  {
    var n := |times| - 1;
    var before := times[..n];
    if n == 0 {
      assert before == [];
    } else {
      FiringsLeaveLast(l, before);
      OneMoreStep(Firings(l, before), l.limit);
    }
  }

  /** However often it is asked, a limiter that is not reset fires at most once per `limit`. */
  lemma FiringBound(l: Limiter, times: seq<Time>)
    requires times != [] && NonDecreasing(times)
    ensures (Firings(l, times) - 1) * l.limit <= times[|times| - 1] - times[0]
    ensures l.limit > 0 ==> Firings(l, times) <= (times[|times| - 1] - times[0]) / l.limit + 1
  {
    hide Firings, AfterChecks;
    FiringsLeaveLast(l, times);
    FiringsSpan(Firings(l, times), l.limit, times[0], times[|times| - 1]);
  }

  /** The arithmetic of it: n firings span n - 1 limits. */
  lemma FiringsSpan(n: nat, limit: nat, start: Time, end: Time)
    requires start <= end && (n > 0 ==> start + (n - 1) * limit <= end)
    ensures (n - 1) * limit <= end - start
    ensures limit > 0 ==> n <= (end - start) / limit + 1
  {
    if n == 0 {
      OneMoreStep(0, limit);
    } else if limit > 0 {
      StepsFit(n - 1, limit, end - start);
    }
  }

  /** A limiter that was just reset never refuses its first check. */
  lemma FirstCheckAfterResetFires(l: Limiter, resetAt: Time, times: seq<Time>)
    requires times != [] && NonDecreasing(times) && resetAt <= times[0]
    ensures Firings(l.Restarted(resetAt), times) >= 1
  {
    FirstFires(l.Restarted(resetAt), times);
  }

  lemma {:induction false} FirstFires(l: Limiter, times: seq<Time>)
    requires times != [] && l.last + l.limit <= times[0]
    ensures Firings(l, times) >= 1
  {
    var before := times[..|times| - 1];
    if before != [] {
      FirstFires(l, before);
    } else {
      assert AfterChecks(l, before) == l;
    }
  }
}

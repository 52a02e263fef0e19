/** The reconnect backoff calculator: every attempt doubles the wait, up to a
    ceiling, and a successful connect starts the doubling again.
    Durations are integer milliseconds; the source's `TimeSpan * Math.Pow`
    is exact here. */
module Backoff {

  /** Default minimum and maximum reconnect waits of the chat client's options. */
  const DefaultMinReconnectMs: int := 500
  const DefaultMaxReconnectMs: int := 15000

  /** 2 to the `n`: positive and larger than `n`. */
  function Pow2(n: nat): (r: nat)
    ensures r >= 1 && n < r
  {
    if n == 0 then 1 else 2 * Pow2(n - 1)
  }

  /** The wait `DoAttempt` returns when `attempts` attempts were made before it:
      `minTime * 2^attempts`, unless that reaches `maxTime`. */
  function WaitTime(minTime: int, maxTime: int, attempts: nat): (t: int)
    ensures t <= maxTime
    ensures t <= minTime * Pow2(attempts)
    ensures t == maxTime || t == minTime * Pow2(attempts)
  {
    var time := minTime * Pow2(attempts);
    if time < maxTime then time else maxTime
  }

  /** The waits of `n` consecutive attempts, starting with `from` attempts made. */
  function Schedule(minTime: int, maxTime: int, from: nat, n: nat): (s: seq<int>)
    ensures |s| == n
    ensures forall i :: 0 <= i < n ==> s[i] <= maxTime && s[i] <= minTime * Pow2(from + i)
  {
    var s := seq(n, i requires 0 <= i < n => WaitTime(minTime, maxTime, from + i));
    assert forall i :: 0 <= i < n ==> s[i] == WaitTime(minTime, maxTime, from + i);
    s
  }

  class ReconnectionTime {
    var attempts: nat
    const minTime: int
    const maxTime: int

    constructor (minTime: int, maxTime: int)
      ensures this.minTime == minTime && this.maxTime == maxTime
      ensures attempts == 0
    {
      this.minTime := minTime;
      this.maxTime := maxTime;
      attempts := 0;
    }

    /** A connection succeeded: the next attempt waits the minimum again. */
    method Connected()
      modifies this
      ensures attempts == 0
    {
      attempts := 0;
    }

    /** The wait before the next reconnect, computed from the attempts made so far,
        which are then one more. */
    method DoAttempt() returns (time: int)
      modifies this
      ensures time == WaitTime(minTime, maxTime, old(attempts))
      ensures attempts == old(attempts) + 1
    {
      time := minTime * Pow2(attempts);
      attempts := attempts + 1;
      if time >= maxTime {
        time := maxTime;
      }
    }
  }

  lemma {:induction false} Pow2Monotone(a: nat, b: nat)
    requires a <= b
    ensures Pow2(a) <= Pow2(b)
  {
    if a < b {
      Pow2Monotone(a, b - 1);
    }
  }

  /** With a non-negative minimum, waits never shrink while attempts accumulate. */
  lemma WaitTimeMonotone(minTime: int, maxTime: int, a: nat, b: nat)
    requires 0 <= minTime && a <= b
    ensures WaitTime(minTime, maxTime, a) <= WaitTime(minTime, maxTime, b)
  {
    Pow2Monotone(a, b);
    MulMonotone(minTime, Pow2(a), Pow2(b));
  }

  lemma MulMonotone(k: int, x: int, y: int)
    requires 0 <= k && x <= y
    ensures k * x <= k * y
  {
  }

  /** Successive waits without an intervening connect are non-decreasing and
      never exceed the maximum. */
  lemma ScheduleNonDecreasing(minTime: int, maxTime: int, from: nat, n: nat)
    requires 0 <= minTime
    ensures forall i, j :: 0 <= i <= j < n ==>
      Schedule(minTime, maxTime, from, n)[i] <= Schedule(minTime, maxTime, from, n)[j]
    ensures forall i :: 0 <= i < n ==> Schedule(minTime, maxTime, from, n)[i] <= maxTime
  {
    forall i, j | 0 <= i <= j < n
      ensures Schedule(minTime, maxTime, from, n)[i] <= Schedule(minTime, maxTime, from, n)[j]
    {
      WaitTimeMonotone(minTime, maxTime, from + i, from + j);
    }
    forall i | 0 <= i < n
      ensures Schedule(minTime, maxTime, from, n)[i] <= maxTime
    {
      assert Schedule(minTime, maxTime, from, n)[i] == WaitTime(minTime, maxTime, from + i);
    }
  }

  /** After a reset, the first wait is the smaller of the two bounds. */
  lemma WaitAfterReset(minTime: int, maxTime: int)
    ensures WaitTime(minTime, maxTime, 0) == if minTime < maxTime then minTime else maxTime
  {
  }

  /** With the default bounds the waits are 0.5, 1, 2, 4, 8 seconds, then the
      15-second ceiling. */
  lemma DefaultSchedule()
    ensures Schedule(DefaultMinReconnectMs, DefaultMaxReconnectMs, 0, 7)
         == [500, 1000, 2000, 4000, 8000, 15000, 15000]
  {
    assert Pow2(1) == 2 && Pow2(2) == 4 && Pow2(3) == 8;
    assert Pow2(4) == 16 && Pow2(5) == 32 && Pow2(6) == 64;
  }

  /** Three failed attempts, then a success, then a failure: the waits are
      500, 1000, 2000 and again 500 milliseconds. */
  method FaultScenario() returns (waits: seq<int>)
    ensures waits == [500, 1000, 2000, 500]
  {
    var backoff := new ReconnectionTime(DefaultMinReconnectMs, DefaultMaxReconnectMs);
    var w0 := backoff.DoAttempt();
    var w1 := backoff.DoAttempt();
    var w2 := backoff.DoAttempt();
    backoff.Connected();
    var w3 := backoff.DoAttempt();
    assert Pow2(1) == 2 && Pow2(2) == 4;
    waits := [w0, w1, w2, w3];
  }
}

/** The call-time throttle that `domain/authorisation/token.py` (`Token.headers`)
    and `domain/authorisation/grant.py` (`AuthorisationGrant.token_headers`)
    both run: a queue of the times of earlier calls, from which the oldest
    is dropped, one second slept per pass, while more than `rate` times are
    stored and the `rate`-th most recent is under a second old. Time is a
    whole number of seconds. */
module Throttle {

  /** The wall clock the throttle reads and sleeps on. */
  class Clock {
    var now: int

    constructor (start: int)
      ensures now == start
    {
      now := start;
    }

    /** `sleep(seconds)`: the clock moves on by exactly that much. */
    method Sleep(seconds: nat)
      modifies this
      ensures now == old(now) + seconds
    {
      now := now + seconds;
    }
  }

  /** The loop condition: `rate > 0`, more than `rate` times stored, and the
      `rate`-th most recent one less than a second before `now`. */
  predicate MustWait(times: seq<int>, now: int, rate: int)
  {
    rate > 0 && |times| > rate && now - times[|times| - rate] < 1
  }

  /** The queue and the clock once the loop has finished. */
  function Drained(times: seq<int>, now: int, rate: int): (r: (seq<int>, int))
    ensures !MustWait(r.0, r.1, rate)
    decreases |times|
  {
    if MustWait(times, now, rate) then Drained(times[1..], now + 1, rate) else (times, now)
  }

  /** The loop only drops times from the front: what is left is a suffix. */
  lemma {:induction false} DrainedSuffix(times: seq<int>, now: int, rate: int)
    ensures |Drained(times, now, rate).0| <= |times|
    ensures Drained(times, now, rate).0 == times[|times| - |Drained(times, now, rate).0|..]
    decreases |times|
  {
    if MustWait(times, now, rate) {
      DrainedSuffix(times[1..], now + 1, rate);
      assert times[1..][|times| - 1 - |Drained(times, now, rate).0|..]
          == times[|times| - |Drained(times, now, rate).0|..];
    }
  }

  /** Each pass of the loop drops one time and sleeps one second, so the
      clock moves on by exactly the number of times dropped. */
  lemma {:induction false} DrainedClock(times: seq<int>, now: int, rate: int)
    ensures Drained(times, now, rate).1 == now + (|times| - |Drained(times, now, rate).0|)
    decreases |times|
  {
    if MustWait(times, now, rate) {
      DrainedClock(times[1..], now + 1, rate);
    }
  }

  /** The queue after one call: the drained queue with the call's own time,
      the clock after the loop, appended. */
  function Admit(times: seq<int>, now: int, rate: int): seq<int>
  {
    var r := Drained(times, now, rate);
    r.0 + [r.1]
  }

  /** The loop of `headers`, on a queue handed in and handed back. */
  method WaitTurn(times: seq<int>, rate: int, clock: Clock) returns (kept: seq<int>)
    modifies clock
    ensures (kept, clock.now) == Drained(times, old(clock.now), rate)
  {
    kept := times;
    if rate > 0 {
      while |kept| > rate && clock.now - kept[|kept| - rate] < 1
        invariant Drained(kept, clock.now, rate) == Drained(times, old(clock.now), rate)
        decreases |kept|
      {
        kept := kept[1..];
        clock.Sleep(1);
      }
    }
  }

  /** A non-positive rate switches the throttle off: nothing is dropped and
      no time passes. */
  lemma NoThrottle(times: seq<int>, now: int, rate: int)
    requires rate <= 0
    ensures Drained(times, now, rate) == (times, now)
    ensures Admit(times, now, rate) == times + [now]
  {
  }

  /** With at most `rate` times stored the call never waits, so `rate + 1`
      calls at the same instant all go through. */
  lemma ShortQueueNoWait(times: seq<int>, now: int, rate: int)
    requires |times| <= rate
    ensures Drained(times, now, rate) == (times, now)
    ensures Admit(times, now, rate) == times + [now]
  {
  }

  /** Dropping the oldest time leaves the `rate`-th most recent one where it
      was, so one pass of the loop at a clock that has moved on by a second
      ends it whenever every stored time lies in the past. */
  lemma {:induction false} AtMostOneWait(times: seq<int>, now: int, rate: int)
    requires forall i :: 0 <= i < |times| ==> times[i] <= now
    ensures Drained(times, now, rate).1 == if MustWait(times, now, rate) then now + 1 else now
  {
    if MustWait(times, now, rate) {
      var rest := times[1..];
      assert rest[|rest| - rate] == times[|times| - rate];
      assert !MustWait(rest, now + 1, rate);
    }
  }

  /** The call after `rate + 1` calls at the same instant waits for a second. */
  lemma NextCallWaits(times: seq<int>, now: int, rate: int)
    requires rate > 0 && |times| == rate + 1
    requires forall i :: 0 <= i < |times| ==> times[i] == now
    ensures Drained(times, now, rate).1 == now + 1
  {
    assert MustWait(times, now, rate);
    AtMostOneWait(times, now, rate);
  }

  /** Any `rate + 1` consecutive stored times span at least a second. */
  predicate Spaced(times: seq<int>, rate: nat)
  {
    forall i :: 0 <= i < |times| - rate ==> Gap(times, i, rate) >= 1
  }

  /** How far the time at `i + rate` lies after the time at `i`. */
  function Gap(times: seq<int>, i: nat, rate: nat): int
    requires i + rate < |times|
  {
    times[i + rate] - times[i]
  }

  /** Dropping times from the front keeps the queue spaced. */
  lemma SpacedSuffix(times: seq<int>, k: nat, rate: nat)
    requires k <= |times| && Spaced(times, rate)
    ensures Spaced(times[k..], rate)
  {
    var tail := times[k..];
    forall i | 0 <= i < |tail| - rate
      ensures Gap(tail, i, rate) >= 1
    {
      assert Gap(tail, i, rate) == Gap(times, k + i, rate);
    }
  }

  /** Appending a time at least a second after the `rate`-th most recent one
      keeps the queue spaced. */
  lemma SpacedAppend(times: seq<int>, at: int, rate: nat)
    requires rate > 0 && Spaced(times, rate)
    requires |times| >= rate ==> at - times[|times| - rate] >= 1
    ensures Spaced(times + [at], rate)
  {
    var next := times + [at];
    forall i | 0 <= i < |next| - rate
      ensures Gap(next, i, rate) >= 1
    {
      if i + rate < |times| {
        assert Gap(next, i, rate) == Gap(times, i, rate);
      }
    }
  }

  /** The loop only drops times from the front, so it keeps the queue spaced. */
  lemma {:induction false} DrainKeepsSpacing(times: seq<int>, now: int, rate: nat)
    requires Spaced(times, rate)
    ensures Spaced(Drained(times, now, rate).0, rate)
  {
    var r := Drained(times, now, rate);
    DrainedSuffix(times, now, rate);
    SpacedSuffix(times, |times| - |r.0|, rate);
  }

  /** A call admitted once more than `rate` times are stored keeps the queue
      spaced; only the call that finds exactly `rate` times can break it. */
  lemma {:induction false} AdmitKeepsSpacing(times: seq<int>, now: int, rate: int)
    requires rate > 0 && Spaced(times, rate)
    requires |Drained(times, now, rate).0| != rate
    ensures Spaced(Admit(times, now, rate), rate)
  {
    DrainThenAppend(times, now, rate);
  }

  /** The drained queue with the clock after the loop appended stays spaced
      unless exactly `rate` times are left. */
  lemma {:induction false} DrainThenAppend(times: seq<int>, now: int, rate: int)
    requires rate > 0 && Spaced(times, rate)
    requires |Drained(times, now, rate).0| != rate
    ensures Spaced(Drained(times, now, rate).0 + [Drained(times, now, rate).1], rate)
  {
    var r := Drained(times, now, rate);
    DrainKeepsSpacing(times, now, rate);
    SpacedAppend(r.0, r.1, rate);
  }

  /** The rule as written lets `rate + 1` calls through within one second:
      with the default rate of 2, three calls at time 0 are all stored at 0. */
  lemma AsWrittenBurstBreaksSpacing()
    ensures Admit(Admit(Admit([], 0, 2), 0, 2), 0, 2) == [0, 0, 0]
    ensures !Spaced([0, 0, 0], 2)
  {
    ShortQueueNoWait([], 0, 2);
    ShortQueueNoWait([0], 0, 2);
    ShortQueueNoWait([0, 0], 0, 2);
    assert Gap([0, 0, 0], 0, 2) == 0;
  }

  /** The evidently intended condition: wait while `rate` or more times are
      stored, so that the new call is never the `rate + 1`-th within a second. */
  predicate MustWaitAtRate(times: seq<int>, now: int, rate: int)
  {
    rate > 0 && |times| >= rate && now - times[|times| - rate] < 1
  }

  /** The loop under the corrected condition. */
  function DrainedAtRate(times: seq<int>, now: int, rate: int): (r: (seq<int>, int))
    ensures !MustWaitAtRate(r.0, r.1, rate)
    ensures |r.0| <= |times| && r.0 == times[|times| - |r.0|..]
    decreases |times|
  {
    if MustWaitAtRate(times, now, rate) then DrainedAtRate(times[1..], now + 1, rate) else (times, now)
  }

  /** One call under the corrected condition. */
  function AdmitAtRate(times: seq<int>, now: int, rate: int): seq<int>
  {
    var r := DrainedAtRate(times, now, rate);
    r.0 + [r.1]
  }

  /** Under the corrected condition every call keeps the queue spaced: no
      second ever holds more than `rate` calls. */
  lemma {:induction false} AdmitAtRateKeepsSpacing(times: seq<int>, now: int, rate: int)
    requires rate > 0 && Spaced(times, rate)
    ensures Spaced(AdmitAtRate(times, now, rate), rate)
  {
    var r := DrainedAtRate(times, now, rate);
    assert !MustWaitAtRate(r.0, r.1, rate);
    SpacedSuffix(times, |times| - |r.0|, rate);
    SpacedAppend(r.0, r.1, rate);
    assert AdmitAtRate(times, now, rate) == r.0 + [r.1];
  }
}

/**
 * Reconnection with capped exponential backoff: `ReconnectionStrategy` of
 * apps/client/src/wsclip/core/connection.py. The older
 * src/wsclip/core/reconnect_strategy.py has the same fields, the same
 * `reset`, `get_next_delay` and `connect_with_retry` logic (only its logging
 * differs) and literal defaults 1.0, 30.0 and 10; one class models both.
 *
 * Delays are reals: doubling and `min` are exact on the floats the client
 * uses, and the sleep itself is only recorded, never performed.
 */
module Backoff {

  /** The three constructor arguments. */
  datatype BackoffParams = BackoffParams(initialDelay: real, maxDelay: real, maxAttempts: int)

  /** The literal defaults of the older strategy (and of the newer one's `Settings`, for the delays). */
  const OlderDefaults := BackoffParams(1.0, 30.0, 10)

  function Max0(n: int): nat
  {
    if n < 0 then 0 else n
  }

  function Min(a: real, b: real): real
  {
    if a <= b then a else b
  }

  function Max(a: real, b: real): real
  {
    if a <= b then b else a
  }

  /** `_current_delay` after `k` delays have been handed out since the last reset. */
  function Delay(p: BackoffParams, k: nat): (r: real)
    ensures k > 0 ==> r <= p.maxDelay
  {
    if k == 0 then p.initialDelay else Min(Delay(p, k - 1) * 2.0, p.maxDelay)
  }

  /** The first `n` delays handed out after a reset, in order. */
  function Schedule(p: BackoffParams, n: nat): (r: seq<real>)
    ensures |r| == n
    ensures forall j :: 0 <= j < n ==> r[j] == Delay(p, j)
  {
    if n == 0 then [] else Schedule(p, n - 1) + [Delay(p, n - 1)]
  }

  /** What a call of `connect_fn` did: returned True, returned False, or raised. */
  datatype ConnectOutcome = Succeeded | ReturnedFalse | Raised

  /** The outcome of `connect_with_retry`: its result and how many times it called `connect_fn`. */
  datatype RetryResult = RetryResult(connected: bool, calls: nat)

  /**
   * `connect_with_retry` from the `i`-th call on (the attempt count is `i`):
   * success returns True; otherwise `get_next_delay` decides, and a negative
   * delay (the -1 sentinel, or a negative configured delay) returns False.
   */
  function RetryFrom(p: BackoffParams, outcome: nat -> ConnectOutcome, i: nat): (r: RetryResult)
    requires i <= Max0(p.maxAttempts)
    ensures i < r.calls <= Max0(p.maxAttempts) + 1
    decreases Max0(p.maxAttempts) - i
  {
    if outcome(i) == Succeeded then RetryResult(true, i + 1)
    else if i >= p.maxAttempts || Delay(p, i) < 0.0 then RetryResult(false, i + 1)
    else RetryFrom(p, outcome, i + 1)
  }

  /** `connect_with_retry` from a fresh strategy. */
  function Retry(p: BackoffParams, outcome: nat -> ConnectOutcome): (r: RetryResult)
    ensures 0 < r.calls <= Max0(p.maxAttempts) + 1
  {
    RetryFrom(p, outcome, 0)
  }

  class ReconnectionStrategy {
    const initialDelay: real
    const maxDelay: real
    const maxAttempts: int
    var attemptCount: nat
    var currentDelay: real

    function Params(): BackoffParams
    {
      BackoffParams(initialDelay, maxDelay, maxAttempts)
    }

    /** The delay is the one the schedule has reached, and the count never passes the limit. */
    ghost predicate Valid()
      reads this
    {
      attemptCount <= Max0(maxAttempts) && currentDelay == Delay(Params(), attemptCount)
    }

    constructor(initialDelay: real, maxDelay: real, maxAttempts: int)
      ensures this.initialDelay == initialDelay && this.maxDelay == maxDelay
      ensures this.maxAttempts == maxAttempts
      ensures attemptCount == 0 && currentDelay == initialDelay
      ensures Valid()
    {
      this.initialDelay := initialDelay;
      this.maxDelay := maxDelay;
      this.maxAttempts := maxAttempts;
      attemptCount := 0;
      currentDelay := initialDelay;
    }

    /** `reset`: back to the first attempt and the initial delay. */
    method Reset()
      modifies this
      ensures attemptCount == 0 && currentDelay == initialDelay
      ensures Valid()
    {
      attemptCount := 0;
      currentDelay := initialDelay;
    }

    /**
     * `get_next_delay`: -1 with no change once the attempts are used up;
     * otherwise the current delay, with the next one doubled up to the cap.
     */
    method GetNextDelay() returns (delay: real)
      requires Valid()
      modifies this
      ensures Valid()
      ensures old(attemptCount) >= maxAttempts ==>
        delay == -1.0 && attemptCount == old(attemptCount) && currentDelay == old(currentDelay)
      ensures old(attemptCount) < maxAttempts ==>
        && delay == old(currentDelay) == Delay(Params(), old(attemptCount))
        && currentDelay == Min(old(currentDelay) * 2.0, maxDelay)
        && attemptCount == old(attemptCount) + 1
    {
      if attemptCount >= maxAttempts {
        return -1.0;
      }
      delay := currentDelay;
      var nextDelay := Min(currentDelay * 2.0, maxDelay);
      currentDelay := nextDelay;
      attemptCount := attemptCount + 1;
    }

    /**
     * `connect_with_retry`: the `i`-th call of `connect_fn` behaves as
     * `outcome(i)`. Returns the result, the number of calls made and the
     * delays slept between them; the state afterwards is reset on success.
     */
    method ConnectWithRetry(outcome: nat -> ConnectOutcome) returns (connected: bool, calls: nat, sleeps: seq<real>)
      modifies this
      ensures RetryResult(connected, calls) == Retry(Params(), outcome)
      ensures sleeps == Schedule(Params(), calls - 1)
      ensures Valid()
      ensures connected ==> attemptCount == 0 && currentDelay == initialDelay
      ensures !connected ==> attemptCount == if calls - 1 >= maxAttempts then calls - 1 else calls
    {
      Reset();
      calls := 0;
      sleeps := [];
      while true
        invariant Valid() && calls == attemptCount
        invariant sleeps == Schedule(Params(), calls)
        invariant Retry(Params(), outcome) == RetryFrom(Params(), outcome, calls)
        decreases Max0(maxAttempts) - attemptCount
      {
        var attempt := outcome(calls);
        calls := calls + 1;
        if attempt == Succeeded {
          Reset();
          return true, calls, sleeps;
        }
        var delay := GetNextDelay();
        if delay < 0.0 {
          return false, calls, sleeps;
        }
        sleeps := sleeps + [delay];
      }
    }
  }

  // ---------------------------------------------------------------------
  // Properties of the schedule

  /** No delay exceeds the larger of the initial delay and the cap. */
  lemma {:induction false} DelayBound(p: BackoffParams, k: nat)
    ensures Delay(p, k) <= Max(p.initialDelay, p.maxDelay)
    ensures k > 0 ==> Delay(p, k) <= p.maxDelay
  {
    if k > 0 {
      DelayBound(p, k - 1);
    }
  }

  /** With `0 <= initial_delay <= max_delay` the delays never shrink. */
  lemma {:induction false} DelayMonotone(p: BackoffParams, k: nat)
    requires 0.0 <= p.initialDelay <= p.maxDelay
    ensures 0.0 <= Delay(p, k) <= Delay(p, k + 1) <= p.maxDelay
  {
    if k > 0 {
      DelayMonotone(p, k - 1);
    }
  }

  /** Once the cap is reached the delay stays at the cap. */
  lemma {:induction false} DelayStaysCapped(p: BackoffParams, k: nat, j: nat)
    requires 0.0 <= p.maxDelay && Delay(p, k) == p.maxDelay && k <= j
    ensures Delay(p, j) == p.maxDelay
    decreases j - k
  {
    if j > k {
      DelayStaysCapped(p, k, j - 1);
    }
  }

  /** With the defaults the delays run 1, 2, 4, 8, 16, 30, 30, ... */
  lemma DefaultSchedule(k: nat)
    ensures k < 5 ==> Delay(OlderDefaults, k) == [1.0, 2.0, 4.0, 8.0, 16.0][k]
    ensures k >= 5 ==> Delay(OlderDefaults, k) == 30.0
  {
    var p := OlderDefaults;
    assert Delay(p, 1) == 2.0 && Delay(p, 2) == 4.0 && Delay(p, 3) == 8.0 && Delay(p, 4) == 16.0;
    assert Delay(p, 5) == 30.0;
    if k >= 5 {
      DelayStaysCapped(p, 5, k);
    }
  }

  // ---------------------------------------------------------------------
  // Properties of the retry loop

  /** Whether some call among the first `n` succeeds. */
  predicate SucceedsWithin(outcome: nat -> ConnectOutcome, n: nat)
  {
    exists j :: 0 <= j < n && outcome(j) == Succeeded
  }

  /**
   * With non-negative delays the loop stops at the first success, or after
   * `max_attempts + 1` failed calls (one when `max_attempts <= 0`).
   */
  lemma {:induction false} RetryFromOutcome(p: BackoffParams, outcome: nat -> ConnectOutcome, i: nat)
    requires 0.0 <= p.initialDelay && 0.0 <= p.maxDelay
    requires i <= Max0(p.maxAttempts)
    requires forall j :: 0 <= j < i ==> outcome(j) != Succeeded
    ensures var r := RetryFrom(p, outcome, i);
      && (r.connected <==> SucceedsWithin(outcome, Max0(p.maxAttempts) + 1))
      && (r.connected ==> outcome(r.calls - 1) == Succeeded)
      && (forall j :: 0 <= j < r.calls - 1 ==> outcome(j) != Succeeded)
      && (!r.connected ==> r.calls == Max0(p.maxAttempts) + 1)
    decreases Max0(p.maxAttempts) - i
  {
    var r := RetryFrom(p, outcome, i);
    if outcome(i) == Succeeded {
      assert SucceedsWithin(outcome, Max0(p.maxAttempts) + 1);
    } else {
      DelayNonNegative(p, i);
      if i >= p.maxAttempts {
        assert i == Max0(p.maxAttempts);
        forall j | 0 <= j < Max0(p.maxAttempts) + 1
          ensures outcome(j) != Succeeded
        {
          if j == i {
            assert outcome(j) == outcome(i);
          }
        }
      } else {
        RetryFromOutcome(p, outcome, i + 1);
      }
    }
  }

  lemma {:induction false} DelayNonNegative(p: BackoffParams, k: nat)
    requires 0.0 <= p.initialDelay && 0.0 <= p.maxDelay
    ensures 0.0 <= Delay(p, k)
  {
    if k > 0 {
      DelayNonNegative(p, k - 1);
    }
  }

  /**
   * The retry contract: connected exactly when one of the first
   * `max_attempts + 1` calls succeeds, and with every call failing
   * `connect_fn` is called `max_attempts + 1` times with `max_attempts`
   * sleeps between.
   */
  lemma RetryOutcome(p: BackoffParams, outcome: nat -> ConnectOutcome)
    requires 0.0 <= p.initialDelay && 0.0 <= p.maxDelay
    ensures Retry(p, outcome).connected <==> SucceedsWithin(outcome, Max0(p.maxAttempts) + 1)
    ensures !Retry(p, outcome).connected ==> Retry(p, outcome).calls == Max0(p.maxAttempts) + 1
    ensures Retry(p, outcome).connected ==>
      && outcome(Retry(p, outcome).calls - 1) == Succeeded
      && forall j :: 0 <= j < Retry(p, outcome).calls - 1 ==> outcome(j) != Succeeded
  {
    RetryFromOutcome(p, outcome, 0);
  }

  /** A call that raises is handled exactly like one that returns False. */
  lemma {:induction false} RaisedIsFailure(p: BackoffParams, o1: nat -> ConnectOutcome, o2: nat -> ConnectOutcome, i: nat)
    requires forall j :: (o1(j) == Succeeded) == (o2(j) == Succeeded)
    requires i <= Max0(p.maxAttempts)
    ensures RetryFrom(p, o1, i) == RetryFrom(p, o2, i)
    decreases Max0(p.maxAttempts) - i
  {
    if o1(i) != Succeeded && !(i >= p.maxAttempts || Delay(p, i) < 0.0) {
      RaisedIsFailure(p, o1, o2, i + 1);
    }
  }

  /** With the older defaults and every call failing: 11 calls, and these 10 sleeps. */
  lemma OlderDefaultsAllFail(outcome: nat -> ConnectOutcome)
    requires forall j :: outcome(j) != Succeeded
    ensures !Retry(OlderDefaults, outcome).connected && Retry(OlderDefaults, outcome).calls == 11
    ensures Schedule(OlderDefaults, 10) == [1.0, 2.0, 4.0, 8.0, 16.0, 30.0, 30.0, 30.0, 30.0, 30.0]
  {
    RetryOutcome(OlderDefaults, outcome);
    forall k | 0 <= k < 10
      ensures Schedule(OlderDefaults, 10)[k] == [1.0, 2.0, 4.0, 8.0, 16.0, 30.0, 30.0, 30.0, 30.0, 30.0][k]
    {
      DefaultSchedule(k);
    }
  }
}

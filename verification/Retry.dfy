/**
 The retry combinator: up to `max_attempts` calls, retried on retryable errors, with doubling backoff,
 full jitter, panics turned into errors, and a deadline gate before each retry. Durations and instants
 are in milliseconds. What the calls return, how long they take, the jitter drawn and any oversleeping
 are inputs, indexed by attempt.
 */
module Retry {
  import opened Prelude

  datatype AdapterError =
    | Transient(message: string)
    | Permanent(message: string)
    | Unavailable
    | InternalPanic
    | DeadlineExceeded

  predicate IsRetryable(e: AdapterError) {
    e.Transient? || e.Unavailable?
  }

  datatype RetryConfig = RetryConfig(maxAttempts: nat, initialBackoff: nat, maxBackoff: nat)

  const DEFAULT_RETRY := RetryConfig(3, 50, 2000)
  const WRITE_RETRY := RetryConfig(2, 50, 2000)
  const CLEANUP_RETRY := RetryConfig(5, 50, 2000)
  const GRACEFUL_STOP_RETRY := RetryConfig(1, 50, 2000)

  const PROPAGATION_MARGIN: nat := 50
  const ADAPTER_FLOOR: nat := 200

  /** A call returns or panics; a panic counts as the error `InternalPanic`. */
  datatype Outcome<T> = Returned(result: Result<T, AdapterError>) | Panicked

  function Caught<T>(o: Outcome<T>): Result<T, AdapterError> {
    match o
    case Returned(r) => r
    case Panicked => Err(InternalPanic)
  }

  predicate Retryable<T>(o: Outcome<T>) {
    Caught(o).Err? && IsRetryable(Caught(o).error)
  }

  /** The call returned an error that is worth another attempt; a panic is not. */
  predicate FailedForNow<T>(o: Outcome<T>) {
    o.Returned? && o.result.Err? && (o.result.error.Transient? || o.result.error.Unavailable?)
  }

  /** Everything about the n-th attempt and the pause after it that the combinator does not decide. */
  datatype World<T> = World(
    start: int,
    outcome: nat -> Outcome<T>,
    took: nat -> nat,
    random: nat -> nat,
    overrun: nat -> nat)

  // ----- deadlines -----

  function SaturatingSub(a: int, b: int): nat {
    if a > b then a - b else 0
  }

  /** The instant at which a context made at `now` ends. */
  function FromRemaining(now: int, remaining: nat, adapterDefault: nat): int {
    now + Min(SaturatingSub(remaining, PROPAGATION_MARGIN), adapterDefault)
  }

  predicate IsTooClose(deadline: Option<int>, now: int) {
    deadline.Some? && SaturatingSub(deadline.value, now) < ADAPTER_FLOOR
  }

  /** A derived context leaves the caller at least 50 ms whenever the caller had them, and is already
      over otherwise; and it never exceeds the adapter's own budget. */
  lemma DeadlineMargin(now: int, remaining: nat, adapterDefault: nat)
    ensures var d := FromRemaining(now, remaining, adapterDefault);
            && (remaining >= 50 <==> d <= (now + remaining) - 50)
            && (remaining <= 50 ==> d == now)
            && now <= d <= now + adapterDefault
            && (IsTooClose(Some(d), now) <==>
                remaining < 250 || adapterDefault < 200)
  {
  }

  // ----- the specification: which attempts are made -----

  function Pow2(k: nat): nat {
    if k == 0 then 1 else 2 * Pow2(k - 1)
  }

  /** The backoff before the retry that follows attempt `k`: doubled and capped after each retry. */
  function Backoff(c: RetryConfig, k: nat): nat {
    if k == 0 then c.initialBackoff else Min(2 * Backoff(c, k - 1), c.maxBackoff)
  }

  /** A draw from `0..=backoff`. */
  function Jitter<T>(c: RetryConfig, w: World<T>, k: nat): nat {
    w.random(k) % (Backoff(c, k) + 1)
  }

  /** When attempt `k` starts. */
  function StartOf<T>(c: RetryConfig, w: World<T>, k: nat): int {
    if k == 0 then w.start else StartOf(c, w, k - 1) + w.took(k - 1) + Jitter(c, w, k - 1) + w.overrun(k - 1)
  }

  /** The deadline gate after attempt `k` refuses another one. */
  predicate Refused<T>(c: RetryConfig, deadline: Option<int>, w: World<T>, k: nat) {
    deadline.Some? && SaturatingSub(deadline.value, StartOf(c, w, k) + w.took(k)) < Backoff(c, k) + ADAPTER_FLOOR
  }

  /** Attempt `k` is followed by another one. */
  predicate GoesOn<T>(c: RetryConfig, deadline: Option<int>, w: World<T>, k: nat) {
    Retryable(w.outcome(k)) && k + 1 < c.maxAttempts && !Refused(c, deadline, w, k)
  }

  /** `n` attempts are made: each but the last goes on. */
  predicate Attempts<T>(c: RetryConfig, deadline: Option<int>, w: World<T>, n: nat) {
    && 1 <= n <= c.maxAttempts
    && !GoesOn(c, deadline, w, n - 1)
    && forall k :: 0 <= k < n - 1 ==> GoesOn(c, deadline, w, k)
  }

  function TotalSleep<T>(c: RetryConfig, w: World<T>, pauses: nat): nat {
    if pauses == 0 then 0 else TotalSleep(c, w, pauses - 1) + Jitter(c, w, pauses - 1)
  }

  /**
   The combinator. The trailing `unreachable!` is not reached when `maxAttempts > 0`, which the
   function asserts of its configuration.
   */
  method WithRetry<T>(c: RetryConfig, deadline: Option<int>, w: World<T>)
    returns (result: Result<T, AdapterError>, attempts: nat, retriesTotal: nat, deadlineExceededTotal: nat, slept: nat)
    requires c.maxAttempts > 0
    ensures Attempts(c, deadline, w, attempts) && forall n :: Attempts(c, deadline, w, n) ==> n == attempts
    ensures var last := w.outcome(attempts - 1);
            var gated := Retryable(last) && attempts < c.maxAttempts;
            && result == (if gated then Err(DeadlineExceeded) else Caught(last))
            && (gated ==> Refused(c, deadline, w, attempts - 1))
            && retriesTotal == attempts - 1 + (if gated then 1 else 0)
            && deadlineExceededTotal == if gated then 1 else 0
    ensures slept == TotalSleep(c, w, attempts - 1)
    ensures forall k :: 0 <= k < attempts - 1 ==> FailedForNow(w.outcome(k))
    ensures w.outcome(attempts - 1).Panicked? ==> result == Err(InternalPanic)
    ensures w.outcome(attempts - 1).Returned? && !FailedForNow(w.outcome(attempts - 1)) ==>
              result == w.outcome(attempts - 1).result
    ensures FailedForNow(w.outcome(attempts - 1)) && attempts == c.maxAttempts ==>
              result == w.outcome(attempts - 1).result
    ensures FailedForNow(w.outcome(attempts - 1)) && attempts < c.maxAttempts ==>
              && deadline.Some? && result == Err(DeadlineExceeded)
              && deadline.value - (StartOf(c, w, attempts - 1) + w.took(attempts - 1)) < Backoff(c, attempts - 1) + 200
  {
    var backoff, clock := c.initialBackoff, w.start;
    attempts, retriesTotal, deadlineExceededTotal, slept := 0, 0, 0, 0;
    while true
      invariant 0 <= attempts < c.maxAttempts
      invariant backoff == Backoff(c, attempts) && clock == StartOf(c, w, attempts)
      invariant forall k :: 0 <= k < attempts ==> GoesOn(c, deadline, w, k) && FailedForNow(w.outcome(k))
      invariant retriesTotal == attempts && deadlineExceededTotal == 0 && slept == TotalSleep(c, w, attempts)
      decreases c.maxAttempts - attempts
    {
      var attempt := attempts;
      attempts := attempts + 1;
      result := Caught(w.outcome(attempt));
      clock := clock + w.took(attempt);
      if !(result.Err? && IsRetryable(result.error) && attempt + 1 < c.maxAttempts) {
        return;
      }
      retriesTotal := retriesTotal + 1;
      if deadline.Some? {
        var need := backoff + ADAPTER_FLOOR;
        if SaturatingSub(deadline.value, clock) < need {
          deadlineExceededTotal := deadlineExceededTotal + 1;
          return Err(DeadlineExceeded), attempts, retriesTotal, deadlineExceededTotal, slept;
        }
      }
      var jitter := w.random(attempt) % (backoff + 1);
      clock := clock + jitter + w.overrun(attempt);
      slept := slept + jitter;
      backoff := Min(backoff * 2, c.maxBackoff);
    }
  }

  /** The first backoff is the configured one even if it exceeds the maximum; every later one is the
      initial backoff doubled as often, capped. */
  lemma {:induction false} BackoffClosedForm(c: RetryConfig, k: nat)
    requires k >= 1
    ensures Backoff(c, k) == Min(c.initialBackoff * Pow2(k), c.maxBackoff)
  {
    var x := c.initialBackoff * Pow2(k - 1);
    assert c.initialBackoff * Pow2(k) == 2 * x;
    if k > 1 {
      BackoffClosedForm(c, k - 1);
    }
  }

  /** Any pause up to the backoff can be drawn. */
  lemma FullJitter<T>(c: RetryConfig, w: World<T>, k: nat)
    ensures Jitter(c, w, k) <= Backoff(c, k)
    ensures w.random(k) <= Backoff(c, k) ==> Jitter(c, w, k) == w.random(k)
  {
    if w.random(k) <= Backoff(c, k) {
      SmallModulo(w.random(k), Backoff(c, k) + 1);
    }
  }

  lemma SmallModulo(x: nat, m: nat)
    requires x < m
    ensures x % m == x
  {
    var q := x / m;
    assert x == m * q + x % m;
    assert m * q < m;
  }

  /** Whenever a retry starts under a deadline, at least 200 ms remain, less what the sleep overran. */
  lemma DeadlineFloor<T>(c: RetryConfig, deadline: Option<int>, w: World<T>, n: nat, k: nat)
    requires Attempts(c, deadline, w, n) && 1 <= k < n && deadline.Some?
    ensures deadline.value - StartOf(c, w, k) >= 200 - w.overrun(k - 1)
  {
    assert GoesOn(c, deadline, w, k - 1);
    assert Jitter(c, w, k - 1) <= Backoff(c, k - 1);
  }

  lemma {:induction false} StartsInOrder<T>(c: RetryConfig, w: World<T>, k: nat)
    ensures w.start <= StartOf(c, w, k)
  {
    if k > 0 {
      StartsInOrder(c, w, k - 1);
    }
  }

  /**
   A call under a context derived from its caller's remaining time: whenever a retry starts, the caller
   itself has at least 250 ms left, less what the sleep overran, whatever it had at first. A caller with
   less than that gets no retry.
   */
  lemma RetriesLeaveTheCaller<T>(c: RetryConfig, w: World<T>, now: int, remaining: nat, adapterDefault: nat,
                                 n: nat, k: nat)
    requires Attempts(c, Some(FromRemaining(now, remaining, adapterDefault)), w, n) && now <= w.start && 1 <= k < n
    ensures (now + remaining) - StartOf(c, w, k) >= 250 - w.overrun(k - 1)
    ensures remaining >= 250
  {
    var deadline := Some(FromRemaining(now, remaining, adapterDefault));
    DeadlineMargin(now, remaining, adapterDefault);
    DeadlineFloor(c, deadline, w, n, k);
    StartsInOrder(c, w, k - 1);
    assert GoesOn(c, deadline, w, k - 1);
  }

  lemma BackoffBounds(c: RetryConfig, k: nat)
    ensures Backoff(c, k) <= c.initialBackoff * Pow2(k)
    ensures c.initialBackoff <= c.maxBackoff ==> Backoff(c, k) <= c.maxBackoff
  {
    if k > 0 {
      BackoffClosedForm(c, k);
    }
  }

  lemma JitterBound<T>(c: RetryConfig, w: World<T>, k: nat)
    ensures Jitter(c, w, k) <= c.initialBackoff * Pow2(k)
    ensures c.initialBackoff <= c.maxBackoff ==> Jitter(c, w, k) <= c.maxBackoff
  {
    BackoffBounds(c, k);
    assert Jitter(c, w, k) <= Backoff(c, k);
  }

  lemma Geometric(a: nat, p: nat)
    ensures a * (p - 1) + a * p == a * (2 * p - 1)
  {
  }

  /** The total sleep over `n` attempts, for every configuration and every jitter. */
  lemma {:induction false} SleepBudget<T>(c: RetryConfig, w: World<T>, n: nat)
    requires n >= 1
    ensures TotalSleep(c, w, n - 1) <= c.initialBackoff * (Pow2(n - 1) - 1)
    ensures c.initialBackoff <= c.maxBackoff ==> TotalSleep(c, w, n - 1) <= (n - 1) * c.maxBackoff
  {
    if n > 1 {
      SleepBudget(c, w, n - 1);
      JitterBound(c, w, n - 2);
      Geometric(c.initialBackoff, Pow2(n - 2));
      Step(n, c.maxBackoff);
      assert TotalSleep(c, w, n - 1) == TotalSleep(c, w, n - 2) + Jitter(c, w, n - 2);
    }
  }

  lemma Step(n: nat, b: nat)
    ensures (n - 2) * b + b == (n - 1) * b
  {
  }

  /** Without a deadline, attempts are made while they fail retryably, up to the policy's number. */
  lemma AllAttempts<T>(c: RetryConfig, w: World<T>, n: nat)
    requires Attempts(c, None, w, n)
    ensures n == c.maxAttempts <==> forall k :: 0 <= k < c.maxAttempts - 1 ==> Retryable(w.outcome(k))
  {
    if n < c.maxAttempts {
      assert !GoesOn(c, None, w, n - 1);
    } else {
      forall k | 0 <= k < n - 1 ensures Retryable(w.outcome(k)) {
        assert GoesOn(c, None, w, k);
      }
    }
  }

  /** The policies of the adapters: 2, 3, 5 attempts and 1 attempt, all of them used exactly if all but the last
      fail retryably, and at most 50, 150, 750 and 0 ms asleep. */
  lemma PolicyBudgets<T>(w: World<T>, n: nat)
    ensures Attempts(WRITE_RETRY, None, w, n) ==>
              n <= 2 && TotalSleep(WRITE_RETRY, w, n - 1) <= 50 && (n == 2 <==> Retryable(w.outcome(0)))
    ensures Attempts(DEFAULT_RETRY, None, w, n) ==>
              && n <= 3 && TotalSleep(DEFAULT_RETRY, w, n - 1) <= 150
              && (n == 3 <==> forall k :: 0 <= k < 2 ==> Retryable(w.outcome(k)))
    ensures Attempts(CLEANUP_RETRY, None, w, n) ==>
              && n <= 5 && TotalSleep(CLEANUP_RETRY, w, n - 1) <= 750
              && (n == 5 <==> forall k :: 0 <= k < 4 ==> Retryable(w.outcome(k)))
    ensures Attempts(GRACEFUL_STOP_RETRY, None, w, n) ==> n == 1 && TotalSleep(GRACEFUL_STOP_RETRY, w, n - 1) == 0
  {
    if n >= 1 {
      SleepBudget(WRITE_RETRY, w, n);
      SleepBudget(DEFAULT_RETRY, w, n);
      SleepBudget(CLEANUP_RETRY, w, n);
      assert Pow2(0) == 1 && Pow2(1) == 2 && Pow2(2) == 4 && Pow2(3) == 8 && Pow2(4) == 16;
      assert n <= 5 ==> n == 1 || n == 2 || n == 3 || n == 4 || n == 5;
    }
    if Attempts(WRITE_RETRY, None, w, n) { AllAttempts(WRITE_RETRY, w, n); }
    if Attempts(DEFAULT_RETRY, None, w, n) { AllAttempts(DEFAULT_RETRY, w, n); }
    if Attempts(CLEANUP_RETRY, None, w, n) { AllAttempts(CLEANUP_RETRY, w, n); }
  }
}

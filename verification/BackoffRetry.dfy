/** The budgeted retry of the codec installer: exponential backoff with equal jitter, never past
    the deadline.  The operation, the jitter and the clock are arbitrary. */
module BackoffRetry {

  const INITIAL_BACKOFF := 5.0
  const MAX_BACKOFF := 120.0
  const MAX_TOTAL_RETRY := 1200.0

  datatype Failure = HttpStatus(code: nat) | UrlError | TimedOut | ConnectionFailed | OtherError

  predicate Transient(f: Failure) {
    match f
    case HttpStatus(code) => code in {408, 425, 429, 500, 502, 503, 504}
    case OtherError => false
    case _ => true
  }

  /** In terms of status classes: of the statuses, a timed-out, early or throttled request and the
      server errors 500 and 502 to 504, so no other client error and no success; every network
      failure; nothing else. */
  lemma TransientIff(f: Failure)
    ensures Transient(f) <==>
              || f in {UrlError, TimedOut, ConnectionFailed}
              || (f.HttpStatus? && (f.code == 408 || f.code == 425 || f.code == 429
                                    || (500 <= f.code < 505 && f.code != 501)))
  {
  }

  /** What one call of the operation gives. */
  datatype Outcome<T> = Value(value: T) | Failed(failure: Failure)

  /** The configured budget: unset, not a number, or a number. */
  datatype Setting = Unset | Garbage | Number(seconds: real)

  function Budget(setting: Setting): (b: real)
    ensures b >= 0.0
  {
    match setting
    case Number(x) => if x > 0.0 then x else 0.0
    case _ => MAX_TOTAL_RETRY
  }

  function PowerOfTwo(n: nat): (p: nat)
    ensures p >= 1
  {
    if n == 0 then 1 else 2 * PowerOfTwo(n - 1)
  }

  /** The backoff after failed attempt `k`, counted from 1. */
  function Backoff(k: nat): (b: real)
    requires k >= 1
    ensures INITIAL_BACKOFF <= b <= MAX_BACKOFF
  {
    var doubled := INITIAL_BACKOFF * PowerOfTwo(k - 1) as real;
    if doubled < MAX_BACKOFF then doubled else MAX_BACKOFF
  }

  /** The least that the sleeps after the first `k` attempts add up to, when none is cut short. */
  function LeastSleep(k: nat): (t: real)
    ensures t >= 2.5 * k as real
  {
    if k == 0 then 0.0 else LeastSleep(k - 1) + Backoff(k) / 2.0
  }

  lemma {:induction false} LeastSleepGrows(j: nat, k: nat)
    requires j <= k
    ensures LeastSleep(j) <= LeastSleep(k)
  {
    if j < k {
      LeastSleepGrows(j, k - 1);
    }
  }

  /** Jitter is at most half the backoff; nothing takes negative time. */
  ghost predicate Physical<T>(jitter: nat -> real, took: nat -> real, overslept: nat -> real) {
    && (forall k: nat :: k >= 1 ==> 0.0 <= jitter(k) <= Backoff(k) / 2.0)
    && (forall k: nat :: 0.0 <= took(k) && 0.0 <= overslept(k))
  }

  /** One more sleep, against the least and the greatest it may be. */
  lemma SleepBounds<T>(jitter: nat -> real, took: nat -> real, overslept: nat -> real, k: nat)
    requires Physical<T>(jitter, took, overslept) && k >= 1
    ensures 2.5 <= LeastSleep(k) - LeastSleep(k - 1) <= Backoff(k) / 2.0 + jitter(k)
    ensures Backoff(k) / 2.0 + jitter(k) <= 2.0 * (LeastSleep(k) - LeastSleep(k - 1))
    ensures 0.0 <= took(k) && 0.0 <= overslept(k)
  {
  }

  function Sum(xs: seq<real>): real {
    if xs == [] then 0.0 else Sum(xs[..|xs| - 1]) + xs[|xs| - 1]
  }

  /** `_retry`.  Attempt `k` gives `op(k)` after `took(k)`; the sleep after it lasts `overslept(k)`
      longer than asked.  `delays` are the sleeps asked for, `slept` their sum, and `elapsed` the time
      at the end. */
  method Retry<T>(op: nat -> Outcome<T>, setting: Setting,
                  jitter: nat -> real, took: nat -> real, overslept: nat -> real)
    returns (result: Outcome<T>, attempts: nat, slept: real, elapsed: real, delays: seq<real>)
    requires Physical<T>(jitter, took, overslept)
    ensures attempts >= 1 && result == op(attempts)
    ensures forall k :: 1 <= k < attempts ==> op(k).Failed? && Transient(op(k).failure)
    ensures result.Failed? && Transient(result.failure) ==> elapsed >= Budget(setting)
    ensures |delays| == attempts - 1 && slept == Sum(delays)
    ensures forall k :: 0 <= k < |delays| - 1 ==> delays[k] == Backoff(k + 1) / 2.0 + jitter(k + 1)
    ensures var n := |delays|;
            n > 0 ==> delays[n - 1] == Backoff(n) / 2.0 + jitter(n)
                      || (0.0 < delays[n - 1] < Backoff(n) / 2.0 + jitter(n) && elapsed >= Budget(setting))
    ensures 0.0 <= slept <= Budget(setting) && slept <= elapsed
    ensures attempts >= 2 ==> LeastSleep(attempts - 2) < Budget(setting)
    ensures attempts >= 2 ==> LeastSleep(attempts - 2) <= slept <= 2.0 * LeastSleep(attempts - 1)
    ensures setting.Number? && setting.seconds <= 0.0 ==> attempts == 1 && slept == 0.0
    ensures setting.Number? && setting.seconds > 0.0 ==> slept <= setting.seconds
    ensures setting.Number? && result.Failed? && Transient(result.failure) ==> elapsed >= setting.seconds
    ensures !setting.Number? ==> slept <= 1200.0
    ensures !setting.Number? && result.Failed? && Transient(result.failure) ==> elapsed >= 1200.0
    ensures attempts == 1 || attempts as real < 2.0 + Budget(setting) / 2.5
  {
    hide Backoff, PowerOfTwo, Transient, LeastSleep, Physical;
    result, attempts, slept, elapsed, delays := RetryWithin(op, Budget(setting), jitter, took, overslept);
  }

  /** Its loop, once the budget is known. */
  method RetryWithin<T>(op: nat -> Outcome<T>, budget: real,
                        jitter: nat -> real, took: nat -> real, overslept: nat -> real)
    returns (result: Outcome<T>, attempts: nat, slept: real, elapsed: real, delays: seq<real>)
    requires Physical<T>(jitter, took, overslept) && budget >= 0.0
    ensures attempts >= 1 && result == op(attempts)
    ensures forall k :: 1 <= k < attempts ==> op(k).Failed? && Transient(op(k).failure)
    ensures result.Failed? && Transient(result.failure) ==> elapsed >= budget
    ensures |delays| == attempts - 1 && slept == Sum(delays)
    ensures forall k :: 0 <= k < |delays| - 1 ==> delays[k] == Backoff(k + 1) / 2.0 + jitter(k + 1)
    ensures var n := |delays|;
            n > 0 ==> delays[n - 1] == Backoff(n) / 2.0 + jitter(n)
                      || (0.0 < delays[n - 1] < Backoff(n) / 2.0 + jitter(n) && elapsed >= budget)
    ensures 0.0 <= slept <= budget && slept <= elapsed
    ensures attempts >= 2 ==> LeastSleep(attempts - 2) < budget
    ensures attempts >= 2 ==> LeastSleep(attempts - 2) <= slept <= 2.0 * LeastSleep(attempts - 1)
  {
    hide Backoff, PowerOfTwo, Transient, LeastSleep, Physical;
    assert LeastSleep(0) == 0.0 by { NoSleep(); }
    attempts, slept, elapsed, delays := 0, 0.0, 0.0, [];
    while true
      invariant forall k :: 1 <= k <= attempts ==> op(k).Failed? && Transient(op(k).failure)
      invariant 0.0 <= slept <= budget && slept <= elapsed
      invariant attempts >= 1 ==> LeastSleep(attempts - 1) < budget
      invariant LeastSleep(attempts) <= slept || budget <= elapsed
      invariant attempts >= 1 ==> LeastSleep(attempts - 1) <= slept
      invariant slept <= 2.0 * LeastSleep(attempts)
      invariant |delays| == attempts && slept == Sum(delays)
      invariant forall k :: 0 <= k < attempts - 1 ==> delays[k] == Backoff(k + 1) / 2.0 + jitter(k + 1)
      invariant attempts > 0 ==>
                  delays[attempts - 1] == Backoff(attempts) / 2.0 + jitter(attempts)
                  || (0.0 < delays[attempts - 1] < Backoff(attempts) / 2.0 + jitter(attempts) && elapsed >= budget)
      decreases budget.Floor - attempts + 2
    {
      attempts := attempts + 1;
      SleepBounds<T>(jitter, took, overslept, attempts);
      result, elapsed := op(attempts), elapsed + took(attempts);
      if result.Value? {
        return;
      }
      var remaining := budget - elapsed;
      if !Transient(result.failure) {
        return;
      }
      if remaining <= 0.0 {
        return;
      }
      var wanted := Backoff(attempts) / 2.0 + jitter(attempts);
      var delay := if wanted < remaining then wanted else remaining;
      assert (delays + [delay])[..|delays|] == delays;
      delays := delays + [delay];
      slept, elapsed := slept + delay, elapsed + delay + overslept(attempts);
    }
  }

  lemma NoSleep()
    ensures LeastSleep(0) == 0.0
  {
  }

  /** The default twenty minutes allow at most 25 attempts. */
  lemma DefaultBudgetAttempts(attempts: nat)
    requires attempts >= 2 && LeastSleep(attempts - 2) < MAX_TOTAL_RETRY
    ensures attempts <= 25
  {
    if attempts > 25 {
      LeastSleepGrows(24, attempts - 2);
      CappedFromSix(24);
    }
  }

  /** From the sixth failure on every backoff is the cap. */
  lemma {:induction false} CappedFromSix(k: nat)
    requires k >= 5
    ensures LeastSleep(k) == 77.5 + 60.0 * (k - 5) as real
    ensures PowerOfTwo(k - 1) >= 16
  {
    if k == 5 {
      FirstFive();
    } else {
      CappedFromSix(k - 1);
    }
  }

  lemma FirstFive()
    ensures PowerOfTwo(4) == 16 && LeastSleep(5) == 77.5
  {
    BackoffSchedule(5);
    assert LeastSleep(1) == 2.5 && LeastSleep(2) == 7.5 && LeastSleep(3) == 17.5;
    assert LeastSleep(4) == 37.5;
  }

  /** The backoffs: 5, 10, 20, 40 and 80 seconds, and two minutes from then on. */
  lemma {:induction false} BackoffSchedule(k: nat)
    requires k >= 1
    ensures Backoff(1) == 5.0 && Backoff(2) == 10.0 && Backoff(3) == 20.0 && Backoff(4) == 40.0 && Backoff(5) == 80.0
    ensures k >= 6 ==> Backoff(k) == 120.0
    ensures k >= 6 ==> PowerOfTwo(k - 1) >= 32
  {
    assert PowerOfTwo(1) == 2 && PowerOfTwo(2) == 4 && PowerOfTwo(3) == 8 && PowerOfTwo(4) == 16;
    if k > 6 {
      BackoffSchedule(k - 1);
    }
  }
}

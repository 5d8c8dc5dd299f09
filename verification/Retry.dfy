/**
 retry, backoffDelay and the gateway's outcome that retry drives, in 64-bit arithmetic.
 */
module Retry {
  import opened Wrappers
  import opened Int64

  /** backoffDelay as 64-bit arithmetic leaves it. */
  function Delay(attempt: int, base: int, backoff: int): int {
    if attempt <= 1 || backoff <= 1 then base else Wrap(Pow(backoff, attempt - 1) * base)
  }

  method BackoffDelay(attempt: int, base: int, backoff: int) returns (delay: int)
    ensures delay == Delay(attempt, base, backoff)
  {
    if attempt <= 1 || backoff <= 1 {
      return base;
    }
    var multiplier := 1;
    var i := 1;
    while i < attempt
      invariant 1 <= i <= attempt
      invariant multiplier == Wrap(Pow(backoff, i - 1))
    {
      WrapOfProduct(Pow(backoff, i - 1), backoff);
      assert Pow(backoff, i) == Pow(backoff, i - 1) * backoff;
      multiplier := Wrap(multiplier * backoff);
      i := i + 1;
    }
    WrapOfProduct(Pow(backoff, attempt - 1), base);
    delay := Wrap(multiplier * base);
  }

  /** The delay is base times backoff to the (attempt - 1), exactly while that product fits. */
  lemma DelayIsExactWhileItFits(attempt: int, base: int, backoff: int)
    requires attempt >= 1 && backoff >= 2 && 0 <= base < TWO_63
    ensures Delay(attempt, base, backoff) == Pow(backoff, attempt - 1) * base
            <==> Pow(backoff, attempt - 1) * base < TWO_63
  {
    PowIsPositive(backoff, attempt - 1);
    assert Pow(backoff, attempt - 1) * base >= 0;
  }

  /** As long as the later delay fits, delays do not shrink. */
  lemma DelaysGrow(a: int, b: int, base: int, backoff: int)
    requires 1 <= a <= b && backoff >= 2 && base >= 0 && Pow(backoff, b - 1) * base < TWO_63
    ensures base <= Delay(a, base, backoff) <= Delay(b, base, backoff)
  {
    PowIsPositive(backoff, a - 1);
    PowIsMonotone(backoff, a - 1, b - 1);
    ScalingIsMonotone(1, Pow(backoff, a - 1), base);
    ScalingIsMonotone(Pow(backoff, a - 1), Pow(backoff, b - 1), base);
  }

  /** One step beyond what fits, the delay is negative. */
  lemma DelaysWrapAround()
    ensures Delay(64, 1, 2) == -TWO_63 < Delay(63, 1, 2)
  {
    PowOfTwo63();
    assert Pow(2, 63) == 2 * Pow(2, 62);
  }

  // --- The gateway and the loop that drives it -------------------------------------------

  datatype GatewayError = GatewayError(retryable: bool)

  /** Process: fails transiently at first, then succeeds unless the score is above the rate. */
  function Process(failuresBeforeSuccess: int, score: real, successRate: real, attempt: int): Option<GatewayError> {
    if attempt <= failuresBeforeSuccess then Some(GatewayError(true))
    else if score > successRate then Some(GatewayError(false))
    else None
  }

  /** The attempt, from the given one on, after which there is no other. */
  function LastAttempt(attempts: int, operation: int -> Option<GatewayError>, attempt: int): (last: int)
    requires attempt <= attempts
    ensures attempt <= last <= attempts
    decreases attempts - attempt
  {
    var error := operation(attempt);
    if error.None? || !error.value.retryable || attempt == attempts then attempt
    else LastAttempt(attempts, operation, attempt + 1)
  }

  /** What is slept between calls. */
  function Sleeps(calls: nat, delay: int, backoff: int): seq<int>
    requires calls >= 1
  {
    seq(calls - 1, i => Delay(i + 1, delay, backoff))
  }

  /** The attempts made in order, and the delays slept between them; without attempts there is no error. */
  method Run(attempts: int, delay: int, backoff: int, operation: int -> Option<GatewayError>)
    returns (error: Option<GatewayError>, ghost calls: seq<int>, ghost sleeps: seq<int>)
    ensures attempts < 1 ==> error == None && calls == [] && sleeps == []
    ensures attempts >= 1 ==>
              var last := LastAttempt(attempts, operation, 1);
              && error == operation(last)
              && calls == seq(last, i => i + 1)
              && sleeps == Sleeps(last, delay, backoff)
  {
    calls, sleeps := [], [];
    var attempt := 1;
    while attempt <= attempts
      invariant 1 <= attempt && (attempts < 1 ==> attempt == 1)
      invariant attempts >= 1 ==>
                  attempt <= attempts && LastAttempt(attempts, operation, attempt) == LastAttempt(attempts, operation, 1)
      invariant calls == seq(attempt - 1, i => i + 1)
      invariant sleeps == Sleeps(attempt, delay, backoff)
    {
      var result := operation(attempt);
      calls := calls + [attempt];
      if result.None? {
        return None, calls, sleeps;
      }
      if !result.value.retryable || attempt == attempts {
        return result, calls, sleeps;
      }
      var pause := BackoffDelay(attempt, delay, backoff);
      sleeps := sleeps + [pause];
      attempt := attempt + 1;
    }
    return None, calls, sleeps;
  }

  lemma {:induction false} LastAttemptAtTheGateway(attempts: int, failures: int, score: real, rate: real, attempt: int)
    requires 1 <= attempt <= attempts && attempt <= Min(if failures < 0 then 1 else failures + 1, attempts)
    ensures LastAttempt(attempts, a => Process(failures, score, rate, a), attempt)
            == Min(if failures < 0 then 1 else failures + 1, attempts)
    decreases attempts - attempt
  {
    if attempt <= failures && attempt < attempts {
      LastAttemptAtTheGateway(attempts, failures, score, rate, attempt + 1);
    }
  }

  /**
   With N attempts and F simulated failures the gateway is called min(F + 1, N) times, and the
   processing succeeds exactly when F < N and the score does not exceed the rate.
   */
  lemma RetryAtTheGateway(attempts: int, failures: nat, score: real, rate: real)
    requires attempts >= 1
    ensures var operation := (a: int) => Process(failures, score, rate, a);
            var last := LastAttempt(attempts, operation, 1);
            && last == Min(failures + 1, attempts)
            && (operation(last).None? <==> failures < attempts && score <= rate)
            && (failures >= attempts ==> operation(last) == Some(GatewayError(true)))
  {
    LastAttemptAtTheGateway(attempts, failures, score, rate, 1);
  }

  function Sum(s: seq<int>): int {
    if s == [] then 0 else Sum(s[..|s| - 1]) + s[|s| - 1]
  }

  lemma GeometricStep(b: int, p: int, delay: int, front: int)
    requires (b - 1) * front == delay * (p - 1)
    ensures (b - 1) * (front + p * delay) == delay * (b * p - 1)
  {
  }

  lemma OneMoreSleep(calls: nat, delay: int, backoff: int)
    requires calls >= 2
    ensures Sum(Sleeps(calls, delay, backoff))
            == Sum(Sleeps(calls - 1, delay, backoff)) + Delay(calls - 1, delay, backoff)
  {
    assert Sleeps(calls, delay, backoff)[..calls - 2] == Sleeps(calls - 1, delay, backoff);
  }

  /** The sleeps between k calls add up to the geometric sum, as long as the last one fits. */
  lemma {:induction false} SleepsAddUp(calls: nat, delay: int, backoff: int)
    requires calls >= 1 && backoff >= 2 && delay >= 0
    requires calls >= 2 ==> Pow(backoff, calls - 2) * delay < TWO_63
    ensures (backoff - 1) * Sum(Sleeps(calls, delay, backoff)) == delay * (Pow(backoff, calls - 1) - 1)
  {
    if calls >= 2 {
      OneMoreSleep(calls, delay, backoff);
      PowIsPositive(backoff, calls - 2);
      if calls >= 3 {
        PowIsMonotone(backoff, calls - 3, calls - 2);
        ScalingIsMonotone(Pow(backoff, calls - 3), Pow(backoff, calls - 2), delay);
      }
      SleepsAddUp(calls - 1, delay, backoff);
      ScalingIsMonotone(0, Pow(backoff, calls - 2), delay);
      GeometricStep(backoff, Pow(backoff, calls - 2), delay, Sum(Sleeps(calls - 1, delay, backoff)));
    }
  }

  lemma {:induction false} FlatSleepsAddUp(calls: nat, delay: int, backoff: int)
    requires calls >= 1 && backoff < 2
    ensures Sum(Sleeps(calls, delay, backoff)) == (calls - 1) * delay
  {
    if calls >= 2 {
      OneMoreSleep(calls, delay, backoff);
      FlatSleepsAddUp(calls - 1, delay, backoff);
    }
  }
}

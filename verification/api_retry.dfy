/**
 * `withRetry`: invoke an API call up to `maxRetries` times, waiting `delay * (i + 1)`
 * after failed attempt `i`, and giving up at once on a client error (4xx).
 *
 * The call is abstract: `call(i)` is what the i-th invocation (0-based) settles to.
 * The waits are not performed; they are recorded, in order, in a list of delays.
 */
module ApiRetry {
  import opened ApiErrors

  /** How `withRetry` ends: with a value, by throwing, or falling out of the loop (`undefined`). */
  datatype RetryResult<+T> = Returned(value: T) | Threw(error: ApiError) | ReturnedUndefined

  /** The whole run: how it ended, how many times the call was invoked and the waits in between. */
  datatype Run<+T> = Run(result: RetryResult<T>, calls: nat, delays: seq<int>)

  /** An error that is not retried: the server answered with a status in [400, 500). */
  predicate IsClientError(e: ApiError) {
    e.ResponseError? && 400 <= e.status < 500
  }

  /** The run of `withRetry` from attempt `i` on. */
  function RetryFrom<T>(call: nat -> Outcome<T>, maxRetries: int, delay: int, i: nat): Run<T>
    decreases maxRetries - i
  {
    if i >= maxRetries then Run(ReturnedUndefined, 0, [])
    else match call(i)
      case Succeeded(v) => Run(Returned(v), 1, [])
      case Failed(e) =>
        if i == maxRetries - 1 || IsClientError(e) then Run(Threw(e), 1, [])
        else
          var rest := RetryFrom(call, maxRetries, delay, i + 1);
          Run(rest.result, rest.calls + 1, [delay * (i + 1)] + rest.delays)
  }

  /** The run of `withRetry(call, maxRetries, delay)`. */
  function RetrySpec<T>(call: nat -> Outcome<T>, maxRetries: int, delay: int): Run<T> {
    RetryFrom(call, maxRetries, delay, 0)
  }

  /** The counted `for` loop of `withRetry`, with its early returns and throws. */
  method WithRetry<T>(call: nat -> Outcome<T>, maxRetries: int, delay: int)
    returns (result: RetryResult<T>, calls: nat, delays: seq<int>)
    ensures Run(result, calls, delays) == RetrySpec(call, maxRetries, delay)
  {
    calls, delays := 0, [];
    var i: nat := 0;
    while i < maxRetries
      invariant calls == i
      invariant i > 0 ==> i < maxRetries
      invariant RetrySpec(call, maxRetries, delay).result == RetryFrom(call, maxRetries, delay, i).result
      invariant RetrySpec(call, maxRetries, delay).calls == i + RetryFrom(call, maxRetries, delay, i).calls
      invariant RetrySpec(call, maxRetries, delay).delays == delays + RetryFrom(call, maxRetries, delay, i).delays
      decreases maxRetries - i
    {
      var outcome := call(i);
      calls := calls + 1;
      if outcome.Succeeded? {
        FinalStep(call, maxRetries, delay, i);
        return Returned(outcome.value), calls, delays;
      }
      if i == maxRetries - 1 || IsClientError(outcome.error) {
        FinalStep(call, maxRetries, delay, i);
        return Threw(outcome.error), calls, delays;
      }
      TransientStep(call, maxRetries, delay, i);
      var later := RetryFrom(call, maxRetries, delay, i + 1).delays;
      assert delays + ([delay * (i + 1)] + later) == (delays + [delay * (i + 1)]) + later;
      delays := delays + [delay * (i + 1)];
      i := i + 1;
    }
    assert delays + [] == delays;
    result := ReturnedUndefined;
  }

  /** A success, a failure on the last attempt or a client error ends the run with that attempt. */
  lemma FinalStep<T>(call: nat -> Outcome<T>, maxRetries: int, delay: int, i: nat)
    requires i < maxRetries
    requires call(i).Succeeded? || i == maxRetries - 1 || IsClientError(call(i).error)
    ensures RetryFrom(call, maxRetries, delay, i) ==
      Run(if call(i).Succeeded? then Returned(call(i).value) else Threw(call(i).error), 1, [])
  {
  }

  /** A transient failure before the last attempt waits, then continues with the next attempt. */
  lemma TransientStep<T>(call: nat -> Outcome<T>, maxRetries: int, delay: int, i: nat)
    requires i < maxRetries - 1 && call(i).Failed? && !IsClientError(call(i).error)
    ensures var later := RetryFrom(call, maxRetries, delay, i + 1);
      RetryFrom(call, maxRetries, delay, i) == Run(later.result, later.calls + 1, [delay * (i + 1)] + later.delays)
  {
  }

  /** The call is invoked at most `maxRetries` times, and at least once when `maxRetries` is positive. */
  lemma {:induction false} AtMostMaxRetriesCalls<T>(call: nat -> Outcome<T>, maxRetries: int, delay: int, i: nat)
    requires i < maxRetries
    ensures 1 <= RetryFrom(call, maxRetries, delay, i).calls <= maxRetries - i
    decreases maxRetries - i
  {
    if call(i).Failed? && i != maxRetries - 1 && !IsClientError(call(i).error) {
      AtMostMaxRetriesCalls(call, maxRetries, delay, i + 1);
    }
  }

  /** With `maxRetries <= 0` the call is never made and the result is `undefined`. */
  lemma NoAttemptsWithoutRetries<T>(call: nat -> Outcome<T>, maxRetries: int, delay: int)
    requires maxRetries <= 0
    ensures RetrySpec(call, maxRetries, delay) == Run(ReturnedUndefined, 0, [])
  {
  }

  /** A client error stops the run after that attempt: no further calls, no further waits. */
  lemma ClientErrorNotRetried<T>(call: nat -> Outcome<T>, maxRetries: int, delay: int, i: nat)
    requires i < maxRetries && call(i).Failed? && IsClientError(call(i).error)
    ensures RetryFrom(call, maxRetries, delay, i) == Run(Threw(call(i).error), 1, [])
  {
  }

  /** A 429 ("too many requests") is a client error, so it is not retried either. */
  lemma RateLimitNotRetried<T>(call: nat -> Outcome<T>, maxRetries: int, delay: int, i: nat, data: ErrorBody)
    requires i < maxRetries && call(i) == Failed(ResponseError(429, data))
    ensures RetryFrom(call, maxRetries, delay, i) == Run(Threw(ResponseError(429, data)), 1, [])
  {
    assert IsClientError(call(i).error);
    ClientErrorNotRetried(call, maxRetries, delay, i);
  }

  /** The waits before attempts 1, 2, ..., k: `delay`, `2 * delay`, ..., `k * delay`. */
  function LinearDelays(delay: int, from: nat, count: nat): (ds: seq<int>)
    ensures |ds| == count
    ensures forall j :: 0 <= j < count ==> ds[j] == delay * (from + j + 1)
    decreases count
  {
    if count == 0 then [] else [delay * (from + 1)] + LinearDelays(delay, from + 1, count - 1)
  }

  /** The waits are linear: one fewer than the calls, the j-th being `delay * (j + 1)`. */
  lemma {:induction false} DelaysAreLinear<T>(call: nat -> Outcome<T>, maxRetries: int, delay: int, i: nat)
    requires i < maxRetries
    ensures var run := RetryFrom(call, maxRetries, delay, i);
      run.calls >= 1 && run.delays == LinearDelays(delay, i, run.calls - 1)
    decreases maxRetries - i
  {
    if call(i).Failed? && i != maxRetries - 1 && !IsClientError(call(i).error) {
      DelaysAreLinear(call, maxRetries, delay, i + 1);
    }
  }

  /**
   * When attempts i..k-1 fail transiently and attempt k succeeds (k < maxRetries),
   * the run returns attempt k's value after exactly k - i + 1 calls.
   */
  lemma {:induction false} FirstSuccessReturned<T>(call: nat -> Outcome<T>, maxRetries: int, delay: int, i: nat, k: nat)
    requires i <= k < maxRetries
    requires forall j :: i <= j < k ==> call(j).Failed? && !IsClientError(call(j).error)
    requires call(k).Succeeded?
    ensures RetryFrom(call, maxRetries, delay, i) ==
      Run(Returned(call(k).value), k - i + 1, LinearDelays(delay, i, k - i))
    decreases k - i
  {
    if i < k {
      FirstSuccessReturned(call, maxRetries, delay, i + 1, k);
    }
  }

  /** When every attempt fails transiently, the last error is thrown after exactly `maxRetries` calls. */
  lemma {:induction false} AllFailuresThrowLast<T>(call: nat -> Outcome<T>, maxRetries: int, delay: int, i: nat)
    requires i < maxRetries
    requires forall j :: i <= j < maxRetries ==> call(j).Failed? && !IsClientError(call(j).error)
    ensures RetryFrom(call, maxRetries, delay, i) ==
      Run(Threw(call(maxRetries - 1).error), maxRetries - i, LinearDelays(delay, i, maxRetries - 1 - i))
    decreases maxRetries - i
  {
    if i < maxRetries - 1 {
      AllFailuresThrowLast(call, maxRetries, delay, i + 1);
    }
  }
}

/**
 * `retry_with_backoff`: call an operation until it succeeds, fails in a way
 * that must not be retried, or runs out of retries, pausing with
 * exponential backoff and optional jitter between attempts.
 *
 * The decorated operation is given as the outcome of its k-th call
 * (`op(k)`), the random source as the value `random.random()` returns for
 * the k-th pause (`rand(k)`), and sleeping as the list of pauses taken.
 */
module Retry {
  import opened Wrappers
  import opened Exceptions
  import opened Py

  /** What the operation returned; `status` is `None` when the value has no `status_code`. */
  datatype Response = Response(status: Option<int>, body: Value)

  /** A raised exception: its class and, for an `HTTPError`, the response it carries. */
  datatype Failure = Failure(cls: ErrClass, response: Option<Response>)

  /** The outcome of one call of the operation. */
  datatype Outcome = Returned(response: Response) | Raised(error: Failure)

  /** The decorator's parameters. */
  datatype Policy = Policy(
    retries: int,
    initialDelay: real,
    backoffFactor: real,
    jitter: bool,
    retryOn: seq<ErrClass>,
    retryOnStatus: seq<int>)

  const RequestBases: seq<string> := ["requests.exceptions.RequestException", "OSError", "Exception", "BaseException"]
  const ConnectionError: ErrClass := Library("requests.exceptions.ConnectionError", RequestBases)
  const Timeout: ErrClass := Library("requests.exceptions.Timeout", RequestBases)
  const HTTPError: ErrClass := Library("requests.exceptions.HTTPError", RequestBases)
  const ValueError: ErrClass := Library("ValueError", ["Exception", "BaseException"])

  /** The decorator's defaults. */
  const Defaults: Policy := Policy(
    3, 1.0, 2.0, true,
    [ConnectionError, Timeout, App(ApiLimitError), App(DataAcquisitionError)],
    [429, 500, 502, 503, 504])

  /** How the wrapper ends: returning a response, raising, or the final `return None`. */
  datatype Final = Return(response: Response) | Raise(error: Failure) | ReturnNone

  /** One call's verdict: the run ends with `result`, or a retry is due because of `cause`. */
  datatype Verdict = Accept(result: Final) | Again(cause: Failure)

  /**
   * A returned status in `retry_on_status_codes` asks for a retry with an
   * `HTTPError` carrying the response; any other return value is returned.
   * An exception in `retry_on_exceptions` asks for a retry unless its exact
   * type is `ApiAuthError`; every other exception is re-raised.
   */
  function Classify(p: Policy, o: Outcome): Verdict
  {
    match o
    case Returned(r) =>
      if r.status.Some? && r.status.value in p.retryOnStatus then Again(Failure(HTTPError, Some(r)))
      else Accept(Return(r))
    case Raised(e) =>
      if CaughtBy(e.cls, p.retryOn) && e.cls != App(ApiAuthError) then Again(e)
      else Accept(Raise(e))
  }

  function Pow(f: real, k: nat): real
  {
    if k == 0 then 1.0 else Pow(f, k - 1) * f
  }

  /** The delay before jitter for the k-th pause: `initial_delay * backoff_factor ** k`. */
  function Delay(p: Policy, k: nat): real
  {
    p.initialDelay * Pow(p.backoffFactor, k)
  }

  /** `random.uniform(a, b)` for the draw `r` of `random.random()`. */
  function Uniform(a: real, b: real, r: real): real
  {
    a + (b - a) * r
  }

  /** The k-th pause: the delay, plus `uniform(0, delay * 0.1)` with jitter on. */
  function Pause(p: Policy, rand: nat -> real, k: nat): real
  {
    if p.jitter then Delay(p, k) + Uniform(0.0, Delay(p, k) * 0.1, rand(k)) else Delay(p, k)
  }

  /** `time.sleep` rejects a negative length with `ValueError`. */
  const SleepError: Failure := Failure(ValueError, None)

  /** Attempt k ends the run: its call is accepted, it is the last allowed, or the pause after it is negative. */
  predicate Stops(p: Policy, op: nat -> Outcome, rand: nat -> real, k: nat)
  {
    Classify(p, op(k)).Accept? || k >= p.retries || Pause(p, rand, k) < 0.0
  }

  /** The first attempt from `k` on that ends the run. */
  function FirstStop(p: Policy, op: nat -> Outcome, rand: nat -> real, k: nat): (j: nat)
    requires 0 <= k <= p.retries
    ensures k <= j <= p.retries && Stops(p, op, rand, j)
    ensures forall i :: k <= i < j ==> !Stops(p, op, rand, i)
    decreases p.retries - k
  {
    if Stops(p, op, rand, k) then k else FirstStop(p, op, rand, k + 1)
  }

  /** A whole run: how it ends, how many calls it made, and the pauses it slept. */
  datatype Run = Run(result: Final, calls: nat, sleeps: seq<real>)

  /**
   * The run the decorator promises. Attempts continue up to the first one
   * that ends the run; every earlier attempt is followed by its pause. The
   * run then returns or raises what that attempt's call was accepted with,
   * raises the retry cause when no retries remain, and otherwise fails to
   * sleep. With `retries < 0` the operation is never called.
   */
  function Expected(p: Policy, op: nat -> Outcome, rand: nat -> real): Run
  {
    if p.retries < 0 then Run(ReturnNone, 0, [])
    else
      var j := FirstStop(p, op, rand, 0);
      var sleeps := seq(j, (i: int) requires 0 <= i => Pause(p, rand, i));
      match Classify(p, op(j))
      case Accept(f) => Run(f, j + 1, sleeps)
      case Again(cause) => Run(if j == p.retries then Raise(cause) else Raise(SleepError), j + 1, sleeps)
  }

  /** The decorated wrapper's loop. */
  method RetryWithBackoff(p: Policy, op: nat -> Outcome, rand: nat -> real)
    returns (result: Final, calls: nat, sleeps: seq<real>)
    ensures Run(result, calls, sleeps) == Expected(p, op, rand)
  {
    var currentRetries: nat := 0;
    var delay := p.initialDelay;
    var last: Option<Failure> := None;
    calls, sleeps := 0, [];
    while currentRetries <= p.retries
      invariant calls == currentRetries == |sleeps|
      invariant if p.retries >= 0 then currentRetries <= p.retries else currentRetries == 0
      invariant delay == Delay(p, currentRetries)
      invariant sleeps == seq(currentRetries, (i: int) requires 0 <= i => Pause(p, rand, i))
      invariant forall i :: 0 <= i < currentRetries ==> !Stops(p, op, rand, i)
      decreases p.retries - currentRetries
    {
      var verdict := Classify(p, op(calls));
      calls := calls + 1;
      if verdict.Accept? {
        assert FirstStop(p, op, rand, 0) == currentRetries by { assert Stops(p, op, rand, currentRetries); }
        result := verdict.result;
        assert Run(result, calls, sleeps) == Expected(p, op, rand);
        return;
      }
      last := Some(verdict.cause);
      if currentRetries < p.retries {
        var actualDelay := delay;
        if p.jitter {
          actualDelay := actualDelay + Uniform(0.0, delay * 0.1, rand(currentRetries));
        }
        assert actualDelay == Pause(p, rand, currentRetries);
        if actualDelay < 0.0 {
          assert FirstStop(p, op, rand, 0) == currentRetries by { assert Stops(p, op, rand, currentRetries); }
          result := Raise(SleepError);
          assert Run(result, calls, sleeps) == Expected(p, op, rand);
          return;
        }
        sleeps := sleeps + [actualDelay];
        DelayGrows(p, currentRetries);
        currentRetries := currentRetries + 1;
        delay := delay * p.backoffFactor;
      } else {
        assert FirstStop(p, op, rand, 0) == currentRetries by { assert Stops(p, op, rand, currentRetries); }
        result := Raise(last.value);
        assert Run(result, calls, sleeps) == Expected(p, op, rand);
        return;
      }
    }
    assert p.retries < 0 && sleeps == [];
    result := ReturnNone;
  }

  // ---------------------------------------------------------------------------
  // Properties of a run

  /** With a non-negative delay, factor and draws in [0, 1], no pause is negative. */
  ghost predicate SleepsNonNegative(p: Policy, rand: nat -> real)
  {
    p.initialDelay >= 0.0 && p.backoffFactor >= 0.0 && (forall k :: 0.0 <= rand(k) <= 1.0)
  }

  lemma {:induction false} PowNonNegative(f: real, k: nat)
    requires f >= 0.0
    ensures Pow(f, k) >= 0.0
  {
    if k > 0 { PowNonNegative(f, k - 1); }
  }

  lemma PauseNonNegative(p: Policy, rand: nat -> real, k: nat)
    requires SleepsNonNegative(p, rand)
    ensures 0.0 <= Delay(p, k) <= Pause(p, rand, k) <= Delay(p, k) + Delay(p, k) * 0.1
  {
    PowNonNegative(p.backoffFactor, k);
    var d := Delay(p, k);
    assert d >= 0.0;
    if p.jitter {
      var r := rand(k);
      assert 0.0 <= d * 0.1 * r <= d * 0.1;
    }
  }

  /** An operation that always asks for a retry is called `retries + 1` times; the run raises the last call's cause. */
  lemma AlwaysRetryable(p: Policy, op: nat -> Outcome, rand: nat -> real)
    requires p.retries >= 0 && SleepsNonNegative(p, rand)
    requires forall k :: Classify(p, op(k)).Again?
    ensures var run := Expected(p, op, rand);
      run.calls == p.retries + 1 && |run.sleeps| == p.retries
      && run.result == Raise(Classify(p, op(p.retries)).cause)
  {
    var j := FirstStop(p, op, rand, 0);
    PauseNonNegative(p, rand, j);
  }

  /** An exception of exact type `ApiAuthError` is re-raised at once, whatever the policy lists. */
  lemma AuthErrorNotRetried(p: Policy, op: nat -> Outcome, rand: nat -> real, r: Option<Response>)
    requires p.retries >= 0 && op(0) == Raised(Failure(App(ApiAuthError), r))
    ensures Expected(p, op, rand) == Run(Raise(Failure(App(ApiAuthError), r)), 1, [])
  {
  }

  /** `ApiAuthError` is caught by the default tuple, through `DataAcquisitionError`, yet not retried. */
  lemma AuthErrorCaughtButNotRetried()
    ensures CaughtBy(App(ApiAuthError), Defaults.retryOn)
    ensures Classify(Defaults, Raised(Failure(App(ApiAuthError), None))).Accept?
  {
    assert IsSubclass(App(ApiAuthError), Defaults.retryOn[3]);
  }

  /** An exception outside `retry_on_exceptions` propagates after one call and no pause. */
  lemma UncaughtPropagates(p: Policy, op: nat -> Outcome, rand: nat -> real)
    requires p.retries >= 0 && op(0).Raised? && !CaughtBy(op(0).error.cls, p.retryOn)
    ensures Expected(p, op, rand) == Run(Raise(op(0).error), 1, [])
  {
  }

  /** A response whose status asks for no retry, or that has no status, is returned unchanged at once. */
  lemma AcceptedResponseReturned(p: Policy, op: nat -> Outcome, rand: nat -> real)
    requires p.retries >= 0 && op(0).Returned?
    requires op(0).response.status.None? || op(0).response.status.value !in p.retryOnStatus
    ensures Expected(p, op, rand) == Run(Return(op(0).response), 1, [])
  {
  }

  /** A status that always asks for a retry ends in an `HTTPError` carrying the last response. */
  lemma StatusExhausted(p: Policy, op: nat -> Outcome, rand: nat -> real)
    requires p.retries >= 0 && SleepsNonNegative(p, rand)
    requires forall k ::
      op(k).Returned? && op(k).response.status.Some? && op(k).response.status.value in p.retryOnStatus
    ensures var run := Expected(p, op, rand);
      run.calls == p.retries + 1
      && run.result == Raise(Failure(HTTPError, Some(op(p.retries).response)))
  {
    assert forall k :: Classify(p, op(k)).Again?;
    AlwaysRetryable(p, op, rand);
  }

  /** Success after `n <= retries` retried calls takes exactly `n + 1` calls and `n` pauses. */
  lemma SucceedsAfter(p: Policy, op: nat -> Outcome, rand: nat -> real, n: nat)
    requires n <= p.retries && SleepsNonNegative(p, rand)
    requires forall k :: 0 <= k < n ==> Classify(p, op(k)).Again?
    requires Classify(p, op(n)).Accept?
    ensures var run := Expected(p, op, rand);
      run.calls == n + 1 && |run.sleeps| == n && run.result == Classify(p, op(n)).result
  {
    var j := FirstStop(p, op, rand, 0);
    PauseNonNegative(p, rand, j);
    assert Stops(p, op, rand, n);
  }

  /** Without jitter the k-th pause is `initial_delay * backoff_factor ** k`. */
  lemma PausesWithoutJitter(p: Policy, op: nat -> Outcome, rand: nat -> real)
    requires !p.jitter
    ensures var s := Expected(p, op, rand).sleeps;
      forall k :: 0 <= k < |s| ==> s[k] == p.initialDelay * Pow(p.backoffFactor, k)
  {
  }

  /** With jitter the k-th pause lies between its delay and 110% of it. */
  lemma PausesWithJitter(p: Policy, op: nat -> Outcome, rand: nat -> real)
    requires SleepsNonNegative(p, rand)
    ensures var s := Expected(p, op, rand).sleeps;
      forall k :: 0 <= k < |s| ==> Delay(p, k) <= s[k] <= Delay(p, k) + Delay(p, k) * 0.1
  {
    var s := Expected(p, op, rand).sleeps;
    forall k | 0 <= k < |s| ensures Delay(p, k) <= s[k] <= Delay(p, k) + Delay(p, k) * 0.1
    {
      PauseNonNegative(p, rand, k);
    }
  }

  /** The pauses grow by `backoff_factor` from one to the next. */
  lemma DelayGrows(p: Policy, k: nat)
    ensures Delay(p, k + 1) == Delay(p, k) * p.backoffFactor
  {
    assert p.initialDelay * (Pow(p.backoffFactor, k) * p.backoffFactor)
        == (p.initialDelay * Pow(p.backoffFactor, k)) * p.backoffFactor;
  }
}

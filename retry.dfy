/**
 * `call_with_retries` of both scripts: call a function up to `max_retries` times, sleeping
 * after each failure that the policy retries, with a delay that starts at 2.0 seconds,
 * grows by 1.8 and is capped.
 */
module Retry {
  import opened Wrappers

  datatype ErrorKind = RateLimit | OtherError
  datatype BackendError = BackendError(kind: ErrorKind, detail: string)

  /** What one call of the wrapped function does. */
  datatype Outcome<R> = Returned(value: R) | Raised(error: BackendError)

  /** Why the wrapper raised: an error it does not retry, or `max_retries` retried errors in a row. */
  datatype CallFailure = Propagated(error: BackendError) | Exhausted(last: Option<BackendError>)

  /** Which errors are retried and where the delay is capped. */
  datatype Policy = Policy(retryEverything: bool, cap: real)

  /** pdfmaker.py retries `RateLimitError` only and caps the delay at 30 seconds. */
  const OpenAiPolicy: Policy := Policy(false, 30.0)
  /** pdfmaker_ibm.py retries every exception and caps the delay at 25 seconds. */
  const WatsonxPolicy: Policy := Policy(true, 25.0)

  const InitialDelay: real := 2.0
  const Multiplier: real := 1.8
  /** The default `max_retries`, which every call site uses. */
  const MaxRetries: nat := 8

  predicate Retryable(p: Policy, e: BackendError) {
    p.retryEverything || e.kind == RateLimit
  }

  function Min(a: real, b: real): real { if a <= b then a else b }

  function MaxZero(n: int): nat { if n > 0 then n else 0 }

  /** The delay slept after the k-th retried failure (counting from 0), as the loop updates it. */
  function Delay(cap: real, k: nat): real {
    if k == 0 then InitialDelay else Min(Delay(cap, k - 1) * Multiplier, cap)
  }

  function Pow(b: real, k: nat): real {
    if k == 0 then 1.0 else b * Pow(b, k - 1)
  }

  /** The k-th sleep is `min(2.0 * 1.8^k, cap)`, so it never exceeds the cap. */
  lemma {:induction false} DelayClosedForm(cap: real, k: nat)
    requires cap >= InitialDelay
    ensures Delay(cap, k) == Min(InitialDelay * Pow(Multiplier, k), cap)
    ensures Delay(cap, k) <= cap
  {
    if k > 0 {
      DelayClosedForm(cap, k - 1);
      var g := InitialDelay * Pow(Multiplier, k - 1);
      assert InitialDelay * Pow(Multiplier, k) == g * Multiplier;
      if g > cap {
        assert g * Multiplier > cap * Multiplier;
      }
    }
  }

  /** With base 2.0, factor 1.8 and cap 30.0, six consecutive rate limits sleep 2.0, 3.6, 6.48, 11.664, 20.9952 and 30.0 seconds. */
  lemma OpenAiBackoffSchedule()
    ensures [Delay(30.0, 0), Delay(30.0, 1), Delay(30.0, 2), Delay(30.0, 3), Delay(30.0, 4), Delay(30.0, 5)]
         == [2.0, 3.6, 6.48, 11.664, 20.9952, 30.0]
  {
  }

  /** The first `n` calls all raised an error the policy retries. */
  predicate AllRetried<R>(p: Policy, attempt: nat -> Outcome<R>, n: nat) {
    forall j :: 0 <= j < n ==> attempt(j).Raised? && Retryable(p, attempt(j).error)
  }

  /** The first `n` sleeps of a run that keeps being retried. */
  function Delays(cap: real, n: nat): (r: seq<real>)
    ensures |r| == n && forall j :: 0 <= j < n ==> r[j] == Delay(cap, j)
  {
    if n == 0 then [] else Delays(cap, n - 1) + [Delay(cap, n - 1)]
  }

  /** The result of the wrapper once the attempts before `k` were retried failures, the last of them `last`. */
  function RetriedFrom<R>(p: Policy, attempt: nat -> Outcome<R>, k: nat, n: int, last: Option<BackendError>): Result<R, CallFailure>
    decreases n - k
  {
    if k >= n then Err(Exhausted(last))
    else
      match attempt(k)
      case Returned(v) => Ok(v)
      case Raised(e) => if Retryable(p, e) then RetriedFrom(p, attempt, k + 1, n, Some(e)) else Err(Propagated(e))
  }

  /** The result of `call_with_retries(fn, max_retries)` when the i-th call of `fn` does `attempt(i)`. */
  function Retried<R>(p: Policy, attempt: nat -> Outcome<R>, maxRetries: int): Result<R, CallFailure> {
    RetriedFrom(p, attempt, 0, maxRetries, None)
  }

  /**
   * The loop itself. `calls` counts the calls of `fn` and `sleeps` records every `time.sleep`
   * in order: the first result that is not a retried failure is what the wrapper returns or
   * raises, and only after `max_retries` retried failures does it give up.
   */
  method CallWithRetries<R>(p: Policy, attempt: nat -> Outcome<R>, maxRetries: int)
    returns (r: Result<R, CallFailure>, calls: nat, sleeps: seq<real>)
    ensures r == Retried(p, attempt, maxRetries)
    ensures calls <= MaxZero(maxRetries)
    ensures forall j :: 0 <= j < |sleeps| ==> sleeps[j] == Delay(p.cap, j)
    ensures forall j :: 0 <= j < |sleeps| ==> attempt(j).Raised? && Retryable(p, attempt(j).error)
    ensures r.Ok? ==> calls == |sleeps| + 1 && attempt(|sleeps|) == Returned(r.value)
    ensures r.Err? && r.error.Propagated? ==>
              calls == |sleeps| + 1 && attempt(|sleeps|) == Raised(r.error.error) && !Retryable(p, r.error.error)
    ensures r.Err? && r.error.Exhausted? ==>
              calls == |sleeps| == MaxZero(maxRetries)
              && r.error.last == (if calls == 0 then None else Some(attempt(calls - 1).error))
  {
    var delay := InitialDelay;
    var last: Option<BackendError> := None;
    calls, sleeps := 0, [];
    while calls < maxRetries
      invariant calls <= MaxZero(maxRetries) && |sleeps| == calls
      invariant sleeps == Delays(p.cap, calls)
      invariant AllRetried(p, attempt, calls)
      invariant delay == Delay(p.cap, calls)
      invariant last == (if calls == 0 then None else Some(attempt(calls - 1).error))
      invariant Retried(p, attempt, maxRetries) == RetriedFrom(p, attempt, calls, maxRetries, last)
    {
      var o := attempt(calls);
      match o
      case Returned(v) =>
        assert RetriedFrom(p, attempt, calls, maxRetries, last) == Ok(v);
        r, calls := Ok(v), calls + 1;
        return;
      case Raised(e) =>
        if !Retryable(p, e) {
          assert RetriedFrom(p, attempt, calls, maxRetries, last) == Err(Propagated(e));
          r, calls := Err(Propagated(e)), calls + 1;
          return;
        }
        assert RetriedFrom(p, attempt, calls, maxRetries, last) == RetriedFrom(p, attempt, calls + 1, maxRetries, Some(e));
        last := Some(e);
        sleeps := sleeps + [delay];
        delay := Min(delay * Multiplier, p.cap);
        calls := calls + 1;
    }
    r := Err(Exhausted(last));
  }
}

/**
 * The retry policy of src/hooks/useRetry.ts: an effective configuration merged from defaults,
 * and `retryOperation`, a bounded loop with exponential backoff around an operation.
 *
 * The operation is given as the outcome of each of its invocations (`op(k)` is what the
 * (k+1)-th call returns or throws), and each `setTimeout` sleep is recorded in `sleeps`.
 */
module Retry {
  import opened Wrappers
  import opened Errors

  /** The optional configuration a caller of `useRetry` may pass; absent fields take the defaults. */
  datatype RetryConfig = RetryConfig(maxRetries: Option<nat>, baseDelay: Option<nat>, maxDelay: Option<nat>)

  /** A fully resolved configuration. */
  datatype Policy = Policy(maxRetries: nat, baseDelay: nat, maxDelay: nat)

  const DefaultPolicy := Policy(3, 1000, 10000)

  /** `{ ...defaultConfig, ...config }`: each supplied field overrides its default, field by field. */
  function Resolve(config: RetryConfig): (p: Policy)
    ensures p.maxRetries == (if config.maxRetries.Some? then config.maxRetries.value else 3)
    ensures p.baseDelay == (if config.baseDelay.Some? then config.baseDelay.value else 1000)
    ensures p.maxDelay == (if config.maxDelay.Some? then config.maxDelay.value else 10000)
  {
    Policy(
      config.maxRetries.GetOr(DefaultPolicy.maxRetries),
      config.baseDelay.GetOr(DefaultPolicy.baseDelay),
      config.maxDelay.GetOr(DefaultPolicy.maxDelay))
  }

  /** What one invocation of the operation does: resolve with a value or throw. */
  datatype Attempt<T> = Returned(value: T) | Threw(error: Thrown)

  /** The observable run of `retryOperation`: its outcome, how often the operation was invoked, the sleeps. */
  datatype Trace<T> = Trace(outcome: Attempt<T>, calls: nat, sleeps: seq<nat>)

  function Pow2(k: nat): (r: nat)
    ensures r >= 1
  {
    if k == 0 then 1 else 2 * Pow2(k - 1)
  }

  lemma {:induction false} Pow2Monotone(i: nat, j: nat)
    requires i <= j
    ensures Pow2(i) <= Pow2(j)
    decreases j - i
  {
    if i < j {
      Pow2Monotone(i, j - 1);
    }
  }

  function Min(a: nat, b: nat): nat {
    if a <= b then a else b
  }

  /**
   * The sleep after the failed attempt number `attempt` (zero-based):
   * `Math.min(Math.ceil(baseDelay * 2 ** attempt), maxDelay)`; on naturals the ceiling is the identity.
   */
  function Delay(p: Policy, attempt: nat): (d: nat)
    ensures d <= p.maxDelay && d <= p.baseDelay * Pow2(attempt)
    ensures d == p.maxDelay || d == p.baseDelay * Pow2(attempt)
  {
    Min(p.baseDelay * Pow2(attempt), p.maxDelay)
  }

  /** Later attempts never wait less than earlier ones. */
  lemma DelayMonotone(p: Policy, i: nat, j: nat)
    requires i <= j
    ensures Delay(p, i) <= Delay(p, j)
  {
    Pow2Monotone(i, j);
    MulMonotone(p.baseDelay, Pow2(i), Pow2(j));
  }

  lemma MulMonotone(a: nat, x: nat, y: nat)
    requires x <= y
    ensures a * x <= a * y
  {
  }

  /** `error instanceof Error ? error : new Error(String(error))`. */
  function AsError(e: Thrown): (r: Thrown)
    ensures r.IsError()
    ensures e.IsError() ==> r == e
    ensures e.NonError? ==> r == PlainError("Error", e.text)
  {
    match e
    case NonError(text) => PlainError("Error", text)
    case _ => e
  }

  /**
   * The run of `retryOperation` from zero-based attempt `attempt` on: invoke the operation; a
   * result is returned at once; a failure that is not retryable, or that of the last allowed
   * attempt, is rethrown (as an Error); any other failure sleeps `Delay(p, attempt)` and tries again.
   * `calls` counts invocations from the very first attempt.
   */
  function Run<T>(p: Policy, op: nat -> Attempt<T>, attempt: nat): Trace<T>
    requires attempt <= p.maxRetries
    decreases p.maxRetries - attempt
  {
    match op(attempt)
    case Returned(v) => Trace(Returned(v), attempt + 1, [])
    case Threw(e) =>
      if !IsRetryable(e) || attempt == p.maxRetries then Trace(Threw(AsError(e)), attempt + 1, [])
      else
        var rest := Run(p, op, attempt + 1);
        Trace(rest.outcome, rest.calls, [Delay(p, attempt)] + rest.sleeps)
  }

  function Retried<T>(p: Policy, op: nat -> Attempt<T>): Trace<T> {
    Run(p, op, 0)
  }

  /** Invocation `k` failed with an error the policy retries. */
  predicate FailedRetryably<T>(op: nat -> Attempt<T>, k: nat) {
    op(k).Threw? && IsRetryable(op(k).error)
  }

  /**
   * Where a run from `attempt` stops and what it reports: every invocation before the last one
   * failed retryably and was followed by its backoff sleep; the last invocation either returned
   * (and its value is the outcome) or threw, in which case the error was not retryable or the
   * budget was spent, and that same error (as an Error) is the outcome.
   */
  lemma {:induction false} RunShape<T>(p: Policy, op: nat -> Attempt<T>, attempt: nat)
    requires attempt <= p.maxRetries
    ensures var t := Run(p, op, attempt);
      && attempt + 1 <= t.calls <= p.maxRetries + 1
      && |t.sleeps| == t.calls - 1 - attempt
      && (forall i :: 0 <= i < |t.sleeps| ==> t.sleeps[i] == Delay(p, attempt + i))
      && (forall k :: attempt <= k < t.calls - 1 ==> FailedRetryably(op, k))
      && (op(t.calls - 1).Returned? ==> t.outcome == op(t.calls - 1))
      && (op(t.calls - 1).Threw? ==>
            t.outcome == Threw(AsError(op(t.calls - 1).error)) &&
            (!IsRetryable(op(t.calls - 1).error) || t.calls - 1 == p.maxRetries))
    decreases p.maxRetries - attempt
  {
    var t := Run(p, op, attempt);
    match op(attempt)
    case Returned(v) =>
    case Threw(e) =>
      if IsRetryable(e) && attempt < p.maxRetries {
        RunShape(p, op, attempt + 1);
        var rest := Run(p, op, attempt + 1);
        assert t.sleeps == [Delay(p, attempt)] + rest.sleeps;
        forall i | 0 <= i < |t.sleeps| ensures t.sleeps[i] == Delay(p, attempt + i) {
          if i > 0 {
            assert t.sleeps[i] == rest.sleeps[i - 1];
          }
        }
      }
  }

  /** At least one and at most `maxRetries + 1` invocations; one sleep between consecutive ones. */
  lemma AttemptBudget<T>(p: Policy, op: nat -> Attempt<T>)
    ensures 1 <= Retried(p, op).calls <= p.maxRetries + 1
    ensures |Retried(p, op).sleeps| == Retried(p, op).calls - 1
    ensures p.maxRetries == 0 ==> Retried(p, op).calls == 1 && Retried(p, op).sleeps == []
  {
    RunShape(p, op, 0);
  }

  /** The recorded sleeps follow the backoff schedule, never decrease, and never exceed `maxDelay`. */
  lemma BackoffSchedule<T>(p: Policy, op: nat -> Attempt<T>)
    ensures var s := Retried(p, op).sleeps;
      && (forall i :: 0 <= i < |s| ==> s[i] == Delay(p, i) && s[i] <= p.maxDelay)
      && (forall i, j :: 0 <= i <= j < |s| ==> s[i] <= s[j])
  {
    RunShape(p, op, 0);
    var s := Retried(p, op).sleeps;
    forall i, j | 0 <= i <= j < |s| ensures s[i] <= s[j] {
      DelayMonotone(p, i, j);
    }
  }

  /** A first attempt that succeeds is returned with no sleep. */
  lemma FirstSuccessIsImmediate<T>(p: Policy, op: nat -> Attempt<T>)
    requires op(0).Returned?
    ensures Retried(p, op) == Trace(op(0), 1, [])
  {
  }

  /**
   * `k` retryable failures (with `k <= maxRetries`) followed by a success: that success is
   * the outcome, after exactly `k + 1` invocations and `k` sleeps.
   */
  lemma SuccessAfterFailures<T>(p: Policy, op: nat -> Attempt<T>, k: nat)
    requires k <= p.maxRetries
    requires forall j :: 0 <= j < k ==> FailedRetryably(op, j)
    requires op(k).Returned?
    ensures Retried(p, op).outcome == op(k)
    ensures Retried(p, op).calls == k + 1 && |Retried(p, op).sleeps| == k
  {
    RunShape(p, op, 0);
    StopsAt(p, op, k);
  }

  /** A non-retryable failure after `k` retryable ones is rethrown at once: `k + 1` invocations. */
  lemma NonRetryableStops<T>(p: Policy, op: nat -> Attempt<T>, k: nat)
    requires k <= p.maxRetries
    requires forall j :: 0 <= j < k ==> FailedRetryably(op, j)
    requires op(k).Threw? && !IsRetryable(op(k).error)
    ensures Retried(p, op).outcome == Threw(AsError(op(k).error))
    ensures Retried(p, op).calls == k + 1
  {
    RunShape(p, op, 0);
    StopsAt(p, op, k);
  }

  /**
   * When every allowed attempt fails retryably, the operation runs `maxRetries + 1` times and
   * the error of the last attempt is the one rethrown.
   */
  lemma ExhaustedBudget<T>(p: Policy, op: nat -> Attempt<T>)
    requires forall j :: 0 <= j <= p.maxRetries ==> FailedRetryably(op, j)
    ensures Retried(p, op).calls == p.maxRetries + 1
    ensures Retried(p, op).outcome == op(p.maxRetries)
  {
    RunShape(p, op, 0);
    assert FailedRetryably(op, Retried(p, op).calls - 1);
  }

  /** The run cannot stop before the first invocation that does not fail retryably. */
  lemma StopsAt<T>(p: Policy, op: nat -> Attempt<T>, k: nat)
    requires k <= p.maxRetries
    requires forall j :: 0 <= j < k ==> FailedRetryably(op, j)
    requires !FailedRetryably(op, k)
    ensures Retried(p, op).calls == k + 1
  {
    RunShape(p, op, 0);
    var last := Retried(p, op).calls - 1;
    assert last < k ==> FailedRetryably(op, last);
    assert last > k ==> FailedRetryably(op, k);
  }

  /** `retryOperation(operation)`, with the configuration `p` already resolved. */
  method RetryOperation<T>(p: Policy, op: nat -> Attempt<T>) returns (outcome: Attempt<T>, calls: nat, sleeps: seq<nat>)
    ensures Trace(outcome, calls, sleeps) == Retried(p, op)
  {
    calls, sleeps := 0, [];
    var lastError: Option<Thrown> := None;
    var attempt: nat := 0;
    while attempt <= p.maxRetries
      invariant attempt <= p.maxRetries
      invariant calls == attempt && |sleeps| == attempt
      invariant var rest := Run(p, op, attempt);
        Retried(p, op) == Trace(rest.outcome, rest.calls, sleeps + rest.sleeps)
      decreases p.maxRetries - attempt
    {
      var result := op(attempt);
      calls := calls + 1;
      match result {
        case Returned(v) =>
          outcome := Returned(v);
          return;
        case Threw(error) =>
          lastError := Some(AsError(error));
          if !IsRetryable(error) || attempt == p.maxRetries {
            outcome := Threw(lastError.value);
            return;
          }
          var delay := Delay(p, attempt);
          ghost var rest := Run(p, op, attempt + 1);
          assert sleeps + ([delay] + rest.sleeps) == (sleeps + [delay]) + rest.sleeps;
          sleeps := sleeps + [delay];
          attempt := attempt + 1;
      }
    }
    assert false;
  }
}

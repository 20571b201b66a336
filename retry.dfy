// Retrying an asynchronous call: up to `maxAttempts` calls, a retry only
// for errors `shouldRetry` accepts, a notification and a warning toast
// before each retry, and a wait that doubles with each retry when backoff
// is on.
//
// The called function is replaced by the outcome of each attempt
// (`outcomes(k)` for attempt k, counted from 1); the waits and the toasts
// are recorded in the returned steps rather than performed.

module Retry {
  import opened Wrappers
  import opened Text

  const DefaultMaxAttempts: int := 3
  const DefaultDelay: int := 1000
  const ToastTitle := "Network Error"
  const ToastDuration: int := 2000

  /** The parts of a thrown value the default `shouldRetry` reads;
      `None` stands for an absent property. */
  datatype Error = Error(message: Option<string>, code: Option<string>)

  /** The default `shouldRetry`: network-looking messages and two socket codes. */
  predicate DefaultShouldRetry(e: Error)
  {
    (e.message.Some? &&
      (IsInfix("network", e.message.value) || IsInfix("timeout", e.message.value) || IsInfix("connection", e.message.value)))
    || e.code == Some("ECONNREFUSED") || e.code == Some("ETIMEDOUT")
  }

  /** The options object; a missing field takes its default. */
  datatype Options = Options(
    maxAttempts: Option<int>,
    delay: Option<int>,
    backoff: Option<bool>,
    hasOnRetry: bool,
    shouldRetry: Option<Error -> bool>)

  function MaxAttempts(o: Options): int { o.maxAttempts.GetOr(DefaultMaxAttempts) }

  function ShouldRetry(o: Options): Error -> bool
  {
    if o.shouldRetry.Some? then o.shouldRetry.value else DefaultShouldRetry
  }

  function Pow2(k: nat): (p: nat)
    ensures p >= 1
  {
    if k == 0 then 1 else 2 * Pow2(k - 1)
  }

  /** The wait after failed attempt `attempt`. */
  function WaitAfter(o: Options, attempt: nat): int
    requires attempt >= 1
  {
    var delay := o.delay.GetOr(DefaultDelay);
    if o.backoff.GetOr(true) then delay * Pow2(attempt - 1) else delay
  }

  function ToastMessage(attempt: int, maxAttempts: int): string
  {
    "Connection failed. Retrying (" + IntToString(attempt) + "/" + IntToString(maxAttempts) + ")..."
  }

  /** What happens between a failed attempt and the next one. */
  datatype Step = Step(attempt: int, error: Error, onRetryCalled: bool, toast: string, waitMs: int)

  /** How a call to `withRetry` settles: a value, or a thrown error; with
      `maxAttempts` below 1 no attempt runs and `undefined` is thrown. */
  datatype Outcome<T> = Returned(value: T) | Threw(error: Option<Error>)

  datatype Run<T> = Run(outcome: Outcome<T>, calls: nat, steps: seq<Step>)

  /** The loop from attempt `k` on. */
  function RunFrom<T>(outcomes: nat -> Result<T, Error>, o: Options, k: nat): Run<T>
    requires k >= 1
    decreases MaxAttempts(o) - k
  {
    if k > MaxAttempts(o) then Run(Threw(None), k - 1, [])
    else match outcomes(k)
      case Ok(v) => Run(Returned(v), k, [])
      case Err(e) =>
        if k >= MaxAttempts(o) || !ShouldRetry(o)(e) then Run(Threw(Some(e)), k, [])
        else
          var rest := RunFrom(outcomes, o, k + 1);
          var step := Step(k, e, o.hasOnRetry, ToastMessage(k, MaxAttempts(o)), WaitAfter(o, k));
          Run(rest.outcome, rest.calls, [step] + rest.steps)
  }

  /** `withRetry(fn, options)`. */
  method WithRetry<T>(outcomes: nat -> Result<T, Error>, o: Options) returns (run: Run<T>)
    ensures run == RunFrom(outcomes, o, 1)
  {
    var maxAttempts := MaxAttempts(o);
    var shouldRetry := ShouldRetry(o);
    var steps: seq<Step> := [];
    var lastError: Option<Error> := None;
    var attempt := 1;
    while attempt <= maxAttempts
      invariant attempt >= 1
      invariant attempt == 1 ==> lastError == None && steps == []
      invariant attempt > 1 ==> attempt <= maxAttempts
      invariant RunFrom(outcomes, o, 1) ==
        var rest := RunFrom(outcomes, o, attempt); Run(rest.outcome, rest.calls, steps + rest.steps)
      decreases maxAttempts - attempt
    {
      var result := outcomes(attempt);
      if result.Ok? {
        return Run(Returned(result.value), attempt, steps);
      }
      var error := result.error;
      lastError := Some(error);
      if attempt >= maxAttempts || !shouldRetry(error) {
        return Run(Threw(Some(error)), attempt, steps);
      }
      var retryDelay := WaitAfter(o, attempt);
      var step := Step(attempt, error, o.hasOnRetry, ToastMessage(attempt, maxAttempts), retryDelay);
      assert [step] + RunFrom(outcomes, o, attempt + 1).steps == RunFrom(outcomes, o, attempt).steps;
      steps := steps + [step];
      attempt := attempt + 1;
    }
    // only reached when maxAttempts < 1: `lastError` is still undefined
    return Run(Threw(lastError), attempt - 1, steps);
  }

  /** Step `s` records its failed attempt: that attempt's error, accepted
      by `shouldRetry`, the toast shown and the wait that follows. */
  predicate StepRecords<T>(outcomes: nat -> Result<T, Error>, o: Options, s: Step)
  {
    && s.attempt >= 1
    && outcomes(s.attempt).Err? && s.error == outcomes(s.attempt).error
    && ShouldRetry(o)(s.error)
    && s.waitMs == WaitAfter(o, s.attempt)
    && s.toast == ToastMessage(s.attempt, MaxAttempts(o))
  }

  /** The run from attempt `k`: at most `maxAttempts` calls in all, one
      step per retried failure, numbered from `k`, and the outcome that of
      the last call. */
  lemma RunFromShape<T>(outcomes: nat -> Result<T, Error>, o: Options, k: nat)
    requires 1 <= k <= MaxAttempts(o)
    ensures var r := RunFrom(outcomes, o, k);
      && k <= r.calls <= MaxAttempts(o)
      && |r.steps| == r.calls - k
      && (forall j :: 0 <= j < |r.steps| ==> r.steps[j].attempt == k + j && StepRecords(outcomes, o, r.steps[j]))
      && (r.outcome.Returned? <==> outcomes(r.calls).Ok?)
      && (r.outcome.Returned? ==> r.outcome.value == outcomes(r.calls).value)
      && (r.outcome.Threw? ==>
            && r.outcome.error == Some(outcomes(r.calls).error)
            && (r.calls == MaxAttempts(o) || !ShouldRetry(o)(outcomes(r.calls).error)))
  {
    RunFromCalls(outcomes, o, k);
    RunFromSteps(outcomes, o, k);
    RunFromOutcome(outcomes, o, k);
  }

  lemma {:induction false} RunFromCalls<T>(outcomes: nat -> Result<T, Error>, o: Options, k: nat)
    requires 1 <= k <= MaxAttempts(o)
    ensures var r := RunFrom(outcomes, o, k);
      k <= r.calls <= MaxAttempts(o) && |r.steps| == r.calls - k
    decreases MaxAttempts(o) - k
  {
    match outcomes(k)
      case Ok(v) =>
      case Err(e) =>
        if k < MaxAttempts(o) && ShouldRetry(o)(e) {
          RunFromCalls(outcomes, o, k + 1);
        }
  }

  lemma {:induction false} RunFromSteps<T>(outcomes: nat -> Result<T, Error>, o: Options, k: nat)
    requires 1 <= k <= MaxAttempts(o)
    ensures forall j :: 0 <= j < |RunFrom(outcomes, o, k).steps| ==>
      RunFrom(outcomes, o, k).steps[j].attempt == k + j && StepRecords(outcomes, o, RunFrom(outcomes, o, k).steps[j])
    decreases MaxAttempts(o) - k
  {
    match outcomes(k)
      case Ok(v) =>
      case Err(e) =>
        if k < MaxAttempts(o) && ShouldRetry(o)(e) {
          RunFromSteps(outcomes, o, k + 1);
          var rest := RunFrom(outcomes, o, k + 1).steps;
          var steps := RunFrom(outcomes, o, k).steps;
          var step := Step(k, e, o.hasOnRetry, ToastMessage(k, MaxAttempts(o)), WaitAfter(o, k));
          assert steps == [step] + rest;
          assert StepRecords(outcomes, o, step);
          forall j | 0 <= j < |steps| ensures steps[j].attempt == k + j && StepRecords(outcomes, o, steps[j]) {
            if j > 0 {
              assert steps[j] == rest[j - 1];
              assert rest[j - 1].attempt == k + 1 + (j - 1) && StepRecords(outcomes, o, rest[j - 1]);
            }
          }
        }
  }

  lemma {:induction false} RunFromOutcome<T>(outcomes: nat -> Result<T, Error>, o: Options, k: nat)
    requires 1 <= k <= MaxAttempts(o)
    ensures var r := RunFrom(outcomes, o, k);
      && (r.outcome.Returned? <==> outcomes(r.calls).Ok?)
      && (r.outcome.Returned? ==> r.outcome.value == outcomes(r.calls).value)
      && (r.outcome.Threw? ==>
            && r.outcome.error == Some(outcomes(r.calls).error)
            && (r.calls == MaxAttempts(o) || !ShouldRetry(o)(outcomes(r.calls).error)))
    decreases MaxAttempts(o) - k
  {
    match outcomes(k)
      case Ok(v) =>
      case Err(e) =>
        if k < MaxAttempts(o) && ShouldRetry(o)(e) {
          RunFromOutcome(outcomes, o, k + 1);
        }
  }

  /** Over a whole call: `fn` runs between 1 and `maxAttempts` times (none
      when `maxAttempts` is below 1, which throws `undefined`), and the
      first success ends the loop. */
  lemma WithRetrySpec<T>(outcomes: nat -> Result<T, Error>, o: Options)
    ensures var r := RunFrom(outcomes, o, 1);
      && (MaxAttempts(o) < 1 ==> r == Run(Threw(None), 0, []))
      && (MaxAttempts(o) >= 1 ==> 1 <= r.calls <= MaxAttempts(o) && |r.steps| == r.calls - 1)
      && (forall k :: 1 <= k < r.calls ==> outcomes(k).Err?)
  {
    if MaxAttempts(o) >= 1 {
      RunFromShape(outcomes, o, 1);
      var r := RunFrom(outcomes, o, 1);
      forall k | 1 <= k < r.calls
        ensures outcomes(k).Err?
      {
        assert r.steps[k - 1].attempt == k && StepRecords(outcomes, o, r.steps[k - 1]);
      }
    }
  }

  /** With backoff the waits double: 1000, 2000, 4000, ... by default. */
  lemma BackoffDoubles(o: Options, attempt: nat)
    requires attempt >= 1 && o.backoff != Some(false)
    ensures WaitAfter(o, attempt + 1) == 2 * WaitAfter(o, attempt)
    ensures o.delay.None? ==> WaitAfter(o, 1) == 1000
  {
  }

  function ExponentialBackoffOptions(maxAttempts: int): Options
  {
    Options(Some(maxAttempts), Some(1000), Some(true), false, None)
  }

  function FixedDelayOptions(maxAttempts: int, delay: int): Options
  {
    Options(Some(maxAttempts), Some(delay), Some(false), false, None)
  }

  /** `withExponentialBackoff(fn, maxAttempts = 3)`: the wait after attempt k is 1000 * 2^(k-1). */
  method WithExponentialBackoff<T>(outcomes: nat -> Result<T, Error>, maxAttempts: int) returns (run: Run<T>)
    ensures run == RunFrom(outcomes, ExponentialBackoffOptions(maxAttempts), 1)
    ensures forall j :: 0 <= j < |run.steps| ==> run.steps[j].waitMs == 1000 * Pow2(j)
  {
    var o := ExponentialBackoffOptions(maxAttempts);
    run := WithRetry(outcomes, o);
    if maxAttempts >= 1 {
      RunFromShape(outcomes, o, 1);
      forall j | 0 <= j < |run.steps|
        ensures run.steps[j].waitMs == 1000 * Pow2(j)
      {
        assert run.steps[j].attempt == 1 + j && StepRecords(outcomes, o, run.steps[j]);
      }
    }
  }

  /** `withFixedDelay(fn, maxAttempts = 3, delay = 1000)`: every wait is `delay`. */
  method WithFixedDelay<T>(outcomes: nat -> Result<T, Error>, maxAttempts: int, delay: int) returns (run: Run<T>)
    ensures run == RunFrom(outcomes, FixedDelayOptions(maxAttempts, delay), 1)
    ensures forall j :: 0 <= j < |run.steps| ==> run.steps[j].waitMs == delay
  {
    var o := FixedDelayOptions(maxAttempts, delay);
    run := WithRetry(outcomes, o);
    if maxAttempts >= 1 {
      RunFromShape(outcomes, o, 1);
      forall j | 0 <= j < |run.steps|
        ensures run.steps[j].waitMs == delay
      {
        assert run.steps[j].attempt == 1 + j && StepRecords(outcomes, o, run.steps[j]);
      }
    }
  }
}

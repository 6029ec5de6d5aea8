/** The bounded retry policy `retryOn503`: it calls a request function up to
    `maxRetries` times, sleeping after every 503 failure, rethrows every other
    failure on the spot and gives up with a distinct error once the attempts
    are used up.

    The request function is modelled by the outcome of each of its calls,
    indexed by the 1-based attempt number; calls and sleeps are counted
    instead of performed. */
module RetryPolicy {
  import opened Common

  /** The default attempt bound, used at both call sites. */
  const MaxRetries: int := 25

  /** What one retried run did: its result, and how often it called the
      request function and slept. */
  datatype Run<+T> = Run(result: Result<T, Error>, calls: nat, sleeps: nat)

  /** `error.response?.status === 503`; an error without a response has no status. */
  predicate IsServiceUnavailable(e: Error)
  {
    e.RequestError? && e.status == Some(503)
  }

  predicate FailedWith503<T>(outcome: Result<T, Error>)
  {
    outcome.Err? && IsServiceUnavailable(outcome.error)
  }

  function Max0(n: int): nat
  {
    if n < 0 then 0 else n
  }

  /** The run from `attempt` onwards: calls and sleeps counted from there. */
  function RetryFrom<T>(request: nat -> Result<T, Error>, attempt: nat, maxRetries: int): Run<T>
    decreases Max0(maxRetries + 1 - attempt)
  {
    if attempt > maxRetries then Run(Err(MaxRetriesReached), 0, 0)
    else
      match request(attempt)
      case Ok(v) => Run(Ok(v), 1, 0)
      case Err(e) =>
        if !IsServiceUnavailable(e) then Run(Err(e), 1, 0)
        else
          var rest := RetryFrom(request, attempt + 1, maxRetries);
          Run(rest.result, rest.calls + 1, rest.sleeps + 1)
  }

  /** The whole run of `retryOn503(requestFn, maxRetries)`. */
  function Retry<T>(request: nat -> Result<T, Error>, maxRetries: int): Run<T>
  {
    RetryFrom(request, 1, maxRetries)
  }

  /** `retryOn503` as the source runs it: a counted loop with an early return or throw. */
  method RetryOn503<T>(request: nat -> Result<T, Error>, maxRetries: int)
    returns (r: Result<T, Error>, calls: nat, sleeps: nat)
    ensures Run(r, calls, sleeps) == Retry(request, maxRetries)
  {
    calls, sleeps := 0, 0;
    var attempt := 1;
    while attempt <= maxRetries
      invariant 1 <= attempt && calls == attempt - 1 && sleeps == attempt - 1
      invariant var rest := RetryFrom(request, attempt, maxRetries);
        Retry(request, maxRetries) == Run(rest.result, rest.calls + calls, rest.sleeps + sleeps)
      decreases maxRetries - attempt
    {
      var outcome := request(attempt);
      calls := calls + 1;
      if outcome.Ok? {
        return Ok(outcome.value), calls, sleeps;
      }
      if !IsServiceUnavailable(outcome.error) {
        return Err(outcome.error), calls, sleeps;
      }
      sleeps := sleeps + 1;
      attempt := attempt + 1;
    }
    r := Err(MaxRetriesReached);
  }

  /** Every run either used up all its attempts on 503 failures and gave up,
      or stopped at the first attempt that did not fail with 503 and returned
      (or rethrew) exactly that attempt's outcome. */
  lemma {:induction false} RetryFromCharacterized<T>(request: nat -> Result<T, Error>, attempt: nat, maxRetries: int)
    requires attempt >= 1
    ensures var run := RetryFrom(request, attempt, maxRetries);
      && (forall j :: attempt <= j < attempt + run.calls - 1 ==> FailedWith503(request(j)))
      && (|| (&& run.calls == Max0(maxRetries + 1 - attempt)
              && run.sleeps == run.calls
              && run.result == Err(MaxRetriesReached)
              && (run.calls == 0 || FailedWith503(request(attempt + run.calls - 1))))
          || (&& 1 <= run.calls
              && attempt + run.calls - 1 <= maxRetries
              && run.sleeps == run.calls - 1
              && !FailedWith503(request(attempt + run.calls - 1))
              && run.result == request(attempt + run.calls - 1)))
    decreases Max0(maxRetries + 1 - attempt)
  {
    if attempt <= maxRetries && FailedWith503(request(attempt)) {
      RetryFromCharacterized(request, attempt + 1, maxRetries);
    }
  }

  lemma RetryCharacterized<T>(request: nat -> Result<T, Error>, maxRetries: int)
    ensures var run := Retry(request, maxRetries);
      && (forall j :: 1 <= j < run.calls ==> FailedWith503(request(j)))
      && (|| (&& run.calls == Max0(maxRetries)
              && run.sleeps == run.calls
              && run.result == Err(MaxRetriesReached)
              && (run.calls == 0 || FailedWith503(request(run.calls))))
          || (&& 1 <= run.calls <= maxRetries
              && run.sleeps == run.calls - 1
              && !FailedWith503(request(run.calls))
              && run.result == request(run.calls)))
  {
    RetryFromCharacterized(request, 1, maxRetries);
  }

  /** The first attempt that does not fail with 503 decides the run. */
  lemma RetryStopsAt<T>(request: nat -> Result<T, Error>, maxRetries: int, k: nat)
    requires 1 <= k <= maxRetries
    requires forall j :: 1 <= j < k ==> FailedWith503(request(j))
    requires !FailedWith503(request(k))
    ensures Retry(request, maxRetries) == Run(request(k), k, k - 1)
  {
    RetryCharacterized(request, maxRetries);
  }

  /** A success on attempt k is returned after exactly k calls and k - 1 sleeps. */
  lemma RetryReturnsFirstSuccess<T>(request: nat -> Result<T, Error>, maxRetries: int, k: nat)
    requires 1 <= k <= maxRetries
    requires forall j :: 1 <= j < k ==> FailedWith503(request(j))
    requires request(k).Ok?
    ensures Retry(request, maxRetries) == Run(Ok(request(k).value), k, k - 1)
  {
    RetryStopsAt(request, maxRetries, k);
  }

  /** A failure other than 503 (also one without any response) is rethrown
      unchanged on the attempt it happens, with no further call. */
  lemma RetryRethrowsOther<T>(request: nat -> Result<T, Error>, maxRetries: int, k: nat, e: Error)
    requires 1 <= k <= maxRetries
    requires forall j :: 1 <= j < k ==> FailedWith503(request(j))
    requires request(k) == Err(e) && !IsServiceUnavailable(e)
    ensures Retry(request, maxRetries) == Run(Err(e), k, k - 1)
  {
    RetryStopsAt(request, maxRetries, k);
  }

  /** maxRetries consecutive 503 failures end in the distinct error, after
      maxRetries calls and as many sleeps, the last one after the last call;
      with maxRetries <= 0 the request function is never called. */
  lemma RetryExhausts<T>(request: nat -> Result<T, Error>, maxRetries: int)
    requires forall j :: 1 <= j <= maxRetries ==> FailedWith503(request(j))
    ensures Retry(request, maxRetries) == Run(Err(MaxRetriesReached), Max0(maxRetries), Max0(maxRetries))
  {
    RetryCharacterized(request, maxRetries);
  }
}

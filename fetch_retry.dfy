/**
 * `fetchWithRetry`: up to `retries` attempts at one HTTP GET. A 429 or 503
 * answer waits 10 s and moves on to the next attempt; any other failure
 * (network error, non-2xx status, body that is not JSON) waits 5 s, or is
 * rethrown on the last attempt. If the attempts run out without a success or
 * a rethrow (the last attempt was rate-limited) the function returns
 * `undefined`.
 *
 * The network is an oracle: `respond(i)` is the response to attempt i.
 */
module FetchRetry {
  import opened Seqs
  import opened Wrappers

  const DEFAULT_RETRIES := 3
  const RATE_LIMIT_DELAY := 10000
  const ERROR_DELAY := 5000

  /** What one `fetch` call yields: an HTTP response (body None when it is not valid JSON) or a thrown network error. */
  datatype Response<T> = Http(status: int, body: Option<T>) | NetworkError

  /** The result of fetchWithRetry: the parsed body, `undefined`, or a thrown error. */
  datatype Fetch<T> = Fetched(data: T) | Undefined | Threw

  /** The outcome, the delays slept in order, and the number of attempts made. */
  datatype RetryRun<T> = RetryRun(outcome: Fetch<T>, delays: seq<int>, attempts: nat)

  predicate RateLimited<T>(r: Response<T>)
  {
    r.Http? && (r.status == 503 || r.status == 429)
  }

  /** `res.ok` and `res.json()` both succeed. */
  predicate Succeeds<T>(r: Response<T>)
  {
    r.Http? && !RateLimited(r) && 200 <= r.status <= 299 && r.body.Some?
  }

  /** The attempts from number i on, as the loop runs them. */
  function RetryFrom<T>(respond: nat -> Response<T>, i: nat, retries: int): (run: RetryRun<T>)
    ensures i < retries ==> run.attempts <= retries - i
    ensures i >= retries ==> run.attempts == 0
    ensures run.outcome.Undefined? ==> |run.delays| == run.attempts
    ensures !run.outcome.Undefined? ==> |run.delays| + 1 == run.attempts
    decreases retries - i
  {
    if i >= retries then RetryRun(Undefined, [], 0)
    else
      var r := respond(i);
      if RateLimited(r) then
        var rest := RetryFrom(respond, i + 1, retries);
        RetryRun(rest.outcome, [RATE_LIMIT_DELAY] + rest.delays, rest.attempts + 1)
      else if Succeeds(r) then
        RetryRun(Fetched(r.body.value), [], 1)
      else if i == retries - 1 then
        RetryRun(Threw, [], 1)
      else
        var rest := RetryFrom(respond, i + 1, retries);
        RetryRun(rest.outcome, [ERROR_DELAY] + rest.delays, rest.attempts + 1)
  }

  /** A run that first made `n` attempts sleeping `done`, then continued as `rest`. */
  function After<T>(done: seq<int>, n: nat, rest: RetryRun<T>): RetryRun<T>
  {
    RetryRun(rest.outcome, done + rest.delays, n + rest.attempts)
  }

  lemma AfterAfter<T>(d1: seq<int>, n1: nat, d2: seq<int>, n2: nat, r: RetryRun<T>)
    ensures After(d1, n1, After(d2, n2, r)) == After(d1 + d2, n1 + n2, r)
  {
    assert d1 + (d2 + r.delays) == (d1 + d2) + r.delays;
  }

  /** An attempt that neither succeeds nor is the last plain failure sleeps, then the loop goes on. */
  lemma RetryStep<T>(respond: nat -> Response<T>, i: nat, retries: int, delay: int)
    requires i < retries
    requires !Succeeds(respond(i)) && (RateLimited(respond(i)) || i != retries - 1)
    requires delay == if RateLimited(respond(i)) then RATE_LIMIT_DELAY else ERROR_DELAY
    ensures RetryFrom(respond, i, retries) == After([delay], 1, RetryFrom(respond, i + 1, retries))
  {
  }

  /** An attempt that succeeds, or the last one failing without a rate limit, ends the loop. */
  lemma RetryStop<T>(respond: nat -> Response<T>, i: nat, retries: int, outcome: Fetch<T>)
    requires i < retries
    requires Succeeds(respond(i)) || (!RateLimited(respond(i)) && i == retries - 1)
    requires outcome == if Succeeds(respond(i)) then Fetched(respond(i).body.value) else Threw
    ensures RetryFrom(respond, i, retries) == RetryRun(outcome, [], 1)
  {
  }

  /**
   * One attempt after `i` earlier ones that slept `done`: it either ends the
   * call with `outcome`, or the loop sleeps `delay` and tries again.
   */
  method Attempt<T>(respond: nat -> Response<T>, i: nat, retries: int, ghost done: seq<int>)
    returns (stop: bool, outcome: Fetch<T>, delay: int)
    requires i < retries
    ensures stop ==> After(done, i, RetryFrom(respond, i, retries)) == RetryRun(outcome, done, i + 1)
    ensures !stop ==> After(done, i, RetryFrom(respond, i, retries)) == After(done + [delay], i + 1, RetryFrom(respond, i + 1, retries))
  {
    var r := respond(i);
    if Succeeds(r) || (!RateLimited(r) && i == retries - 1) {
      outcome := if Succeeds(r) then Fetched(r.body.value) else Threw;
      RetryStop(respond, i, retries, outcome);
      AppendEmpty(done);
      return true, outcome, 0;
    }
    delay := if RateLimited(r) then RATE_LIMIT_DELAY else ERROR_DELAY;
    RetryStep(respond, i, retries, delay);
    AfterAfter(done, i, [delay], 1, RetryFrom(respond, i + 1, retries));
    stop, outcome := false, Undefined;
  }

  method FetchWithRetry<T>(respond: nat -> Response<T>, retries: int)
    returns (outcome: Fetch<T>, delays: seq<int>, attempts: nat)
    ensures RetryRun(outcome, delays, attempts) == RetryFrom(respond, 0, retries)
  {
    ghost var whole := RetryFrom(respond, 0, retries);
    delays := [];
    var i: nat := 0;
    while i < retries
      invariant i == 0 || i <= retries
      invariant whole == After(delays, i, RetryFrom(respond, i, retries))
      decreases retries - i
    {
      var stop, o, delay := Attempt(respond, i, retries, delays);
      if stop {
        return o, delays, i + 1;
      }
      delays := delays + [delay];
      i := i + 1;
    }
    AppendEmpty(delays);
    outcome, attempts := Undefined, i;
  }


  // ----- what the policy promises -----

  /** The call succeeds exactly when some attempt succeeds, and then with the first success's body. */
  lemma {:induction false} FetchedIsFirstSuccess<T>(respond: nat -> Response<T>, i: nat, retries: int, j: nat)
    requires i <= j < retries && Succeeds(respond(j))
    requires forall k :: i <= k < j ==> !Succeeds(respond(k))
    ensures RetryFrom(respond, i, retries).outcome == Fetched(respond(j).body.value)
    ensures RetryFrom(respond, i, retries).attempts == j - i + 1
    decreases j - i
  {
    if i < j {
      FetchedIsFirstSuccess(respond, i + 1, retries, j);
    }
  }

  lemma {:induction false} FetchedOnlyAfterSuccess<T>(respond: nat -> Response<T>, i: nat, retries: int)
    requires forall k :: i <= k < retries ==> !Succeeds(respond(k))
    ensures !RetryFrom(respond, i, retries).outcome.Fetched?
    decreases retries - i
  {
    if i < retries {
      FetchedOnlyAfterSuccess(respond, i + 1, retries);
    }
  }

  /**
   * Without a success the outcome is decided by the last attempt alone: a
   * rate-limited last attempt gives `undefined`, any other failure a throw.
   * In particular, attempts that are all rate-limited give `undefined`.
   */
  lemma {:induction false} FailureDecidedByLastAttempt<T>(respond: nat -> Response<T>, i: nat, retries: int)
    requires i < retries
    requires forall k :: i <= k < retries ==> !Succeeds(respond(k))
    ensures RetryFrom(respond, i, retries).attempts == retries - i
    ensures RetryFrom(respond, i, retries).outcome ==
              if RateLimited(respond(retries - 1)) then Undefined else Threw
    decreases retries - i
  {
    if i < retries - 1 {
      FailureDecidedByLastAttempt(respond, i + 1, retries);
    }
  }

  /** The k-th delay is 10 s after a rate-limited attempt k and 5 s after any other failed one. */
  lemma {:induction false} DelayPerAttempt<T>(respond: nat -> Response<T>, i: nat, retries: int, k: nat)
    requires k < |RetryFrom(respond, i, retries).delays|
    ensures !Succeeds(respond(i + k))
    ensures RetryFrom(respond, i, retries).delays[k] ==
              if RateLimited(respond(i + k)) then RATE_LIMIT_DELAY else ERROR_DELAY
    decreases retries - i
  {
    if k > 0 {
      DelayPerAttempt(respond, i + 1, retries, k - 1);
    }
  }
}

/**
 * The resilient request executor of the Creators API node (`postWithRetry`):
 * one POST, retried with exponential backoff on throttling (status 429,
 * section 4 of RFC 6585), on the 5xx statuses 500, 502, 503 and 504 and on
 * network errors, unless the server names its own delay in `retry-after`.
 *
 * The transport, the timer, `Math.random` and `Date.now` are inputs: attempt
 * `k` (counting from 0) ends as `script.outcome(k)`, draws `script.draw(k)`
 * from `Math.random` and reads the clock as `script.clock(k)`.
 */
module RetryExecutor {
  import opened Wrappers
  import opened JsValue
  import opened Utils

  /** What axios throws when a call fails: the status (none for a network error), `retry-after` and the body. */
  datatype RequestError = RequestError(status: Option<int>, retryAfter: Option<StringOrList>, data: Value)

  /** How one attempt ends: the response body, or a thrown error. */
  datatype Attempt = Responded(data: Value) | Rejected(error: RequestError)

  /** What `postWithRetry` throws: the last request error unchanged, or the TypeError of an unreadable header. */
  datatype Thrown = Http(error: RequestError) | HeaderTypeError

  /** The environment as the executor observes it, attempt by attempt. */
  datatype Script = Script(
    outcome: nat -> Attempt,
    draw: nat -> real,
    clock: nat -> int,
    toNumber: string -> Option<real>,
    parseDate: string -> Option<int>)

  /** The caller's budget: `maxRetries` retries after the first attempt, `baseDelayMs` the backoff unit. */
  datatype Policy = Policy(maxRetries: int, baseDelayMs: int)

  /** What a run returns or throws, and the delays it slept, in order. */
  datatype Run = Run(result: Result<Value, Thrown>, delays: seq<real>)

  /**
   * Network errors (no status, or a falsy 0) and 429, 500, 502, 503, 504 are
   * retried: among client errors only throttling, among server errors all but
   * 501 and those past 504, and never a response below 400.
   */
  function Retryable(status: Option<int>): (r: bool)
    ensures status.None? || status == Some(0) ==> r
    ensures status.Some? && 0 < status.value < 400 ==> !r
    ensures status.Some? && 400 <= status.value < 500 ==> (r <==> status.value == 429)
    ensures status.Some? && 500 <= status.value ==> (r <==> status.value <= 504 && status.value != 501)
  {
    status.None? || status.value == 0 || status.value in {429, 500, 502, 503, 504}
  }

  function Pow2(k: nat): (r: nat)
    ensures r >= 1
  {
    if k == 0 then 1 else 2 * Pow2(k - 1)
  }

  /** `baseDelayMs * Math.pow(2, attempt)`. */
  function Exponential(baseDelayMs: int, attempt: nat): int {
    baseDelayMs * Pow2(attempt)
  }

  /**
   * `Math.floor(Math.random() * baseDelayMs * 0.2)` for the draw `u`: for a
   * draw in [0, 1) and a non-negative base, between 0 and a fifth of the base,
   * rounded down.
   */
  function Jitter(baseDelayMs: int, u: real): (r: int)
    ensures 0.0 <= u < 1.0 && 0 <= baseDelayMs ==> 0 <= r <= (baseDelayMs as real * 0.2).Floor
  {
    var b := baseDelayMs as real;
    if 0.0 <= u < 1.0 && 0 <= baseDelayMs then
      ScaleBelowOne(u, b);
      FifthFloorBounds(u * b, b);
      (u * b * 0.2).Floor
    else
      (u * b * 0.2).Floor
  }

  /**
   * The delay before retry number `attempt + 1`: the server's hint when it
   * sent one; otherwise backoff, between `base * 2^attempt` and that plus a
   * fifth of the base, rounded down.
   */
  function RetryDelay(hint: Option<real>, attempt: nat, baseDelayMs: int, u: real): (r: real)
    ensures hint.Some? ==> r == hint.value
    ensures hint.None? && 0.0 <= u < 1.0 && 0 <= baseDelayMs ==>
              Exponential(baseDelayMs, attempt) as real <= r
              <= (Exponential(baseDelayMs, attempt) + (baseDelayMs as real * 0.2).Floor) as real
  {
    match hint
    case Some(ms) => ms
    case None => (Exponential(baseDelayMs, attempt) + Jitter(baseDelayMs, u)) as real
  }

  function Budget(policy: Policy, attempt: nat): nat {
    if attempt < policy.maxRetries then policy.maxRetries - attempt else 0
  }

  /**
   * The executor from attempt `attempt` on, as a function of its inputs: a
   * response ends the run; a failure ends it when the header cannot be read,
   * when it is not retryable or when `attempt >= maxRetries`; otherwise the
   * run sleeps and tries again with the counter one higher.
   */
  function RunFrom(attempt: nat, policy: Policy, script: Script): (r: Run)
    ensures |r.delays| <= Budget(policy, attempt)
    decreases Budget(policy, attempt)
  {
    match script.outcome(attempt)
    case Responded(data) => Run(Success(data), [])
    case Rejected(err) =>
      match ParseRetryAfter(err.retryAfter, script.toNumber, script.parseDate, script.clock(attempt))
      case Failure(_) => Run(Failure(HeaderTypeError), [])
      case Success(hint) =>
        if !Retryable(err.status) || attempt >= policy.maxRetries then
          Run(Failure(Http(err)), [])
        else
          var rest := RunFrom(attempt + 1, policy, script);
          Run(rest.result, [RetryDelay(hint, attempt, policy.baseDelayMs, script.draw(attempt))] + rest.delays)
  }

  /**
   * `postWithRetry`: the loop of the source, proved to return or throw what
   * `RunFrom(0, ..)` says and to sleep exactly its delays.
   */
  method PostWithRetry(policy: Policy, script: Script) returns (result: Result<Value, Thrown>, delays: seq<real>)
    ensures Run(result, delays) == RunFrom(0, policy, script)
  {
    var attempt: nat := 0;
    delays := [];
    while true
      invariant RunFrom(0, policy, script).result == RunFrom(attempt, policy, script).result
      invariant RunFrom(0, policy, script).delays == delays + RunFrom(attempt, policy, script).delays
      decreases Budget(policy, attempt)
    {
      match script.outcome(attempt)
      case Responded(data) =>
        assert delays + [] == delays;
        return Success(data), delays;
      case Rejected(err) =>
        var parsed := ParseRetryAfter(err.retryAfter, script.toNumber, script.parseDate, script.clock(attempt));
        if parsed.Failure? {
          assert delays + [] == delays;
          return Failure(HeaderTypeError), delays;
        }
        var retryAfterMs := parsed.value;
        if !Retryable(err.status) || attempt >= policy.maxRetries {
          assert delays + [] == delays;
          return Failure(Http(err)), delays;
        }
        var delayMs := RetryDelay(retryAfterMs, attempt, policy.baseDelayMs, script.draw(attempt));
        RetryStep(attempt, policy, script);
        var rest := RunFrom(attempt + 1, policy, script);
        assert RunFrom(attempt, policy, script).delays == [delayMs] + rest.delays;
        assert delays + ([delayMs] + rest.delays) == (delays + [delayMs]) + rest.delays;
        delays := delays + [delayMs];
        attempt := attempt + 1;
    }
  }

  /** One retry, unfolded: the run sleeps the attempt's delay, then continues from the next attempt. */
  lemma RetryStep(attempt: nat, policy: Policy, script: Script)
    requires RetriedFailure(script.outcome(attempt), script, attempt) && attempt < policy.maxRetries
    ensures var err := script.outcome(attempt).error;
            var hint := ParseRetryAfter(err.retryAfter, script.toNumber, script.parseDate, script.clock(attempt)).value;
            var rest := RunFrom(attempt + 1, policy, script);
            RunFrom(attempt, policy, script)
              == Run(rest.result, [RetryDelay(hint, attempt, policy.baseDelayMs, script.draw(attempt))] + rest.delays)
  {
  }

  // ------------------------------------------------------------ properties

  /**
   * At any attempt, a failure that is not retried (a non-retryable status, or
   * any failure once `attempt >= maxRetries`) is thrown at once, after no
   * further sleep, when its `retry-after` can be read.
   */
  lemma TerminalStatusFailsFast(attempt: nat, policy: Policy, script: Script)
    requires script.outcome(attempt).Rejected?
    requires !Retryable(script.outcome(attempt).error.status) || attempt >= policy.maxRetries
    requires ParseRetryAfter(script.outcome(attempt).error.retryAfter, script.toNumber, script.parseDate,
                             script.clock(attempt)).Success?
    ensures RunFrom(attempt, policy, script) == Run(Failure(Http(script.outcome(attempt).error)), [])
  {
  }

  /** A failure the executor retries: a retryable status whose `retry-after` is readable. */
  predicate RetriedFailure(a: Attempt, script: Script, k: nat) {
    && a.Rejected?
    && Retryable(a.error.status)
    && ParseRetryAfter(a.error.retryAfter, script.toNumber, script.parseDate, script.clock(k)).Success?
  }

  /**
   * When every attempt fails retryably the budget is spent: one sleep per
   * retry, and the last attempt's error is thrown unchanged.
   */
  lemma {:induction false} PersistentFailureExhaustsBudget(attempt: nat, policy: Policy, script: Script)
    requires forall k :: attempt <= k ==> RetriedFailure(script.outcome(k), script, k)
    ensures |RunFrom(attempt, policy, script).delays| == Budget(policy, attempt)
    ensures var run := RunFrom(attempt, policy, script);
            && run.result.Failure? && run.result.error.Http?
            && script.outcome(attempt + Budget(policy, attempt)) == Rejected(run.result.error.error)
    decreases Budget(policy, attempt)
  {
    assert RetriedFailure(script.outcome(attempt), script, attempt);
    if attempt < policy.maxRetries {
      PersistentFailureExhaustsBudget(attempt + 1, policy, script);
    }
  }

  /**
   * Every sleep follows the policy and the counter rises by one per retry:
   * sleep `i` comes after attempt `attempt + i` failed retryably within the
   * budget, and lasts the hint of that failure or `base * 2^(attempt + i)`
   * plus that attempt's jitter.
   */
  lemma {:induction false} DelaysFollowPolicy(attempt: nat, policy: Policy, script: Script, i: nat)
    requires i < |RunFrom(attempt, policy, script).delays|
    ensures attempt + i < policy.maxRetries
    ensures RetriedFailure(script.outcome(attempt + i), script, attempt + i)
    ensures RunFrom(attempt, policy, script).delays[i] == RetryDelay(
              ParseRetryAfter(script.outcome(attempt + i).error.retryAfter, script.toNumber, script.parseDate,
                              script.clock(attempt + i)).value,
              attempt + i, policy.baseDelayMs, script.draw(attempt + i))
    decreases Budget(policy, attempt)
  {
    SleptOnlyAfterRetriedFailure(attempt, policy, script);
    RetryStep(attempt, policy, script);
    if i == 0 {
      assert attempt + i == attempt;
    } else {
      var rest := RunFrom(attempt + 1, policy, script);
      assert RunFrom(attempt, policy, script).delays[i] == rest.delays[i - 1];
      DelaysFollowPolicy(attempt + 1, policy, script, i - 1);
      assert attempt + 1 + (i - 1) == attempt + i;
    }
  }

  /** A run that sleeps at all began with a failure the executor retries, within the budget. */
  lemma SleptOnlyAfterRetriedFailure(attempt: nat, policy: Policy, script: Script)
    requires |RunFrom(attempt, policy, script).delays| > 0
    ensures RetriedFailure(script.outcome(attempt), script, attempt) && attempt < policy.maxRetries
  {
  }

  /**
   * The run ends at attempt `attempt + |delays|`: a success returns that
   * attempt's response, a thrown request error is that attempt's error,
   * unchanged, and a thrown TypeError comes from that attempt's header.
   */
  lemma {:induction false} RunEndsAtLastAttempt(attempt: nat, policy: Policy, script: Script)
    ensures var run := RunFrom(attempt, policy, script);
            var last := script.outcome(attempt + |run.delays|);
            && (run.result.Success? ==> last == Responded(run.result.value))
            && (run.result.Failure? && run.result.error.Http? ==> last == Rejected(run.result.error.error))
            && (run.result.Failure? && run.result.error.HeaderTypeError? ==>
                  last.Rejected? && last.error.retryAfter == Some(Strs([])))
    decreases Budget(policy, attempt)
  {
    match script.outcome(attempt)
    case Responded(_) =>
    case Rejected(err) =>
      var parsed := ParseRetryAfter(err.retryAfter, script.toNumber, script.parseDate, script.clock(attempt));
      if parsed.Success? && Retryable(err.status) && attempt < policy.maxRetries {
        RunEndsAtLastAttempt(attempt + 1, policy, script);
        assert attempt + 1 + |RunFrom(attempt + 1, policy, script).delays| == attempt + |RunFrom(attempt, policy, script).delays|;
      }
  }

  /** Scaling a non-negative amount by a fraction below one cannot enlarge it. */
  lemma ScaleBelowOne(u: real, b: real)
    requires 0.0 <= u < 1.0 && 0.0 <= b
    ensures 0.0 <= u * b <= b
  {
    assert b - u * b == (1.0 - u) * b;
  }

  /** A fifth of an amount in `[0, b]`, rounded down, lies in `[0, floor(b / 5)]`. */
  lemma FifthFloorBounds(p: real, b: real)
    requires 0.0 <= p <= b
    ensures 0 <= (p * 0.2).Floor <= (b * 0.2).Floor
  {
    FloorMonotone(p * 0.2, b * 0.2);
    FloorMonotone(0.0, p * 0.2);
  }

  lemma FloorMonotone(x: real, y: real)
    requires x <= y
    ensures x.Floor <= y.Floor
  {
  }
}

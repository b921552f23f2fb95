/** The retry policy of src/core/httpClient.ts: `MAX_RETRIES`,
    `isRetryable`, `normalizeError` and the `sendWithRetry` loop.

    The axios exchange is an oracle: `outcomes[k]` is what attempt k+1
    yields, either an HTTP answer (axios is told to accept every status) or
    a transport error without a response. The sleeps are recorded in a
    ghost log of delays instead of being taken. */
module HttpClient {
  import opened Json

  /** What one `httpClient.request` call yields. */
  datatype Exchange =
    | Answered(status: int, body: JValue)
    | TransportError(code: Option<string>, message: string)

  /** The `AxiosError` the loop catches: for an answer with a status
      outside 200..299, `'Request failed'` with the response attached. */
  datatype Failure = Failure(code: Option<string>, status: Option<int>, data: Option<JValue>, message: string)

  /** `HttpClientError(message, { statusCode, code, details })`. The message
      is whatever value the body's fields hold, hence a `JValue`. */
  datatype ClientError = ClientError(message: JValue, statusCode: Option<int>, code: Option<string>, details: Option<JValue>)

  datatype Result = Returned(data: JValue) | Threw(error: ClientError)

  /** `MAX_RETRIES = Math.max(retryCount, 1)` */
  function MaxRetries(retryCount: int): (n: nat)
    ensures n >= 1 && n >= retryCount
    ensures retryCount >= 1 ==> n == retryCount
  {
    if retryCount >= 1 then retryCount else 1
  }

  /** `response.status && response.status >= 200 && response.status < 300` */
  predicate Succeeded(e: Exchange): (ok: bool)
    ensures ok <==> e.Answered? && e.status / 100 == 2
  {
    e.Answered? && 200 <= e.status < 300
  }

  /** The error the loop sees for an exchange that did not succeed. */
  function AsFailure(e: Exchange): (f: Failure)
    requires !Succeeded(e)
    ensures e.Answered? ==> f == Failure(None, Some(e.status), Some(e.body), "Request failed")
    ensures e.TransportError? ==> f.status.None? && f.data.None? && f.code == e.code && f.message == e.message
  {
    match e
    case Answered(status, body) => Failure(None, Some(status), Some(body), "Request failed")
    case TransportError(code, message) => Failure(code, None, None, message)
  }

  /** `isRetryable(error)`: a timeout, a 429, a 5xx, or no status at all. */
  predicate IsRetryable(f: Failure): (retry: bool)
    ensures !retry <==> f.code != Some("ECONNABORTED") && f.status.Some? && f.status.value < 500 && f.status.value != 429
  {
    || f.code == Some("ECONNABORTED")
    || f.status == Some(429)
    || (f.status.Some? && f.status.value >= 500)
    || f.status.None?
  }

  /** `data?.[key]` on a response body that may not be an object. */
  function BodyField(data: Option<JValue>, key: string): (r: Option<JValue>)
    ensures r.Some? <==> data.Some? && data.value.JObj? && key in data.value.fields
    ensures r.Some? ==> r.value == data.value.fields[key]
  {
    if data.Some? && data.value.JObj? && key in data.value.fields then Some(data.value.fields[key]) else None
  }

  /** `normalizeError(error)`: the message is the body's truthy
      `error_description`, else its truthy `error`, else the transport
      message; status, code and body are carried over. */
  function NormalizeError(f: Failure): (e: ClientError)
    ensures e.statusCode == f.status && e.code == f.code && e.details == f.data
    ensures BodyField(f.data, "error_description").Some? && Truthy(f.data.value.fields["error_description"])
            ==> e.message == f.data.value.fields["error_description"]
    ensures (!(BodyField(f.data, "error_description").Some? && Truthy(f.data.value.fields["error_description"]))
             && BodyField(f.data, "error").Some? && Truthy(f.data.value.fields["error"]))
            ==> e.message == f.data.value.fields["error"]
    ensures (!(BodyField(f.data, "error_description").Some? && Truthy(f.data.value.fields["error_description"]))
             && !(BodyField(f.data, "error").Some? && Truthy(f.data.value.fields["error"])))
            ==> e.message == JStr(f.message)
  {
    var message := Or(BodyField(f.data, "error_description"), Or(BodyField(f.data, "error"), JStr(f.message)));
    ClientError(message, f.status, f.code, f.data)
  }

  /** One run of the loop from attempt `attempt` (0-based) on: its result,
      the number of attempts made in all, and the delays slept from here. */
  datatype Run = Run(result: Result, attempts: nat, delays: seq<int>)

  /** What `sendWithRetry` does from attempt `attempt + 1` on. Each failure
      that is retryable, before the last allowed attempt, is followed by a
      sleep of `delayMs` times the number of attempts made so far. */
  function Retry(maxRetries: nat, delayMs: int, outcomes: seq<Exchange>, attempt: nat): (run: Run)
    requires attempt < maxRetries <= |outcomes|
    ensures attempt < run.attempts <= maxRetries
    ensures |run.delays| == run.attempts - attempt - 1
    ensures forall k :: 0 <= k < |run.delays| ==> run.delays[k] == delayMs * (attempt + k + 1)
    ensures forall k :: attempt <= k < run.attempts - 1 ==> !Succeeded(outcomes[k]) && IsRetryable(AsFailure(outcomes[k]))
    ensures run.result.Returned? <==> Succeeded(outcomes[run.attempts - 1])
    ensures run.result.Returned? ==> run.result.data == outcomes[run.attempts - 1].body
    ensures run.result.Threw? ==> run.result.error == NormalizeError(AsFailure(outcomes[run.attempts - 1]))
    ensures run.result.Threw? ==> !IsRetryable(AsFailure(outcomes[run.attempts - 1])) || run.attempts == maxRetries
    decreases maxRetries - attempt
  {
    var outcome := outcomes[attempt];
    if Succeeded(outcome) then Run(Returned(outcome.body), attempt + 1, [])
    else
      var error := AsFailure(outcome);
      var next := attempt + 1;
      if !(IsRetryable(error) && next < maxRetries) then Run(Threw(NormalizeError(error)), next, [])
      else
        var rest := Retry(maxRetries, delayMs, outcomes, next);
        Run(rest.result, rest.attempts, [delayMs * next] + rest.delays)
  }

  /** `run` with `delays` slept before it. */
  function Prefixed(delays: seq<int>, run: Run): Run {
    Run(run.result, run.attempts, delays + run.delays)
  }

  /** `sendWithRetry(request)` with `retryCount` and `retryDelayMs` from the
      configuration. `attempts` is the final value of `attempt`; `delays`
      logs every `await delay(…)`. */
  method SendWithRetry(retryCount: int, retryDelayMs: int, outcomes: seq<Exchange>)
    returns (r: Result, attempts: nat, ghost delays: seq<int>)
    requires MaxRetries(retryCount) <= |outcomes|
    ensures r == Retry(MaxRetries(retryCount), retryDelayMs, outcomes, 0).result
    ensures attempts == Retry(MaxRetries(retryCount), retryDelayMs, outcomes, 0).attempts
    ensures delays == Retry(MaxRetries(retryCount), retryDelayMs, outcomes, 0).delays
  {
    var maxRetries := MaxRetries(retryCount);
    var attempt := 0;
    delays := [];
    while attempt < maxRetries
      invariant attempt < maxRetries
      invariant |delays| == attempt
      invariant Retry(maxRetries, retryDelayMs, outcomes, 0) == Prefixed(delays, Retry(maxRetries, retryDelayMs, outcomes, attempt))
      decreases maxRetries - attempt
    {
      ghost var here := Retry(maxRetries, retryDelayMs, outcomes, attempt);
      var outcome := outcomes[attempt];
      if Succeeded(outcome) {
        assert here == Run(Returned(outcome.body), attempt + 1, []);
        assert delays + [] == delays;
        return Returned(outcome.body), attempt + 1, delays;
      }
      var error := AsFailure(outcome);
      attempt := attempt + 1;
      var shouldRetry := IsRetryable(error) && attempt < maxRetries;
      if !shouldRetry {
        assert here == Run(Threw(NormalizeError(error)), attempt, []);
        assert delays + [] == delays;
        return Threw(NormalizeError(error)), attempt, delays;
      }
      ghost var rest := Retry(maxRetries, retryDelayMs, outcomes, attempt);
      assert here == Prefixed([retryDelayMs * attempt], rest);
      assert delays + ([retryDelayMs * attempt] + rest.delays) == (delays + [retryDelayMs * attempt]) + rest.delays;
      delays := delays + [retryDelayMs * attempt];
    }
    assert false;
  }

  /** Linear backoff: the k-th sleep (1-based) lasts `delayMs * k`, so the
      sleeps grow strictly when the configured delay is positive, and there
      is one sleep fewer than there are attempts. */
  lemma BackoffIsLinear(retryCount: int, delayMs: int, outcomes: seq<Exchange>)
    requires MaxRetries(retryCount) <= |outcomes|
    ensures var run := Retry(MaxRetries(retryCount), delayMs, outcomes, 0);
      && |run.delays| == run.attempts - 1
      && (forall k :: 0 <= k < |run.delays| ==> run.delays[k] == delayMs * (k + 1))
      && (delayMs > 0 ==> forall k :: 0 < k < |run.delays| ==> run.delays[k - 1] < run.delays[k])
  {
    var run := Retry(MaxRetries(retryCount), delayMs, outcomes, 0);
    forall k | 0 < k < |run.delays|
      ensures delayMs > 0 ==> run.delays[k - 1] < run.delays[k]
    {
      assert run.delays[k] - run.delays[k - 1] == delayMs;
    }
  }

  /** A success on the first attempt returns its body at once, without any
      sleep; a non-retryable failure there (a 400, a 404) is thrown at once. */
  lemma FirstAttemptDecides(retryCount: int, delayMs: int, outcomes: seq<Exchange>)
    requires MaxRetries(retryCount) <= |outcomes|
    requires Succeeded(outcomes[0]) || !IsRetryable(AsFailure(outcomes[0]))
    ensures var run := Retry(MaxRetries(retryCount), delayMs, outcomes, 0);
      && run.attempts == 1 && run.delays == []
      && (Succeeded(outcomes[0]) ==> run.result == Returned(outcomes[0].body))
      && (!Succeeded(outcomes[0]) ==> run.result == Threw(NormalizeError(AsFailure(outcomes[0]))))
  {
  }

  /** With retries configured to 0 or fewer there is still exactly one
      attempt, and even a retryable failure is thrown. */
  lemma AtLeastOneAttempt(retryCount: int, delayMs: int, outcomes: seq<Exchange>)
    requires retryCount <= 1 && 1 <= |outcomes|
    ensures var run := Retry(MaxRetries(retryCount), delayMs, outcomes, 0);
      run.attempts == 1 && run.delays == []
  {
  }

  /** Failures that are all retryable use up every allowed attempt and the
      last one is thrown. */
  lemma RetryableFailuresExhaustAttempts(retryCount: int, delayMs: int, outcomes: seq<Exchange>)
    requires MaxRetries(retryCount) <= |outcomes|
    requires forall k :: 0 <= k < |outcomes| ==> !Succeeded(outcomes[k]) && IsRetryable(AsFailure(outcomes[k]))
    ensures var n := MaxRetries(retryCount);
      var run := Retry(n, delayMs, outcomes, 0);
      && run.attempts == n
      && run.result == Threw(NormalizeError(AsFailure(outcomes[n - 1])))
  {
  }

  /** A 429 and a 503 are retried, a 404 is not, and neither is a status-0
      answer, which counts as a status. */
  lemma RetryClassification(body: JValue)
    ensures IsRetryable(AsFailure(Answered(429, body))) && IsRetryable(AsFailure(Answered(503, body)))
    ensures !IsRetryable(AsFailure(Answered(404, body))) && !IsRetryable(AsFailure(Answered(0, body)))
    ensures forall c :: IsRetryable(AsFailure(TransportError(c, "timeout")))
  {
  }
}

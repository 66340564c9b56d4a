/**
 * What the two Redis adapters share: the configuration a Redis client is created with,
 * and the reconnect strategy `_retry`, which both adapters define identically.
 */
module RedisClient {
  import opened Js

  /** A created Redis client: where it connects and whether `_retry` is installed as its retry strategy. */
  datatype ClientConfig = ClientConfig(host: string, port: int, retryStrategy: bool)

  /**
   * What the Redis library passes to a retry strategy: the code of the connection
   * error (`None` when there is no error or it has no string code) and the attempt number.
   */
  datatype RetryOptions = RetryOptions(errorCode: Option<string>, attempt: int)

  /**
   * What a retry strategy answers: an `Error` (give up, reporting it), `undefined` (give up
   * with the library's own error), or a number (reconnect after that many milliseconds).
   */
  datatype RetryDecision = RefuseConnection(message: string) | StopRetrying | RetryAfter(delayMs: int)

  const ECONNREFUSED: string := "ECONNREFUSED"
  const REFUSED_MESSAGE: string := "The server refused the connection"
  const MAX_ATTEMPT: int := 10
  const DELAY_STEP_MS: int := 500
  const MAX_DELAY_MS: int := 3000

  /**
   * `_retry`: a refused connection is never retried; past attempt 10 the client gives up;
   * otherwise it waits 500 ms per attempt, capped at 3 s.
   */
  function Retry(options: RetryOptions): (d: RetryDecision)
    ensures d.RefuseConnection? <==> options.errorCode == Some(ECONNREFUSED)
    ensures d.RefuseConnection? ==> d.message == REFUSED_MESSAGE
    ensures d.StopRetrying? <==> options.errorCode != Some(ECONNREFUSED) && options.attempt > MAX_ATTEMPT
    ensures d.RetryAfter? ==> d.delayMs <= MAX_DELAY_MS
    ensures d.RetryAfter? ==> d.delayMs == options.attempt * DELAY_STEP_MS || d.delayMs == MAX_DELAY_MS
    ensures d.RetryAfter? && options.attempt >= 6 ==> d.delayMs == MAX_DELAY_MS
    ensures d.RetryAfter? && options.attempt <= 6 ==> d.delayMs == options.attempt * DELAY_STEP_MS
  {
    if options.errorCode == Some(ECONNREFUSED) then RefuseConnection(REFUSED_MESSAGE)
    else if options.attempt > MAX_ATTEMPT then StopRetrying
    else RetryAfter(Min(options.attempt * DELAY_STEP_MS, MAX_DELAY_MS))
  }

  function Min(a: int, b: int): int {
    if a <= b then a else b
  }

  /** A later attempt never waits less than an earlier one. */
  lemma RetryDelayNonDecreasing(code: Option<string>, a1: int, a2: int)
    requires a1 <= a2
    requires Retry(RetryOptions(code, a2)).RetryAfter?
    ensures Retry(RetryOptions(code, a1)).RetryAfter?
    ensures Retry(RetryOptions(code, a1)).delayMs <= Retry(RetryOptions(code, a2)).delayMs
  {
  }

  /** The total time spent waiting over attempts `1..n` when every attempt fails without a refusal. */
  function TotalDelay(code: Option<string>, n: nat): int
    requires code != Some(ECONNREFUSED)
    requires n <= MAX_ATTEMPT
  {
    if n == 0 then 0 else TotalDelay(code, n - 1) + Retry(RetryOptions(code, n)).delayMs
  }

  /**
   * A client that keeps failing for any reason other than a refusal waits 22.5 s in all
   * (0.5 + 1 + 1.5 + 2 + 2.5 + 5 * 3 s) before it gives up on attempt 11.
   */
  lemma TotalBackoffBeforeGivingUp(code: Option<string>)
    requires code != Some(ECONNREFUSED)
    ensures TotalDelay(code, MAX_ATTEMPT) == 22500
    ensures Retry(RetryOptions(code, MAX_ATTEMPT + 1)) == StopRetrying
  {
    assert TotalDelay(code, 5) == 7500 by {
      assert TotalDelay(code, 1) == 500;
      assert TotalDelay(code, 2) == 1500;
      assert TotalDelay(code, 3) == 3000;
      assert TotalDelay(code, 4) == 5000;
    }
    assert TotalDelay(code, 6) == 10500;
    assert TotalDelay(code, 7) == 13500;
    assert TotalDelay(code, 8) == 16500;
    assert TotalDelay(code, 9) == 19500;
  }

  /** `createRedisClient` / `_createRedisClient`: a client with `_retry` installed. */
  function CreateRedisClient(host: string, port: int): (c: ClientConfig)
    ensures c.host == host && c.port == port && c.retryStrategy
  {
    ClientConfig(host, port, true)
  }
}

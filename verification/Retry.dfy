/** Backoff between the attempts of a request, and the loop that makes them (s2-sdk/src/retry.rs, s2-sdk/src/api.rs). */
module Retry {
  import opened Wrappers
  import opened Records

  const U32_MAX: nat := 0xFFFF_FFFF

  /** A duration is a number of nanoseconds; the longest has 2^64 - 1 seconds and 999999999 nanoseconds. */
  type Duration = d: nat | d <= DURATION_MAX

  const NANOS: nat := 1_000_000_000
  const DURATION_MAX: nat := 0x1_0000_0000_0000_0000 * NANOS - 1

  // ---------- Base delays ----------

  function Pow2(n: nat): (p: nat)
    ensures p > n
  {
    if n == 0 then 1 else 2 * Pow2(n - 1)
  }

  lemma {:induction false} Pow2Monotonic(n: nat, m: nat)
    requires n <= m
    ensures Pow2(n) <= Pow2(m)
  {
    if n < m {
      Pow2Monotonic(n, m - 1);
    }
  }

  lemma Pow2Of32()
    ensures Pow2(31) <= U32_MAX && Pow2(32) == U32_MAX + 1
  {
    assert Pow2(8) == 256;
    assert Pow2(16) == 256 * Pow2(8);
    assert Pow2(24) == 256 * Pow2(16);
    assert Pow2(32) == 256 * Pow2(24);
  }

  /** `2u32.saturating_pow(n)` */
  function SaturatingPow2(n: nat): nat {
    if Pow2(n) > U32_MAX then U32_MAX else Pow2(n)
  }

  function SaturatingMul(d: Duration, k: nat): Duration {
    if d * k > DURATION_MAX then DURATION_MAX else d * k
  }

  /** The n-th base delay as the code computes it. */
  function BaseDelay(minDelay: Duration, maxDelay: Duration, n: nat): Duration {
    Min(SaturatingMul(minDelay, SaturatingPow2(n)), maxDelay)
  }

  /** The n-th base delay as the configuration's documentation gives it (s2-sdk/src/types.rs:304-309). */
  function DocumentedDelay(minDelay: Duration, maxDelay: Duration, n: nat): Duration {
    Min(minDelay * Pow2(n), maxDelay)
  }

  /**
    The code's delay is the documented one except from the 33rd retry on, when the power of two has saturated before
    the largest delay was reached.
   */
  lemma DelayIsAsDocumented(minDelay: Duration, maxDelay: Duration, n: nat)
    ensures BaseDelay(minDelay, maxDelay, n) == DocumentedDelay(minDelay, maxDelay, n)
      <==> n < 32 || minDelay == 0 || minDelay * U32_MAX >= maxDelay
  {
    Pow2Of32();
    if n < 32 {
      Pow2Monotonic(n, 31);
    } else {
      Pow2Monotonic(32, n);
      if minDelay > 0 {
        MulIncreases(minDelay, U32_MAX, Pow2(n));
      }
    }
  }

  /** One nanosecond at least, no effective maximum: the 33rd retry waits a nanosecond less than documented. */
  lemma DelayFallsShort()
    ensures BaseDelay(1, DURATION_MAX, 32) == U32_MAX < DocumentedDelay(1, DURATION_MAX, 32)
  {
    Pow2Of32();
  }

  lemma MulIncreases(a: nat, x: nat, y: nat)
    requires a > 0 && x < y
    ensures a * x < a * y
  {}

  lemma MulMonotonic(a: nat, x: nat, y: nat)
    requires x <= y
    ensures a * x <= a * y
  {}

  lemma BaseDelayMonotonic(minDelay: Duration, maxDelay: Duration, n: nat, m: nat)
    requires n <= m
    ensures BaseDelay(minDelay, maxDelay, n) <= BaseDelay(minDelay, maxDelay, m) <= maxDelay
  {
    Pow2Monotonic(n, m);
    MulMonotonic(minDelay, SaturatingPow2(n), SaturatingPow2(m));
  }

  /** What `next` yields: no delay left, a panic because the jitter overflows the duration, or a delay. */
  datatype Yield = Exhausted | Overflowed | Delay(delay: Duration)

  class RetryBackoff {
    const minBaseDelay: Duration
    const maxBaseDelay: Duration
    const maxRetries: nat
    var curRetry: nat

    ghost predicate Valid()
      reads this
    {
      curRetry <= maxRetries <= U32_MAX
    }

    constructor (minBaseDelay: Duration, maxBaseDelay: Duration, maxRetries: nat)
      requires maxRetries <= U32_MAX
      ensures Valid() && curRetry == 0
      ensures this.minBaseDelay == minBaseDelay && this.maxBaseDelay == maxBaseDelay && this.maxRetries == maxRetries
    {
      this.minBaseDelay, this.maxBaseDelay, this.maxRetries, this.curRetry := minBaseDelay, maxBaseDelay, maxRetries, 0;
    }

    method Reset()
      requires Valid()
      modifies this
      ensures Valid() && curRetry == 0
    {
      curRetry := 0;
    }

    /** `jitter` draws from 0 to the base delay. */
    method Next(jitter: Duration -> Duration) returns (r: Yield)
      requires Valid() && forall base :: jitter(base) <= base
      modifies this
      ensures Valid()
      ensures r.Exhausted? <==> old(curRetry) == maxRetries
      ensures curRetry == if r.Delay? then old(curRetry) + 1 else old(curRetry)
      ensures var base := BaseDelay(minBaseDelay, maxBaseDelay, old(curRetry));
              match r
              case Exhausted => true
              case Overflowed => base > DURATION_MAX / 2
              case Delay(delay) => base <= delay <= 2 * base
    {
      if curRetry == maxRetries {
        return Exhausted;
      }
      var baseDelay := Min(SaturatingMul(minBaseDelay, SaturatingPow2(curRetry)), maxBaseDelay);
      var added := baseDelay + jitter(baseDelay);
      if added > DURATION_MAX {
        return Overflowed;
      }
      curRetry := curRetry + 1;
      return Delay(added);
    }
  }

  // ---------- Responses and errors ----------

  datatype ClientError =
    | Connect
    | Timeout
    | ConnectionClosedEarly
    | RequestCanceled
    | UnexpectedEof
    | ConnectionReset
    | ConnectionAborted
    | ConnectionRefused
    | Others
  {
    predicate IsRetryable() {
      !Others?
    }
  }

  datatype ConditionFailure = FencingTokenMismatch(expected: string) | SeqNumMismatch(tail: nat)

  datatype ApiError =
    | Client(error: ClientError)
    | Url
    | ProtoDecode
    | S2STerminalDecode
    | InvalidHeaderValue
    | Compression
    | AppendConditionFailed(failure: ConditionFailure)
    | ReadUnwritten(tail: nat)
    | Server(status: nat, code: string)
  {
    predicate IsRetryable() {
      match this
      case Server(status, code) =>
        status in {408, 429, 500, 502, 503, 504} || (status == 409 && code == "transaction_conflict")
      case Client(error) => error.IsRetryable()
      case _ => false
    }
  }

  /** The body of a response, as far as the error paths look into it. */
  datatype Body = Payload(bytes: Bytes) | ErrorBody(code: string) | ConditionBody(failure: ConditionFailure)

  datatype Response =
    | Executed(status: nat, body: Body, retryAfter: Option<Duration>)
    | Failed(error: ClientError)

  predicate IsSuccess(status: nat) {
    200 <= status < 300
  }

  /** `into_result`, and with `append` the error handler of an append (s2-sdk/src/api.rs:200-212, 820-840). */
  function IntoResult(append: bool, status: nat, body: Body): Result<Body, ApiError> {
    if IsSuccess(status) then Ok(body)
    else if append && status == 412 then
      if body.ConditionBody? then Err(AppendConditionFailed(body.failure)) else Err(Client(Others))
    else
      if body.ErrorBody? then Err(Server(status, body.code)) else Err(Client(Others))
  }

  function Classify(append: bool, response: Response): Result<Body, ApiError> {
    match response
    case Executed(status, body, _) => IntoResult(append, status, body)
    case Failed(error) => Err(Client(error))
  }

  function RetryAfter(response: Response): Duration {
    if response.Executed? && response.retryAfter.Some? then response.retryAfter.value else 0
  }

  /** The loop goes on after this response if it has retries left. */
  predicate Retryable(append: bool, response: Response) {
    Classify(append, response).Err? && Classify(append, response).error.IsRetryable()
  }

  // ---------- The retry loop ----------

  datatype RetryConfig = RetryConfig(maxAttempts: nat, minBaseDelay: Duration, maxBaseDelay: Duration) {
    predicate Valid() {
      0 < maxAttempts <= U32_MAX
    }
  }

  datatype Outcome = Returned(result: Result<Body, ApiError>) | Panicked

  function AttemptLimit(config: RetryConfig, retryEnabled: bool): nat {
    if retryEnabled then config.maxAttempts else 1
  }

  /**
    Sends a request until a response ends the loop; `server(k)` is the response to attempt k. The attempts made are
    determined: all but the last met a retryable error, and the last one's result is returned because it is not a
    retryable error or because the attempts are used up.
   */
  method Send(
    config: RetryConfig, retryEnabled: bool, append: bool, server: nat -> Response,
    jitter: (nat, Duration) -> Duration)
    returns (outcome: Outcome, attempts: nat, waits: seq<Duration>)
    requires config.Valid() && forall k, base :: jitter(k, base) <= base
    ensures 1 <= attempts <= AttemptLimit(config, retryEnabled)
    ensures forall k | 0 <= k < attempts - 1 :: Retryable(append, server(k))
    ensures outcome.Returned? ==>
      && outcome.result == Classify(append, server(attempts - 1))
      && (Retryable(append, server(attempts - 1)) ==> attempts == AttemptLimit(config, retryEnabled))
    ensures outcome.Panicked? ==> config.maxBaseDelay > DURATION_MAX / 2
    ensures |waits| == attempts - 1
    ensures forall k | 0 <= k < |waits| ::
      var base := BaseDelay(config.minBaseDelay, config.maxBaseDelay, k);
      && waits[k] >= base && waits[k] >= RetryAfter(server(k))
      && (waits[k] <= 2 * base || waits[k] == RetryAfter(server(k)))
  {
    attempts, waits := 0, [];
    var backoff := new RetryBackoff(config.minBaseDelay, config.maxBaseDelay, config.maxAttempts - 1);
    while true
      invariant backoff.Valid() && fresh(backoff)
      invariant backoff.minBaseDelay == config.minBaseDelay && backoff.maxBaseDelay == config.maxBaseDelay
      invariant backoff.maxRetries == config.maxAttempts - 1
      invariant attempts == backoff.curRetry == |waits| && (attempts == 0 || retryEnabled)
      invariant forall k | 0 <= k < attempts :: Retryable(append, server(k))
      invariant forall k | 0 <= k < |waits| ::
        var base := BaseDelay(config.minBaseDelay, config.maxBaseDelay, k);
        && waits[k] >= base && waits[k] >= RetryAfter(server(k))
        && (waits[k] <= 2 * base || waits[k] == RetryAfter(server(k)))
      decreases config.maxAttempts - attempts
    {
      var response := server(attempts);
      attempts := attempts + 1;
      var result := Classify(append, response);
      if result.Ok? || !result.error.IsRetryable() || !retryEnabled {
        return Returned(result), attempts, waits;
      }
      var drawn := backoff.Next(base => jitter(attempts - 1, base));
      match drawn
      case Exhausted => return Returned(result), attempts, waits;
      case Overflowed => return Panicked, attempts, waits;
      case Delay(delay) =>
        var retryAfter := RetryAfter(response);
        waits := waits + [if retryAfter > delay then retryAfter else delay];
    }
  }
}

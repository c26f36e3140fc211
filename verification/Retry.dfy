/** Policy values, the retry loop and its delays (engine/runner.go). Durations are nanoseconds. */
module Retry {
  import opened Records

  const MAX_INT64: int := 0x7FFF_FFFF_FFFF_FFFF

  datatype Config = Config(
    globalConcurrency: int,
    perBMCConcurrency: int,
    retryAttempts: int,
    retryBackoffBase: int,
    retryBackoffMax: int,
    transitionDeadline: int,
    queueSize: int)

  const SECOND: int := 1_000_000_000

  ghost predicate Normal(c: Config) {
    && c.globalConcurrency > 0 && c.perBMCConcurrency > 0 && c.retryAttempts > 0 && c.queueSize > 0
    && 0 < c.retryBackoffBase <= c.retryBackoffMax && c.transitionDeadline > 0
  }

  /** `normalizeConfig`. */
  method NormalizeConfig(cfg: Config) returns (c: Config)
    ensures Normal(c)
    ensures Normal(cfg) ==> c == cfg
    ensures cfg.queueSize <= 0 ==> c.queueSize == 4 * c.globalConcurrency
    ensures cfg.retryBackoffBase > 0 ==> c.retryBackoffBase == cfg.retryBackoffBase
    ensures c.globalConcurrency == (if cfg.globalConcurrency > 0 then cfg.globalConcurrency else 20)
    ensures c.perBMCConcurrency == (if cfg.perBMCConcurrency > 0 then cfg.perBMCConcurrency else 1)
    ensures c.retryAttempts == (if cfg.retryAttempts > 0 then cfg.retryAttempts else 3)
    ensures cfg.retryBackoffBase <= 0 ==> c.retryBackoffBase == SECOND / 4
    ensures var most := if cfg.retryBackoffMax > 0 then cfg.retryBackoffMax else 5 * SECOND;
            c.retryBackoffMax == if most < c.retryBackoffBase then c.retryBackoffBase else most
    ensures c.transitionDeadline == (if cfg.transitionDeadline > 0 then cfg.transitionDeadline else 90 * SECOND)
    ensures cfg.queueSize > 0 ==> c.queueSize == cfg.queueSize
  {
    var globalConcurrency := cfg.globalConcurrency;
    if globalConcurrency <= 0 {
      globalConcurrency := 20;
    }
    var perBMCConcurrency := cfg.perBMCConcurrency;
    if perBMCConcurrency <= 0 {
      perBMCConcurrency := 1;
    }
    var retryAttempts := cfg.retryAttempts;
    if retryAttempts <= 0 {
      retryAttempts := 3;
    }
    var retryBackoffBase := cfg.retryBackoffBase;
    if retryBackoffBase <= 0 {
      retryBackoffBase := SECOND / 4;
    }
    var retryBackoffMax := cfg.retryBackoffMax;
    if retryBackoffMax <= 0 {
      retryBackoffMax := 5 * SECOND;
    }
    if retryBackoffMax < retryBackoffBase {
      retryBackoffMax := retryBackoffBase;
    }
    var transitionDeadline := cfg.transitionDeadline;
    if transitionDeadline <= 0 {
      transitionDeadline := 90 * SECOND;
    }
    var queueSize := cfg.queueSize;
    if queueSize <= 0 {
      queueSize := globalConcurrency * 4;
    }
    if queueSize < 1 {
      queueSize := 1;
    }
    c := Config(globalConcurrency, perBMCConcurrency, retryAttempts, retryBackoffBase, retryBackoffMax,
                transitionDeadline, queueSize);
  }

  // ---------------------------------------------------------------- delays

  function Pow2(n: nat): (r: int)
    ensures r >= 1
  {
    if n == 0 then 1 else 2 * Pow2(n - 1)
  }

  /** `time.Duration(scaled)`: out of range, the conversion saturates or yields the least integer, depending on the
      platform. */
  function ToDuration(scaled: int, saturates: bool): int {
    if scaled <= MAX_INT64 then scaled else if saturates then MAX_INT64 else -MAX_INT64 - 1
  }

  function Min(a: int, b: int): int {
    if a <= b then a else b
  }

  /** The delay of `retryDelay` before jitter. */
  method BackoffDelay(c: Config, attempt: int, saturates: bool) returns (delay: int)
    requires Normal(c) && c.retryBackoffMax <= MAX_INT64
    ensures attempt <= 0 ==> delay == c.retryBackoffBase
    ensures attempt > 0 ==> delay == Min(c.retryBackoffBase * Pow2(attempt - 1), c.retryBackoffMax)
  {
    if attempt <= 0 {
      return c.retryBackoffBase;
    }
    delay := ToDuration(c.retryBackoffBase * Pow2(attempt - 1), saturates);
    if delay > c.retryBackoffMax {
      delay := c.retryBackoffMax;
    }
    if delay < 0 {
      delay := c.retryBackoffMax;
    }
  }

  function Delay(c: Config, attempt: nat): int
    requires attempt > 0
  {
    Min(c.retryBackoffBase * Pow2(attempt - 1), c.retryBackoffMax)
  }

  /** Delays never shrink from one attempt to the next and stay between base and maximum. */
  lemma {:induction false} DelayGrows(c: Config, a: nat, b: nat)
    requires Normal(c) && 0 < a <= b
    ensures c.retryBackoffBase <= Delay(c, a) <= Delay(c, b) <= c.retryBackoffMax
    decreases b - a
  {
    if a < b {
      DelayGrows(c, a + 1, b);
      assert c.retryBackoffBase * Pow2(a) == 2 * (c.retryBackoffBase * Pow2(a - 1));
    } else {
      assert c.retryBackoffBase * Pow2(a - 1) >= c.retryBackoffBase * 1;
    }
  }

  /** `cryptoJitter`: a random value between 0 and `max`. */
  function CryptoJitter(max: int, draw: nat): (r: int)
    ensures 0 <= r
    ensures 0 <= max ==> r <= max
  {
    if max <= 0 then 0 else draw % (max + 1)
  }

  /** `retryDelay`. */
  method RetryDelay(c: Config, attempt: nat, saturates: bool, draw: nat) returns (wait: int)
    requires Normal(c) && c.retryBackoffMax <= MAX_INT64 && attempt > 0
    ensures Delay(c, attempt) <= wait <= Delay(c, attempt) + Delay(c, attempt) / 2
    ensures c.retryBackoffBase <= wait <= LongestWait(c)
  {
    var delay := BackoffDelay(c, attempt, saturates);
    DelayGrows(c, attempt, attempt);
    var jitter := CryptoJitter(delay / 2, draw);
    if jitter < 0 {
      jitter := 0;
    }
    wait := delay + jitter;
  }

  function LongestWait(c: Config): int {
    c.retryBackoffMax + c.retryBackoffMax / 2
  }

  // ---------------------------------------------------------------- the loop

  datatype CallResult = Ok | Retryable | Fatal | Expired

  /** What the retry loop does after call number `attempt`. `Expired` is a context error, which `IsRetryable`
      refuses. */
  datatype Next = Return | Sleep

  function AfterCall(retryAttempts: int, attempt: int, r: CallResult): Next {
    if r.Ok? || attempt == retryAttempts || !r.Retryable? then Return else Sleep
  }

  /** Calls that can come before another one. */
  predicate AllRetryable(calls: seq<CallResult>) {
    forall i :: 0 <= i < |calls| ==> calls[i] == Retryable
  }

  /** The history of a loop that has returned: retryable failures, then one last call. */
  predicate Finished(retryAttempts: int, calls: seq<CallResult>) {
    1 <= |calls| <= retryAttempts && AllRetryable(calls[..|calls| - 1])
  }

  /** `executeWithRetry` against an executor that answers `answer(i)` to call `i` and a sleep that ends early after call
      `i` if `interrupted(i)`. The closing "exhausted" return of the source is not reached. */
  method ExecuteWithRetry(c: Config, answer: nat -> CallResult, draw: nat -> nat, interrupted: nat -> bool,
                          saturates: bool)
    returns (attempts: int, err: Option<CallResult>, ghost calls: seq<CallResult>, waited: int)
    requires Normal(c) && c.retryBackoffMax <= MAX_INT64
    ensures |calls| == attempts && forall i :: 0 <= i < attempts ==> calls[i] == answer(i + 1)
    ensures Finished(c.retryAttempts, calls)
    ensures err.None? <==> calls[attempts - 1].Ok?
    ensures err.Some? ==> err.value == if calls[attempts - 1].Retryable? && attempts < c.retryAttempts then Expired
                                       else calls[attempts - 1]
    ensures calls[attempts - 1].Retryable? && attempts < c.retryAttempts ==> interrupted(attempts)
    ensures 0 <= waited <= (c.retryAttempts - 1) * LongestWait(c)
  {
    attempts, calls, waited := 0, [], 0;
    while attempts < c.retryAttempts
      invariant 0 <= attempts == |calls| && attempts <= c.retryAttempts
      invariant forall i :: 0 <= i < |calls| ==> calls[i] == answer(i + 1)
      invariant AllRetryable(calls)
      invariant attempts < c.retryAttempts
      invariant 0 <= waited <= attempts * LongestWait(c)
    {
      attempts := attempts + 1;
      var r := answer(attempts);
      ghost var before := calls;
      calls := calls + [r];
      assert calls[..|calls| - 1] == before;
      Steps(attempts - 1, c.retryAttempts - 1, LongestWait(c));
      if r.Ok? {
        return attempts, None, calls, waited;
      }
      if attempts == c.retryAttempts || !r.Retryable? {
        return attempts, Some(r), calls, waited;
      }
      var wait := RetryDelay(c, attempts, saturates, draw(attempts));
      Steps(attempts, c.retryAttempts - 1, LongestWait(c));
      waited := waited + wait;
      if interrupted(attempts) {
        return attempts, Some(Expired), calls, waited;
      }
    }
    assert false;
  }

  lemma Steps(a: int, b: int, most: int)
    requires a <= b && most >= 0
    ensures a * most <= b * most
    ensures (a - 1) * most + most == a * most
  {
  }
}

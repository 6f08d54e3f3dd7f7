/** Running a command again after a timeout, with exponential backoff. */
module Retry {
  import opened Wrappers
  import opened TimeMath

  const SIGTERM := 15
  const MAX_RETRIES := 32
  const MAX_DELAY_MS: nat := 300_000
  const SAFETY_LIMIT := MAX_RETRIES + 10

  // ----- backoff

  function Pow(b: nat, e: nat): nat { if e == 0 then 1 else b * Pow(b, e - 1) }

  function SaturatingPow(b: nat, e: nat): U64 { Min(Pow(b, e), U64_MAX) }

  /** The delay before the retry that follows this attempt, as computed in
      saturating 64-bit arithmetic. */
  function BackoffMs(delayMs: U64, backoff: nat, attempt: nat): U64 {
    Min(SaturatingMul(delayMs, SaturatingPow(backoff, attempt)), MAX_DELAY_MS)
  }

  lemma MulGrows(a: nat, b: nat, c: nat)
    requires b <= c
    ensures a * b <= a * c
  {
  }

  lemma {:induction false} PowPositive(b: nat, e: nat)
    requires b > 0
    ensures Pow(b, e) > 0
  {
    if e > 0 { PowPositive(b, e - 1); }
  }

  /** Saturation never shows: the delay is the exact product, capped. */
  lemma BackoffIsExactThenCapped(delayMs: U64, backoff: nat, attempt: nat)
    ensures BackoffMs(delayMs, backoff, attempt) == Min(delayMs * Pow(backoff, attempt), MAX_DELAY_MS)
  {
    var p := Pow(backoff, attempt);
    if delayMs == 0 {
      assert 0 * p == 0 && 0 * SaturatingPow(backoff, attempt) == 0;
    } else if p > U64_MAX {
      MulGrows(p, 1, delayMs);
      MulGrows(U64_MAX, 1, delayMs);
      assert delayMs * p >= MAX_DELAY_MS && delayMs * U64_MAX >= MAX_DELAY_MS;
    }
  }

  /** Later attempts never wait less. */
  lemma BackoffNeverShrinks(delayMs: U64, backoff: nat, attempt: nat)
    requires backoff > 0
    ensures BackoffMs(delayMs, backoff, attempt) <= BackoffMs(delayMs, backoff, attempt + 1)
  {
    BackoffIsExactThenCapped(delayMs, backoff, attempt);
    BackoffIsExactThenCapped(delayMs, backoff, attempt + 1);
    var p := Pow(backoff, attempt);
    MulGrows(p, 1, backoff);
    assert p <= backoff * p;
    MulGrows(delayMs, p, backoff * p);
  }

  /** The delay after an attempt. Without backoff it is the configured one, which
      no cap applies to. */
  function DelayAfter(retryDelay: Duration, backoff: nat, attempt: nat): Duration {
    if backoff > 1 then FromMillis(BackoffMs(DurationMs(retryDelay), backoff, attempt)) else retryDelay
  }

  lemma DelayIsBackoff(retryDelay: Duration, backoff: nat, attempt: nat)
    requires backoff > 1
    ensures DurationMs(DelayAfter(retryDelay, backoff, attempt)) == BackoffMs(DurationMs(retryDelay), backoff, attempt)
    ensures DelayAfter(retryDelay, backoff, attempt) == ZERO <==> BackoffMs(DurationMs(retryDelay), backoff, attempt) == 0
  {
  }

  /** The cap on delays holds for every attempt exactly if there is a backoff, or the
      configured delay is itself below the cap. */
  lemma CapNeedsBackoff(retryDelay: Duration, backoff: nat)
    ensures (forall attempt: nat :: DurationMs(DelayAfter(retryDelay, backoff, attempt)) <= MAX_DELAY_MS)
            <==> backoff > 1 || DurationMs(retryDelay) <= MAX_DELAY_MS
  {
    if backoff > 1 {
      forall attempt: nat ensures DurationMs(DelayAfter(retryDelay, backoff, attempt)) <= MAX_DELAY_MS {
        DelayIsBackoff(retryDelay, backoff, attempt);
      }
    } else {
      assert DelayAfter(retryDelay, backoff, 0) == retryDelay;
    }
  }

  /** What the first n delays come to. */
  function TotalDelayMs(retryDelay: Duration, backoff: nat, n: nat): nat {
    if n == 0 then 0
    else TotalDelayMs(retryDelay, backoff, n - 1) + DurationMs(DelayAfter(retryDelay, backoff, n - 1))
  }

  lemma TotalGrows(retryDelay: Duration, backoff: nat, n: nat)
    ensures TotalDelayMs(retryDelay, backoff, 0) == 0
    ensures TotalDelayMs(retryDelay, backoff, n + 1)
            == TotalDelayMs(retryDelay, backoff, n) + DurationMs(DelayAfter(retryDelay, backoff, n))
  {
  }

  lemma {:induction false} TotalIsCapped(retryDelay: Duration, backoff: nat, n: nat)
    requires backoff > 1
    ensures TotalDelayMs(retryDelay, backoff, n) <= n * MAX_DELAY_MS
  {
    if n > 0 {
      TotalIsCapped(retryDelay, backoff, n - 1);
      DelayIsBackoff(retryDelay, backoff, n - 1);
    }
  }

  lemma AllTotalsAreCapped(retryDelay: Duration, backoff: nat)
    ensures backoff > 1 ==>
              forall n: nat :: n < MAX_RETRIES ==>
                TotalDelayMs(retryDelay, backoff, n) <= (MAX_RETRIES - 1) * MAX_DELAY_MS
  {
    forall n: nat | backoff > 1 && n < MAX_RETRIES
      ensures TotalDelayMs(retryDelay, backoff, n) <= (MAX_RETRIES - 1) * MAX_DELAY_MS
    {
      TotalIsCapped(retryDelay, backoff, n);
    }
  }

  // ----- the record of attempts

  datatype Status = Completed | Timeout | SignalForwarded

  datatype AttemptResult = AttemptResult(status: Status, exitCode: Option<int>, elapsedMs: U64)

  class Attempts {
    const data: array<AttemptResult>
    var len: nat

    constructor ()
      ensures Valid() && fresh(data) && Contents() == []
    {
      data := new AttemptResult[MAX_RETRIES](_ => AttemptResult(Completed, None, 0));
      len := 0;
    }

    ghost predicate Valid()
      reads this
    {
      data.Length == MAX_RETRIES && len <= MAX_RETRIES
    }

    ghost function Contents(): seq<AttemptResult>
      reads this, data
      requires Valid()
    {
      data[..len]
    }

    /** Add an entry; a full record drops it. */
    method Push(item: AttemptResult)
      requires Valid()
      modifies this, data
      ensures Valid()
      ensures Contents() == if |old(Contents())| < MAX_RETRIES then old(Contents()) + [item] else old(Contents())
    {
      if len < MAX_RETRIES {
        data[len] := item;
        len := len + 1;
      }
    }
  }

  // ----- the loop

  /** What one run of the command came to. */
  datatype Run = Finished(exitCode: Option<int>) | TimedOut | MemoryExceeded | Forwarded

  datatype Error = RunFailed(errno: int) | SafetyLimit | LoopExited

  /** The last run's own result, or the signal that cut a delay short. */
  datatype Outcome = Last(run: Run) | Interrupted(sig: int)

  predicate Retriable(r: Result<Run, int>) { r.Ok? && (r.value.TimedOut? || r.value.MemoryExceeded?) }

  function Entry(r: Run, elapsedMs: U64): AttemptResult {
    match r
    case Finished(code) => AttemptResult(Completed, code, elapsedMs)
    case Forwarded => AttemptResult(SignalForwarded, None, elapsedMs)
    case TimedOut => AttemptResult(Timeout, None, elapsedMs)
    case MemoryExceeded => AttemptResult(Timeout, None, elapsedMs)
  }

  /** The environment: what each run comes to, how long it takes, and whether the
      delay after it runs its course. */
  datatype Env = Env(runs: nat -> Result<Run, int>, times: nat -> U64, delays: nat -> bool) {
    function Run(i: nat): Result<Run, int> { runs(i) }

    function ElapsedMs(i: nat): U64 { times(i) }

    predicate DelayEnds(i: nat) { delays(i) }
  }

  function MaxAttempts(retryCount: nat): nat { Min(retryCount, MAX_RETRIES - 1) + 1 }

  /** The first `started` runs are the ones the policy calls for: each but the
      last timed out and the delay after it ran its course. */
  ghost predicate PolicyFollowed(env: Env, retryDelay: Duration, backoff: nat, started: nat) {
    forall i: nat :: i + 1 < started ==>
      Retriable(env.Run(i)) && (DelayAfter(retryDelay, backoff, i) == ZERO || env.DelayEnds(i))
  }

  /** Every run that returned is recorded, in order, and all but the last timed out. */
  ghost predicate Recorded(env: Env, entries: seq<AttemptResult>) {
    && (forall i :: 0 <= i < |entries| ==>
          env.Run(i).Ok? && entries[i] == Entry(env.Run(i).value, env.ElapsedMs(i)))
    && (forall i :: 0 <= i < |entries| - 1 ==> entries[i].status == Timeout)
  }

  lemma OneMore(env: Env, retryDelay: Duration, backoff: nat, entries: seq<AttemptResult>)
    requires PolicyFollowed(env, retryDelay, backoff, |entries| + 1) && Recorded(env, entries)
    requires env.Run(|entries|).Ok?
    ensures Recorded(env, entries + [Entry(env.Run(|entries|).value, env.ElapsedMs(|entries|))])
    ensures Retriable(env.Run(|entries|)) && (DelayAfter(retryDelay, backoff, |entries|) == ZERO || env.DelayEnds(|entries|)) ==>
              PolicyFollowed(env, retryDelay, backoff, |entries| + 2)
  {
  }

  /** Run until a run is final, the attempts are used up, or a signal arrives. */
  method RunWithRetry(retryCount: nat, retryDelay: Duration, backoff: nat, env: Env, pipeSignal: Option<int>)
      returns (r: Result<Outcome, Error>, attempts: Attempts, started: nat, ghost delayedMs: nat)
    ensures 1 <= started <= MaxAttempts(retryCount) <= MAX_RETRIES
    ensures PolicyFollowed(env, retryDelay, backoff, started)
    ensures fresh(attempts) && attempts.Valid() && Recorded(env, attempts.Contents())
    ensures |attempts.Contents()| == if env.Run(started - 1).Ok? then started else started - 1
    // the only errors are those of a run
    ensures r.Err? ==> env.Run(started - 1).Err? && r.error == RunFailed(env.Run(started - 1).error)
    ensures r.Ok? && r.value.Last? ==>
              && env.Run(started - 1) == Ok(r.value.run)
              && (Retriable(Ok(r.value.run)) ==> started == MaxAttempts(retryCount))
    ensures r.Ok? && r.value.Interrupted? ==>
              && Retriable(env.Run(started - 1)) && started < MaxAttempts(retryCount)
              && DelayAfter(retryDelay, backoff, started - 1) != ZERO && !env.DelayEnds(started - 1)
              && r.value.sig == if pipeSignal.Some? then pipeSignal.value else SIGTERM
    // a delay follows each run but the last, and the last too if it was cut short
    ensures delayedMs == TotalDelayMs(retryDelay, backoff, if r.Ok? && r.value.Interrupted? then started else started - 1)
    ensures backoff > 1 ==> delayedMs <= (MAX_RETRIES - 1) * MAX_DELAY_MS
  {
    TotalGrows(retryDelay, backoff, 0);
    assert PolicyFollowed(env, retryDelay, backoff, 1) && Recorded(env, []);
    AllTotalsAreCapped(retryDelay, backoff);
    var maxAttempts := MaxAttempts(retryCount);
    hide TotalDelayMs, DurationMs, DelayAfter, Min, MaxAttempts, Entry, Recorded, PolicyFollowed;
    hide Env.Run, Env.ElapsedMs, Env.DelayEnds;
    attempts := new Attempts();
    started, delayedMs := 0, 0;
    var safety := 0;
    for attempt := 0 to maxAttempts
      invariant fresh(attempts) && fresh(attempts.data) && attempts.Valid()
      invariant started == attempt == safety == |attempts.Contents()|
      invariant PolicyFollowed(env, retryDelay, backoff, attempt + 1) && Recorded(env, attempts.Contents())
      invariant attempt < maxAttempts
      invariant delayedMs == TotalDelayMs(retryDelay, backoff, attempt)
    {
      safety := safety + 1;
      if safety > SAFETY_LIMIT {
        return Err(SafetyLimit), attempts, started, delayedMs;
      }
      started := attempt + 1;
      var result := env.Run(attempt);
      if result.Err? {
        return Err(RunFailed(result.error)), attempts, started, delayedMs;
      }
      OneMore(env, retryDelay, backoff, attempts.Contents());
      attempts.Push(Entry(result.value, env.ElapsedMs(attempt)));
      if !Retriable(result) || attempt + 1 >= maxAttempts {
        return Ok(Last(result.value)), attempts, started, delayedMs;
      }
      var delay := DelayAfter(retryDelay, backoff, attempt);
      delayedMs := delayedMs + DurationMs(delay);
      TotalGrows(retryDelay, backoff, attempt);
      if delay != ZERO && !env.DelayEnds(attempt) {
        return Ok(Interrupted(if pipeSignal.Some? then pipeSignal.value else SIGTERM)), attempts, started, delayedMs;
      }
    }
    r := Err(LoopExited);
  }
}

/** Result types shared by the modules below. */
module Wrappers {
  datatype Option<+T> = None | Some(value: T)

  datatype Result<+T, +E> = Ok(value: T) | Err(error: E)
}

/** Nanosecond timestamps in a 64-bit word: checked where going backwards would
    be a bug, saturating where overshooting is expected. */
module TimeMath {
  import opened Wrappers

  const U64_MAX: nat := 0xFFFF_FFFF_FFFF_FFFF
  const MAX_TIMER_NS: nat := 0x7FFF_FFFF_FFFF_FFFF

  type U64 = n: int | 0 <= n <= 0xFFFF_FFFF_FFFF_FFFF

  function Min(a: int, b: int): int { if a <= b then a else b }

  function Max(a: int, b: int): int { if a <= b then b else a }

  function ElapsedNs(start: U64, now: U64): Option<U64> {
    if now < start then None else Some(now - start)
  }

  function RemainingNs(now: U64, deadline: U64): U64 {
    if deadline <= now then 0 else deadline - now
  }

  predicate DeadlineReached(now: U64, deadline: U64) { now >= deadline }

  function AdvanceNs(base: U64, offset: U64): U64 {
    if base + offset > U64_MAX then U64_MAX else base + offset
  }

  function TimeToIdleTimeout(lastActivity: U64, now: U64, timeout: U64): Option<U64> {
    match ElapsedNs(lastActivity, now)
    case Some(idle) => Some(if timeout <= idle then 0 else timeout - idle)
    case None => None
  }

  function SaturatingMul(a: U64, b: U64): U64 { Min(a * b, U64_MAX) }

  function SaturatingAdd(a: U64, b: U64): U64 { Min(a + b, U64_MAX) }

  /** A span of time as whole seconds and a remainder below one second. */
  datatype DurationRep = Span(secs: U64, subsecNanos: nat)

  type Duration = d: DurationRep | d.subsecNanos < 1_000_000_000 witness Span(0, 0)

  const ZERO: Duration := Span(0, 0)

  function DurationToNs(d: Duration): (ns: U64)
    ensures ns <= MAX_TIMER_NS
  {
    Min(SaturatingAdd(SaturatingMul(d.secs, 1_000_000_000), d.subsecNanos), MAX_TIMER_NS)
  }

  function DurationMs(d: Duration): U64 {
    SaturatingAdd(SaturatingMul(d.secs, 1000), d.subsecNanos / 1_000_000)
  }

  function FromMillis(ms: U64): Duration {
    Span(ms / 1000, (ms % 1000) * 1_000_000)
  }

  /** The exact length of a span, with no word size in the way. */
  function ExactNs(d: Duration): nat { d.secs * 1_000_000_000 + d.subsecNanos }

  /** The clamped conversion is the exact length, cut off at the largest value
      a kernel timer accepts. */
  lemma DurationToNsIsClamped(d: Duration)
    ensures DurationToNs(d) == Min(ExactNs(d), MAX_TIMER_NS)
  {
  }
}

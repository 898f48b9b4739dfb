/** Retry settings of a channel and the arithmetic of the retry delay. */
module Resubmit {
  import opened OrderStore

  datatype Settings = Settings(
    enabled: bool,
    maxAttempts: int,
    initialDelay: int,
    multiplier: real,
    maxDelay: int,
    retryOnTimeout: bool,
    scanInterval: int,
    maxPerScan: int,
    minAge: int)

  /** The settings of every channel; fixed while the engine runs. */
  type Config = int -> Settings

  function Normalize(s: Settings): (r: Settings)
    ensures Normal(r) && (Normal(s) ==> r == s)
    ensures r.enabled == s.enabled && r.retryOnTimeout == s.retryOnTimeout
    ensures s.maxAttempts <= 0 ==> r.maxAttempts == 3
    ensures s.initialDelay <= 0 ==> r.initialDelay == 30
    ensures s.multiplier <= 1.0 ==> r.multiplier == 2.0
    ensures s.maxDelay <= 0 ==> r.maxDelay == 600
    ensures s.scanInterval <= 0 ==> r.scanInterval == 30
    ensures s.maxPerScan <= 0 ==> r.maxPerScan == 50
    ensures s.minAge <= 0 ==> r.minAge == 60
  {
    s.(maxAttempts := if s.maxAttempts <= 0 then 3 else s.maxAttempts,
       initialDelay := if s.initialDelay <= 0 then 30 else s.initialDelay,
       multiplier := if s.multiplier <= 1.0 then 2.0 else s.multiplier,
       maxDelay := if s.maxDelay <= 0 then 600 else s.maxDelay,
       scanInterval := if s.scanInterval <= 0 then 30 else s.scanInterval,
       maxPerScan := if s.maxPerScan <= 0 then 50 else s.maxPerScan,
       minAge := if s.minAge <= 0 then 60 else s.minAge)
  }

  predicate Normal(s: Settings) {
    && s.maxAttempts > 0 && s.initialDelay > 0 && s.multiplier > 1.0 && s.maxDelay > 0
    && s.scanInterval > 0 && s.maxPerScan > 0 && s.minAge > 0
  }

  function Pow(b: real, n: nat): real {
    if n == 0 then 1.0 else b * Pow(b, n - 1)
  }

  /** Initial delay times the back-off factor, capped and truncated to whole seconds. */
  function Clamped(s: Settings, factor: real): int {
    WholeSeconds(s.initialDelay as real * factor, s.maxDelay)
  }

  function WholeSeconds(sec: real, max: int): int {
    (if sec > max as real then max as real else sec).Floor
  }

  /** Seconds to wait before attempt number `attempt` (the count after the failure). */
  function RetryDelay(s: Settings, attempt: int): int {
    var a := if attempt <= 0 then 1 else attempt;
    Clamped(s, Pow(s.multiplier, a - 1))
  }

  /**
   `terminal` says that the error text contains a terminal keyword, `retryable` that the
   text or the call error is of a retryable kind.
   */
  predicate ShouldRetry(s: Settings, m: Msg, terminal: bool, retryable: bool) {
    s.enabled && m.r + 1 < s.maxAttempts && !terminal && retryable
  }

  lemma {:induction false} PowMonotone(b: real, m: nat, n: nat)
    requires b > 1.0 && m <= n
    ensures 1.0 <= Pow(b, m) <= Pow(b, n)
    decreases n
  {
    if n > 0 {
      if m == n {
        PowMonotone(b, n - 1, n - 1);
      } else {
        PowMonotone(b, m, n - 1);
      }
      assert Pow(b, n) == b * Pow(b, n - 1) >= 1.0 * Pow(b, n - 1);
    }
  }

  lemma ClampedGrows(s: Settings, x: real, y: real)
    requires Normal(s) && 1.0 <= x <= y
    ensures Clamped(s, x) <= Clamped(s, y) <= s.maxDelay
    ensures Clamped(s, x) >= if s.initialDelay < s.maxDelay then s.initialDelay else s.maxDelay
  {
    var i := s.initialDelay as real;
    var sec, more := i * x, i * y;
    MulGrows(i, x, y);
    SecondsGrow(sec, more, s.initialDelay, s.maxDelay);
    assert Clamped(s, x) == WholeSeconds(sec, s.maxDelay);
    assert Clamped(s, y) == WholeSeconds(more, s.maxDelay);
  }

  lemma SecondsGrow(sec: real, more: real, least: int, max: int)
    requires 0 < least && 0 < max && least as real <= sec <= more
    ensures WholeSeconds(sec, max) <= WholeSeconds(more, max) <= max
    ensures WholeSeconds(sec, max) >= if least < max then least else max
  {
  }

  lemma MulGrows(i: real, x: real, y: real)
    requires i > 0.0 && 1.0 <= x <= y
    ensures i <= i * x <= i * y
  {
    assert i * 1.0 <= i * x;
  }

  /** The delays before capping: the initial one, and each the multiple of the one before. */
  ghost predicate BacksOff(s: Settings, xs: seq<real>) {
    && (xs != [] ==> xs[0] == s.initialDelay as real)
    && (forall j | 0 <= j < |xs| - 1 :: xs[j + 1] == xs[j] * s.multiplier)
  }

  lemma {:induction false} BackOffIsPower(s: Settings, xs: seq<real>, j: nat)
    requires BacksOff(s, xs) && j < |xs|
    ensures xs[j] == s.initialDelay as real * Pow(s.multiplier, j)
    decreases j
  {
    if j > 0 {
      BackOffIsPower(s, xs, j - 1);
      Regroup(s.initialDelay as real, s.multiplier, Pow(s.multiplier, j - 1));
      assert xs[j - 1 + 1] == xs[j - 1] * s.multiplier;
    }
  }

  lemma Regroup(i: real, b: real, p: real)
    ensures i * p * b == i * (b * p)
  {
  }

  /** The delay before attempt `a` is the a-th of them, cut to whole seconds and to the largest one. */
  lemma RetryDelayBacksOff(s: Settings, xs: seq<real>, a: int)
    requires BacksOff(s, xs) && 1 <= a <= |xs|
    ensures RetryDelay(s, a) == if xs[a - 1] > s.maxDelay as real then s.maxDelay else xs[a - 1].Floor
    ensures a == 1 ==> forall b | b <= 0 :: RetryDelay(s, b) == RetryDelay(s, 1)
  {
    BackOffIsPower(s, xs, a - 1);
  }

  /** Back-off: later attempts never wait less, and no wait leaves [min(initial, max), max]. */
  lemma RetryDelayGrows(s: Settings, a: int, b: int)
    requires Normal(s) && a <= b
    ensures RetryDelay(s, a) <= RetryDelay(s, b) <= s.maxDelay
    ensures RetryDelay(s, a) >= if s.initialDelay < s.maxDelay then s.initialDelay else s.maxDelay
  {
    var m := if a <= 0 then 0 else a - 1;
    var n := if b <= 0 then 0 else b - 1;
    PowMonotone(s.multiplier, m, n);
    ClampedGrows(s, Pow(s.multiplier, m), Pow(s.multiplier, n));
  }

  lemma MulBound(a: int, b: int, c: int)
    requires a <= b && c >= 0
    ensures a * c <= b * c
  {
  }
}

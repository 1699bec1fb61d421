// services/metadata/internal/purge/sweeper.go: the retry delays of a purge job
// and the hour buckets the sweeper scans for it.
module SweepWindow {
  import opened Common

  // Durations and instants are whole nanoseconds.
  const HOUR: int := 3_600_000_000_000
  const MINUTE: int := 60_000_000_000

  datatype Config = Config(initialDelay: int, maxDelay: int, multiplier: real, maxAttempts: int)

  // NewSweeper replaces unusable settings by defaults.
  function Normalize(cfg: Config): (r: Config)
    ensures Usable(r)
    ensures Usable(cfg) ==> r == cfg
    ensures cfg.initialDelay <= 0 ==> r.initialDelay == 60_000_000_000
    ensures cfg.maxDelay <= 0 ==> r.maxDelay == 3_600_000_000_000
    ensures cfg.multiplier < 1.0 ==> r.multiplier == 2.0
    ensures cfg.maxAttempts <= 0 ==> r.maxAttempts == 10
  {
    Config(if cfg.initialDelay <= 0 then MINUTE else cfg.initialDelay,
           if cfg.maxDelay <= 0 then HOUR else cfg.maxDelay,
           if cfg.multiplier < 1.0 then 2.0 else cfg.multiplier,
           if cfg.maxAttempts <= 0 then 10 else cfg.maxAttempts)
  }

  predicate Usable(cfg: Config) {
    cfg.initialDelay > 0 && cfg.maxDelay > 0 && cfg.multiplier >= 1.0 && cfg.maxAttempts > 0
  }

  // ---------------------------------------------------------------- backoff

  function Times(d: int, m: real): int {
    (d as real * m).Floor
  }

  // d multiplied n times, no further once it has reached the cap.
  function Grow(d: int, n: nat, cfg: Config): int
    decreases n
  {
    if n == 0 || d >= cfg.maxDelay then d else Grow(Times(d, cfg.multiplier), n - 1, cfg)
  }

  // The delay scheduled by the claim that finds the job at this attempt count.
  function Backoff(attempts: nat, cfg: Config): int {
    Max(Min(Grow(cfg.initialDelay, Max(attempts - 1, 0), cfg), cfg.maxDelay), 0)
  }

  method ComputeBackoff(attempts: nat, cfg: Config) returns (d: int)
    ensures d == Backoff(attempts, cfg)
  {
    var n: int := attempts - 1;
    if n < 0 {
      n := 0;
    }
    d := cfg.initialDelay;
    var i := 0;
    while i < n && d < cfg.maxDelay
      invariant 0 <= i <= n
      invariant Grow(d, n - i, cfg) == Grow(cfg.initialDelay, n, cfg)
      decreases n - i
    {
      d := Times(d, cfg.multiplier);
      i := i + 1;
    }
    if d > cfg.maxDelay {
      d := cfg.maxDelay;
    }
    if d < 0 {
      d := 0;
    }
  }

  lemma TimesGrows(d: int, m: real)
    requires d >= 0 && m >= 1.0
    ensures Times(d, m) >= d
  {
    assert d as real * m - d as real == d as real * (m - 1.0);
    assert d as real * (m - 1.0) >= 0.0;
  }

  lemma {:induction false} GrowIsMonotone(d: int, n: nat, cfg: Config)
    requires Usable(cfg) && d >= 0
    ensures d <= Grow(d, n, cfg) <= Grow(d, n + 1, cfg)
    decreases n
  {
    if d < cfg.maxDelay {
      TimesGrows(d, cfg.multiplier);
      if n > 0 {
        GrowIsMonotone(Times(d, cfg.multiplier), n - 1, cfg);
      }
    }
  }

  // Delays never shrink from one attempt to the next, and never exceed the cap.
  lemma {:induction false} BackoffIsMonotoneAndCapped(a: nat, b: nat, cfg: Config)
    requires Usable(cfg) && a <= b
    ensures 0 <= Backoff(a, cfg) <= Backoff(b, cfg) <= cfg.maxDelay
    decreases b
  {
    if a < b {
      BackoffIsMonotoneAndCapped(a, b - 1, cfg);
      if b >= 2 {
        GrowIsMonotone(cfg.initialDelay, b - 2, cfg);
      }
    }
  }

  lemma {:induction false} GrowOnce(d: int, n: nat, cfg: Config)
    ensures var g := Grow(d, n, cfg);
      Grow(d, n + 1, cfg) == if g >= cfg.maxDelay then g else Times(g, cfg.multiplier)
    decreases n
  {
    if n > 0 && d < cfg.maxDelay {
      GrowOnce(Times(d, cfg.multiplier), n - 1, cfg);
    }
  }

  // The delay before the multiplication that the next attempt would add.
  function Base(attempts: nat, cfg: Config): int {
    Grow(cfg.initialDelay, Max(attempts - 1, 0), cfg)
  }

  // The delay is meant to follow the attempts after the claim, and is computed from
  // those before it. The claim waits as meant exactly for the first attempt, once
  // the growth is at the cap, or when multiplying does not move the delay.
  lemma ClaimWaitsAsMeantExactlyWhen(attempts: nat, cfg: Config)
    requires Usable(cfg)
    ensures Backoff(attempts, cfg) == Backoff(attempts + 1, cfg)
      <==> attempts == 0 || Base(attempts, cfg) >= cfg.maxDelay
           || Times(Base(attempts, cfg), cfg.multiplier) == Base(attempts, cfg)
  {
    if attempts > 0 {
      GrowOnce(cfg.initialDelay, attempts - 1, cfg);
      GrowIsMonotone(cfg.initialDelay, attempts - 1, cfg);
    }
  }

  // Doubling from any base below half the cap: the second claim waits the base
  // where the attempts after it call for twice as long.
  lemma SecondClaimWaitsHalf(cfg: Config)
    requires Usable(cfg) && cfg.multiplier == 2.0 && 2 * cfg.initialDelay < cfg.maxDelay
    ensures Backoff(1, cfg) == cfg.initialDelay && Backoff(2, cfg) == 2 * cfg.initialDelay
  {
    assert Times(cfg.initialDelay, 2.0) == 2 * cfg.initialDelay;
    assert Grow(cfg.initialDelay, 1, cfg) == Grow(Times(cfg.initialDelay, 2.0), 0, cfg);
  }

  // All the time a job can spend waiting for its first n claims.
  function TotalDelay(n: nat, cfg: Config): int {
    if n == 0 then 0 else TotalDelay(n - 1, cfg) + Backoff(n - 1, cfg)
  }

  lemma {:induction false} TotalDelayIsCapped(n: nat, cfg: Config)
    requires Usable(cfg)
    ensures 0 <= TotalDelay(n, cfg) <= n * cfg.maxDelay
  {
    if n > 0 {
      TotalDelayIsCapped(n - 1, cfg);
      BackoffIsMonotoneAndCapped(n - 1, n - 1, cfg);
      assert n * cfg.maxDelay == (n - 1) * cfg.maxDelay + cfg.maxDelay;
    }
  }

  // ---------------------------------------------------------------- buckets

  // purgeActiveBucket: the hour an instant falls in.
  function Bucket(t: int): int {
    t / HOUR
  }

  function Lookback(cfg: Config): int {
    Max(cfg.maxAttempts * (cfg.maxDelay / HOUR) + 2, 24)
  }

  method DueBuckets(now: int, cfg: Config) returns (buckets: seq<int>)
    requires Usable(cfg)
    ensures forall b :: b in buckets <==> Bucket(now) - Lookback(cfg) <= b <= Bucket(now)
    ensures Distinct(buckets) && |buckets| == Lookback(cfg) + 1
    // The hours back to a margin of two past all retries at the cap, at least a day.
    ensures forall b :: b in buckets <==>
      now / 3_600_000_000_000 - Max(cfg.maxAttempts * (cfg.maxDelay / 3_600_000_000_000) + 2, 24) <= b <= now / 3_600_000_000_000
  {
    var lookback := cfg.maxAttempts * (cfg.maxDelay / HOUR) + 2;
    if lookback < 24 {
      lookback := 24;
    }
    buckets := [];
    for i := 0 to lookback + 1
      invariant |buckets| == i
      invariant forall k :: 0 <= k < i ==> buckets[k] == Bucket(now) - k
    {
      buckets := buckets + [Bucket(now) - i];
    }
    forall b | Bucket(now) - Lookback(cfg) <= b <= Bucket(now) ensures b in buckets {
      assert buckets[Bucket(now) - b] == b;
    }
  }

  // The bucket of a job created then is among those scanned now.
  predicate Scanned(created: int, now: int, cfg: Config) {
    Bucket(now) - Lookback(cfg) <= Bucket(created) <= Bucket(now)
  }

  lemma YoungJobIsScanned(created: int, now: int, cfg: Config)
    requires 0 <= now - created <= Lookback(cfg) * HOUR
    ensures Scanned(created, now, cfg)
  {
    assert now == HOUR * Bucket(now) + now % HOUR;
    assert created == HOUR * Bucket(created) + created % HOUR;
    assert HOUR * (Bucket(now) - Bucket(created)) < (Lookback(cfg) + 1) * HOUR;
  }

  // The scan window reaches exactly Lookback hours back: jobs up to some age are
  // scanned at every moment if and only if that age is within the window.
  lemma WindowIsExactly(age: int, cfg: Config)
    requires age >= 0
    ensures (forall created, now :: 0 <= now - created <= age ==> Scanned(created, now, cfg))
      <==> age <= Lookback(cfg) * HOUR
  {
    var reach := Lookback(cfg) * HOUR;
    if age <= reach {
      forall created, now | 0 <= now - created <= age ensures Scanned(created, now, cfg) {
        YoungJobIsScanned(created, now, cfg);
      }
    } else {
      var created, now := HOUR - 1, HOUR + reach;
      assert Bucket(created) == 0;
      assert now == (Lookback(cfg) + 1) * HOUR;
      assert Bucket(now) == Lookback(cfg) + 1;
      assert !Scanned(created, now, cfg);
    }
  }

  // The longest a job can live while it may still retry, with the margin of
  // the sizing rule.
  function Lifetime(cfg: Config): int
    requires Usable(cfg)
  {
    TotalDelay(cfg.maxAttempts, cfg) + 2 * HOUR
  }

  // With a retry cap of whole hours no job leaves the window while it can retry.
  lemma WholeHourCapsAreCovered(created: int, now: int, cfg: Config)
    requires Usable(cfg) && cfg.maxDelay % HOUR == 0
    requires 0 <= now - created <= Lifetime(cfg)
    ensures Scanned(created, now, cfg)
  {
    TotalDelayIsCapped(cfg.maxAttempts, cfg);
    var h := cfg.maxDelay / HOUR;
    assert cfg.maxDelay == h * HOUR;
    assert cfg.maxAttempts * cfg.maxDelay == (cfg.maxAttempts * h) * HOUR;
    YoungJobIsScanned(created, now, cfg);
  }

  // The sizing rule counts whole hours only. For other caps the promise that no
  // job falls out of the window holds exactly when the lifetime fits the hours.
  lemma CoveredExactlyWhenLifetimeFits(cfg: Config)
    requires Usable(cfg)
    ensures (forall created, now :: 0 <= now - created <= Lifetime(cfg) ==> Scanned(created, now, cfg))
      <==> Lifetime(cfg) <= Lookback(cfg) * HOUR
  {
    TotalDelayIsCapped(cfg.maxAttempts, cfg);
    WindowIsExactly(Lifetime(cfg), cfg);
  }

  lemma {:induction false} FlatDelays(n: nat, cfg: Config)
    requires Usable(cfg) && cfg.initialDelay == cfg.maxDelay
    ensures TotalDelay(n, cfg) == n * cfg.maxDelay
  {
    if n > 0 {
      FlatDelays(n - 1, cfg);
      assert n * cfg.maxDelay == (n - 1) * cfg.maxDelay + cfg.maxDelay;
    }
  }

  // A cap of half an hour and 100 attempts: the job may retry for 50 hours, the
  // window is 24 hours, and a job still within its lifetime is never seen again.
  lemma HalfHourCapLosesJobs()
    ensures var cfg := Config(HOUR / 2, HOUR / 2, 2.0, 100);
      Usable(cfg) && Lookback(cfg) == 24 && TotalDelay(100, cfg) == 50 * HOUR &&
      exists created, now :: 0 <= now - created <= Lifetime(cfg) && !Scanned(created, now, cfg)
  {
    var cfg := Config(HOUR / 2, HOUR / 2, 2.0, 100);
    FlatDelays(100, cfg);
    CoveredExactlyWhenLifetimeFits(cfg);
  }
}

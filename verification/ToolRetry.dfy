/** The shared retry budget and the retry loop of src/agent/tool-retry.ts. */
module ToolRetry {
  /** Rates and delays as exact numbers; `maxRetries` is shared by all calls of a turn. */
  datatype Config = Config(maxRetries: int, baseDelayMs: real, maxDelayMs: real, backoffFactor: real)

  const DEFAULT_CONFIG := Config(2, 500.0, 8000.0, 2.0)

  /** What one attempt came to, with the verdict on its error. */
  datatype Attempt = Success(value: string) | Failure(error: string, retryable: bool) {
    predicate Transient() { Failure? && retryable }
  }

  // ---------------------------------------------------------------- backoff

  function Power(x: real, n: nat): real { if n == 0 then 1.0 else x * Power(x, n - 1) }

  function Min(x: real, y: real): real { if x < y then x else y }

  function Max(x: real, y: real): real { if x < y then y else x }

  /** `Math.round`. */
  function Round(x: real): int { (x + 0.5).Floor }

  function AtLeastOne(attempt: int): int { if attempt < 1 then 1 else attempt }

  function Uncapped(cfg: Config, n: nat): real
    requires 1 <= n
  {
    cfg.baseDelayMs * Power(cfg.backoffFactor, n - 1)
  }

  function Window(n: nat, cfg: Config): real
    requires 1 <= n
  {
    Min(Uncapped(cfg, n), cfg.maxDelayMs)
  }

  function Jitter(rand: real): real { Max(0.0, Min(1.0, rand)) }

  function BackoffMs(attempt: int, cfg: Config, rand: real): int {
    Round(Jitter(rand) * Window(AtLeastOne(attempt), cfg))
  }

  lemma {:induction false} PowerIsAtLeastOne(x: real, n: nat)
    requires 1.0 <= x
    ensures 1.0 <= Power(x, n)
  {
    if n > 0 {
      PowerIsAtLeastOne(x, n - 1);
      Scales(x, 1.0, Power(x, n - 1));
    }
  }

  lemma {:induction false} PowerGrows(x: real, n: nat, m: nat)
    requires 1.0 <= x && n <= m
    ensures 1.0 <= Power(x, n) <= Power(x, m)
  {
    PowerIsAtLeastOne(x, n);
    if n < m {
      PowerGrows(x, n, m - 1);
      PowerIsAtLeastOne(x, m - 1);
      Scales(Power(x, m - 1), 1.0, x);
      assert Power(x, m) == Power(x, m - 1) * x;
    }
  }

  lemma Scales(a: real, x: real, y: real)
    requires 0.0 <= a && x <= y
    ensures a * x <= a * y
  {
  }

  lemma RoundIsMonotone(x: real, y: real)
    requires x <= y
    ensures Round(x) <= Round(y)
  {
  }

  predicate Sensible(cfg: Config) { 0.0 <= cfg.baseDelayMs && 0.0 <= cfg.maxDelayMs && 1.0 <= cfg.backoffFactor }

  lemma WindowGrows(n: nat, m: nat, cfg: Config)
    requires 1 <= n <= m && Sensible(cfg)
    ensures 0.0 <= Window(n, cfg) <= Window(m, cfg) <= cfg.maxDelayMs
  {
    var a, b := Power(cfg.backoffFactor, n - 1), Power(cfg.backoffFactor, m - 1);
    PowerGrows(cfg.backoffFactor, n - 1, m - 1);
    Scales(cfg.baseDelayMs, a, b);
    Scales(cfg.baseDelayMs, 0.0, a);
  }

  lemma JitterShrinks(rand: real, window: real)
    requires 0.0 <= window
    ensures 0 <= Round(Jitter(rand) * window) <= Round(window)
  {
    var jitter := Jitter(rand);
    Scales(window, jitter, 1.0);
    Scales(window, 0.0, jitter);
    RoundIsMonotone(jitter * window, window);
  }

  lemma FullJitter(attempt: int, cfg: Config)
    ensures BackoffMs(attempt, cfg, 1.0) == Round(Window(AtLeastOne(attempt), cfg))
    ensures BackoffMs(attempt, cfg, 0.0) == 0
  {
    var window := Window(AtLeastOne(attempt), cfg);
    assert Jitter(1.0) == 1.0 && Jitter(0.0) == 0.0;
    assert 1.0 * window == window && 0.0 * window == 0.0;
  }

  /** Full jitter: any delay up to the capped exponential one, which later attempts never lower. */
  lemma BackoffIsJittered(cfg: Config, attempt: int, later: int, rand: real)
    requires Sensible(cfg) && attempt <= later
    ensures 0 <= BackoffMs(attempt, cfg, rand) <= BackoffMs(attempt, cfg, 1.0) <= Round(cfg.maxDelayMs)
    ensures BackoffMs(attempt, cfg, 1.0) <= BackoffMs(later, cfg, 1.0)
    ensures BackoffMs(attempt, cfg, 0.0) == 0
  {
    var n, m := AtLeastOne(attempt), AtLeastOne(later);
    WindowGrows(n, m, cfg);
    JitterShrinks(rand, Window(n, cfg));
    RoundIsMonotone(Window(n, cfg), Window(m, cfg));
    RoundIsMonotone(Window(n, cfg), cfg.maxDelayMs);
    FullJitter(attempt, cfg);
    FullJitter(later, cfg);
  }

  function Times(x: real, y: real): real { x * y }

  function Grown(cfg: Config, delay: real): real { Min(Times(cfg.backoffFactor, delay), cfg.maxDelayMs) }

  /** The first delay is the base, and each later one the factor times the one before, all capped. */
  function Delay(cfg: Config, n: nat): real
    requires 1 <= n
  {
    if n == 1 then Min(cfg.baseDelayMs, cfg.maxDelayMs) else Grown(cfg, Delay(cfg, n - 1))
  }

  function Share(rand: real, delay: real): int { Round(rand * delay) }

  lemma WindowStep(cfg: Config, n: nat)
    requires Sensible(cfg) && 1 <= n
    ensures Window(n + 1, cfg) == Grown(cfg, Window(n, cfg))
  {
    var uncapped := Uncapped(cfg, n);
    NextUncapped(cfg, n, uncapped);
    CapsAlike(cfg, uncapped);
  }

  lemma NextUncapped(cfg: Config, n: nat, uncapped: real)
    requires 1 <= n && uncapped == Uncapped(cfg, n)
    ensures Uncapped(cfg, n + 1) == Times(cfg.backoffFactor, uncapped)
  {
    Commutes(cfg.baseDelayMs, cfg.backoffFactor, Power(cfg.backoffFactor, n - 1));
  }

  lemma FirstWindow(cfg: Config)
    ensures Window(1, cfg) == Min(cfg.baseDelayMs, cfg.maxDelayMs)
  {
    assert cfg.baseDelayMs * Power(cfg.backoffFactor, 0) == cfg.baseDelayMs;
  }

  lemma SameGrowth(cfg: Config, n: nat, window: real, delay: real)
    requires Sensible(cfg) && 1 <= n && Window(n, cfg) == window == delay
    ensures Window(n + 1, cfg) == Grown(cfg, delay)
  {
    WindowStep(cfg, n);
  }

  lemma {:induction false} WindowIsDelay(cfg: Config, n: nat)
    requires Sensible(cfg) && 1 <= n
    ensures Window(n, cfg) == Delay(cfg, n)
  {
    if n == 1 {
      FirstWindow(cfg);
    } else {
      WindowIsDelay(cfg, n - 1);
      SameGrowth(cfg, n - 1, Window(n - 1, cfg), Delay(cfg, n - 1));
    }
  }

  lemma BackoffIsShare(cfg: Config, attempt: nat, rand: real, delay: real)
    requires 1 <= attempt && 0.0 <= rand <= 1.0 && Window(attempt, cfg) == delay
    ensures BackoffMs(attempt, cfg, rand) == Share(rand, delay)
  {
    assert AtLeastOne(attempt) == attempt && Jitter(rand) == rand;
  }

  /** Retry n sleeps a share of its delay, as large as the number drawn. */
  lemma {:induction false} BackoffIsExponential(cfg: Config, attempt: nat, rand: real)
    requires Sensible(cfg) && 1 <= attempt && 0.0 <= rand <= 1.0
    ensures BackoffMs(attempt, cfg, rand) == Share(rand, Delay(cfg, attempt))
  {
    WindowIsDelay(cfg, attempt);
    BackoffIsShare(cfg, attempt, rand, Delay(cfg, attempt));
  }

  /** A cap before the growth changes nothing under the cap after it. */
  lemma CapsAlike(cfg: Config, delay: real)
    requires Sensible(cfg)
    ensures Grown(cfg, delay) == Grown(cfg, Min(delay, cfg.maxDelayMs))
  {
    if cfg.maxDelayMs <= delay {
      GrowsPast(cfg.backoffFactor, cfg.maxDelayMs);
      GrowsMore(cfg.backoffFactor, cfg.maxDelayMs, delay);
    }
  }

  lemma GrowsPast(factor: real, delay: real)
    requires 1.0 <= factor && 0.0 <= delay
    ensures delay <= Times(factor, delay)
  {
    Scales(delay, 1.0, factor);
  }

  lemma GrowsMore(factor: real, less: real, more: real)
    requires 1.0 <= factor && less <= more
    ensures Times(factor, less) <= Times(factor, more)
  {
    Scales(factor, less, more);
  }

  lemma Commutes(a: real, b: real, c: real)
    ensures a * (b * c) == b * (a * c)
  {
  }

  // ---------------------------------------------------------------- budget and loop

  function Budget(cfg: Config): nat { if 0 < cfg.maxRetries then cfg.maxRetries else 0 }

  class ToolRetryBudget {
    const cfg: Config
    var remaining: nat

    constructor (cfg: Config)
      ensures this.cfg == cfg && remaining == Budget(cfg)
      ensures remaining == (if cfg.maxRetries <= 0 then 0 else cfg.maxRetries)
    {
      this.cfg := cfg;
      remaining := Budget(cfg);
    }

    predicate CanRetry()
      reads this
    {
      remaining > 0
    }

    method Consume() returns (spent: bool)
      modifies this
      ensures spent == (old(remaining) > 0)
      ensures remaining == if spent then old(remaining) - 1 else old(remaining)
    {
      if remaining == 0 {
        return false;
      }
      remaining := remaining - 1;
      return true;
    }

    method Reset()
      modifies this
      ensures remaining == Budget(cfg)
    {
      remaining := Budget(cfg);
    }
  }

  /** How many of the first `budget` attempts fail transiently in a row: the retries that will be made. */
  function Retries(fn: nat -> Attempt, from: nat, budget: nat): nat
    decreases budget
  {
    if budget == 0 || !fn(from).Transient() then 0 else 1 + Retries(fn, from + 1, budget - 1)
  }

  /** `fn(k)` is what attempt k comes to. Delays are those slept before the retries. */
  method ExecuteToolWithRetry(fn: nat -> Attempt, budget: ToolRetryBudget, cfg: Config, rand: nat -> real)
    returns (last: Attempt, delays: seq<int>)
    modifies budget
    ensures var n := Retries(fn, 0, old(budget.remaining));
            && last == fn(n)
            && budget.remaining == old(budget.remaining) - n
            && |delays| == n
            && forall k :: 0 <= k < n ==> delays[k] == BackoffMs(k + 1, cfg, rand(k))
  {
    var attempt: nat := 0;
    delays := [];
    while true
      invariant attempt <= old(budget.remaining) && budget.remaining == old(budget.remaining) - attempt
      invariant Retries(fn, 0, old(budget.remaining)) == attempt + Retries(fn, attempt, budget.remaining)
      invariant |delays| == attempt
      invariant forall k :: 0 <= k < attempt ==> delays[k] == BackoffMs(k + 1, cfg, rand(k))
      decreases budget.remaining
    {
      last := fn(attempt);
      if !last.Transient() || !budget.CanRetry() {
        return;
      }
      var spent := budget.Consume();
      attempt := attempt + 1;
      delays := delays + [BackoffMs(attempt, cfg, rand(attempt - 1))];
    }
  }

  /** The call is retried exactly while it fails transiently and the budget lasts. */
  lemma {:induction false} RetriesAreExact(fn: nat -> Attempt, from: nat, budget: nat)
    ensures var n := Retries(fn, from, budget);
            && n <= budget
            && (forall k: nat :: from <= k < from + n ==> fn(k).Transient())
            && (n == budget || !fn(from + n).Transient())
    decreases budget
  {
    if budget > 0 && fn(from).Transient() {
      RetriesAreExact(fn, from + 1, budget - 1);
    }
  }
}

/**
 * The cross-turn guard of src/agent/expensive-turn-guard.ts: it charges every model turn an
 * estimated prefill cost, counts sterile expensive turns in a sliding window and pauses the
 * inbox, with exponentially growing pauses, when too many fall in one window.
 */
module ExpensiveTurnGuard {
  import opened Wrappers
  import opened Seqs

  datatype Config = Config(
    enabled: bool,
    windowMs: int,
    minTurns: int,
    minPromptTokens: int,
    minProductiveOutputTokens: int,
    flagToolCallingSterileTurns: bool,
    baseBackoffMs: int,
    maxBackoffMs: int,
    notifyCooldownMs: int,
    coldTtftMs: int)

  /** What the environment reader guarantees of every configuration it builds. */
  predicate ValidConfig(cfg: Config) {
    && 0 < cfg.windowMs && 0 < cfg.minTurns && 0 < cfg.minPromptTokens
    && 0 <= cfg.minProductiveOutputTokens
    && 0 < cfg.baseBackoffMs && 0 < cfg.maxBackoffMs
    && 0 < cfg.notifyCooldownMs && 0 < cfg.coldTtftMs
  }

  /** One completed model turn. Absent tool and cache-creation counts are 0. */
  datatype Sample = Sample(
    now: int,
    inputTokens: int,
    outputTokens: int,
    toolCallCount: int,
    cacheRead: Option<int>,
    cacheCreation: int,
    prefixCacheBusted: bool,
    ttftMs: Option<int>)

  datatype Stored = Stored(sample: Sample, prefill: int)

  datatype Decision =
    | Ok
    | Pause(turnCount: int, inputTokens: int, prefillTokens: int, outputTokens: int,
            toolCallCount: int, backoffMs: int, pauseUntil: int, notify: bool)

  /** The mutable fields of the guard object. */
  datatype State = State(
    samples: seq<Stored>,
    totalExpensiveSamples: nat,
    pauseUntil: int,
    tripCount: nat,
    lastNotifyAt: int)

  const Fresh := State([], 0, 0, 0, 0)

  function Max(a: int, b: int): int { if a < b then b else a }
  function Min(a: int, b: int): int { if a < b then a else b }

  function Pow2(n: nat): (r: int)
    ensures 1 <= r
  {
    if n == 0 then 1 else 2 * Pow2(n - 1)
  }

  // ---------------------------------------------------------------- prefill cost

  /** The provider's cache telemetry proves that the prefix was hot. */
  predicate CacheProven(s: Sample) {
    && s.cacheRead.Some?
    && var input := Max(0, s.inputTokens);
       var read := s.cacheRead.value;
       || (read <= input && 20 * (input - read) < input)
       || (input < read && 0 < read)
  }

  /** A slow first token on a large prompt with no proof of a hot prefix. */
  predicate ColdStart(s: Sample, cfg: Config) {
    && s.ttftMs.Some? && cfg.coldTtftMs <= s.ttftMs.value
    && cfg.minPromptTokens <= Max(0, s.inputTokens)
    && !CacheProven(s)
  }

  function EstimatePrefill(s: Sample, previous: Option<Stored>, cfg: Config): int {
    var input := Max(0, s.inputTokens);
    var create := Max(0, s.cacheCreation);
    var base :=
      if s.cacheRead.Some? then
        var read := Max(0, s.cacheRead.value);
        if read <= input then input - read + create else input + create
      else if previous.Some? && previous.value.sample.inputTokens < input then
        input - previous.value.sample.inputTokens
      else
        input;
    var afterBust := if s.prefixCacheBusted then Max(base, input) else base;
    var afterCold := if ColdStart(s, cfg) then Max(afterBust, input) else afterBust;
    Max(0, afterCold)
  }

  // ---------------------------------------------------------------- one window

  function InWindow(cfg: Config, now: int): Stored -> bool {
    (s: Stored) => now - s.sample.now <= cfg.windowMs
  }

  predicate IsHighPrefill(cfg: Config, s: Stored) { cfg.minPromptTokens <= s.prefill }

  function HighPrefillInWindow(cfg: Config, now: int): Stored -> bool {
    (s: Stored) => now - s.sample.now <= cfg.windowMs && IsHighPrefill(cfg, s)
  }

  function InputOf(s: Stored): int { Max(0, s.sample.inputTokens) }
  function PrefillOf(s: Stored): int { Max(0, s.prefill) }
  function OutputOf(s: Stored): int { Max(0, s.sample.outputTokens) }
  function ToolsOf(s: Stored): int { Max(0, s.sample.toolCallCount) }

  predicate IsSterileExpensive(cfg: Config, s: Stored, windowTotalOutput: int) {
    && IsHighPrefill(cfg, s)
    && OutputOf(s) < cfg.minProductiveOutputTokens
    && (|| ToolsOf(s) == 0
        || (cfg.flagToolCallingSterileTurns && windowTotalOutput < cfg.minProductiveOutputTokens))
  }

  function Sterile(cfg: Config, total: int): Stored -> bool {
    (s: Stored) => IsSterileExpensive(cfg, s, total)
  }

  function SterileInWindow(cfg: Config, now: int, total: int): Stored -> bool {
    (s: Stored) => now - s.sample.now <= cfg.windowMs && IsSterileExpensive(cfg, s, total)
  }

  function WindowTotalOutput(cfg: Config, now: int, samples: seq<Stored>): int {
    Sum(OutputOf, Filter(HighPrefillInWindow(cfg, now), samples))
  }

  /** Sterile expensive samples still inside the window at time `now`. */
  function CountedAt(cfg: Config, now: int, samples: seq<Stored>): seq<Stored> {
    Filter(SterileInWindow(cfg, now, WindowTotalOutput(cfg, now, samples)), samples)
  }

  // ---------------------------------------------------------------- one turn

  function Last(samples: seq<Stored>): Option<Stored> {
    if samples == [] then None else Some(samples[|samples| - 1])
  }

  function Backoff(cfg: Config, trips: nat): int {
    Min(cfg.maxBackoffMs, cfg.baseBackoffMs * Pow2(trips))
  }

  /** The verdict on the counted samples, and the fields a pause changes. */
  function Conclude(cfg: Config, st: State, now: int, expensive: seq<Stored>): (State, Decision) {
    if |expensive| < cfg.minTurns then
      (st, Ok)
    else
      var until := now + Backoff(cfg, st.tripCount);
      var notify := cfg.notifyCooldownMs <= now - st.lastNotifyAt;
      (st.(pauseUntil := until,
           tripCount := st.tripCount + 1,
           lastNotifyAt := if notify then now else st.lastNotifyAt),
       Pause(|expensive|, Sum(InputOf, expensive), Sum(PrefillOf, expensive), Sum(OutputOf, expensive),
             Sum(ToolsOf, expensive), Backoff(cfg, st.tripCount), until, notify))
  }

  /** Charge and store an accepted sample, prune the window, and list the samples that count. */
  function Admit(cfg: Config, st: State, sample: Sample): (State, seq<Stored>) {
    var now := sample.now;
    var stored := Stored(sample, EstimatePrefill(sample, Last(st.samples), cfg));
    var pushed := st.samples + [stored];
    var total := WindowTotalOutput(cfg, now, pushed);
    var counted := if IsSterileExpensive(cfg, stored, total) then 1 else 0;
    var pruned := Filter(InWindow(cfg, now), pushed);
    (st.(samples := pruned, totalExpensiveSamples := st.totalExpensiveSamples + counted),
     Filter(Sterile(cfg, total), pruned))
  }

  /** What `record` does to the fields, and the decision it returns. */
  function Step(cfg: Config, st: State, sample: Sample): (State, Decision) {
    if !cfg.enabled || sample.now < st.pauseUntil then
      (st, Ok)
    else
      var (admitted, expensive) := Admit(cfg, st, sample);
      Conclude(cfg, admitted, sample.now, expensive)
  }

  /** The decisions of a whole run of `record` calls. */
  function Run(cfg: Config, st: State, run: seq<Sample>): (r: (State, seq<Decision>))
    ensures |r.1| == |run|
  {
    if run == [] then (st, [])
    else
      var (before, decisions) := Run(cfg, st, run[..|run| - 1]);
      var (after, decision) := Step(cfg, before, run[|run| - 1]);
      (after, decisions + [decision])
  }

  datatype Pacing = Pacing(maxInFlight: int, minSpacingMs: int, perWindowBudget: int)

  const MAX_SAFE_INTEGER := 0x1F_FFFF_FFFF_FFFF

  function ReplayPacing(cfg: Config): Pacing
    requires ValidConfig(cfg)
  {
    if !cfg.enabled then Pacing(1, 0, MAX_SAFE_INTEGER)
    else
      var budget := Max(1, cfg.minTurns - 1);
      Pacing(1, cfg.windowMs / budget + 1, budget)
  }

  class Guard {
    const config: Config
    var samples: seq<Stored>
    var totalExpensiveSamples: nat
    var pauseUntil: int
    var tripCount: nat
    var lastNotifyAt: int

    ghost function Fields(): State
      reads this
    {
      State(samples, totalExpensiveSamples, pauseUntil, tripCount, lastNotifyAt)
    }

    constructor (config: Config)
      ensures this.config == config && Fields() == Fresh
    {
      this.config := config;
      samples, totalExpensiveSamples, pauseUntil, tripCount, lastNotifyAt := [], 0, 0, 0, 0;
    }

    method Record(sample: Sample) returns (decision: Decision)
      modifies this
      ensures (Fields(), decision) == Step(config, old(Fields()), sample)
    {
      if !config.enabled || sample.now < pauseUntil {
        return Ok;
      }
      var expensive := Push(sample);
      decision := Judge(sample.now, expensive);
    }

    /** The first half of `record`: everything up to the threshold test. */
    method Push(sample: Sample) returns (expensive: seq<Stored>)
      modifies this
      ensures (Fields(), expensive) == Admit(config, old(Fields()), sample)
    {
      var now := sample.now;
      var stored := Stored(sample, EstimatePrefill(sample, Last(samples), config));
      samples := samples + [stored];
      var total := WindowTotalOutput(config, now, samples);
      if IsSterileExpensive(config, stored, total) {
        totalExpensiveSamples := totalExpensiveSamples + 1;
      }
      samples := Filter(InWindow(config, now), samples);
      expensive := Filter(Sterile(config, total), samples);
    }

    /** The second half of `record`: the threshold test and the pause. */
    method Judge(now: int, expensive: seq<Stored>) returns (decision: Decision)
      modifies this
      ensures (Fields(), decision) == Conclude(config, old(Fields()), now, expensive)
    {
      if |expensive| < config.minTurns {
        return Ok;
      }
      var backoffMs := Backoff(config, tripCount);
      tripCount := tripCount + 1;
      pauseUntil := now + backoffMs;
      var notify := config.notifyCooldownMs <= now - lastNotifyAt;
      if notify {
        lastNotifyAt := now;
      }
      decision := Pause(|expensive|, Sum(InputOf, expensive), Sum(PrefillOf, expensive),
                        Sum(OutputOf, expensive), Sum(ToolsOf, expensive), backoffMs, pauseUntil, notify);
    }

    /** Everything but the monotonic total starts afresh. */
    method Reset()
      modifies this
      ensures Fields() == Fresh.(totalExpensiveSamples := old(totalExpensiveSamples))
    {
      samples, pauseUntil, tripCount, lastNotifyAt := [], 0, 0, 0;
    }

    method ExpensiveSamplesInWindow(now: int) returns (n: nat)
      ensures n == if config.enabled then |CountedAt(config, now, samples)| else 0
    {
      if !config.enabled {
        return 0;
      }
      var total := WindowTotalOutput(config, now, samples);
      n := |Filter(SterileInWindow(config, now, total), samples)|;
    }

    /** Zero when nothing is counted; otherwise the wait until the oldest counted sample leaves. */
    method MsUntilExpensiveSampleExpiry(now: int) returns (wait: int)
      ensures wait == if config.enabled then WaitAt(config, now, samples) else 0
    {
      if !config.enabled {
        return 0;
      }
      var total := WindowTotalOutput(config, now, samples);
      var inWindow := Filter(SterileInWindow(config, now, total), samples);
      if |inWindow| == 0 {
        return 0;
      }
      var oldest := Oldest(inWindow);
      wait := Max(0, oldest + config.windowMs - now) + 1;
    }
  }

  function Oldest(samples: seq<Stored>): (r: int)
    requires samples != []
    ensures forall s :: s in samples ==> r <= s.sample.now
    ensures exists s :: s in samples && r == s.sample.now
  {
    if |samples| == 1 then
      assert samples[0] in samples;
      samples[0].sample.now
    else
      var rest := Oldest(samples[1..]);
      assert forall s :: s in samples <==> s == samples[0] || s in samples[1..];
      Min(samples[0].sample.now, rest)
  }

  function WaitAt(cfg: Config, now: int, samples: seq<Stored>): int {
    var counted := CountedAt(cfg, now, samples);
    if |counted| == 0 then 0 else Max(0, Oldest(counted) + cfg.windowMs - now) + 1
  }
}

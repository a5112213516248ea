/**
 * The replay-pacing formula of src/agent/expensive-turn-guard.ts: spacing `record` calls by
 * `minSpacingMs` never trips the guard, and no smaller spacing has that property.
 */
module ReplayPacing {
  import opened Wrappers
  import opened Seqs
  import opened ExpensiveTurnGuard

  /** Consecutive calls are at least `gap` apart. Nothing is assumed about the token counts. */
  ghost predicate Paced(run: seq<Sample>, gap: int) {
    forall i :: 0 <= i < |run| - 1 ==> gap <= run[i + 1].now - run[i].now
  }

  ghost predicate NeverPauses(cfg: Config, run: seq<Sample>) {
    forall i :: 0 <= i < |run| ==> Run(cfg, Fresh, run).1[i] == Ok
  }

  /** No run paced at `gap`, however long and whatever it costs, is ever paused. */
  ghost predicate SafeSpacing(cfg: Config, gap: int) {
    forall run :: Paced(run, gap) ==> NeverPauses(cfg, run)
  }

  ghost predicate Spaced(samples: seq<Stored>, gap: int) {
    forall i :: 0 <= i < |samples| - 1 ==> gap <= samples[i + 1].sample.now - samples[i].sample.now
  }

  // ---------------------------------------------------------------- safe

  lemma {:induction false} SpacedSpan(samples: seq<Stored>, gap: nat)
    requires Spaced(samples, gap) && samples != []
    ensures forall s :: s in samples ==> samples[0].sample.now <= s.sample.now
    ensures (|samples| - 1) * gap <= samples[|samples| - 1].sample.now - samples[0].sample.now
  {
    if |samples| > 1 {
      SpacedSpan(samples[1..], gap);
      assert (|samples| - 1) * gap == (|samples[1..]| - 1) * gap + gap;
      assert samples[1] == samples[1..][0];
      assert forall s :: s in samples <==> s == samples[0] || s in samples[1..];
    }
  }

  /** Pruning time-ordered samples drops a prefix. */
  lemma {:induction false} WindowIsSuffix(cfg: Config, samples: seq<Stored>, now: int) returns (k: nat)
    requires Spaced(samples, 0)
    ensures k <= |samples| && Filter(InWindow(cfg, now), samples) == samples[k..]
  {
    if samples == [] {
      k := 0;
    } else if InWindow(cfg, now)(samples[0]) {
      SpacedSpan(samples, 0);
      FilterAll(InWindow(cfg, now), samples);
      k := 0;
    } else {
      k := WindowIsSuffix(cfg, samples[1..], now);
      k := k + 1;
    }
  }

  /** `minTurns - 1` gaps do not fit into one window. */
  ghost predicate Overflows(cfg: Config, gap: int) {
    0 <= gap && cfg.windowMs < (cfg.minTurns - 1) * gap
  }

  lemma PacingOverflows(cfg: Config, gap: int)
    requires ValidConfig(cfg) && cfg.enabled && 2 <= cfg.minTurns
    requires ReplayPacing(cfg).minSpacingMs <= gap
    ensures Overflows(cfg, gap)
  {
    var k := cfg.minTurns - 1;
    var least := cfg.windowMs / k + 1;
    assert cfg.windowMs < k * least;
    assert 0 <= k * (gap - least) == k * gap - k * least;
  }

  /** At most `minTurns - 1` overflowing gaps share a window. */
  lemma FewShareAWindow(cfg: Config, samples: seq<Stored>, gap: int, now: int) returns (k: nat)
    requires ValidConfig(cfg) && Overflows(cfg, gap) && Spaced(samples, gap)
    requires samples != [] && samples[|samples| - 1].sample.now <= now
    ensures k <= |samples| && Filter(InWindow(cfg, now), samples) == samples[k..]
    ensures |samples[k..]| < cfg.minTurns
    ensures cfg.enabled ==> |samples[k..]| <= ReplayPacing(cfg).perWindowBudget == cfg.minTurns - 1
  {
    k := WindowIsSuffix(cfg, samples, now);
    var kept := samples[k..];
    BudgetIsOneLess(cfg, gap);
    if kept != [] {
      FilterMembers(InWindow(cfg, now), samples);
      assert kept[0] in Filter(InWindow(cfg, now), samples);
      KeptAreFew(cfg, kept, gap, now);
    }
  }

  lemma KeptAreFew(cfg: Config, kept: seq<Stored>, gap: int, now: int)
    requires Overflows(cfg, gap) && Spaced(kept, gap) && kept != []
    requires InWindow(cfg, now)(kept[0]) && kept[|kept| - 1].sample.now <= now
    ensures |kept| < cfg.minTurns
  {
    SpacedSpan(kept, gap);
    MoreGapsOverflow(cfg, gap, |kept| - 1);
  }

  lemma BudgetIsOneLess(cfg: Config, gap: int)
    requires ValidConfig(cfg) && Overflows(cfg, gap)
    ensures 2 <= cfg.minTurns
    ensures cfg.enabled ==> ReplayPacing(cfg).perWindowBudget == cfg.minTurns - 1
  {
    GapsAreNeeded(cfg.minTurns - 1, gap, cfg.windowMs);
  }

  lemma GapsAreNeeded(n: int, gap: nat, window: nat)
    requires window < n * gap
    ensures 1 <= n
  {
  }

  lemma MoreGapsOverflow(cfg: Config, gap: int, n: int)
    requires Overflows(cfg, gap)
    ensures cfg.minTurns - 1 <= n ==> cfg.windowMs < n * gap
  {
    if cfg.minTurns - 1 <= n {
      MoreGapsAreLonger(cfg.minTurns - 1, n, gap);
    }
  }

  lemma MoreGapsAreLonger(m: int, n: int, gap: nat)
    requires m <= n
    ensures m * gap <= n * gap
  {
  }

  /** Fields of a guard that has only seen calls up to time `now`, `gap` apart, and never paused. */
  ghost predicate Calm(st: State, gap: int, now: int) {
    && st.pauseUntil == 0
    && Spaced(st.samples, gap)
    && (st.samples != [] ==> st.samples[|st.samples| - 1].sample.now <= now)
  }

  lemma PacedStep(cfg: Config, st: State, x: Sample, gap: int)
    requires ValidConfig(cfg) && cfg.enabled
    requires Overflows(cfg, gap) && Calm(st, gap, x.now - gap)
    ensures Step(cfg, st, x).1 == Ok && Calm(Step(cfg, st, x).0, gap, x.now)
  {
    if st.pauseUntil <= x.now {
      var stored := Stored(x, EstimatePrefill(x, Last(st.samples), cfg));
      var pushed := st.samples + [stored];
      var k := FewShareAWindow(cfg, pushed, gap, x.now);
      var admitted := Admit(cfg, st, x);
      assert admitted.0.samples == pushed[k..];
      assert |admitted.1| <= |pushed[k..]|;
    }
  }

  lemma {:induction false} PacedRunIsCalm(cfg: Config, run: seq<Sample>, gap: int)
    requires ValidConfig(cfg) && cfg.enabled && Overflows(cfg, gap) && Paced(run, gap)
    ensures NeverPauses(cfg, run)
    ensures run == [] ==> Run(cfg, Fresh, run).0 == Fresh
    ensures run != [] ==> Calm(Run(cfg, Fresh, run).0, gap, run[|run| - 1].now)
  {
    if run != [] {
      var n := |run| - 1;
      PacedRunIsCalm(cfg, run[..n], gap);
      assert n > 0 ==> run[n - 1].now <= run[n].now - gap;
      PacedStep(cfg, Run(cfg, Fresh, run[..n]).0, run[n], gap);
    }
  }

  /** With a productive-output floor of 0 no turn is ever sterile. */
  lemma NothingSterile(cfg: Config, st: State, x: Sample)
    requires ValidConfig(cfg) && cfg.minProductiveOutputTokens == 0
    ensures Step(cfg, st, x).1 == Ok
  {
    if cfg.enabled && st.pauseUntil <= x.now {
      var stored := Stored(x, EstimatePrefill(x, Last(st.samples), cfg));
      var pushed := st.samples + [stored];
      FilterNone(Sterile(cfg, WindowTotalOutput(cfg, x.now, pushed)), Filter(InWindow(cfg, x.now), pushed));
    }
  }

  lemma {:induction false} HarmlessConfigNeverPauses(cfg: Config, run: seq<Sample>)
    requires ValidConfig(cfg) && (!cfg.enabled || cfg.minProductiveOutputTokens == 0)
    ensures NeverPauses(cfg, run)
  {
    if run != [] {
      var n := |run| - 1;
      HarmlessConfigNeverPauses(cfg, run[..n]);
      if cfg.enabled {
        NothingSterile(cfg, Run(cfg, Fresh, run[..n]).0, run[n]);
      }
    }
  }

  // ---------------------------------------------------------------- and no smaller gap is

  /** A barren turn at the cost threshold. */
  function SpinSample(cfg: Config, now: int): Sample {
    Sample(now, cfg.minPromptTokens, 0, 0, None, 0, false, None)
  }

  function SpinRun(cfg: Config, gap: nat, n: nat): seq<Sample> {
    seq(n, i => SpinSample(cfg, i * gap))
  }

  function SpinStored(cfg: Config, gap: nat, n: nat): seq<Stored> {
    seq(n, i => Stored(SpinSample(cfg, i * gap), cfg.minPromptTokens))
  }

  /** After n barren turns inside one window all n are stored and counted. */
  lemma SpinAdmits(cfg: Config, st: State, gap: nat, n: nat)
    requires ValidConfig(cfg) && 0 < cfg.minProductiveOutputTokens && n * gap <= cfg.windowMs
    requires st.samples == SpinStored(cfg, gap, n)
    ensures var (admitted, expensive) := Admit(cfg, st, SpinSample(cfg, n * gap));
            admitted.samples == SpinStored(cfg, gap, n + 1) && expensive == SpinStored(cfg, gap, n + 1)
  {
    var x := SpinSample(cfg, n * gap);
    var stored := Stored(x, EstimatePrefill(x, Last(st.samples), cfg));
    assert stored == Stored(x, cfg.minPromptTokens);
    var pushed := st.samples + [stored];
    assert pushed == SpinStored(cfg, gap, n + 1);
    forall i: nat | i <= n
      ensures 0 <= i * gap <= n * gap
    {
      assert n * gap == i * gap + (n - i) * gap;
    }
    FilterAll(InWindow(cfg, n * gap), pushed);
    FilterAll(Sterile(cfg, WindowTotalOutput(cfg, n * gap, pushed)), pushed);
  }

  lemma {:induction false} SpinFills(cfg: Config, gap: nat, n: nat)
    requires ValidConfig(cfg) && cfg.enabled && 0 < cfg.minProductiveOutputTokens
    requires n < cfg.minTurns && (cfg.minTurns - 1) * gap <= cfg.windowMs
    ensures var st := Run(cfg, Fresh, SpinRun(cfg, gap, n)).0;
            st.samples == SpinStored(cfg, gap, n) && st.pauseUntil == 0
  {
    if n != 0 {
      SpinFills(cfg, gap, n - 1);
      assert SpinRun(cfg, gap, n)[..n - 1] == SpinRun(cfg, gap, n - 1);
      SpinFits(cfg, gap, n - 1);
      SpinAdmits(cfg, Run(cfg, Fresh, SpinRun(cfg, gap, n - 1)).0, gap, n - 1);
    }
  }

  lemma SpinFits(cfg: Config, gap: nat, n: nat)
    requires n < cfg.minTurns && (cfg.minTurns - 1) * gap <= cfg.windowMs
    ensures 0 <= n * gap <= cfg.windowMs
  {
    assert (cfg.minTurns - 1) * gap == n * gap + (cfg.minTurns - 1 - n) * gap;
    assert 0 <= (cfg.minTurns - 1 - n) * gap;
  }

  /** `minTurns` barren turns that all fit into one window end in a pause. */
  lemma SpinPauses(cfg: Config, gap: nat)
    requires ValidConfig(cfg) && cfg.enabled && 0 < cfg.minProductiveOutputTokens
    requires (cfg.minTurns - 1) * gap <= cfg.windowMs
    ensures !SafeSpacing(cfg, gap)
  {
    var n := cfg.minTurns - 1;
    var run := SpinRun(cfg, gap, n + 1);
    SpinFills(cfg, gap, n);
    SpinFits(cfg, gap, n);
    assert run[..n] == SpinRun(cfg, gap, n);
    SpinAdmits(cfg, Run(cfg, Fresh, run[..n]).0, gap, n);
    assert Run(cfg, Fresh, run).1[n].Pause?;
    assert !NeverPauses(cfg, run);
    forall i | 0 <= i < |run| - 1
      ensures gap <= run[i + 1].now - run[i].now
    {
      assert (i + 1) * gap - i * gap == gap;
    }
    assert Paced(run, gap);
  }

  lemma GapsFitWindow(w: nat, k: nat, gap: nat)
    requires 0 < k && gap <= w / k
    ensures k * gap <= w
  {
    assert k * gap <= k * (w / k) <= w;
  }

  /**
   * Replay pacing, exactly: a spacing is safe for every run if and only if the guard cannot pause
   * at all, or one turn does not suffice to trip it and the spacing is at least `minSpacingMs`.
   */
  lemma PacingIsSafeExactly(cfg: Config, gap: nat)
    requires ValidConfig(cfg)
    ensures SafeSpacing(cfg, gap)
            <==> || !cfg.enabled
                 || cfg.minProductiveOutputTokens == 0
                 || (2 <= cfg.minTurns && ReplayPacing(cfg).minSpacingMs <= gap)
  {
    if !cfg.enabled || cfg.minProductiveOutputTokens == 0 {
      forall run | Paced(run, gap)
        ensures NeverPauses(cfg, run)
      {
        HarmlessConfigNeverPauses(cfg, run);
      }
    } else if 2 <= cfg.minTurns && ReplayPacing(cfg).minSpacingMs <= gap {
      forall run | Paced(run, gap)
        ensures NeverPauses(cfg, run)
      {
        PacingOverflows(cfg, gap);
        PacedRunIsCalm(cfg, run, gap);
      }
    } else {
      if 2 <= cfg.minTurns {
        GapsFitWindow(cfg.windowMs, cfg.minTurns - 1, gap);
      }
      SpinPauses(cfg, gap);
    }
  }

  /** With the guard off any spacing is safe, and none is asked for. */
  lemma DisabledAsksForNothing(cfg: Config, gap: nat)
    requires ValidConfig(cfg) && !cfg.enabled
    ensures SafeSpacing(cfg, gap) && ReplayPacing(cfg).minSpacingMs <= gap
  {
    PacingIsSafeExactly(cfg, gap);
  }
}

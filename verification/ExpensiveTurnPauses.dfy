/** When src/agent/expensive-turn-guard.ts pauses, for how long, and what its admission queries tell. */
module ExpensiveTurnPauses {
  import opened Wrappers
  import opened Seqs
  import opened ExpensiveTurnGuard

  // ---------------------------------------------------------------- exponential pauses

  function PauseCount(decisions: seq<Decision>): nat {
    if decisions == [] then 0
    else PauseCount(decisions[..|decisions| - 1]) + (if decisions[|decisions| - 1].Pause? then 1 else 0)
  }

  lemma {:induction false} RunPrefix(cfg: Config, run: seq<Sample>, n: nat)
    requires n <= |run|
    ensures Run(cfg, Fresh, run).1[..n] == Run(cfg, Fresh, run[..n]).1
  {
    if n < |run| {
      RunPrefix(cfg, run[..|run| - 1], n);
      assert run[..|run| - 1][..n] == run[..n];
    } else {
      assert run[..n] == run;
    }
  }

  /** The trip counter counts the pauses, and `pauseUntil` is the end of the latest of them. */
  lemma {:induction false} PausesAccumulate(cfg: Config, run: seq<Sample>)
    requires ValidConfig(cfg)
    ensures var (st, decisions) := Run(cfg, Fresh, run);
            && st.tripCount == PauseCount(decisions)
            && forall i :: 0 <= i < |run| && decisions[i].Pause? ==> decisions[i].pauseUntil <= st.pauseUntil
  {
    if run != [] {
      var n := |run| - 1;
      PausesAccumulate(cfg, run[..n]);
      var (before, decisions) := Run(cfg, Fresh, run[..n]);
      var (after, decision) := Step(cfg, before, run[n]);
      assert Run(cfg, Fresh, run).1[..n] == decisions;
      assert forall i :: 0 <= i < n ==> Run(cfg, Fresh, run).1[i] == decisions[i];
      BackoffIsPositive(cfg, before.tripCount);
    }
  }

  lemma BackoffIsPositive(cfg: Config, trips: nat)
    requires ValidConfig(cfg)
    ensures 0 < Backoff(cfg, trips) <= cfg.maxBackoffMs
  {
    assert cfg.baseBackoffMs <= cfg.baseBackoffMs * Pow2(trips);
  }

  /**
   * Pauses never overlap and grow exponentially up to the cap: the k-th pause of a run lasts
   * min(max, base * 2^k), and no later pause begins before it has ended, whatever the clock does.
   */
  lemma {:induction false} PausesNeverOverlap(cfg: Config, run: seq<Sample>, i: nat, j: nat)
    requires ValidConfig(cfg) && i < j < |run|
    requires Run(cfg, Fresh, run).1[i].Pause? && Run(cfg, Fresh, run).1[j].Pause?
    ensures var decisions := Run(cfg, Fresh, run).1;
            && decisions[i].pauseUntil == run[i].now + Backoff(cfg, PauseCount(decisions[..i]))
            && decisions[i].pauseUntil <= run[j].now
  {
    DecisionAt(cfg, run, i);
    DecisionAt(cfg, run, j);
    PausesAccumulate(cfg, run[..i]);
    PausesAccumulate(cfg, run[..j]);
    RunPrefix(cfg, run, i);
    RunPrefix(cfg, run, j);
    assert Run(cfg, Fresh, run).1[i] == Run(cfg, Fresh, run[..j]).1[i];
  }

  /** The i-th decision is the step of the i-th call from the fields the earlier calls left. */
  lemma {:induction false} DecisionAt(cfg: Config, run: seq<Sample>, i: nat)
    requires i < |run|
    ensures Run(cfg, Fresh, run).1[i] == Step(cfg, Run(cfg, Fresh, run[..i]).0, run[i]).1
  {
    RunPrefix(cfg, run, i + 1);
    assert run[..i + 1][..i] == run[..i];
    assert Run(cfg, Fresh, run).1[i] == Run(cfg, Fresh, run).1[..i + 1][i];
  }

  // ---------------------------------------------------------------- what earns a pause

  /** Every pause is backed by enough in-window turns, each above the cost floor and below the output floor. */
  lemma PauseIsEarned(cfg: Config, st: State, x: Sample)
    requires ValidConfig(cfg) && Step(cfg, st, x).1.Pause?
    ensures var d := Step(cfg, st, x).1;
            && cfg.minTurns <= d.turnCount
            && d.turnCount * cfg.minPromptTokens <= d.prefillTokens
            && d.outputTokens <= d.turnCount * (cfg.minProductiveOutputTokens - 1)
            && x.now < d.pauseUntil <= x.now + cfg.maxBackoffMs
  {
    BackoffIsPositive(cfg, st.tripCount);
    var expensive := Admit(cfg, st, x).1;
    SterileBounds(cfg, st, x);
    SumAtLeast(PrefillOf, expensive, cfg.minPromptTokens);
    SumBounds(OutputOf, expensive, 0, cfg.minProductiveOutputTokens - 1);
  }

  lemma SterileBounds(cfg: Config, st: State, x: Sample)
    ensures forall s :: s in Admit(cfg, st, x).1 ==>
              cfg.minPromptTokens <= PrefillOf(s) && 0 <= OutputOf(s) <= cfg.minProductiveOutputTokens - 1
  {
    var stored := Stored(x, EstimatePrefill(x, Last(st.samples), cfg));
    var pushed := st.samples + [stored];
    FilterMembers(Sterile(cfg, WindowTotalOutput(cfg, x.now, pushed)), Filter(InWindow(cfg, x.now), pushed));
  }

  lemma {:induction false} SumAtLeast(f: Stored -> int, xs: seq<Stored>, low: int)
    requires forall x :: x in xs ==> low <= f(x)
    ensures |xs| * low <= Sum(f, xs)
  {
    if xs != [] {
      SumAtLeast(f, xs[1..], low);
    }
  }

  lemma {:induction false} TermBelowSum(xs: seq<Stored>, x: Stored)
    requires x in xs
    ensures OutputOf(x) <= Sum(OutputOf, xs)
  {
    SumAtLeast(OutputOf, xs[1..], 0);
    if x != xs[0] {
      TermBelowSum(xs[1..], x);
    }
  }

  /** The window right after `x` was pushed. */
  function WindowAfter(cfg: Config, st: State, x: Sample): seq<Stored> {
    Filter(HighPrefillInWindow(cfg, x.now), st.samples + [Stored(x, EstimatePrefill(x, Last(st.samples), cfg))])
  }

  /**
   * The tool-calling spin, exactly: when every high-prefill turn of the window called tools, the
   * guard pauses if and only if there are enough of those turns and their own outputs together
   * stay below the productive floor.
   */
  lemma ToolSpinPausesExactly(cfg: Config, st: State, x: Sample)
    requires ValidConfig(cfg) && cfg.enabled && cfg.flagToolCallingSterileTurns && st.pauseUntil <= x.now
    requires forall s :: s in WindowAfter(cfg, st, x) ==> 0 < ToolsOf(s)
    ensures Step(cfg, st, x).1.Pause?
            <==> && cfg.minTurns <= |WindowAfter(cfg, st, x)|
                 && Sum(OutputOf, WindowAfter(cfg, st, x)) < cfg.minProductiveOutputTokens
  {
    var pushed := st.samples + [Stored(x, EstimatePrefill(x, Last(st.samples), cfg))];
    var high := WindowAfter(cfg, st, x);
    var total := WindowTotalOutput(cfg, x.now, pushed);
    var sterile := SterileInWindow(cfg, x.now, total);
    FilterFilter(Sterile(cfg, total), InWindow(cfg, x.now), sterile, pushed);
    FilterMembers(HighPrefillInWindow(cfg, x.now), pushed);
    if total < cfg.minProductiveOutputTokens {
      forall s | s in pushed
        ensures sterile(s) == HighPrefillInWindow(cfg, x.now)(s)
      {
        if s in high {
          TermBelowSum(high, s);
        }
      }
      FilterCongruence(sterile, HighPrefillInWindow(cfg, x.now), pushed);
    } else {
      forall i | 0 <= i < |pushed|
        ensures !sterile(pushed[i])
      {
        assert pushed[i] in pushed;
        assert HighPrefillInWindow(cfg, x.now)(pushed[i]) ==> pushed[i] in high;
      }
      FilterNone(sterile, pushed);
    }
  }

  const LIVE := Config(true, 60000, 4, 100000, 32, true, 300000, 900000, 900000, 15000)

  function ToolTurn(now: int): Sample { Sample(now, 120000, 5, 3, None, 0, false, None) }

  const SPIN := [Stored(ToolTurn(0), 120000), Stored(ToolTurn(1), 120000), Stored(ToolTurn(2), 120000)]
  const SUBSTANTIVE := Sample(10, 120000, 5000, 0, Some(119000), 0, false, None)

  /** A step that adds to the window and does not pause. */
  lemma QuietStep(st: State, x: Sample)
    requires st.pauseUntil <= x.now && |st.samples| <= 3
    requires forall s :: s in st.samples ==> x.now - s.sample.now <= LIVE.windowMs
    requires |st.samples| == 3 ==> EstimatePrefill(x, Last(st.samples), LIVE) < LIVE.minPromptTokens
    ensures var stored := Stored(x, EstimatePrefill(x, Last(st.samples), LIVE));
            && Step(LIVE, st, x).0.samples == st.samples + [stored]
            && Step(LIVE, st, x).0.pauseUntil == st.pauseUntil
  {
    var stored := Stored(x, EstimatePrefill(x, Last(st.samples), LIVE));
    var pushed := st.samples + [stored];
    FilterAll(InWindow(LIVE, x.now), pushed);
    FilterAppend(Sterile(LIVE, WindowTotalOutput(LIVE, x.now, pushed)), st.samples, [stored]);
  }

  lemma SpinPauses(st: State)
    requires st.pauseUntil <= 20 && st.samples == SPIN + [Stored(SUBSTANTIVE, 1000)]
    ensures Step(LIVE, st, ToolTurn(20)).1.Pause?
  {
    var x, cached := ToolTurn(20), Stored(SUBSTANTIVE, 1000);
    var stored := Stored(x, EstimatePrefill(x, Last(st.samples), LIVE));
    var p := HighPrefillInWindow(LIVE, 20);
    assert st.samples + [stored] == SPIN + ([cached] + [stored]);
    FilterAppend(p, SPIN, [cached] + [stored]);
    FilterCons(p, cached, [stored]);
    FilterAll(p, SPIN);
    assert WindowAfter(LIVE, st, x) == SPIN + [stored];
    SumBounds(OutputOf, SPIN + [stored], 0, 5);
    ToolSpinPausesExactly(LIVE, st, x);
  }

  lemma {:induction false} RunOneMore(run: seq<Sample>, x: Sample)
    ensures Run(LIVE, Fresh, run + [x]).0 == Step(LIVE, Run(LIVE, Fresh, run).0, x).0
    ensures Run(LIVE, Fresh, run + [x]).1[|run|] == Step(LIVE, Run(LIVE, Fresh, run).0, x).1
  {
    assert (run + [x])[..|run|] == run;
  }

  lemma {:induction false} FillsWindow(run: seq<Sample>, x: Sample, samples: seq<Stored>, prefill: int)
    requires Run(LIVE, Fresh, run).0.samples == samples && Run(LIVE, Fresh, run).0.pauseUntil == 0
    requires 0 <= x.now <= 20 && |samples| <= 3 && forall s :: s in samples ==> 0 <= s.sample.now
    requires EstimatePrefill(x, Last(samples), LIVE) == prefill && (|samples| == 3 ==> prefill < 100000)
    ensures Run(LIVE, Fresh, run + [x]).0.samples == samples + [Stored(x, prefill)]
    ensures Run(LIVE, Fresh, run + [x]).0.pauseUntil == 0
  {
    QuietStep(Run(LIVE, Fresh, run).0, x);
    RunOneMore(run, x);
  }

  /**
   * A substantive turn served from the cache does not break a spin: 5000 output tokens in the
   * middle of the window leave the pause in place, because only high-prefill turns are summed.
   */
  lemma CachedSubstantiveTurnDoesNotHelp()
    ensures ValidConfig(LIVE)
    ensures var run := [] + [ToolTurn(0)] + [ToolTurn(1)] + [ToolTurn(2)] + [SUBSTANTIVE] + [ToolTurn(20)];
            Run(LIVE, Fresh, run).1[4].Pause?
  {
    var run := [];
    FillsWindow(run, ToolTurn(0), [], 120000);
    run := run + [ToolTurn(0)];
    FillsWindow(run, ToolTurn(1), [] + [SPIN[0]], 120000);
    run := run + [ToolTurn(1)];
    FillsWindow(run, ToolTurn(2), [] + [SPIN[0]] + [SPIN[1]], 120000);
    run := run + [ToolTurn(2)];
    assert [] + [SPIN[0]] + [SPIN[1]] + [SPIN[2]] == SPIN;
    FillsWindow(run, SUBSTANTIVE, SPIN, 1000);
    run := run + [SUBSTANTIVE];
    RunOneMore(run, ToolTurn(20));
    SpinPauses(Run(LIVE, Fresh, run).0);
  }

  // ---------------------------------------------------------------- the replay pump's wait

  /** As time passes the window's output only falls, so a counted sample stays counted until it leaves. */
  lemma OutputFallsWithTime(cfg: Config, samples: seq<Stored>, now: int, later: int)
    requires now <= later
    ensures WindowTotalOutput(cfg, later, samples) <= WindowTotalOutput(cfg, now, samples)
  {
    SumOfFewer(OutputOf, HighPrefillInWindow(cfg, later), HighPrefillInWindow(cfg, now), samples);
  }

  /**
   * The wait is not too long: until it has elapsed every sample counted now is still counted, and their
   * number cannot fall. When it has elapsed the oldest has left the window.
   */
  lemma WaitIsExact(cfg: Config, samples: seq<Stored>, now: int, later: int)
    requires ValidConfig(cfg) && now <= later && CountedAt(cfg, now, samples) != []
    ensures later < now + WaitAt(cfg, now, samples)
            ==> && |CountedAt(cfg, now, samples)| <= |CountedAt(cfg, later, samples)|
                && forall s :: s in CountedAt(cfg, now, samples) ==> s in CountedAt(cfg, later, samples)
    ensures later == now + WaitAt(cfg, now, samples)
            ==> exists s :: s in CountedAt(cfg, now, samples) && s !in CountedAt(cfg, later, samples)
  {
    OutputFallsWithTime(cfg, samples, now, later);
    var before := SterileInWindow(cfg, now, WindowTotalOutput(cfg, now, samples));
    var after := SterileInWindow(cfg, later, WindowTotalOutput(cfg, later, samples));
    FilterMembers(before, samples);
    FilterMembers(after, samples);
    var counted := CountedAt(cfg, now, samples);
    var earliest := Oldest(counted);
    var oldest :| oldest in counted && earliest == oldest.sample.now;
    if later < now + WaitAt(cfg, now, samples) {
      forall s | s in samples && before(s)
        ensures after(s)
      {
        assert s in counted;
      }
      FilterMonotone(before, after, samples);
    } else if later == now + WaitAt(cfg, now, samples) {
      assert oldest in counted && oldest !in CountedAt(cfg, later, samples);
    }
  }
}

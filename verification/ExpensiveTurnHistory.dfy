/** The pruned window of src/agent/expensive-turn-guard.ts against a guard that remembers everything. */
module ExpensiveTurnHistory {
  import opened Wrappers
  import opened Seqs
  import opened ExpensiveTurnGuard

  ghost predicate Ordered(run: seq<Sample>) {
    forall i, j :: 0 <= i <= j < |run| ==> run[i].now <= run[j].now
  }

  // ---------------------------------------------------------------- pruning loses nothing

  /** The same bookkeeping for a guard that never forgets: `samples` is the whole history. */
  function RefAdmit(cfg: Config, st: State, sample: Sample): (State, seq<Stored>) {
    var now := sample.now;
    var stored := Stored(sample, EstimatePrefill(sample, Last(st.samples), cfg));
    var history := st.samples + [stored];
    var counted := if IsSterileExpensive(cfg, stored, WindowTotalOutput(cfg, now, history)) then 1 else 0;
    (st.(samples := history, totalExpensiveSamples := st.totalExpensiveSamples + counted),
     CountedAt(cfg, now, history))
  }

  function RefStep(cfg: Config, st: State, sample: Sample): (State, Decision) {
    if !cfg.enabled || sample.now < st.pauseUntil then
      (st, Ok)
    else
      var (admitted, expensive) := RefAdmit(cfg, st, sample);
      Conclude(cfg, admitted, sample.now, expensive)
  }

  function RefRun(cfg: Config, st: State, run: seq<Sample>): (r: (State, seq<Decision>))
    ensures |r.1| == |run|
  {
    if run == [] then (st, [])
    else
      var (before, decisions) := RefRun(cfg, st, run[..|run| - 1]);
      var (after, decision) := RefStep(cfg, before, run[|run| - 1]);
      (after, decisions + [decision])
  }

  ghost predicate OrderedStored(samples: seq<Stored>) {
    forall i, j :: 0 <= i <= j < |samples| ==> samples[i].sample.now <= samples[j].sample.now
  }

  /** Every sample of `samples` was taken at or before `now`. */
  ghost predicate Until(samples: seq<Stored>, now: int) {
    forall s :: s in samples ==> s.sample.now <= now
  }

  function Pruned(cfg: Config, history: seq<Stored>): seq<Stored> {
    if history == [] then []
    else Filter(InWindow(cfg, history[|history| - 1].sample.now), history)
  }

  /** The pruned guard `s` has exactly the in-window part of the history of `r`, and agrees otherwise. */
  ghost predicate Related(cfg: Config, s: State, r: State) {
    OrderedStored(r.samples) && s == r.(samples := Pruned(cfg, r.samples))
  }

  lemma PrunedKeepsNewest(cfg: Config, history: seq<Stored>)
    requires ValidConfig(cfg)
    ensures Last(Pruned(cfg, history)) == Last(history)
  {
    if history != [] {
      FilterKeepsLast(InWindow(cfg, history[|history| - 1].sample.now), history);
    }
  }

  /** A sample pruned earlier cannot re-enter the window, whichever in-window test is asked later. */
  lemma {:induction false} LaterTestsSeeTheSame(cfg: Config, history: seq<Stored>, x: Stored, later: Stored -> bool)
    requires ValidConfig(cfg) && OrderedStored(history) && Until(history, x.sample.now)
    requires forall s :: later(s) ==> InWindow(cfg, x.sample.now)(s)
    ensures Filter(later, Pruned(cfg, history) + [x]) == Filter(later, history + [x])
  {
    FilterAppend(later, history, [x]);
    FilterAppend(later, Pruned(cfg, history), [x]);
    if history != [] {
      var newest := history[|history| - 1].sample.now;
      assert history[|history| - 1] in history;
      FilterFilter(later, InWindow(cfg, newest), later, history);
    }
  }

  /** On an accepted sample both guards count the same samples and stay related. */
  lemma AdmitRefines(cfg: Config, s: State, r: State, x: Sample)
    requires ValidConfig(cfg) && Related(cfg, s, r) && Until(r.samples, x.now)
    ensures Admit(cfg, s, x).1 == RefAdmit(cfg, r, x).1
    ensures Admit(cfg, s, x).0 == RefAdmit(cfg, r, x).0.(samples := Pruned(cfg, RefAdmit(cfg, r, x).0.samples))
  {
    PrunedKeepsNewest(cfg, r.samples);
    var stored := Stored(x, EstimatePrefill(x, Last(r.samples), cfg));
    var history := r.samples + [stored];
    LaterTestsSeeTheSame(cfg, r.samples, stored, HighPrefillInWindow(cfg, x.now));
    LaterTestsSeeTheSame(cfg, r.samples, stored, InWindow(cfg, x.now));
    var total := WindowTotalOutput(cfg, x.now, history);
    FilterFilter(Sterile(cfg, total), InWindow(cfg, x.now), SterileInWindow(cfg, x.now, total), history);
  }

  lemma HistoryStaysOrdered(history: seq<Stored>, x: Stored)
    requires OrderedStored(history) && Until(history, x.sample.now)
    ensures OrderedStored(history + [x]) && Until(history + [x], x.sample.now)
  {
    forall i | 0 <= i < |history|
      ensures history[i].sample.now <= x.sample.now
    {
      assert history[i] in history;
    }
  }

  lemma StepRefines(cfg: Config, s: State, r: State, x: Sample)
    requires ValidConfig(cfg) && Related(cfg, s, r) && Until(r.samples, x.now)
    ensures Step(cfg, s, x).1 == RefStep(cfg, r, x).1
    ensures Related(cfg, Step(cfg, s, x).0, RefStep(cfg, r, x).0)
    ensures Until(RefStep(cfg, r, x).0.samples, x.now)
  {
    if cfg.enabled && r.pauseUntil <= x.now {
      AdmitRefines(cfg, s, r, x);
      HistoryStaysOrdered(r.samples, Stored(x, EstimatePrefill(x, Last(r.samples), cfg)));
    }
  }

  lemma {:induction false} RunRefines(cfg: Config, run: seq<Sample>)
    requires ValidConfig(cfg) && Ordered(run)
    ensures Run(cfg, Fresh, run).1 == RefRun(cfg, Fresh, run).1
    ensures Related(cfg, Run(cfg, Fresh, run).0, RefRun(cfg, Fresh, run).0)
    ensures run != [] ==> Until(RefRun(cfg, Fresh, run).0.samples, run[|run| - 1].now)
  {
    if run != [] {
      var n := |run| - 1;
      RunRefines(cfg, run[..n]);
      StepRefines(cfg, Run(cfg, Fresh, run[..n]).0, RefRun(cfg, Fresh, run[..n]).0, run[n]);
    }
  }

  /**
   * Pruning loses nothing: with non-decreasing timestamps the guard decides exactly as one that
   * remembers every accepted sample, and the admission query answers from the window as from
   * the whole history at every later moment.
   */
  lemma {:induction false} PruningLosesNothing(cfg: Config, run: seq<Sample>, now: int)
    requires ValidConfig(cfg) && Ordered(run)
    requires run != [] ==> run[|run| - 1].now <= now
    ensures Run(cfg, Fresh, run).1 == RefRun(cfg, Fresh, run).1
    ensures Run(cfg, Fresh, run).0.totalExpensiveSamples == RefRun(cfg, Fresh, run).0.totalExpensiveSamples
    ensures CountedAt(cfg, now, Run(cfg, Fresh, run).0.samples)
            == CountedAt(cfg, now, RefRun(cfg, Fresh, run).0.samples)
  {
    RunRefines(cfg, run);
    var history := RefRun(cfg, Fresh, run).0.samples;
    if history != [] {
      assert history[|history| - 1] in history;
      var newest := InWindow(cfg, history[|history| - 1].sample.now);
      FilterFilter(HighPrefillInWindow(cfg, now), newest, HighPrefillInWindow(cfg, now), history);
      var sterile := SterileInWindow(cfg, now, WindowTotalOutput(cfg, now, history));
      FilterFilter(sterile, newest, sterile, history);
    }
  }

  // ---------------------------------------------------------------- prefill is conserved

  /** The samples the pruning guard accepted over a run, each with the charge it recorded. */
  function Accepted(cfg: Config, run: seq<Sample>): seq<Stored> {
    if run == [] then []
    else
      var n := |run| - 1;
      var st := Run(cfg, Fresh, run[..n]).0;
      if !cfg.enabled || run[n].now < st.pauseUntil then Accepted(cfg, run[..n])
      else Accepted(cfg, run[..n]) + [Stored(run[n], EstimatePrefill(run[n], Last(st.samples), cfg))]
  }

  /** Whatever the clock does, the newest accepted sample is the newest of the window. */
  lemma {:induction false} NewestIsKept(cfg: Config, run: seq<Sample>)
    requires ValidConfig(cfg)
    ensures Last(Run(cfg, Fresh, run).0.samples) == Last(Accepted(cfg, run))
  {
    if run != [] {
      var n := |run| - 1;
      NewestIsKept(cfg, run[..n]);
      var st := Run(cfg, Fresh, run[..n]).0;
      FilterKeepsLast(InWindow(cfg, run[n].now),
                      st.samples + [Stored(run[n], EstimatePrefill(run[n], Last(st.samples), cfg))]);
    }
  }

  /** No cache telemetry, no bust flag and no cold start: the charge comes from growth alone. */
  ghost predicate Plain(cfg: Config, run: seq<Sample>) {
    forall i :: 0 <= i < |run| ==> run[i].cacheRead == None && !run[i].prefixCacheBusted && !ColdStart(run[i], cfg)
  }

  ghost predicate Growing(run: seq<Sample>) {
    && (forall i :: 0 <= i < |run| ==> 0 <= run[i].inputTokens)
    && (forall i, j :: 0 <= i < j < |run| ==> run[i].inputTokens < run[j].inputTokens)
  }

  function ChargeOf(s: Stored): int { s.prefill }

  /** The charges of `history` add up to its last input. */
  ghost predicate Conserved(history: seq<Stored>) {
    Sum(ChargeOf, history) == if history == [] then 0 else history[|history| - 1].sample.inputTokens
  }

  lemma GrowthIsConserved(cfg: Config, history: seq<Stored>, x: Sample)
    requires Conserved(history) && x.cacheRead == None && !x.prefixCacheBusted && !ColdStart(x, cfg)
    requires 0 <= x.inputTokens
    requires history != [] ==> history[|history| - 1].sample.inputTokens < x.inputTokens
    ensures Conserved(history + [Stored(x, EstimatePrefill(x, Last(history), cfg))])
  {
    var stored := Stored(x, EstimatePrefill(x, Last(history), cfg));
    SumAppend(ChargeOf, history, [stored]);
    assert Sum(ChargeOf, [stored]) == stored.prefill;
  }

  lemma {:induction false} AcceptedFromRun(cfg: Config, run: seq<Sample>)
    ensures forall s :: s in Accepted(cfg, run) ==> s.sample in run
  {
    if run != [] {
      AcceptedFromRun(cfg, run[..|run| - 1]);
    }
  }

  /**
   * Prefill is conserved: over a growing transcript the charges of the accepted samples add up to the
   * last accepted input, although pauses drop samples and pruning forgets old ones, whatever the clock does.
   */
  lemma {:induction false} PrefillIsConserved(cfg: Config, run: seq<Sample>)
    requires ValidConfig(cfg) && Plain(cfg, run) && Growing(run)
    ensures Conserved(Accepted(cfg, run))
  {
    if run != [] {
      var n := |run| - 1;
      var before := run[..n];
      PrefillIsConserved(cfg, before);
      NewestIsKept(cfg, before);
      var history := Accepted(cfg, before);
      AcceptedFromRun(cfg, before);
      if history != [] {
        assert history[|history| - 1] in history;
      }
      GrowthIsConserved(cfg, history, run[n]);
    }
  }

  /**
   * The bounds on one charge, exactly: it is never negative, and it is at most the input plus the
   * cache-creation tokens unless growth is measured from a previous input below minus that creation.
   */
  lemma ChargeBoundsExactly(cfg: Config, s: Sample, previous: Option<Stored>)
    ensures 0 <= EstimatePrefill(s, previous, cfg)
    ensures EstimatePrefill(s, previous, cfg) <= Max(0, s.inputTokens) + Max(0, s.cacheCreation)
            <==> || s.cacheRead.Some?
                 || previous.None?
                 || 0 <= previous.value.sample.inputTokens + Max(0, s.cacheCreation)
  {
  }
}

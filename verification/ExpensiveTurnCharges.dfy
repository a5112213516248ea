/**
 * What src/agent/expensive-turn-guard.ts charges for a turn, told by when it pauses: which turns must
 * be charged in full, which must not, and exactly which runs with cache telemetry pause.
 */
module ExpensiveTurnCharges {
  import opened Wrappers
  import opened Seqs
  import opened ExpensiveTurnGuard
  import opened ExpensiveTurnHistory
  import opened ExpensiveTurnPauses

  // ---------------------------------------------------------------- prices

  /** The telemetry tells of more than 95% of the input, or of more than the input itself. */
  predicate IsHot(s: Sample) {
    match s.cacheRead
    case None => false
    case Some(r) => if r <= Max(0, s.inputTokens) then 19 * Max(0, s.inputTokens) < 20 * r else 0 < r
  }

  /** A slow first token on a large input that no telemetry shows to be hot. */
  predicate IsCold(cfg: Config, s: Sample) {
    s.ttftMs.Some? && cfg.coldTtftMs <= s.ttftMs.value && cfg.minPromptTokens <= s.inputTokens && !IsHot(s)
  }

  predicate IsForced(cfg: Config, s: Sample) { s.prefixCacheBusted || IsCold(cfg, s) }

  /** What the telemetry leaves to pay for. */
  function Net(s: Sample): int
    requires s.cacheRead.Some?
  {
    var input, created := Max(0, s.inputTokens), Max(0, s.cacheCreation);
    if input < s.cacheRead.value then input + created
    else if s.cacheRead.value <= 0 then input + created
    else input - s.cacheRead.value + created
  }

  /** No tools and little output. */
  predicate IsUnproductive(cfg: Config, s: Sample) {
    s.toolCallCount <= 0 && s.outputTokens < cfg.minProductiveOutputTokens && 0 < cfg.minProductiveOutputTokens
  }

  /** Until when the decisions so far have the caller pause. */
  function PauseEnd(decisions: seq<Decision>): int {
    if decisions == [] then 0
    else if decisions[|decisions| - 1].Pause? then decisions[|decisions| - 1].pauseUntil
    else PauseEnd(decisions[..|decisions| - 1])
  }

  /** Call i is not made during a pause. */
  ghost predicate IsHeeded(cfg: Config, run: seq<Sample>, i: nat)
    requires i < |run|
  {
    PauseEnd(Run(cfg, Fresh, run).1[..i]) <= run[i].now
  }

  lemma {:induction false} PauseEndIsField(cfg: Config, run: seq<Sample>)
    ensures Run(cfg, Fresh, run).0.pauseUntil == PauseEnd(Run(cfg, Fresh, run).1)
  {
    if run != [] {
      var n := |run| - 1;
      PauseEndIsField(cfg, run[..n]);
      var decisions := Run(cfg, Fresh, run).1;
      assert decisions[..n] == Run(cfg, Fresh, run[..n]).1;
    }
  }

  lemma {:induction false} HeededIsAdmitted(cfg: Config, run: seq<Sample>, i: nat)
    requires i < |run|
    ensures IsHeeded(cfg, run, i) <==> Run(cfg, Fresh, run[..i]).0.pauseUntil <= run[i].now
  {
    RunPrefix(cfg, run, i);
    PauseEndIsField(cfg, run[..i]);
  }

  lemma ColdIsColdStart(cfg: Config, s: Sample)
    requires ValidConfig(cfg)
    ensures ColdStart(s, cfg) <==> IsCold(cfg, s)
  {
  }

  // ---------------------------------------------------------------- turns that must be charged in full

  /** Busted, cold, or without telemetry on a transcript that has not grown. */
  ghost predicate IsFullPrice(cfg: Config, run: seq<Sample>, i: nat)
    requires i < |run|
  {
    || IsForced(cfg, run[i])
    || (run[i].cacheRead.None? && forall j :: 0 <= j < i ==> run[i].inputTokens <= run[j].inputTokens)
  }

  ghost predicate IsCostly(cfg: Config, run: seq<Sample>, i: nat)
    requires i < |run|
  {
    && IsFullPrice(cfg, run, i) && cfg.minPromptTokens <= run[i].inputTokens
    && IsUnproductive(cfg, run[i]) && IsHeeded(cfg, run, i)
  }

  lemma {:induction false} SamplesFromRun(cfg: Config, run: seq<Sample>)
    ensures forall s :: s in Run(cfg, Fresh, run).0.samples ==> s.sample in run
  {
    if run != [] {
      var n := |run| - 1;
      SamplesFromRun(cfg, run[..n]);
      var st := Run(cfg, Fresh, run[..n]).0;
      var stored := Stored(run[n], EstimatePrefill(run[n], Last(st.samples), cfg));
      FilterMembers(InWindow(cfg, run[n].now), st.samples + [stored]);
    }
  }

  lemma {:induction false} FullPriceIsCharged(cfg: Config, run: seq<Sample>, i: nat)
    requires ValidConfig(cfg) && i < |run| && IsFullPrice(cfg, run, i)
    ensures run[i].inputTokens <= EstimatePrefill(run[i], Last(Run(cfg, Fresh, run[..i]).0.samples), cfg)
  {
    var samples := Run(cfg, Fresh, run[..i]).0.samples;
    ColdIsColdStart(cfg, run[i]);
    if !IsForced(cfg, run[i]) && samples != [] {
      SamplesFromRun(cfg, run[..i]);
      assert samples[|samples| - 1] in samples;
      var j :| 0 <= j < i && run[..i][j] == samples[|samples| - 1].sample;
      assert run[i].inputTokens <= run[j].inputTokens;
    }
  }

  /** The newest n samples of the window are those of the run from position k on, all charged as expensive. */
  ghost predicate KeepsTail(cfg: Config, run: seq<Sample>, k: nat, n: nat, samples: seq<Stored>) {
    k + n <= |run| && n <= |samples| && forall t :: 0 <= t < n ==> KeepsAt(cfg, run, k, n, samples, t)
  }

  ghost predicate KeepsAt(cfg: Config, run: seq<Sample>, k: nat, n: nat, samples: seq<Stored>, t: nat)
    requires t < n <= |samples| && k + n <= |run|
  {
    var s := samples[|samples| - n + t];
    s.sample == run[k + t] && cfg.minPromptTokens <= s.prefill
  }

  lemma {:induction false} FilterKeepsTail<T(!new)>(keep: T -> bool, xs: seq<T>, n: nat)
    requires n <= |xs| && forall t :: |xs| - n <= t < |xs| ==> keep(xs[t])
    ensures var r := Filter(keep, xs); n <= |r| && r[|r| - n..] == xs[|xs| - n..]
  {
    var tail := xs[|xs| - n..];
    assert xs == xs[..|xs| - n] + tail;
    FilterAppend(keep, xs[..|xs| - n], tail);
    FilterAll(keep, tail);
  }

  ghost predicate OneWindow(cfg: Config, run: seq<Sample>, k: nat) {
    forall i, j :: k <= i < |run| && k <= j < |run| ==> run[j].now - run[i].now <= cfg.windowMs
  }

  lemma PushKeepsTail(cfg: Config, run: seq<Sample>, k: nat, n: nat, samples: seq<Stored>, x: Stored)
    requires KeepsTail(cfg, run, k, n, samples) && k + n < |run| && x.sample == run[k + n]
    requires cfg.minPromptTokens <= x.prefill
    ensures KeepsTail(cfg, run, k, n + 1, samples + [x])
  {
    var more, pushed := n + 1, samples + [x];
    forall t: nat | t < more
      ensures KeepsAt(cfg, run, k, more, pushed, t)
    {
      assert t < n ==> KeepsAt(cfg, run, k, n, samples, t);
    }
  }

  lemma {:induction false} PruneKeepsTail(cfg: Config, run: seq<Sample>, k: nat, n: nat, samples: seq<Stored>,
                                          keep: Stored -> bool)
    requires KeepsTail(cfg, run, k, n, samples)
    requires forall s: Stored :: s.sample in run[k..k + n] && cfg.minPromptTokens <= s.prefill ==> keep(s)
    ensures KeepsTail(cfg, run, k, n, Filter(keep, samples))
  {
    forall t | |samples| - n <= t < |samples|
      ensures keep(samples[t])
    {
      assert KeepsAt(cfg, run, k, n, samples, t - (|samples| - n));
      assert run[k..k + n][t - (|samples| - n)] == samples[t].sample;
    }
    FilterKeepsTail(keep, samples, n);
    var kept := Filter(keep, samples);
    forall t | 0 <= t < n
      ensures KeepsAt(cfg, run, k, n, kept, t)
    {
      assert KeepsAt(cfg, run, k, n, samples, t);
      assert kept[|kept| - n..][t] == samples[|samples| - n..][t];
    }
  }

  lemma WindowKeeps(cfg: Config, run: seq<Sample>, k: nat, n: nat, m: nat)
    requires OneWindow(cfg, run, k) && k + n <= |run| && k <= m < |run|
    ensures forall s: Stored :: s.sample in run[k..k + n] ==> InWindow(cfg, run[m].now)(s)
  {
    forall s: Stored | s.sample in run[k..k + n]
      ensures InWindow(cfg, run[m].now)(s)
    {
      var t :| 0 <= t < n && run[k..k + n][t] == s.sample;
      assert s.sample == run[k + t];
    }
  }

  lemma {:induction false} RunOneMore(cfg: Config, run: seq<Sample>, m: nat)
    requires m < |run|
    ensures Run(cfg, Fresh, run[..m + 1]).0 == Step(cfg, Run(cfg, Fresh, run[..m]).0, run[m]).0
  {
    assert run[..m + 1][..m] == run[..m] && run[..m + 1][m] == run[m];
  }

  /** The guard is about to take the costly turn after the n kept ones. */
  ghost predicate TakesCostly(cfg: Config, run: seq<Sample>, k: nat, n: nat, st: State) {
    && ValidConfig(cfg) && cfg.enabled && OneWindow(cfg, run, k) && k + n < |run|
    && KeepsTail(cfg, run, k, n, st.samples) && st.pauseUntil <= run[k + n].now
    && cfg.minPromptTokens <= EstimatePrefill(run[k + n], Last(st.samples), cfg)
  }

  lemma AdmitKeepsTail(cfg: Config, run: seq<Sample>, k: nat, n: nat, st: State)
    requires TakesCostly(cfg, run, k, n, st)
    ensures KeepsTail(cfg, run, k, n + 1, Admit(cfg, st, run[k + n]).0.samples)
  {
    var x := run[k + n];
    var stored := Stored(x, EstimatePrefill(x, Last(st.samples), cfg));
    PushKeepsTail(cfg, run, k, n, st.samples, stored);
    WindowKeeps(cfg, run, k, n + 1, k + n);
    PruneKeepsTail(cfg, run, k, n + 1, st.samples + [stored], InWindow(cfg, x.now));
  }

  lemma StepKeepsTail(cfg: Config, run: seq<Sample>, k: nat, n: nat, st: State)
    requires TakesCostly(cfg, run, k, n, st)
    ensures KeepsTail(cfg, run, k, n + 1, Step(cfg, st, run[k + n]).0.samples)
  {
    AdmitKeepsTail(cfg, run, k, n, st);
  }

  lemma StepPauses(cfg: Config, run: seq<Sample>, k: nat, n: nat, st: State)
    requires TakesCostly(cfg, run, k, n, st) && n + 1 == cfg.minTurns
    requires forall i :: k <= i <= k + n ==> IsUnproductive(cfg, run[i])
    ensures Step(cfg, st, run[k + n]).1.Pause?
  {
    var x := run[k + n];
    var pushed := st.samples + [Stored(x, EstimatePrefill(x, Last(st.samples), cfg))];
    var sterile := Sterile(cfg, WindowTotalOutput(cfg, x.now, pushed));
    AdmitKeepsTail(cfg, run, k, n, st);
    forall s: Stored | s.sample in run[k..k + (n + 1)] && cfg.minPromptTokens <= s.prefill
      ensures sterile(s)
    {
      var t :| 0 <= t < n + 1 && run[k..k + (n + 1)][t] == s.sample;
      assert IsUnproductive(cfg, run[k + t]);
    }
    PruneKeepsTail(cfg, run, k, n + 1, Admit(cfg, st, x).0.samples, sterile);
  }

  lemma {:induction false} CostlyIsTaken(cfg: Config, run: seq<Sample>, k: nat, n: nat)
    requires ValidConfig(cfg) && cfg.enabled && k + n < |run| && OneWindow(cfg, run, k) && IsCostly(cfg, run, k + n)
    requires KeepsTail(cfg, run, k, n, Run(cfg, Fresh, run[..k + n]).0.samples)
    ensures TakesCostly(cfg, run, k, n, Run(cfg, Fresh, run[..k + n]).0)
  {
    HeededIsAdmitted(cfg, run, k + n);
    FullPriceIsCharged(cfg, run, k + n);
  }

  lemma {:induction false} CostlyTurnsAreKept(cfg: Config, run: seq<Sample>, k: nat, n: nat)
    requires ValidConfig(cfg) && cfg.enabled && k + n <= |run| && OneWindow(cfg, run, k)
    requires forall i :: k <= i < |run| ==> IsCostly(cfg, run, i)
    ensures KeepsTail(cfg, run, k, n, Run(cfg, Fresh, run[..k + n]).0.samples)
  {
    if n > 0 {
      var m := k + (n - 1);
      CostlyTurnsAreKept(cfg, run, k, n - 1);
      assert IsCostly(cfg, run, m);
      CostlyIsTaken(cfg, run, k, n - 1);
      StepKeepsTail(cfg, run, k, n - 1, Run(cfg, Fresh, run[..m]).0);
      RunOneMore(cfg, run, m);
    }
  }

  /**
   * After any run: `minTurns` turns in one window that must be charged in full, with a large input and
   * nothing to show for it, make the guard pause, whatever the telemetry says.
   */
  lemma {:induction false} CostlyTurnsPause(cfg: Config, run: seq<Sample>, k: nat)
    requires ValidConfig(cfg) && cfg.enabled && k + cfg.minTurns == |run| && OneWindow(cfg, run, k)
    requires forall i :: k <= i < |run| ==> IsCostly(cfg, run, i)
    ensures Run(cfg, Fresh, run).1[|run| - 1].Pause?
  {
    var n, m := cfg.minTurns - 1, |run| - 1;
    CostlyTurnsAreKept(cfg, run, k, n);
    assert IsCostly(cfg, run, m);
    CostlyIsTaken(cfg, run, k, n);
    forall i | k <= i <= k + n
      ensures IsUnproductive(cfg, run[i])
    {
      assert IsCostly(cfg, run, i);
    }
    StepPauses(cfg, run, k, n, Run(cfg, Fresh, run[..m]).0);
    DecisionAt(cfg, run, m);
  }

  // ---------------------------------------------------------------- turns that must not

  /** Served from a cache that was neither busted nor cold, with little left to pay for. */
  predicate IsCheap(cfg: Config, s: Sample) {
    s.cacheRead.Some? && !IsForced(cfg, s) && Net(s) < cfg.minPromptTokens
  }

  lemma CheapIsNotCharged(cfg: Config, s: Sample, previous: Option<Stored>)
    requires ValidConfig(cfg) && IsCheap(cfg, s)
    ensures EstimatePrefill(s, previous, cfg) < cfg.minPromptTokens
  {
    ColdIsColdStart(cfg, s);
  }

  lemma {:induction false} CheapRun(cfg: Config, run: seq<Sample>)
    requires ValidConfig(cfg) && forall i :: 0 <= i < |run| ==> IsCheap(cfg, run[i])
    ensures forall s :: s in Run(cfg, Fresh, run).0.samples ==> s.prefill < cfg.minPromptTokens
    ensures forall i :: 0 <= i < |run| ==> Run(cfg, Fresh, run).1[i] == Ok
  {
    if run != [] {
      var n := |run| - 1;
      CheapRun(cfg, run[..n]);
      var (st, decisions) := Run(cfg, Fresh, run[..n]);
      assert forall i :: 0 <= i < n ==> Run(cfg, Fresh, run).1[i] == decisions[i];
      CheapStep(cfg, st, run[n]);
    }
  }

  lemma CheapStep(cfg: Config, st: State, x: Sample)
    requires ValidConfig(cfg) && IsCheap(cfg, x) && forall s :: s in st.samples ==> s.prefill < cfg.minPromptTokens
    ensures forall s :: s in Step(cfg, st, x).0.samples ==> s.prefill < cfg.minPromptTokens
    ensures Step(cfg, st, x).1 == Ok
  {
    var stored := Stored(x, EstimatePrefill(x, Last(st.samples), cfg));
    var pushed := st.samples + [stored];
    var pruned := Filter(InWindow(cfg, x.now), pushed);
    CheapIsNotCharged(cfg, x, Last(st.samples));
    FilterMembers(InWindow(cfg, x.now), pushed);
    forall i | 0 <= i < |pruned|
      ensures !Sterile(cfg, WindowTotalOutput(cfg, x.now, pushed))(pruned[i])
    {
      assert pruned[i] in pruned;
    }
    FilterNone(Sterile(cfg, WindowTotalOutput(cfg, x.now, pushed)), pruned);
  }

  /** Turns that the telemetry shows to be cheap never pause, however many they are and whatever they produce. */
  lemma {:induction false} CheapTurnsNeverPause(cfg: Config, run: seq<Sample>, i: nat)
    requires ValidConfig(cfg) && i < |run| && forall j :: 0 <= j < |run| ==> IsCheap(cfg, run[j])
    ensures Run(cfg, Fresh, run).1[i] == Ok
  {
    CheapRun(cfg, run);
  }

  // ---------------------------------------------------------------- exactly which runs pause

  /** A turn whose price does not depend on the one before: with telemetry, or to be charged in full. */
  predicate IsPriced(cfg: Config, s: Sample) { 0 <= s.inputTokens && (s.cacheRead.Some? || IsForced(cfg, s)) }

  function Price(cfg: Config, s: Sample): int {
    if s.cacheRead.None? then s.inputTokens
    else if IsForced(cfg, s) then Max(Net(s), s.inputTokens)
    else Net(s)
  }

  lemma PriceIsCharged(cfg: Config, s: Sample, previous: Option<Stored>)
    requires ValidConfig(cfg) && IsPriced(cfg, s) && (previous.Some? ==> 0 <= previous.value.sample.inputTokens)
    ensures EstimatePrefill(s, previous, cfg) == Price(cfg, s)
  {
    ColdIsColdStart(cfg, s);
  }

  /** Call i was not made in a pause, lies in the window at `now` and was expensive. */
  ghost predicate IsCounted(cfg: Config, run: seq<Sample>, i: nat, now: int)
    requires i < |run|
  {
    IsHeeded(cfg, run, i) && now - run[i].now <= cfg.windowMs && cfg.minPromptTokens <= Price(cfg, run[i])
  }

  /** Those of the first n calls, each with its price. */
  ghost function CostlyTurns(cfg: Config, run: seq<Sample>, n: nat, now: int): seq<Stored>
    requires n <= |run|
  {
    if n == 0 then []
    else
      CostlyTurns(cfg, run, n - 1, now)
      + if IsCounted(cfg, run, n - 1, now) then [Stored(run[n - 1], Price(cfg, run[n - 1]))] else []
  }

  ghost predicate AllPriced(cfg: Config, run: seq<Sample>) {
    forall i :: 0 <= i < |run| ==> IsPriced(cfg, run[i]) && IsUnproductive(cfg, run[i])
  }

  lemma {:induction false} HistoryFromRun(cfg: Config, run: seq<Sample>)
    ensures forall s :: s in RefRun(cfg, Fresh, run).0.samples ==> s.sample in run
  {
    if run != [] {
      HistoryFromRun(cfg, run[..|run| - 1]);
    }
  }

  lemma {:induction false} HistoryInputs(cfg: Config, run: seq<Sample>)
    requires AllPriced(cfg, run)
    ensures forall s :: s in RefRun(cfg, Fresh, run).0.samples ==>
              0 <= s.sample.inputTokens && IsUnproductive(cfg, s.sample)
  {
    HistoryFromRun(cfg, run);
  }

  lemma {:induction false} HeededInHistory(cfg: Config, run: seq<Sample>, i: nat)
    requires ValidConfig(cfg) && Ordered(run) && i < |run|
    ensures IsHeeded(cfg, run, i) <==> RefRun(cfg, Fresh, run[..i]).0.pauseUntil <= run[i].now
  {
    HeededIsAdmitted(cfg, run, i);
    assert Ordered(run[..i]);
    RunRefines(cfg, run[..i]);
  }

  lemma {:induction false} RefRunOneMore(cfg: Config, run: seq<Sample>, m: nat)
    requires m < |run|
    ensures RefRun(cfg, Fresh, run[..m + 1]).0 == RefStep(cfg, RefRun(cfg, Fresh, run[..m]).0, run[m]).0
  {
    assert run[..m + 1][..m] == run[..m] && run[..m + 1][m] == run[m];
  }

  lemma StepCounts(cfg: Config, st: State, x: Sample, now: int)
    requires ValidConfig(cfg) && cfg.enabled && IsPriced(cfg, x)
    requires forall s :: s in st.samples ==> 0 <= s.sample.inputTokens
    ensures var p := HighPrefillInWindow(cfg, now);
            Filter(p, RefStep(cfg, st, x).0.samples)
            == Filter(p, st.samples)
               + if st.pauseUntil <= x.now && now - x.now <= cfg.windowMs && cfg.minPromptTokens <= Price(cfg, x)
                 then [Stored(x, Price(cfg, x))] else []
  {
    if st.samples != [] {
      assert st.samples[|st.samples| - 1] in st.samples;
    }
    PriceIsCharged(cfg, x, Last(st.samples));
    FilterAppend(HighPrefillInWindow(cfg, now), st.samples, [Stored(x, EstimatePrefill(x, Last(st.samples), cfg))]);
  }

  lemma {:induction false} CostlyIsFilter(cfg: Config, run: seq<Sample>, n: nat, now: int)
    requires ValidConfig(cfg) && cfg.enabled && Ordered(run) && AllPriced(cfg, run) && n <= |run|
    ensures Filter(HighPrefillInWindow(cfg, now), RefRun(cfg, Fresh, run[..n]).0.samples)
            == CostlyTurns(cfg, run, n, now)
  {
    if n > 0 {
      var m := n - 1;
      CostlyIsFilter(cfg, run, m, now);
      HeededInHistory(cfg, run, m);
      HistoryInputs(cfg, run[..m]);
      StepCounts(cfg, RefRun(cfg, Fresh, run[..m]).0, run[m], now);
      RefRunOneMore(cfg, run, m);
    }
  }

  function TotalInput(turns: seq<Stored>): int {
    if turns == [] then 0 else turns[0].sample.inputTokens + TotalInput(turns[1..])
  }

  function TotalPrice(turns: seq<Stored>): int {
    if turns == [] then 0 else turns[0].prefill + TotalPrice(turns[1..])
  }

  /** A pause with the totals of these turns, none of which called tools. */
  ghost predicate Reports(d: Decision, turns: seq<Stored>) {
    && d.Pause? && d.turnCount == |turns| && d.toolCallCount == 0
    && d.inputTokens == TotalInput(turns) && d.prefillTokens == TotalPrice(turns)
  }

  lemma {:induction false} SumsAreTotals(turns: seq<Stored>)
    requires forall s :: s in turns ==> 0 <= s.sample.inputTokens && 0 <= s.prefill && s.sample.toolCallCount <= 0
    ensures Sum(InputOf, turns) == TotalInput(turns) && Sum(PrefillOf, turns) == TotalPrice(turns)
    ensures Sum(ToolsOf, turns) == 0
  {
    if turns != [] {
      SumsAreTotals(turns[1..]);
    }
  }

  lemma UnproductiveReports(cfg: Config, st: State, x: Sample)
    requires ValidConfig(cfg) && cfg.enabled && st.pauseUntil <= x.now
    requires forall s :: s in RefAdmit(cfg, st, x).0.samples ==>
                           0 <= s.sample.inputTokens && IsUnproductive(cfg, s.sample)
    ensures var turns := Filter(HighPrefillInWindow(cfg, x.now), RefAdmit(cfg, st, x).0.samples);
            var d := RefStep(cfg, st, x).1;
            if cfg.minTurns <= |turns| then Reports(d, turns) else d == Ok
  {
    var history, p := RefAdmit(cfg, st, x).0.samples, HighPrefillInWindow(cfg, x.now);
    FilterCongruence(SterileInWindow(cfg, x.now, WindowTotalOutput(cfg, x.now, history)), p, history);
    FilterMembers(p, history);
    SumsAreTotals(Filter(p, history));
  }

  lemma {:induction false} RefLast(cfg: Config, run: seq<Sample>)
    requires run != []
    ensures var m := |run| - 1;
            var st := RefRun(cfg, Fresh, run[..m]).0;
            && RefRun(cfg, Fresh, run).1[m] == RefStep(cfg, st, run[m]).1
            && (cfg.enabled && st.pauseUntil <= run[m].now ==>
                  RefRun(cfg, Fresh, run).0.samples == RefAdmit(cfg, st, run[m]).0.samples)
            && (!cfg.enabled || run[m].now < st.pauseUntil ==> RefRun(cfg, Fresh, run).1[m] == Ok)
  {
  }

  /**
   * With telemetry on every turn, or a bust or cold start where there is none, and nothing to show for
   * any: a call pauses if and only if it is not made in a pause and, of the calls in its window not made
   * in one, enough are expensive by what the telemetry leaves to pay for, or by their input if it was
   * busted or cold. The pause reports just these.
   */
  lemma PricedRunPausesExactly(cfg: Config, run: seq<Sample>)
    requires ValidConfig(cfg) && cfg.enabled && Ordered(run) && AllPriced(cfg, run) && run != []
    ensures var m := |run| - 1;
            var turns := CostlyTurns(cfg, run, |run|, run[m].now);
            var d := Run(cfg, Fresh, run).1[m];
            if IsHeeded(cfg, run, m) && cfg.minTurns <= |turns| then Reports(d, turns) else d == Ok
  {
    var m := |run| - 1;
    HeededInHistory(cfg, run, m);
    RunRefines(cfg, run);
    CostlyIsFilter(cfg, run, |run|, run[m].now);
    assert run[..|run|] == run;
    HistoryInputs(cfg, run);
    RefLast(cfg, run);
    if IsHeeded(cfg, run, m) {
      UnproductiveReports(cfg, RefRun(cfg, Fresh, run[..m]).0, run[m]);
    }
  }

  // ---------------------------------------------------------------- how long, and who hears of it

  /** The first pause lasts the base, each later one twice as long as the one before, up to the maximum. */
  function PauseLength(cfg: Config, k: nat): int {
    Min(cfg.maxBackoffMs, if k == 0 then cfg.baseBackoffMs else 2 * PauseLength(cfg, k - 1))
  }

  lemma {:induction false} BackoffDoubles(cfg: Config, k: nat)
    requires ValidConfig(cfg)
    ensures Backoff(cfg, k) == PauseLength(cfg, k)
  {
    if k > 0 {
      BackoffDoubles(cfg, k - 1);
      BackoffIsPositive(cfg, k - 1);
      DoubledCap(cfg.baseBackoffMs, Pow2(k - 1), cfg.maxBackoffMs);
    }
  }

  lemma DoubledCap(base: int, p: int, max: int)
    requires 0 < max
    ensures Min(max, base * (2 * p)) == Min(max, 2 * Min(max, base * p))
  {
    assert base * (2 * p) == 2 * (base * p);
  }

  /** Pause number k of a run lasts as long as that. */
  lemma {:induction false} PausesDouble(cfg: Config, run: seq<Sample>, i: nat)
    requires ValidConfig(cfg) && i < |run| && Run(cfg, Fresh, run).1[i].Pause?
    ensures var decisions := Run(cfg, Fresh, run).1;
            && decisions[i].backoffMs == PauseLength(cfg, PauseCount(decisions[..i]))
            && decisions[i].pauseUntil == run[i].now + decisions[i].backoffMs
  {
    DecisionAt(cfg, run, i);
    PausesAccumulate(cfg, run[..i]);
    RunPrefix(cfg, run, i);
    BackoffDoubles(cfg, PauseCount(Run(cfg, Fresh, run).1[..i]));
  }

  /** When the caller was last to be told of a pause, 0 before that. */
  function LastNotice(run: seq<Sample>, decisions: seq<Decision>): int
    requires |run| == |decisions|
  {
    if run == [] then 0
    else
      var d := decisions[|decisions| - 1];
      if d.Pause? && d.notify then run[|run| - 1].now else LastNotice(run[..|run| - 1], decisions[..|decisions| - 1])
  }

  lemma {:induction false} NoticeIsField(cfg: Config, run: seq<Sample>)
    ensures Run(cfg, Fresh, run).0.lastNotifyAt == LastNotice(run, Run(cfg, Fresh, run).1)
  {
    if run != [] {
      var n := |run| - 1;
      NoticeIsField(cfg, run[..n]);
      assert Run(cfg, Fresh, run).1[..n] == Run(cfg, Fresh, run[..n]).1;
    }
  }

  /** A pause is told to the user if and only if the cooldown has passed since the last one that was. */
  lemma {:induction false} NoticesKeepTheirDistance(cfg: Config, run: seq<Sample>, i: nat)
    requires i < |run| && Run(cfg, Fresh, run).1[i].Pause?
    ensures var decisions := Run(cfg, Fresh, run).1;
            decisions[i].notify <==> LastNotice(run[..i], decisions[..i]) + cfg.notifyCooldownMs <= run[i].now
  {
    DecisionAt(cfg, run, i);
    RunPrefix(cfg, run, i);
    NoticeIsField(cfg, run[..i]);
  }
}

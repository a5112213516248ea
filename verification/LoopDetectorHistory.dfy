/** The 20-record window of src/agent/loop-detector.ts against the whole history, and its nudges over whole runs. */
module LoopDetectorHistory {
  import opened LoopDetector

  function Min(a: nat, b: nat): nat { if a < b then a else b }

  // ---------------------------------------------------------------- the window and the history

  lemma {:induction false} RunOfSuffix(h: seq<CallRecord>, k: nat, n: nat, x: CallRecord)
    requires k <= n <= |h|
    ensures RunOf(h[k..], n - k, x) == Min(RunOf(h, n, x), n - k)
  {
    if k < n {
      RunOfSuffix(h, k, n - 1, x);
    }
  }

  lemma {:induction false} PairsSuffix(h: seq<CallRecord>, k: nat, n: nat, a: CallRecord, b: CallRecord)
    requires k <= n <= |h|
    ensures Pairs(h[k..], n - k, a, b) == Min(Pairs(h, n, a, b), (n - k) / 2)
  {
    if k + 2 <= n {
      PairsSuffix(h, k, n - 2, a, b);
    }
  }

  lemma {:induction false} ProbeRunSuffix(h: seq<CallRecord>, k: nat, n: nat)
    requires k <= n <= |h|
    ensures ProbeRun(h[k..], n - k) == Min(ProbeRun(h, n), n - k)
  {
    if k < n {
      ProbeRunSuffix(h, k, n - 1);
    }
  }

  lemma {:induction false} GapSuffix(h: seq<CallRecord>, k: nat, n: nat)
    requires k <= n <= |h|
    ensures Gap(h[k..], n - k) == Min(Gap(h, n), n - k)
  {
    if k < n {
      GapSuffix(h, k, n - 1);
    }
  }

  function Dropped(h: seq<CallRecord>): nat { if |h| > WINDOW then |h| - WINDOW else 0 }

  lemma WindowIsSuffix(h: seq<CallRecord>)
    ensures Window(h) == h[Dropped(h)..]
  {
  }

  /** The repeat count is the true trailing run, up to 20. */
  lemma RepeatsInWindow(h: seq<CallRecord>)
    ensures Repeats(Window(h)) == Min(WINDOW, Repeats(h))
  {
    if h != [] {
      WindowIsSuffix(h);
      RunOfSuffix(h, Dropped(h), |h|, h[|h| - 1]);
      RunIsBounded(h, |h|, h[|h| - 1]);
    }
  }

  lemma {:induction false} RunIsBounded(h: seq<CallRecord>, n: nat, x: CallRecord)
    requires n <= |h|
    ensures RunOf(h, n, x) <= n
  {
    if n > 0 {
      RunIsBounded(h, n - 1, x);
    }
  }

  lemma {:induction false} PairsAreBounded(h: seq<CallRecord>, n: nat, a: CallRecord, b: CallRecord)
    requires n <= |h|
    ensures 2 * Pairs(h, n, a, b) <= n
  {
    if n >= 2 {
      PairsAreBounded(h, n - 2, a, b);
    }
  }

  /** The ping-pong count is the true number of trailing alternating pairs, up to 10. */
  lemma PingPongInWindow(h: seq<CallRecord>)
    ensures PingPong(Window(h)) == Min(WINDOW / 2, PingPong(h))
  {
    if |h| >= 4 {
      var a, b := h[|h| - 2], h[|h| - 1];
      WindowIsSuffix(h);
      PairsSuffix(h, Dropped(h), |h|, a, b);
      PairsAreBounded(h, |h|, a, b);
    }
  }

  lemma GapStartSuffix(h: seq<CallRecord>, k: nat)
    requires k <= |h|
    ensures var e := GapStart(h, |h|);
            GapStart(h[k..], |h| - k) == if k <= e then e - k else 0
  {
    GapSuffix(h, k, |h|);
  }

  lemma ProbesInSuffix(h: seq<CallRecord>, k: nat)
    requires k <= |h|
    ensures var e := GapStart(h, |h|);
            TrailingProbes(h[k..]) == if k <= e then Min(TrailingProbes(h), e - k) else 0
  {
    var e := GapStart(h, |h|);
    GapStartSuffix(h, k);
    if k <= e {
      ProbeRunSuffix(h, k, e);
    }
  }

  /**
   * The probe count is not a bounded view of the true one: neutral records push the probes out of
   * the window, so after a gap of g of them at most 20 - g probes are still seen.
   */
  lemma {:induction false} ProbesInWindow(h: seq<CallRecord>)
    ensures var g := Gap(h, |h|);
            TrailingProbes(Window(h)) == Min(TrailingProbes(h), if g < WINDOW then WINDOW - g else 0)
  {
    WindowIsSuffix(h);
    ProbesInSuffix(h, Dropped(h));
  }

  /** A ping-pong is never an exact repeat: any ping-pong count above 0 forces the repeat count to be 1. */
  lemma PingPongIsNoRepeat(h: seq<CallRecord>)
    requires 0 < PingPong(h)
    ensures Repeats(h) == 1
  {
    assert RunOf(h, |h| - 1, h[|h| - 1]) == 0;
  }

  // ---------------------------------------------------------------- when the window suffices

  /** Break and warning from the signature patterns come out as they would from the whole history. */
  ghost predicate WindowSuffices(cfg: Config) {
    forall h: seq<CallRecord> :: h != [] ==>
      PatternVerdict(cfg, Repeats(Window(h)), PingPong(Window(h))) == PatternVerdict(cfg, Repeats(h), PingPong(h))
  }

  const A := CallRecord("a", 0, false, false)
  const B := CallRecord("b", 0, false, false)

  function Alternating(n: nat): (h: seq<CallRecord>)
    ensures |h| == 2 * n
  {
    seq(2 * n, i => if i % 2 == 0 then A else B)
  }

  lemma {:induction false} AlternatingPairs(n: nat, m: nat)
    requires m <= n
    ensures Pairs(Alternating(n), 2 * m, A, B) == m
  {
    if m > 0 {
      AlternatingPairs(n, m - 1);
    }
  }

  function Constant(n: nat): seq<CallRecord> {
    seq(n, i => A)
  }

  lemma {:induction false} ConstantRun(n: nat, m: nat)
    requires m <= n
    ensures RunOf(Constant(n), m, A) == m
  {
    if m > 0 {
      ConstantRun(n, m - 1);
    }
  }

  /** A ping-pong as long as a break threshold above 10 breaks on the whole history only. */
  lemma LongPingPongIsMissed(cfg: Config)
    requires 10 < cfg.breakThreshold && 1 < cfg.warningThreshold
    ensures var h := Alternating(cfg.breakThreshold);
            && PatternVerdict(cfg, Repeats(h), PingPong(h)) == Break
            && PatternVerdict(cfg, Repeats(Window(h)), PingPong(Window(h))) != Break
  {
    var h := Alternating(cfg.breakThreshold);
    AlternatingPairs(cfg.breakThreshold, cfg.breakThreshold);
    assert h[|h| - 2] == A && h[|h| - 1] == B;
    RepeatsInWindow(h);
    PingPongInWindow(h);
    PingPongIsNoRepeat(h);
  }

  /** A repeat as long as a break threshold above 20 breaks on the whole history only. */
  lemma LongRepeatIsMissed(cfg: Config)
    requires 20 < cfg.breakThreshold
    ensures var h := Constant(cfg.breakThreshold);
            && PatternVerdict(cfg, Repeats(h), PingPong(h)) == Break
            && PatternVerdict(cfg, Repeats(Window(h)), PingPong(Window(h))) != Break
  {
    var h := Constant(cfg.breakThreshold);
    ConstantRun(cfg.breakThreshold, cfg.breakThreshold);
    RepeatsInWindow(h);
    PingPongInWindow(h);
    assert PingPong(h) == 0;
  }

  /**
   * The window decides as the whole history does, for every history, exactly when the break
   * threshold is at most 10, or at most 20 and every call already warns.
   */
  lemma WindowSufficesExactly(cfg: Config)
    ensures WindowSuffices(cfg)
            <==> cfg.breakThreshold <= 10 || (cfg.warningThreshold <= 1 && cfg.breakThreshold <= 20)
  {
    if cfg.breakThreshold <= 10 || (cfg.warningThreshold <= 1 && cfg.breakThreshold <= 20) {
      forall h: seq<CallRecord> | h != []
        ensures PatternVerdict(cfg, Repeats(Window(h)), PingPong(Window(h)))
                == PatternVerdict(cfg, Repeats(h), PingPong(h))
      {
        RepeatsInWindow(h);
        PingPongInWindow(h);
      }
    } else if 1 < cfg.warningThreshold {
      LongPingPongIsMissed(cfg);
      assert Alternating(cfg.breakThreshold) != [];
    } else {
      LongRepeatIsMissed(cfg);
      assert Constant(cfg.breakThreshold) != [];
    }
  }

  // ---------------------------------------------------------------- whole runs

  /** One `record` call, as a function of the fields and the record. */
  type Stepper = (State, CallRecord) -> (State, Verdict)

  function StepOf(cfg: Config): Stepper { (st: State, x: CallRecord) => Step(cfg, st, x) }

  /** The fields after the first n calls of a run. */
  function After(step: Stepper, run: seq<CallRecord>, n: nat): State
    requires n <= |run|
  {
    if n == 0 then State([], 0) else step(After(step, run, n - 1), run[n - 1]).0
  }

  /** What `record` answers on call k of a run. */
  function VerdictAt(step: Stepper, run: seq<CallRecord>, k: nat): Verdict
    requires k < |run|
  {
    step(After(step, run, k), run[k]).1
  }

  lemma WindowOfNext(h: seq<CallRecord>, x: CallRecord)
    ensures Window(Window(h) + [x]) == Window(h + [x])
  {
  }

  ghost predicate KeepsWindowAt(step: Stepper, st: State, x: CallRecord) {
    step(st, x).0.history == Window(st.history + [x])
  }

  ghost predicate KeepsWindow(step: Stepper) {
    forall st, x :: KeepsWindowAt(step, st, x)
  }

  lemma NextWindow(step: Stepper, h: seq<CallRecord>, st: State, x: CallRecord)
    requires KeepsWindowAt(step, st, x) && st.history == Window(h)
    ensures step(st, x).0.history == Window(h + [x])
  {
    WindowOfNext(h, x);
  }

  lemma OneMoreRecord(run: seq<CallRecord>, n: nat)
    requires 0 < n <= |run|
    ensures run[..n] == run[..n - 1] + [run[n - 1]]
  {
  }

  /** The retained records are the last 20 of the run. */
  lemma {:induction false} HistoryIsWindow(step: Stepper, run: seq<CallRecord>, n: nat)
    requires KeepsWindow(step) && n <= |run|
    ensures After(step, run, n).history == Window(run[..n])
  {
    if n > 0 {
      var st, x := After(step, run, n - 1), run[n - 1];
      HistoryIsWindow(step, run, n - 1);
      assert KeepsWindowAt(step, st, x);
      NextWindow(step, run[..n - 1], st, x);
      OneMoreRecord(run, n);
    }
  }

  /** A step from the window of a history is judged by the counts in the window of the longer one. */
  lemma StepFromWindow(cfg: Config, h: seq<CallRecord>, streak: nat, x: CallRecord)
    ensures var next := Window(h + [x]);
            var (after, verdict) := Step(cfg, State(Window(h), streak), x);
            && after.history == next
            && (after.probeNudgeStreak, verdict)
               == Judge(cfg, if x.isWrite then 0 else streak, Repeats(next), PingPong(next), TrailingProbes(next))
  {
    WindowOfNext(h, x);
  }

  function PatternOf(cfg: Config, h: seq<CallRecord>): Verdict {
    PatternVerdict(cfg, Repeats(h), PingPong(h))
  }

  /** A signature pattern in the retained window decides the call. */
  ghost predicate FollowsPatternAt(cfg: Config, step: Stepper, st: State, x: CallRecord) {
    var pattern := PatternOf(cfg, Window(st.history + [x]));
    pattern != Ok ==> step(st, x).1 == pattern
  }

  lemma JudgedByHistory(cfg: Config, step: Stepper, run: seq<CallRecord>, k: nat)
    requires KeepsWindow(step) && (forall st, x :: FollowsPatternAt(cfg, step, st, x))
    requires k < |run| && cfg.breakThreshold <= 10
    ensures var pattern := PatternOf(cfg, run[..k + 1]);
            pattern != Ok ==> VerdictAt(step, run, k) == pattern
  {
    var h := run[..k + 1];
    HistoryIsWindow(step, run, k);
    WindowOfNext(run[..k], run[k]);
    assert h == run[..k] + [run[k]];
    assert FollowsPatternAt(cfg, step, After(step, run, k), run[k]);
    RepeatsInWindow(h);
    PingPongInWindow(h);
  }

  /**
   * Over a whole run with a break threshold up to 10, call k is judged by the unbounded repeat and
   * ping-pong counts of everything recorded so far, whenever either of them reaches a threshold.
   */
  lemma RunIsJudgedByHistory(cfg: Config, run: seq<CallRecord>, k: nat)
    requires k < |run| && cfg.breakThreshold <= 10
    ensures var pattern := PatternOf(cfg, run[..k + 1]);
            pattern != Ok ==> VerdictAt(StepOf(cfg), run, k) == pattern
  {
    JudgedByHistory(cfg, StepOf(cfg), run, k);
  }

  // ---------------------------------------------------------------- nudges

  /** What was retained right after call k. */
  function Seen(run: seq<CallRecord>, k: nat): seq<CallRecord>
    requires k < |run|
  {
    Window(run[..k + 1])
  }

  /** No signature pattern and too few probes for a nudge: call k is answered `ok`. */
  predicate Quiet(cfg: Config, run: seq<CallRecord>, k: nat)
    requires k < |run|
  {
    var h := Seen(run, k);
    PatternOf(cfg, h) == Ok && TrailingProbes(h) < cfg.probeLoopBreak && TrailingProbes(h) < cfg.probeLoopWarning
  }

  /** Call k reaches the nudge threshold of the probe pattern, and nothing stronger. */
  predicate Hit(cfg: Config, run: seq<CallRecord>, k: nat)
    requires k < |run|
  {
    var h := Seen(run, k);
    PatternOf(cfg, h) == Ok && cfg.probeLoopWarning <= TrailingProbes(h) < cfg.probeLoopBreak
  }

  /** Where the last write among the first n calls stands, or 0. */
  function SinceWrite(run: seq<CallRecord>, n: nat): (r: nat)
    requires n <= |run|
    ensures r <= n
  {
    if n == 0 then 0 else if run[n - 1].isWrite then n - 1 else SinceWrite(run, n - 1)
  }

  /** The same, but not before the last quiet call either: that one is left behind, a write is not. */
  function SinceRelief(cfg: Config, run: seq<CallRecord>, n: nat): (r: nat)
    requires n <= |run|
    ensures r <= n
  {
    if n == 0 then 0
    else if Quiet(cfg, run, n - 1) then n
    else if run[n - 1].isWrite then n - 1
    else SinceRelief(cfg, run, n - 1)
  }

  /** The hits among the calls from `from` up to n. */
  function Hits(cfg: Config, run: seq<CallRecord>, from: nat, n: nat): nat
    requires from <= n <= |run|
    decreases n
  {
    if from == n then 0 else Hits(cfg, run, from, n - 1) + if Hit(cfg, run, n - 1) then 1 else 0
  }

  /** One call: its verdict and the new streak, from the window and the streak before. */
  lemma CallIsJudged(cfg: Config, run: seq<CallRecord>, k: nat)
    requires k < |run|
    ensures var before := After(StepOf(cfg), run, k).probeNudgeStreak;
            var h := Seen(run, k);
            (After(StepOf(cfg), run, k + 1).probeNudgeStreak, VerdictAt(StepOf(cfg), run, k))
            == Judge(cfg, if run[k].isWrite then 0 else before, Repeats(h), PingPong(h), TrailingProbes(h))
  {
    HistoryIsWindow(StepOf(cfg), run, k);
    OneMoreRecord(run, k + 1);
    StepFromWindow(cfg, run[..k], After(StepOf(cfg), run, k).probeNudgeStreak, run[k]);
  }

  /** One call's share in the nudge streak. */
  function Continue(cfg: Config, run: seq<CallRecord>, k: nat, before: nat): nat
    requires k < |run|
  {
    if Quiet(cfg, run, k) then 0
    else (if run[k].isWrite then 0 else before) + if Hit(cfg, run, k) then 1 else 0
  }

  /** The calls' shares taken together. */
  function Streak(cfg: Config, run: seq<CallRecord>, n: nat): nat
    requires n <= |run|
  {
    if n == 0 then 0 else Continue(cfg, run, n - 1, Streak(cfg, run, n - 1))
  }

  ghost predicate ContinuesAt(cfg: Config, step: Stepper, run: seq<CallRecord>, k: nat)
    requires k < |run|
  {
    After(step, run, k + 1).probeNudgeStreak == Continue(cfg, run, k, After(step, run, k).probeNudgeStreak)
  }

  lemma {:induction false} StreakIsKept(cfg: Config, step: Stepper, run: seq<CallRecord>, n: nat)
    requires n <= |run| && forall k: nat :: k < |run| ==> ContinuesAt(cfg, step, run, k)
    ensures After(step, run, n).probeNudgeStreak == Streak(cfg, run, n)
  {
    if n > 0 {
      StreakIsKept(cfg, step, run, n - 1);
      assert ContinuesAt(cfg, step, run, n - 1);
    }
  }

  lemma DetectorContinues(cfg: Config, run: seq<CallRecord>)
    ensures forall k: nat :: k < |run| ==> ContinuesAt(cfg, StepOf(cfg), run, k)
  {
    forall k: nat | k < |run|
      ensures ContinuesAt(cfg, StepOf(cfg), run, k)
    {
      CallIsJudged(cfg, run, k);
    }
  }

  lemma HitsStep(cfg: Config, run: seq<CallRecord>, k: nat)
    requires k < |run|
    ensures Hits(cfg, run, SinceRelief(cfg, run, k + 1), k + 1)
            == Continue(cfg, run, k, Hits(cfg, run, SinceRelief(cfg, run, k), k))
  {
    assert Hits(cfg, run, k, k) == 0 && Hits(cfg, run, k + 1, k + 1) == 0;
  }

  lemma {:induction false} HitsAreStreak(cfg: Config, run: seq<CallRecord>, n: nat)
    requires n <= |run|
    ensures Hits(cfg, run, SinceRelief(cfg, run, n), n) == Streak(cfg, run, n)
  {
    if n > 0 {
      HitsAreStreak(cfg, run, n - 1);
      HitsStep(cfg, run, n - 1);
    }
  }

  /** The nudge streak is the number of hits since the last write or quiet call. */
  lemma {:induction false} StreakIsHits(cfg: Config, run: seq<CallRecord>, n: nat)
    requires n <= |run|
    ensures After(StepOf(cfg), run, n).probeNudgeStreak == Hits(cfg, run, SinceRelief(cfg, run, n), n)
  {
    DetectorContinues(cfg, run);
    StreakIsKept(cfg, StepOf(cfg), run, n);
    HitsAreStreak(cfg, run, n);
  }

  /**
   * Every verdict from the recorded calls alone: the signature patterns first, then the probe break,
   * then, for a hit, a break if it is at least the third since the last write or quiet call and a
   * nudge otherwise.
   */
  lemma {:induction false} VerdictExactly(cfg: Config, run: seq<CallRecord>, k: nat)
    requires k < |run|
    ensures var h := Seen(run, k);
            VerdictAt(StepOf(cfg), run, k) ==
            if PatternOf(cfg, h) != Ok then PatternOf(cfg, h)
            else if Quiet(cfg, run, k) then Ok
            else if !Hit(cfg, run, k) then Break
            else if 3 <= Hits(cfg, run, SinceRelief(cfg, run, k + 1), k + 1) then Break
            else ProbeWarning
  {
    StreakIsHits(cfg, run, k);
    StreakIsHits(cfg, run, k + 1);
    CallIsJudged(cfg, run, k);
  }

  lemma {:induction false} ReliefIsLater(cfg: Config, run: seq<CallRecord>, n: nat)
    requires n <= |run|
    ensures SinceWrite(run, n) <= SinceRelief(cfg, run, n)
  {
    if n > 0 {
      ReliefIsLater(cfg, run, n - 1);
    }
  }

  lemma {:induction false} HitsFromLater(cfg: Config, run: seq<CallRecord>, from: nat, later: nat, n: nat)
    requires from <= later <= n <= |run|
    ensures Hits(cfg, run, from, n) == Hits(cfg, run, from, later) + Hits(cfg, run, later, n)
    decreases n
  {
    if later < n {
      HitsFromLater(cfg, run, from, later, n - 1);
    }
  }

  /**
   * The announced rule, exactly: a hit that is the third or a later one without a write is a break
   * if and only if three of these hits, itself included, came after the last quiet call.
   */
  lemma {:induction false} ThreeNudgesBreakExactly(cfg: Config, run: seq<CallRecord>, k: nat)
    requires k < |run| && Hit(cfg, run, k)
    ensures SinceWrite(run, k + 1) <= SinceRelief(cfg, run, k + 1)
    ensures VerdictAt(StepOf(cfg), run, k) == Break <==>
            3 <= Hits(cfg, run, SinceWrite(run, k + 1), k + 1)
                 - Hits(cfg, run, SinceWrite(run, k + 1), SinceRelief(cfg, run, k + 1))
    ensures VerdictAt(StepOf(cfg), run, k) == ProbeWarning || VerdictAt(StepOf(cfg), run, k) == Break
  {
    ReliefIsLater(cfg, run, k + 1);
    HitsFromLater(cfg, run, SinceWrite(run, k + 1), SinceRelief(cfg, run, k + 1), k + 1);
    VerdictExactly(cfg, run, k);
  }

  // ---------------------------------------------------------------- nudging forever

  /** Five different inline probes, then one neutral call, over and over. */
  function Oscillation(i: nat): CallRecord { CallRecord("bash", i % 6, i % 6 < 5, false) }

  function Oscillate(n: nat): (h: seq<CallRecord>)
    ensures |h| == n && forall i :: 0 <= i < n ==> h[i] == Oscillation(i)
  {
    seq(n, i requires 0 <= i => Oscillation(i))
  }

  lemma NextRemainder(m: nat)
    ensures (m + 1) % 6 == if m % 6 == 5 then 0 else m % 6 + 1
    ensures (m + 2) % 6 != m % 6
  {
  }

  lemma {:induction false} OscillationProbes(n: nat, m: nat)
    requires 0 < m <= n
    ensures var h := Oscillate(n);
            && ProbeRun(h, m) == (if (m - 1) % 6 < 5 then (m - 1) % 6 + 1 else 0)
            && Gap(h, m) == (if (m - 1) % 6 < 5 then 0 else 1)
            && ProbesBefore(h, m) == (if (m - 1) % 6 < 5 then (m - 1) % 6 + 1 else 5)
  {
    if m > 1 {
      OscillationProbes(n, m - 1);
      NextRemainder(m - 2);
    }
  }

  lemma OscillationHasNoPattern(n: nat)
    requires 0 < n
    ensures Repeats(Oscillate(n)) == 1 && PingPong(Oscillate(n)) <= 1
  {
    var h := Oscillate(n);
    var b := h[n - 1];
    if n > 1 {
      NextRemainder(n - 2);
      assert h[n - 2].inputHash == (n - 2) % 6 && b.inputHash == (n - 1) % 6;
    }
    assert RunOf(h, n - 1, b) == 0;
    if n >= 4 {
      NextRemainder(n - 3);
      assert h[n - 3].inputHash == (n - 3) % 6;
      assert Pairs(h, n - 2, h[n - 2], b) == 0;
    }
  }

  function OscillationStreak(n: nat): nat {
    if n % 6 == 5 then 1 else if n % 6 == 0 && 0 < n then 2 else 0
  }

  lemma OscillationCounts(n: nat)
    requires 0 < n
    ensures var h := Window(Oscillate(n));
            && Repeats(h) == 1 && PingPong(h) <= 1
            && TrailingProbes(h) == if (n - 1) % 6 < 5 then (n - 1) % 6 + 1 else 5
  {
    OscillationProbes(n, n);
    OscillationHasNoPattern(n);
    RepeatsInWindow(Oscillate(n));
    PingPongInWindow(Oscillate(n));
    ProbesInWindow(Oscillate(n));
  }

  lemma JudgeOscillation(n: nat, pingPong: nat)
    requires pingPong <= 1
    ensures Judge(DEFAULT_CONFIG, OscillationStreak(n), 1, pingPong, if n % 6 < 5 then n % 6 + 1 else 5)
            == (OscillationStreak(n + 1), if n % 6 < 4 then Ok else ProbeWarning)
  {
    NextRemainder(n);
  }

  lemma OscillationStep(n: nat)
    ensures Step(DEFAULT_CONFIG, State(Window(Oscillate(n)), OscillationStreak(n)), Oscillation(n))
            == (State(Window(Oscillate(n + 1)), OscillationStreak(n + 1)), if n % 6 < 4 then Ok else ProbeWarning)
  {
    assert Oscillate(n + 1) == Oscillate(n) + [Oscillation(n)];
    OscillationCounts(n + 1);
    StepFromWindow(DEFAULT_CONFIG, Oscillate(n), OscillationStreak(n), Oscillation(n));
    JudgeOscillation(n, PingPong(Window(Oscillate(n + 1))));
  }

  /** A step of the oscillation is as `OscillationStep` says. */
  ghost predicate OscillatesAt(step: Stepper, m: nat) {
    step(State(Window(Oscillate(m)), OscillationStreak(m)), Oscillation(m))
    == (State(Window(Oscillate(m + 1)), OscillationStreak(m + 1)), if m % 6 < 4 then Ok else ProbeWarning)
  }

  ghost predicate Oscillates(step: Stepper) {
    forall m: nat :: OscillatesAt(step, m)
  }

  lemma {:induction false} OscillationState(step: Stepper, n: nat, m: nat)
    requires Oscillates(step) && m <= n
    ensures After(step, Oscillate(n), m) == State(Window(Oscillate(m)), OscillationStreak(m))
  {
    if m > 0 {
      OscillationState(step, n, m - 1);
      assert OscillatesAt(step, m - 1);
      assert Oscillate(n)[m - 1] == Oscillation(m - 1);
    }
  }

  lemma OscillationVerdict(step: Stepper, n: nat, i: nat)
    requires Oscillates(step) && i < n
    ensures VerdictAt(step, Oscillate(n), i) == if i % 6 < 4 then Ok else ProbeWarning
  {
    OscillationState(step, n, i);
    assert OscillatesAt(step, i);
    assert Oscillate(n)[i] == Oscillation(i);
  }

  lemma DetectorOscillates()
    ensures Oscillates(StepOf(DEFAULT_CONFIG))
  {
    forall m: nat
      ensures OscillatesAt(StepOf(DEFAULT_CONFIG), m)
    {
      OscillationStep(m);
    }
  }

  /**
   * Nudging forever: with the default thresholds five different probes and one neutral call,
   * repeated for as long as one likes, contain no write, are nudged twice in every round, and are
   * never broken off, because the first probe of the next round is answered `ok`.
   */
  lemma NudgedForever(n: nat, i: nat)
    requires i < n
    ensures !Oscillate(n)[i].isWrite
    ensures VerdictAt(StepOf(DEFAULT_CONFIG), Oscillate(n), i) == if i % 6 < 4 then Ok else ProbeWarning
  {
    DetectorOscillates();
    OscillationVerdict(StepOf(DEFAULT_CONFIG), n, i);
  }
}

/** The patterns that src/agent/loop-detector.ts looks for, told of the recorded calls one by one. */
module LoopDetectorPatterns {
  import opened LoopDetector
  import opened LoopDetectorHistory

  /** The same tool with the same input. */
  predicate IsSameCall(x: CallRecord, y: CallRecord) { (x.toolName, x.inputHash) == (y.toolName, y.inputHash) }

  /** The last k calls are all the same. */
  ghost predicate EndsInRepeats(h: seq<CallRecord>, k: int) {
    k <= 0 || (k <= |h| && forall i :: |h| - k <= i < |h| ==> IsSameCall(h[i], h[|h| - 1]))
  }

  /** The last k pairs of calls are the same two, in turn. */
  ghost predicate EndsInPairs(h: seq<CallRecord>, k: int) {
    k <= 0
    || (4 <= |h| && 2 * k <= |h| && !IsSameCall(h[|h| - 2], h[|h| - 1])
        && ArePairsOf(h, |h|, h[|h| - 2], h[|h| - 1], k))
  }

  /** A probe that writes nothing. */
  predicate IsBareProbe(x: CallRecord) { x.isProbe && !x.isWrite }

  /** Neither a probe nor a write. */
  predicate IsNeither(x: CallRecord) { !x.isProbe && !x.isWrite }

  /** k probes in a row, and after them only calls that are neither probe nor write. */
  ghost predicate EndsInProbes(h: seq<CallRecord>, k: int) {
    k <= 0 || exists g: nat :: ProbesThenOthers(h, k, g)
  }

  ghost predicate ProbesThenOthers(h: seq<CallRecord>, k: int, g: nat) {
    && 0 <= k && g + k <= |h|
    && (forall i :: |h| - g <= i < |h| ==> IsNeither(h[i]))
    && forall i :: |h| - g - k <= i < |h| - g ==> IsBareProbe(h[i])
  }

  // ---------------------------------------------------------------- the counts

  lemma {:induction false} RunIsRepeats(h: seq<CallRecord>, n: nat, x: CallRecord, k: nat)
    requires n <= |h|
    ensures k <= RunOf(h, n, x) <==> k <= n && forall i :: n - k <= i < n ==> IsSameCall(h[i], x)
  {
    if n > 0 && k > 0 {
      RunIsRepeats(h, n - 1, x, k - 1);
    }
  }

  lemma RepeatsExactly(h: seq<CallRecord>, k: int)
    requires h != []
    ensures k <= Repeats(h) <==> EndsInRepeats(h, k)
  {
    if 0 <= k {
      RunIsRepeats(h, |h|, h[|h| - 1], k);
    }
  }

  /** Pair j, counted back from the n-th call, is `a` and then `b`. */
  predicate IsPairOf(h: seq<CallRecord>, n: nat, a: CallRecord, b: CallRecord, j: nat)
    requires 2 * j + 2 <= n <= |h|
  {
    IsSameCall(h[n - 1 - 2 * j], b) && IsSameCall(h[n - 2 - 2 * j], a)
  }

  ghost predicate ArePairsOf(h: seq<CallRecord>, n: nat, a: CallRecord, b: CallRecord, k: nat)
    requires 2 * k <= n <= |h|
  {
    forall j: nat :: j < k ==> IsPairOf(h, n, a, b, j)
  }

  lemma OneMorePair(h: seq<CallRecord>, n: nat, a: CallRecord, b: CallRecord, k: nat)
    requires 2 * k + 2 <= n <= |h|
    ensures ArePairsOf(h, n, a, b, k + 1) <==> IsPairOf(h, n, a, b, 0) && ArePairsOf(h, n - 2, a, b, k)
  {
    var m := n - 2;
    forall j: nat | j < k
      ensures IsPairOf(h, m, a, b, j) <==> IsPairOf(h, n, a, b, j + 1)
    {
    }
    if IsPairOf(h, n, a, b, 0) && ArePairsOf(h, m, a, b, k) {
      forall j: nat | j <= k
        ensures IsPairOf(h, n, a, b, j)
      {
        assert 0 < j ==> IsPairOf(h, m, a, b, j - 1);
      }
    }
  }

  lemma {:induction false} PairsArePairs(h: seq<CallRecord>, n: nat, a: CallRecord, b: CallRecord, k: nat)
    requires n <= |h|
    ensures k <= Pairs(h, n, a, b) <==> 2 * k <= n && ArePairsOf(h, n, a, b, k)
  {
    if 2 <= n && k > 0 {
      PairsArePairs(h, n - 2, a, b, k - 1);
      if 2 * k <= n {
        OneMorePair(h, n, a, b, k - 1);
      }
    }
  }

  lemma PingPongExactly(h: seq<CallRecord>, k: int)
    ensures k <= PingPong(h) <==> EndsInPairs(h, k)
  {
    if 0 < k && 4 <= |h| {
      PairsArePairs(h, |h|, h[|h| - 2], h[|h| - 1], k);
    }
  }

  lemma {:induction false} GapIsNeither(h: seq<CallRecord>, n: nat)
    requires n <= |h|
    ensures forall i :: n - Gap(h, n) <= i < n ==> IsNeither(h[i])
    ensures Gap(h, n) < n ==> !IsNeither(h[n - Gap(h, n) - 1])
  {
    if n > 0 && Neutral(h[n - 1]) {
      GapIsNeither(h, n - 1);
    }
  }

  lemma {:induction false} RunIsProbes(h: seq<CallRecord>, n: nat, k: nat)
    requires n <= |h|
    ensures k <= ProbeRun(h, n) <==> k <= n && forall i :: n - k <= i < n ==> IsBareProbe(h[i])
  {
    if n > 0 && k > 0 {
      RunIsProbes(h, n - 1, k - 1);
    }
  }

  lemma {:induction false} GapIsUnique(h: seq<CallRecord>, k: int, g: nat)
    requires 0 < k && ProbesThenOthers(h, k, g)
    ensures g == Gap(h, |h|)
  {
    var gap := Gap(h, |h|);
    GapIsNeither(h, |h|);
    assert IsBareProbe(h[|h| - g - 1]);
  }

  lemma ProbesExactly(h: seq<CallRecord>, k: int)
    ensures k <= TrailingProbes(h) <==> EndsInProbes(h, k)
  {
    var gap := Gap(h, |h|);
    GapIsNeither(h, |h|);
    if 0 < k {
      RunIsProbes(h, |h| - gap, k);
      if EndsInProbes(h, k) {
        var g: nat :| ProbesThenOthers(h, k, g);
        GapIsUnique(h, k, g);
      }
      if k <= TrailingProbes(h) {
        assert ProbesThenOthers(h, k, gap);
      }
    }
  }

  // ---------------------------------------------------------------- the verdict on them

  /** Repeats come first, at either threshold, and then two calls in turn. */
  lemma PatternExactly(cfg: Config, h: seq<CallRecord>)
    requires h != []
    ensures PatternOf(cfg, h) == Break
            <==> EndsInRepeats(h, cfg.breakThreshold)
                 || (!EndsInRepeats(h, cfg.warningThreshold) && EndsInPairs(h, cfg.breakThreshold))
    ensures PatternOf(cfg, h) == Warning
            <==> !EndsInRepeats(h, cfg.breakThreshold)
                 && (EndsInRepeats(h, cfg.warningThreshold)
                     || (!EndsInPairs(h, cfg.breakThreshold) && EndsInPairs(h, cfg.warningThreshold)))
    ensures PatternOf(cfg, h) != ProbeWarning
  {
    RepeatsExactly(h, cfg.breakThreshold);
    RepeatsExactly(h, cfg.warningThreshold);
    PingPongExactly(h, cfg.breakThreshold);
    PingPongExactly(h, cfg.warningThreshold);
  }

  /** A call is a hit if no pattern decides it and it is or follows enough probes, but not enough for a break. */
  lemma HitExactly(cfg: Config, run: seq<CallRecord>, k: nat)
    requires k < |run|
    ensures Hit(cfg, run, k)
            <==> && PatternOf(cfg, Seen(run, k)) == Ok
                 && EndsInProbes(Seen(run, k), cfg.probeLoopWarning) && !EndsInProbes(Seen(run, k), cfg.probeLoopBreak)
  {
    ProbesExactly(Seen(run, k), cfg.probeLoopWarning);
    ProbesExactly(Seen(run, k), cfg.probeLoopBreak);
  }
}

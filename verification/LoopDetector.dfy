/**
 * The repeated-call detector of src/agent/loop-detector.ts. A record carries the canonical tool
 * name, the hash of the input and the classification of the call, all taken as given.
 */
module LoopDetector {
  datatype CallRecord = CallRecord(toolName: string, inputHash: int, isProbe: bool, isWrite: bool)

  datatype Config = Config(warningThreshold: int, breakThreshold: int, probeLoopWarning: int, probeLoopBreak: int)

  const DEFAULT_CONFIG := Config(3, 5, 5, 8)
  const WINDOW := 20

  datatype Verdict = Ok | Warning | ProbeWarning | Break

  predicate Same(x: CallRecord, y: CallRecord) {
    x.toolName == y.toolName && x.inputHash == y.inputHash
  }

  predicate Neutral(x: CallRecord) { !x.isProbe && !x.isWrite }

  /** How many of the first n records, counted back from the n-th, carry the signature of `x`. */
  function RunOf(h: seq<CallRecord>, n: nat, x: CallRecord): nat
    requires n <= |h|
  {
    if n == 0 || !Same(h[n - 1], x) then 0 else 1 + RunOf(h, n - 1, x)
  }

  function Repeats(h: seq<CallRecord>): nat {
    if h == [] then 0 else RunOf(h, |h|, h[|h| - 1])
  }

  /** How many pairs, counted back from the n-th record, carry the signatures of `a` and `b` in that order. */
  function Pairs(h: seq<CallRecord>, n: nat, a: CallRecord, b: CallRecord): nat
    requires n <= |h|
  {
    if n < 2 || !Same(h[n - 1], b) || !Same(h[n - 2], a) then 0 else 1 + Pairs(h, n - 2, a, b)
  }

  function PingPong(h: seq<CallRecord>): nat {
    if |h| < 4 || Same(h[|h| - 2], h[|h| - 1]) then 0 else Pairs(h, |h|, h[|h| - 2], h[|h| - 1])
  }

  /** The records before the n-th place that are neither probes nor writes. */
  function Gap(h: seq<CallRecord>, n: nat): (g: nat)
    requires n <= |h|
    ensures g <= n
  {
    if n == 0 || !Neutral(h[n - 1]) then 0 else 1 + Gap(h, n - 1)
  }

  function ProbeRun(h: seq<CallRecord>, n: nat): (r: nat)
    requires n <= |h|
    ensures r <= n
  {
    if n == 0 || h[n - 1].isWrite || !h[n - 1].isProbe then 0 else 1 + ProbeRun(h, n - 1)
  }

  /** The latest uninterrupted run of probes before the n-th place, if only neutral records follow it. */
  function ProbesBefore(h: seq<CallRecord>, n: nat): nat
    requires n <= |h|
  {
    ProbeRun(h, GapStart(h, n))
  }

  function GapStart(h: seq<CallRecord>, n: nat): (r: nat)
    requires n <= |h|
    ensures r <= n
  {
    n - Gap(h, n)
  }

  function TrailingProbes(h: seq<CallRecord>): nat { ProbesBefore(h, |h|) }

  function Window(h: seq<CallRecord>): seq<CallRecord> {
    if |h| > WINDOW then h[|h| - WINDOW..] else h
  }

  /** The verdict of the two signature patterns; None of them leaves it to the probe pattern. */
  function PatternVerdict(cfg: Config, repeats: nat, pingPong: nat): Verdict {
    if cfg.breakThreshold <= repeats then Break
    else if cfg.warningThreshold <= repeats then Warning
    else if cfg.breakThreshold <= pingPong then Break
    else if cfg.warningThreshold <= pingPong then Warning
    else Ok
  }

  datatype State = State(history: seq<CallRecord>, probeNudgeStreak: nat)

  /** The checks of `record`, given the three counts: the new nudge streak and the verdict. */
  function Judge(cfg: Config, streak: nat, repeats: nat, pingPong: nat, probes: nat): (nat, Verdict) {
    var pattern := PatternVerdict(cfg, repeats, pingPong);
    if pattern != Ok then (streak, pattern)
    else if cfg.probeLoopBreak <= probes then (streak, Break)
    else if cfg.probeLoopWarning <= probes then
      (streak + 1, if 3 <= streak + 1 then Break else ProbeWarning)
    else (0, Ok)
  }

  function StreakOnEntry(st: State, x: CallRecord): nat {
    if x.isWrite then 0 else st.probeNudgeStreak
  }

  /** What `record` does to the fields, and the verdict it returns. */
  function Step(cfg: Config, st: State, x: CallRecord): (State, Verdict) {
    var h := Window(st.history + [x]);
    var (streak, verdict) := Judge(cfg, StreakOnEntry(st, x), Repeats(h), PingPong(h), TrailingProbes(h));
    (State(h, streak), verdict)
  }

  class Detector {
    const config: Config
    var history: seq<CallRecord>
    var probeNudgeStreak: nat

    ghost function Fields(): State
      reads this
    {
      State(history, probeNudgeStreak)
    }

    constructor (config: Config)
      ensures this.config == config && Fields() == State([], 0)
    {
      this.config := config;
      history, probeNudgeStreak := [], 0;
    }

    method Record(x: CallRecord) returns (verdict: Verdict)
      modifies this
      ensures (Fields(), verdict) == Step(config, old(Fields()), x)
    {
      if x.isWrite {
        probeNudgeStreak := 0;
      }
      history := history + [x];
      if |history| > 20 {
        history := history[|history| - 20..];
      }
      verdict := JudgePatterns();
    }

    /** The middle part of `record`: the two signature patterns. */
    method JudgePatterns() returns (verdict: Verdict)
      modifies this`probeNudgeStreak
      ensures history == old(history)
      ensures (probeNudgeStreak, verdict)
              == Judge(config, old(probeNudgeStreak), Repeats(history), PingPong(history), TrailingProbes(history))
    {
      var repeatCount := CountTrailingRepeats();
      if repeatCount >= config.breakThreshold {
        return Break;
      }
      if repeatCount >= config.warningThreshold {
        return Warning;
      }
      var pingPongCount := CountPingPong();
      if pingPongCount >= config.breakThreshold {
        return Break;
      }
      if pingPongCount >= config.warningThreshold {
        return Warning;
      }
      verdict := JudgeProbes();
    }

    /** The last part of `record`: the probe pattern and its escalation. */
    method JudgeProbes() returns (verdict: Verdict)
      modifies this`probeNudgeStreak
      ensures var probes := TrailingProbes(history);
              if config.probeLoopBreak <= probes then
                verdict == Break && probeNudgeStreak == old(probeNudgeStreak)
              else if config.probeLoopWarning <= probes then
                && probeNudgeStreak == old(probeNudgeStreak) + 1
                && verdict == if 3 <= probeNudgeStreak then Break else ProbeWarning
              else
                verdict == Ok && probeNudgeStreak == 0
    {
      var probeStreak := CountTrailingProbes();
      if probeStreak >= config.probeLoopBreak {
        return Break;
      }
      if probeStreak >= config.probeLoopWarning {
        probeNudgeStreak := probeNudgeStreak + 1;
        if probeNudgeStreak >= 3 {
          return Break;
        }
        return ProbeWarning;
      }
      probeNudgeStreak := 0;
      return Ok;
    }

    method Reset()
      modifies this
      ensures Fields() == State([], 0)
    {
      probeNudgeStreak := 0;
      history := [];
    }

    /** Clears the history, but not the nudge streak, after a turn without write-class calls. */
    method ResetIfNoWrites(turn: seq<CallRecord>)
      modifies this`history
      ensures history == if exists i :: 0 <= i < |turn| && turn[i].isWrite then old(history) else []
    {
      for i := 0 to |turn|
        invariant forall k :: 0 <= k < i ==> !turn[k].isWrite
        invariant history == old(history)
      {
        if turn[i].isWrite {
          return;
        }
      }
      history := [];
    }

    method CountTrailingRepeats() returns (count: nat)
      ensures count == Repeats(history)
    {
      if |history| == 0 {
        return 0;
      }
      var last := history[|history| - 1];
      count := 0;
      var i := |history| - 1;
      while i >= 0
        invariant -1 <= i < |history|
        invariant count + RunOf(history, i + 1, last) == Repeats(history)
      {
        if Same(history[i], last) {
          count := count + 1;
        } else {
          break;
        }
        i := i - 1;
      }
    }

    method CountPingPong() returns (count: nat)
      ensures count == PingPong(history)
    {
      if |history| < 4 {
        return 0;
      }
      var len := |history|;
      var a, b := history[len - 2], history[len - 1];
      if Same(a, b) {
        return 0;
      }
      count := 0;
      var i := len - 1;
      while i >= 1
        invariant -1 <= i < len
        invariant count + Pairs(history, i + 1, a, b) == PingPong(history)
      {
        if Same(history[i], b) && Same(history[i - 1], a) {
          count := count + 1;
        } else {
          break;
        }
        i := i - 2;
      }
    }

    method CountTrailingProbes() returns (count: nat)
      ensures count == TrailingProbes(history)
    {
      count := 0;
      var i := |history| - 1;
      while i >= 0
        invariant -1 <= i < |history|
        invariant count == 0 ==> ProbesBefore(history, i + 1) == TrailingProbes(history)
        invariant count > 0 ==> count + ProbeRun(history, i + 1) == TrailingProbes(history)
      {
        var rec := history[i];
        if rec.isWrite {
          break;
        }
        if rec.isProbe {
          count := count + 1;
        } else if count > 0 {
          break;
        }
        i := i - 1;
      }
    }
  }
}

/** The cross-turn no-progress guard of src/agent/tool-loop-guard.ts. */
module NoProgressGuard {
  import opened Seqs
  import opened StableStringify
  import opened ToolSignature

  function Sig(tc: ToolCall): string { Signature([tc]) }

  function Sigs(calls: seq<ToolCall>): set<string> {
    set i | 0 <= i < |calls| :: Sig(calls[i])
  }

  class Guard {
    const threshold: int
    var seenSigs: set<string>
    var noProgressTurns: nat

    constructor (threshold: int)
      ensures this.threshold == threshold && seenSigs == {} && noProgressTurns == 0
    {
      this.threshold := threshold;
      seenSigs, noProgressTurns := {}, 0;
    }

    method Record(toolCalls: seq<ToolCall>) returns (stuck: bool)
      modifies this
      ensures var after := Step(old(State(seenSigs, noProgressTurns)), toolCalls);
              && State(seenSigs, noProgressTurns) == after
              && stuck == (toolCalls != [] && threshold <= after.noProgressTurns)
    {
      if |toolCalls| == 0 {
        noProgressTurns := 0;
        return false;
      }
      var allSeen := true;
      for i := 0 to |toolCalls|
        invariant seenSigs == old(seenSigs) + Sigs(toolCalls[..i])
        invariant allSeen <==> Sigs(toolCalls[..i]) <= old(seenSigs)
        invariant noProgressTurns == old(noProgressTurns)
      {
        var sig := Signature([toolCalls[i]]);
        SigsOfOneMore(toolCalls, i);
        if sig !in seenSigs {
          allSeen := false;
          seenSigs := seenSigs + {sig};
        }
      }
      assert toolCalls[..|toolCalls|] == toolCalls;
      if allSeen {
        noProgressTurns := noProgressTurns + 1;
      } else {
        noProgressTurns := 0;
      }
      stuck := noProgressTurns >= threshold;
    }
  }

  lemma SigsOfOneMore(calls: seq<ToolCall>, i: nat)
    requires i < |calls|
    ensures Sigs(calls[..i + 1]) == Sigs(calls[..i]) + {Sig(calls[i])}
  {
    assert calls[..i + 1][i] == calls[i];
    forall s | s in Sigs(calls[..i])
      ensures s in Sigs(calls[..i + 1])
    {
      var k :| 0 <= k < i && s == Sig(calls[..i][k]);
      assert calls[..i + 1][k] == calls[..i][k];
    }
  }

  // ---------------------------------------------------------------- whole runs

  datatype State = State(seenSigs: set<string>, noProgressTurns: nat)

  function Step(st: State, calls: seq<ToolCall>): State {
    if calls == [] then st.(noProgressTurns := 0)
    else State(st.seenSigs + Sigs(calls),
               if Sigs(calls) <= st.seenSigs then st.noProgressTurns + 1 else 0)
  }

  function After(turns: seq<seq<ToolCall>>): State {
    if turns == [] then State({}, 0)
    else Step(After(turns[..|turns| - 1]), turns[|turns| - 1])
  }

  /** What `record` answers on the last turn of `turns`. */
  predicate Stuck(threshold: int, turns: seq<seq<ToolCall>>)
    requires turns != []
  {
    turns[|turns| - 1] != [] && threshold <= After(turns).noProgressTurns
  }

  /** Turn k made calls, and every one of them had been made in an earlier turn. */
  ghost predicate Barren(turns: seq<seq<ToolCall>>, k: nat)
    requires k < |turns|
  {
    && turns[k] != []
    && forall tc :: tc in turns[k] ==> exists j :: 0 <= j < k && MadeIn(tc, turns[j])
  }

  /** The same call up to the order of the keys of its input. */
  ghost predicate MadeIn(tc: ToolCall, calls: seq<ToolCall>) {
    exists other :: other in calls && Meaning(other) == Meaning(tc)
  }

  ghost predicate Proper(turns: seq<seq<ToolCall>>) {
    forall k :: 0 <= k < |turns| ==> ProperTurn(turns[k])
  }

  ghost predicate ProperTurn(calls: seq<ToolCall>) {
    forall tc :: tc in calls ==> Valid(tc.input)
  }

  lemma SigIsMeaning(a: ToolCall, b: ToolCall)
    requires Valid(a.input) && Valid(b.input)
    ensures Sig(a) == Sig(b) <==> Meaning(a) == Meaning(b)
  {
    SingleCallIsTold(a, b);
  }

  lemma SeenInTurn(tc: ToolCall, calls: seq<ToolCall>)
    requires ProperTurn(calls) && Valid(tc.input)
    ensures Sig(tc) in Sigs(calls) <==> MadeIn(tc, calls)
  {
    if Sig(tc) in Sigs(calls) {
      var i :| 0 <= i < |calls| && Sig(calls[i]) == Sig(tc);
      assert calls[i] in calls;
      SigIsMeaning(calls[i], tc);
    }
    if MadeIn(tc, calls) {
      var other :| other in calls && Meaning(other) == Meaning(tc);
      var i :| 0 <= i < |calls| && calls[i] == other;
      SigIsMeaning(other, tc);
      assert Sig(calls[i]) in Sigs(calls);
    }
  }

  /** The remembered signatures are those of all earlier turns. */
  lemma {:induction false} SeenIsHistory(turns: seq<seq<ToolCall>>, s: string)
    ensures s in After(turns).seenSigs <==> exists j :: 0 <= j < |turns| && s in Sigs(turns[j])
  {
    if turns != [] {
      var n := |turns| - 1;
      SeenIsHistory(turns[..n], s);
      if s in After(turns[..n]).seenSigs {
        var j :| 0 <= j < n && s in Sigs(turns[..n][j]);
        assert s in Sigs(turns[j]);
      }
      if exists j :: 0 <= j < |turns| && s in Sigs(turns[j]) {
        var j :| 0 <= j < |turns| && s in Sigs(turns[j]);
        assert j < n ==> s in Sigs(turns[..n][j]);
      }
    }
  }

  lemma BarrenMeansAllSeen(turns: seq<seq<ToolCall>>)
    requires Proper(turns) && turns != []
    ensures var n := |turns| - 1;
            Barren(turns, n) <==> turns[n] != [] && Sigs(turns[n]) <= After(turns[..n]).seenSigs
  {
    var n := |turns| - 1;
    forall tc | tc in turns[n]
      ensures Sig(tc) in After(turns[..n]).seenSigs <==> exists j :: 0 <= j < n && MadeIn(tc, turns[j])
    {
      SeenIsHistory(turns[..n], Sig(tc));
      forall j | 0 <= j < n
        ensures Sig(tc) in Sigs(turns[..n][j]) <==> MadeIn(tc, turns[j])
      {
        SeenInTurn(tc, turns[j]);
      }
      if exists j :: 0 <= j < n && MadeIn(tc, turns[j]) {
        var j :| 0 <= j < n && MadeIn(tc, turns[j]);
        assert Sig(tc) in Sigs(turns[..n][j]);
      }
    }
    if Barren(turns, n) {
      forall s | s in Sigs(turns[n])
        ensures s in After(turns[..n]).seenSigs
      {
        var i :| 0 <= i < |turns[n]| && Sig(turns[n][i]) == s;
        assert turns[n][i] in turns[n];
      }
    }
    if turns[n] != [] && Sigs(turns[n]) <= After(turns[..n]).seenSigs {
      forall tc | tc in turns[n]
        ensures exists j :: 0 <= j < n && MadeIn(tc, turns[j])
      {
        var i :| 0 <= i < |turns[n]| && turns[n][i] == tc;
        assert Sig(turns[n][i]) in Sigs(turns[n]);
      }
    }
  }

  /** The counter is the length of the trailing run of barren turns. */
  lemma {:induction false} CounterIsTrailingRun(turns: seq<seq<ToolCall>>, k: nat)
    requires Proper(turns)
    ensures k <= After(turns).noProgressTurns
            <==> k <= |turns| && forall i :: |turns| - k <= i < |turns| ==> Barren(turns, i)
    decreases |turns|
  {
    if turns != [] && k > 0 {
      var n := |turns| - 1;
      var before := turns[..n];
      BarrenMeansAllSeen(turns);
      CounterIsTrailingRun(before, k - 1);
      assert forall i :: 0 <= i < n ==> (Barren(turns, i) <==> Barren(before, i));
    }
  }

  /**
   * The guard is exact: it reports `stuck` precisely when each of the last `threshold` turns made
   * calls and every one of those calls had already been made in an earlier turn of the run.
   */
  lemma StuckExactly(threshold: nat, turns: seq<seq<ToolCall>>)
    requires Proper(turns) && turns != [] && 0 < threshold
    ensures Stuck(threshold, turns)
            <==> threshold <= |turns| && forall i :: |turns| - threshold <= i < |turns| ==> Barren(turns, i)
  {
    CounterIsTrailingRun(turns, threshold);
    if threshold <= |turns| && forall i :: |turns| - threshold <= i < |turns| ==> Barren(turns, i) {
      assert Barren(turns, |turns| - 1);
    }
  }

  // ---------------------------------------------------------------- liveness

  ghost predicate QuietSoFar(threshold: int, turns: seq<seq<ToolCall>>) {
    forall n :: 0 < n <= |turns| ==> !Stuck(threshold, turns[..n])
  }

  /** n turns without a text-only turn, none of them stuck, fit between the signatures seen so far. */
  ghost predicate Fits(threshold: nat, st: State, n: nat) {
    && st.noProgressTurns < threshold && st.seenSigs != {}
    && n <= (|st.seenSigs| - 1) * threshold + 1 + st.noProgressTurns
  }

  lemma QuietStep(threshold: nat, st: State, n: nat, calls: seq<ToolCall>)
    requires 0 < threshold && Fits(threshold, st, n) && calls != []
    requires Step(st, calls).noProgressTurns < threshold
    ensures Fits(threshold, Step(st, calls), n + 1)
  {
    var seen, now := st.seenSigs, Step(st, calls).seenSigs;
    if Sigs(calls) <= seen {
      assert now == seen;
    } else {
      StrictlyMore(seen, now);
      MultiplyMonotone(|seen|, |now| - 1, threshold);
      assert |seen| * threshold == (|seen| - 1) * threshold + threshold;
    }
  }

  lemma MultiplyMonotone(a: int, b: int, k: nat)
    requires a <= b
    ensures a * k <= b * k
  {
  }

  lemma FirstTurnFits(threshold: nat, calls: seq<ToolCall>)
    requires 0 < threshold && calls != []
    ensures Fits(threshold, Step(State({}, 0), calls), 1)
  {
    assert Sig(calls[0]) in Sigs(calls);
    assert 0 < |Sigs(calls)|;
  }

  lemma QuietPrefix(threshold: nat, turns: seq<seq<ToolCall>>)
    requires turns != [] && QuietSoFar(threshold, turns)
    ensures QuietSoFar(threshold, turns[..|turns| - 1]) && !Stuck(threshold, turns)
  {
    var before := turns[..|turns| - 1];
    assert turns[..|turns|] == turns;
    forall k | 0 < k <= |before|
      ensures !Stuck(threshold, before[..k])
    {
      assert before[..k] == turns[..k];
    }
  }

  lemma {:induction false} QuietRunsFit(threshold: nat, turns: seq<seq<ToolCall>>)
    requires 0 < threshold && turns != [] && [] !in turns && QuietSoFar(threshold, turns)
    ensures Fits(threshold, After(turns), |turns|)
  {
    var n := |turns| - 1;
    assert turns[n] in turns;
    QuietPrefix(threshold, turns);
    if n > 0 {
      QuietRunsFit(threshold, turns[..n]);
      QuietStep(threshold, After(turns[..n]), n, turns[n]);
    } else {
      FirstTurnFits(threshold, turns[0]);
    }
  }

  lemma QuietRunsAreShort(threshold: nat, turns: seq<seq<ToolCall>>)
    requires 0 < threshold && [] !in turns && QuietSoFar(threshold, turns)
    ensures |turns| <= |Used(turns)| * threshold
  {
    if turns != [] {
      QuietRunsFit(threshold, turns);
      FitsBelow(threshold, After(turns), |turns|);
    }
  }

  lemma FitsBelow(threshold: nat, st: State, n: nat)
    requires Fits(threshold, st, n)
    ensures n <= |st.seenSigs| * threshold
  {
    assert (|st.seenSigs| - 1) * threshold + threshold == |st.seenSigs| * threshold;
  }

  lemma StrictlyMore(a: set<string>, b: set<string>)
    requires a < b
    ensures |a| < |b|
  {
    assert b == a + (b - a);
    var x :| x in b && x !in a;
    assert x in b - a;
  }

  /** All the signatures a run uses. */
  function Used(turns: seq<seq<ToolCall>>): set<string> {
    After(turns).seenSigs
  }

  lemma {:induction false} UsedGrows(turns: seq<seq<ToolCall>>, n: nat)
    requires n <= |turns|
    ensures Used(turns[..n]) <= Used(turns)
    decreases |turns|
  {
    if n < |turns| {
      UsedGrows(turns[..|turns| - 1], n);
      assert turns[..|turns| - 1][..n] == turns[..n];
    } else {
      assert turns[..n] == turns;
    }
  }

  /**
   * The guard is live: a run with no text-only turn that uses D distinct signatures is reported
   * `stuck` no later than its turn D * threshold + 1.
   */
  lemma StuckInTime(threshold: nat, turns: seq<seq<ToolCall>>)
    requires 0 < threshold && [] !in turns
    requires |Used(turns)| * threshold < |turns|
    ensures exists n :: 0 < n <= |Used(turns)| * threshold + 1 && Stuck(threshold, turns[..n])
  {
    var d := |Used(turns)|;
    var n := d * threshold + 1;
    var head := turns[..n];
    if forall k :: 0 < k <= n ==> !Stuck(threshold, turns[..k]) {
      forall k | 0 < k <= n
        ensures !Stuck(threshold, head[..k])
      {
        assert head[..k] == turns[..k];
      }
      QuietRunsAreShort(threshold, head);
      UsedGrows(turns, n);
      SubsetIsSmaller(Used(head), Used(turns));
      MultiplyMonotone(|Used(head)|, d, threshold);
      assert false;
    }
  }

  lemma SubsetIsSmaller(a: set<string>, b: set<string>)
    requires a <= b
    ensures |a| <= |b|
  {
    assert b == a + (b - a);
  }
}

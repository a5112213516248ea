/**
 * Which results of the model keep a run of src/agent/loop.ts going: for each kind of result, after any
 * run, how many of them in a row it survives.
 */
module AgentLoopHistory {
  import opened AgentLoop

  // ---------------------------------------------------------------- results in a row

  function Replying(rs: seq<Reply>): seq<Event> {
    seq(|rs|, i requires 0 <= i < |rs| => Replied(rs[i]))
  }

  lemma {:induction false} ReplyingOneMore(cfg: Config, es: seq<Event>, rs: seq<Reply>)
    requires rs != []
    ensures After(cfg, es + Replying(rs))
            == Next(cfg, After(cfg, es + Replying(rs[..|rs| - 1])), Replied(rs[|rs| - 1]))
  {
    var fewer := es + Replying(rs[..|rs| - 1]);
    assert es + Replying(rs) == fewer + [Replied(rs[|rs| - 1])];
    OneMoreEvent(cfg, fewer, Replied(rs[|rs| - 1]));
  }

  lemma NoReplying(cfg: Config, es: seq<Event>)
    ensures es + Replying([]) == es
  {
  }

  lemma {:induction false} OpenMayTurn(cfg: Config, es: seq<Event>)
    requires !After(cfg, es).ended
    ensures cfg.MayTurn(After(cfg, es).turnIndex)
  {
    RunStaysBounded(cfg, es);
    CapIsTheGuard(cfg, After(cfg, es).turnIndex);
  }

  /** The wait controller has the run go on after this answer. */
  predicate Waited(r: Reply) { !r.background.Terminate? }

  /**
   * The results use up what is left of a budget, and what comes after it ends the run; in the soft case
   * only if the wait controller does not have it go on. Each takes a turn.
   */
  ghost predicate GoesOn(cfg: Config, turnIndex: nat, given: nat, limit: nat, soft: bool, rs: seq<Reply>, next: State) {
    !next.ended <==> rs == [] || (cfg.MayTurn(turnIndex + |rs|) && WithinBudget(given, limit, soft, rs))
  }

  ghost predicate WithinBudget(given: nat, limit: nat, soft: bool, rs: seq<Reply>) {
    forall i :: 0 <= i < |rs| && limit <= given + i ==> soft && Waited(rs[i])
  }

  function AtMost(a: nat, b: nat): nat { if a < b then a else b }

  /** What one result does, whatever the state. */
  ghost predicate Draws(cfg: Config, r: Reply, kind: Recovery, limit: nat, soft: bool) {
    forall st :: DrawsAt(cfg, st, r, kind, limit, soft)
  }

  ghost predicate DrawsAt(cfg: Config, st: State, r: Reply, kind: Recovery, limit: nat, soft: bool) {
    var next := AfterReply(cfg, st, r);
    && (!next.ended <==> cfg.MayTurn(st.turnIndex + 1) && (Spent(st, kind) < limit || (soft && Waited(r))))
    && (!next.ended ==>
          && next.turnIndex == st.turnIndex + 1
          && Spent(next, kind) == Spent(st, kind) + if Spent(st, kind) < limit then 1 else 0)
  }

  /** After the results so far. */
  ghost predicate Drawn(cfg: Config, st: State, kind: Recovery, limit: nat, soft: bool, rs: seq<Reply>, next: State) {
    && GoesOn(cfg, st.turnIndex, Spent(st, kind), limit, soft, rs, next)
    && (!next.ended ==>
          && next.turnIndex == st.turnIndex + |rs|
          && Spent(next, kind)
             == if limit < Spent(st, kind) then Spent(st, kind) else AtMost(Spent(st, kind) + |rs|, limit))
  }

  lemma DrawnOneMore(cfg: Config, st: State, kind: Recovery, limit: nat, soft: bool, rs: seq<Reply>, next: State)
    requires rs != [] && Drawn(cfg, st, kind, limit, soft, rs[..|rs| - 1], next)
    requires DrawsAt(cfg, next, rs[|rs| - 1], kind, limit, soft)
    ensures Drawn(cfg, st, kind, limit, soft, rs, Next(cfg, next, Replied(rs[|rs| - 1])))
  {
    var fewer, given, n := rs[..|rs| - 1], Spent(st, kind), |rs| - 1;
    assert WithinBudget(given, limit, soft, rs)
           <==> WithinBudget(given, limit, soft, fewer) && (limit <= given + n ==> soft && Waited(rs[n]));
  }

  lemma {:induction false} Streak(cfg: Config, es: seq<Event>, rs: seq<Reply>, kind: Recovery, limit: nat, soft: bool)
    requires !After(cfg, es).ended && forall i :: 0 <= i < |rs| ==> Draws(cfg, rs[i], kind, limit, soft)
    ensures Drawn(cfg, After(cfg, es), kind, limit, soft, rs, After(cfg, es + Replying(rs)))
    decreases |rs|
  {
    if rs == [] {
      NoReplying(cfg, es);
    } else {
      var fewer := rs[..|rs| - 1];
      Streak(cfg, es, fewer, kind, limit, soft);
      ReplyingOneMore(cfg, es, rs);
      DrawnOneMore(cfg, After(cfg, es), kind, limit, soft, rs, After(cfg, es + Replying(fewer)));
    }
  }

  // ---------------------------------------------------------------- visible answers

  /** Reasoning alone, from a model that must not think. */
  predicate Mute(cfg: Config, r: Reply) {
    !r.hasTools && r.reasoning && !r.text.Actionable? && !cfg.supportsThinking
  }

  /** A visible answer that is not cut off, not stopped as chatter and not without output. */
  predicate IsAnswer(cfg: Config, r: Reply) {
    && !r.hasTools && r.text.Actionable? && !r.noOutput
    && match r.stopReason
       case Stop => !r.longOutput || cfg.planMode
       case DegenerateGeneration => cfg.planMode
       case GlmObservation => cfg.planMode
       case MaxTokens => false
       case StallSalvage => false
       case _ => true
  }

  predicate AllWaited(rs: seq<Reply>) { forall i :: 0 <= i < |rs| ==> Waited(rs[i]) }

  lemma AnswersDrawn(cfg: Config, st: State, rs: seq<Reply>, next: State)
    requires Drawn(cfg, st, Silence, 0, true, rs, next)
    ensures !next.ended <==> rs == [] || (cfg.MayTurn(st.turnIndex + |rs|) && AllWaited(rs))
  {
  }

  predicate AllAnswers(cfg: Config, rs: seq<Reply>) { forall i :: 0 <= i < |rs| ==> IsAnswer(cfg, rs[i]) }

  lemma AnswerDraws(cfg: Config, r: Reply)
    requires IsAnswer(cfg, r)
    ensures Draws(cfg, r, Silence, 0, true)
  {
    forall st
      ensures DrawsAt(cfg, st, r, Silence, 0, true)
    {
    }
  }

  /**
   * A final answer ends the run: after any run, visible answers keep it going if and only if the wait
   * controller had it go on after each of them and turns are left.
   */
  lemma {:induction false} AnswersGoOnExactly(cfg: Config, es: seq<Event>, rs: seq<Reply>)
    requires !After(cfg, es).ended && AllAnswers(cfg, rs)
    ensures !After(cfg, es + Replying(rs)).ended
            <==> rs == [] || (cfg.MayTurn(After(cfg, es).turnIndex + |rs|) && AllWaited(rs))
  {
    forall i | 0 <= i < |rs|
      ensures Draws(cfg, rs[i], Silence, 0, true)
    {
      AnswerDraws(cfg, rs[i]);
    }
    Streak(cfg, es, rs, Silence, 0, true);
    AnswersDrawn(cfg, After(cfg, es), rs, After(cfg, es + Replying(rs)));
  }

  /** A visible answer as long as the output cap, not announced as cut off. */
  predicate IsLongAnswer(cfg: Config, r: Reply) {
    && !r.hasTools && r.text.Actionable? && !r.noOutput && !r.compacts
    && r.stopReason.Stop? && r.longOutput && !cfg.planMode
  }

  lemma LongAnswerDraws(cfg: Config, r: Reply)
    requires IsLongAnswer(cfg, r)
    ensures Draws(cfg, r, LengthExtension, 8, true)
  {
    forall st
      ensures DrawsAt(cfg, st, r, LengthExtension, 8, true)
    {
    }
  }

  /** They are extended like truncated ones, and count as answers after that. */
  lemma {:induction false} LongAnswersGoOnExactly(cfg: Config, es: seq<Event>, rs: seq<Reply>)
    requires !After(cfg, es).ended && forall i :: 0 <= i < |rs| ==> IsLongAnswer(cfg, rs[i])
    ensures GoesOn(cfg, After(cfg, es).turnIndex, SharedSince(cfg, es), 8, true, rs, After(cfg, es + Replying(rs)))
  {
    forall i | 0 <= i < |rs|
      ensures Draws(cfg, rs[i], LengthExtension, 8, true)
    {
      LongAnswerDraws(cfg, rs[i]);
    }
    CounterIsShared(cfg, es);
    Streak(cfg, es, rs, LengthExtension, 8, true);
  }

  /** A visible answer before an unfinished tool call. */
  predicate IsProgressOnly(cfg: Config, r: Reply) {
    !r.hasTools && r.text.Actionable? && !r.noOutput && r.stopReason.GlmObservation? && !cfg.planMode
  }

  lemma ProgressDraws(cfg: Config, r: Reply)
    requires IsProgressOnly(cfg, r)
    ensures Draws(cfg, r, ProgressOnly, 2, true)
  {
    forall st
      ensures DrawsAt(cfg, st, r, ProgressOnly, 2, true)
    {
    }
  }

  /** Progress notes keep a run going twice in all, and count as answers after that. */
  lemma {:induction false} ProgressNotesGoOnExactly(cfg: Config, es: seq<Event>, rs: seq<Reply>)
    requires !After(cfg, es).ended && forall i :: 0 <= i < |rs| ==> IsProgressOnly(cfg, rs[i])
    ensures GoesOn(cfg, After(cfg, es).turnIndex, Recoveries(cfg, es, ProgressOnly), 2, true, rs,
                   After(cfg, es + Replying(rs)))
  {
    forall i | 0 <= i < |rs|
      ensures Draws(cfg, rs[i], ProgressOnly, 2, true)
    {
      ProgressDraws(cfg, rs[i]);
    }
    RecoveriesAreCounted(cfg, es, ProgressOnly);
    Streak(cfg, es, rs, ProgressOnly, 2, true);
  }

  // ---------------------------------------------------------------- results without an answer

  /** Something visible or reasoned that the output limit cuts off, or reasoning as long as that. */
  predicate IsTruncated(cfg: Config, r: Reply) {
    && !r.hasTools && !r.compacts && !Mute(cfg, r)
    && (r.reasoning || r.text.Private? || r.text.Actionable?)
    && (r.stopReason.MaxTokens?
        || (r.stopReason.Stop? && r.longOutput && !r.noOutput && !r.text.Actionable? && !cfg.planMode))
  }

  function Extensions(cfg: Config): nat { if cfg.planMode then 0 else 8 }

  lemma TruncatedDraws(cfg: Config, r: Reply)
    requires IsTruncated(cfg, r)
    ensures Draws(cfg, r, LengthExtension, Extensions(cfg), false)
  {
    forall st
      ensures DrawsAt(cfg, st, r, LengthExtension, Extensions(cfg), false)
    {
    }
  }

  /**
   * After any run, truncated results without a compaction keep it going if and only if it is not in plan
   * mode, they and the extensions and thinking recoveries since the last compaction are at most eight,
   * and turns are left.
   */
  lemma {:induction false} TruncatedResultsGoOnExactly(cfg: Config, es: seq<Event>, rs: seq<Reply>)
    requires !After(cfg, es).ended && forall i :: 0 <= i < |rs| ==> IsTruncated(cfg, rs[i])
    ensures Survives(cfg, After(cfg, es).turnIndex, SharedSince(cfg, es), Extensions(cfg), |rs|,
                     After(cfg, es + Replying(rs)))
  {
    forall i | 0 <= i < |rs|
      ensures Draws(cfg, rs[i], LengthExtension, Extensions(cfg), false)
    {
      TruncatedDraws(cfg, rs[i]);
    }
    CounterIsShared(cfg, es);
    HardStreak(cfg, es, rs, LengthExtension, Extensions(cfg));
  }

  /** Of n results, all within a budget of which `given` was used before. */
  ghost predicate Survives(cfg: Config, turnIndex: nat, given: nat, limit: nat, n: nat, next: State) {
    !next.ended <==> n == 0 || (cfg.MayTurn(turnIndex + n) && given + n <= limit)
  }

  lemma HardDrawn(cfg: Config, st: State, kind: Recovery, limit: nat, rs: seq<Reply>, next: State)
    requires Drawn(cfg, st, kind, limit, false, rs, next)
    ensures Survives(cfg, st.turnIndex, Spent(st, kind), limit, |rs|, next)
  {
    HardBudget(Spent(st, kind), limit, rs);
  }

  lemma {:induction false} HardStreak(cfg: Config, es: seq<Event>, rs: seq<Reply>, kind: Recovery, limit: nat)
    requires !After(cfg, es).ended && forall i :: 0 <= i < |rs| ==> Draws(cfg, rs[i], kind, limit, false)
    ensures Survives(cfg, After(cfg, es).turnIndex, Spent(After(cfg, es), kind), limit, |rs|,
                     After(cfg, es + Replying(rs)))
  {
    Streak(cfg, es, rs, kind, limit, false);
    HardDrawn(cfg, After(cfg, es), kind, limit, rs, After(cfg, es + Replying(rs)));
  }

  lemma HardBudget(given: nat, limit: nat, rs: seq<Reply>)
    ensures WithinBudget(given, limit, false, rs) <==> rs == [] || given + |rs| <= limit
  {
    if WithinBudget(given, limit, false, rs) && rs != [] {
      var last := |rs| - 1;
      assert rs[last] == rs[last];
    }
  }

  /** Reasoning or invisible text that ends by itself, from a model that may think or did not. */
  predicate IsThought(cfg: Config, r: Reply) {
    && !r.hasTools && !r.text.Actionable? && !r.noOutput && !r.compacts && !Mute(cfg, r)
    && (r.reasoning || !r.text.Empty?)
    && match r.stopReason
       case Stop => !r.longOutput || cfg.planMode || (!r.reasoning && r.text.Blank?)
       case DegenerateGeneration => cfg.planMode
       case Other => true
       case _ => false
  }

  lemma ThoughtDraws(cfg: Config, r: Reply)
    requires IsThought(cfg, r)
    ensures Draws(cfg, r, ThinkingOnly, 3, false)
  {
    forall st
      ensures DrawsAt(cfg, st, r, ThinkingOnly, 3, false)
    {
    }
  }

  /**
   * After any run, thoughts keep it going if and only if they and the recoveries since the last
   * compaction, length extensions included, are at most three, and turns are left.
   */
  lemma {:induction false} ThoughtsGoOnExactly(cfg: Config, es: seq<Event>, rs: seq<Reply>)
    requires !After(cfg, es).ended && forall i :: 0 <= i < |rs| ==> IsThought(cfg, rs[i])
    ensures Survives(cfg, After(cfg, es).turnIndex, SharedSince(cfg, es), 3, |rs|,
                     After(cfg, es + Replying(rs)))
  {
    forall i | 0 <= i < |rs|
      ensures Draws(cfg, rs[i], ThinkingOnly, 3, false)
    {
      ThoughtDraws(cfg, rs[i]);
    }
    CounterIsShared(cfg, es);
    HardStreak(cfg, es, rs, ThinkingOnly, 3);
  }

  /** Nothing at all: no visible text, no reasoning and no output counted. */
  predicate IsSilent(cfg: Config, r: Reply) {
    && !r.hasTools && r.text.Empty? && !r.reasoning && r.noOutput
    && !r.stopReason.MaxTokens? && !r.stopReason.StallSalvage? && (r.stopReason.DegenerateGeneration? ==> cfg.planMode)
  }

  lemma SilentDraws(cfg: Config, r: Reply)
    requires IsSilent(cfg, r)
    ensures Draws(cfg, r, Silence, 2, false)
  {
    forall st
      ensures DrawsAt(cfg, st, r, Silence, 2, false)
    {
    }
  }

  /** Silence is asked about twice in a run. */
  lemma {:induction false} SilencesGoOnExactly(cfg: Config, es: seq<Event>, rs: seq<Reply>)
    requires !After(cfg, es).ended && forall i :: 0 <= i < |rs| ==> IsSilent(cfg, rs[i])
    ensures Survives(cfg, After(cfg, es).turnIndex, Recoveries(cfg, es, Silence), 2, |rs|,
                     After(cfg, es + Replying(rs)))
  {
    forall i | 0 <= i < |rs|
      ensures Draws(cfg, rs[i], Silence, 2, false)
    {
      SilentDraws(cfg, rs[i]);
    }
    RecoveriesAreCounted(cfg, es, Silence);
    HardStreak(cfg, es, rs, Silence, 2);
  }

  /** Chatter that the guard stopped, visible or not. */
  predicate IsChatter(cfg: Config, r: Reply) {
    !r.hasTools && r.stopReason.DegenerateGeneration? && !cfg.planMode && !Mute(cfg, r)
  }

  lemma ChatterDraws(cfg: Config, r: Reply)
    requires IsChatter(cfg, r)
    ensures Draws(cfg, r, Degeneracy, 2, false)
  {
    forall st
      ensures DrawsAt(cfg, st, r, Degeneracy, 2, false)
    {
    }
  }

  /** Chatter is answered with a prompt for a tool call twice in a run, and then ends it, visible or not. */
  lemma {:induction false} ChatterGoesOnExactly(cfg: Config, es: seq<Event>, rs: seq<Reply>)
    requires !After(cfg, es).ended && forall i :: 0 <= i < |rs| ==> IsChatter(cfg, rs[i])
    ensures Survives(cfg, After(cfg, es).turnIndex, Recoveries(cfg, es, Degeneracy), 2, |rs|,
                     After(cfg, es + Replying(rs)))
  {
    forall i | 0 <= i < |rs|
      ensures Draws(cfg, rs[i], Degeneracy, 2, false)
    {
      ChatterDraws(cfg, rs[i]);
    }
    RecoveriesAreCounted(cfg, es, Degeneracy);
    HardStreak(cfg, es, rs, Degeneracy, 2);
  }

  /** A result that stalled, was cut off with nothing to go on from, or says nothing at the end of a loop. */
  predicate IsDeadEnd(cfg: Config, r: Reply) {
    && !r.hasTools && !Mute(cfg, r)
    && match r.stopReason
       case StallSalvage => true
       case MaxTokens => !(r.reasoning || r.text.Private? || r.text.Actionable?)
       case Repetition => !r.text.Actionable? && !r.noOutput
       case GlmObservation => !r.text.Actionable? && !r.noOutput
       case DegenerateGeneration => r.text.Empty? && !r.reasoning && !r.noOutput && cfg.planMode
       case _ => r.text.Empty? && !r.reasoning && !r.noOutput
  }

  lemma DeadEndDraws(cfg: Config, r: Reply)
    requires IsDeadEnd(cfg, r)
    ensures Draws(cfg, r, Silence, 0, false)
  {
    forall st
      ensures DrawsAt(cfg, st, r, Silence, 0, false)
    {
    }
  }

  /** A dead end ends every run. */
  lemma {:induction false} DeadEndsEndTheRun(cfg: Config, es: seq<Event>, r: Reply)
    requires IsDeadEnd(cfg, r)
    ensures After(cfg, es + [Replied(r)]).ended
  {
    DeadEndDraws(cfg, r);
    OneMoreEvent(cfg, es, Replied(r));
    assert DrawsAt(cfg, After(cfg, es), r, Silence, 0, false);
  }

  // ---------------------------------------------------------------- a model that must not think

  ghost predicate AfterMute(given: nat, turnIndex: nat, n: nat, next: State) {
    && (!next.ended <==> n == 0 || given + n <= 1)
    && (!next.ended ==> next.turnIndex == turnIndex && next.nonThinking == given + n)
  }

  lemma OneMoreMute(cfg: Config, given: nat, turnIndex: nat, n: nat, next: State, r: Reply)
    requires cfg.MayTurn(turnIndex) && Mute(cfg, r) && AfterMute(given, turnIndex, n, next)
    ensures AfterMute(given, turnIndex, n + 1, Next(cfg, next, Replied(r)))
  {
  }

  /** A model that must not think is asked once in a run for its answer, and no turn is counted for that. */
  lemma {:induction false} MuteResultsGoOnExactly(cfg: Config, es: seq<Event>, rs: seq<Reply>)
    requires !After(cfg, es).ended && forall i :: 0 <= i < |rs| ==> Mute(cfg, rs[i])
    ensures AfterMute(Recoveries(cfg, es, VisibleAnswer), After(cfg, es).turnIndex, |rs|, After(cfg, es + Replying(rs)))
    decreases |rs|
  {
    RecoveriesAreCounted(cfg, es, VisibleAnswer);
    OpenMayTurn(cfg, es);
    if rs == [] {
      NoReplying(cfg, es);
    } else {
      var fewer := rs[..|rs| - 1];
      MuteResultsGoOnExactly(cfg, es, fewer);
      ReplyingOneMore(cfg, es, rs);
      OneMoreMute(cfg, Recoveries(cfg, es, VisibleAnswer), After(cfg, es).turnIndex, |fewer|,
                  After(cfg, es + Replying(fewer)), rs[|rs| - 1]);
    }
  }

  // ---------------------------------------------------------------- tool calls

  /** Tool calls that neither guard stops: a reminder comes before the no-progress guard. */
  predicate Passed(r: Reply) { r.repeated.Remind? || (r.repeated.Proceed? && !r.stuck) }

  predicate AllTools(rs: seq<Reply>) { forall i :: 0 <= i < |rs| ==> rs[i].hasTools }

  predicate AllPassed(rs: seq<Reply>) { forall i :: 0 <= i < |rs| ==> Passed(rs[i]) }

  /** No counter but the turns has grown. */
  ghost predicate AfterTools(cfg: Config, st: State, next: State, n: nat, passed: bool) {
    && (!next.ended <==> n == 0 || (passed && cfg.MayTurn(st.turnIndex + n)))
    && (!next.ended ==> next.turnIndex == st.turnIndex + n)
    && next.thinkingOnly <= st.thinkingOnly && next.silent == st.silent && next.nonThinking == st.nonThinking
    && next.progressOnly == st.progressOnly && next.degeneracy == st.degeneracy
  }

  lemma OneMoreTools(cfg: Config, st: State, next: State, n: nat, passed: bool, r: Reply)
    requires r.hasTools && AfterTools(cfg, st, next, n, passed) && (n == 0 ==> passed)
    ensures AfterTools(cfg, st, Next(cfg, next, Replied(r)), n + 1, passed && Passed(r))
  {
  }

  /** Tool calls in a row use up turns and nothing else: they keep a run going exactly while no guard stops one. */
  lemma {:induction false} ToolCallsGoOnExactly(cfg: Config, es: seq<Event>, rs: seq<Reply>)
    requires !After(cfg, es).ended && AllTools(rs)
    ensures AfterTools(cfg, After(cfg, es), After(cfg, es + Replying(rs)), |rs|, AllPassed(rs))
    decreases |rs|
  {
    if rs == [] {
      NoReplying(cfg, es);
    } else {
      var fewer, last := rs[..|rs| - 1], rs[|rs| - 1];
      ToolCallsGoOnExactly(cfg, es, fewer);
      ReplyingOneMore(cfg, es, rs);
      assert AllPassed(rs) <==> AllPassed(fewer) && Passed(last);
      OneMoreTools(cfg, After(cfg, es), After(cfg, es + Replying(fewer)), |fewer|, AllPassed(fewer), last);
    }
  }

  // ---------------------------------------------------------------- errors of the model call

  /** An overflow has occurred since the last result. */
  function OverflowSince(es: seq<Event>): bool {
    es != [] && match es[|es| - 1]
                case Replied(_) => false
                case Threw(fault) => fault.Overflow? || OverflowSince(es[..|es| - 1])
                case Compacted => OverflowSince(es[..|es| - 1])
  }

  lemma {:induction false} OverflowIsRemembered(cfg: Config, es: seq<Event>)
    requires !After(cfg, es).ended
    ensures After(cfg, es).overflowRecoveryAttempted <==> OverflowSince(es)
  {
    if es != [] {
      OverflowIsRemembered(cfg, es[..|es| - 1]);
    }
  }

  /**
   * After any open run: a fatal error ends it; an overflow does unless it is the first since the last
   * result and the compaction succeeds; anything else does not.
   */
  lemma {:induction false} FaultsEndExactly(cfg: Config, es: seq<Event>, fault: Fault)
    requires !After(cfg, es).ended
    ensures !After(cfg, es + [Threw(fault)]).ended
            <==> match fault
                 case Fatal => false
                 case Overflow(compacted) => compacted && !OverflowSince(es)
                 case Transient => true
    ensures !After(cfg, es + [Compacted]).ended
  {
    OverflowIsRemembered(cfg, es);
    OneMoreEvent(cfg, es, Threw(fault));
    OneMoreEvent(cfg, es, Compacted);
  }

  // ---------------------------------------------------------------- nothing is left out

  lemma SameText(cfg: Config, st: State, r: Reply, plain: Reply)
    requires plain == r.(compacts := false)
    ensures TextVerdict(cfg, st, r) == TextVerdict(cfg, st, plain)
  {
    assert LastVerdict(cfg, st, r) == LastVerdict(cfg, st, plain);
  }

  lemma CompactionIsSpent(cfg: Config, st: State, r: Reply, plain: Reply)
    requires r.compacts && !Mute(cfg, r) && plain == r.(compacts := false)
    ensures AfterReply(cfg, st, r) == AfterReply(cfg, st.(thinkingOnly := 0), plain)
  {
    var before := st.(thinkingOnly := 0);
    assert Turned(cfg, st, r) == Turned(cfg, before, plain);
    SameText(cfg, Turned(cfg, st, r), r, plain);
    assert VerdictOn(cfg, st, r) == VerdictOn(cfg, before, plain);
  }

  /** A result that compacts does what the compaction and then the result would. */
  lemma {:induction false} CompactionFirst(cfg: Config, es: seq<Event>, r: Reply)
    requires r.compacts && !Mute(cfg, r)
    ensures After(cfg, es + [Replied(r)]) == After(cfg, es + [Compacted] + [Replied(r.(compacts := false))])
  {
    var st, plain, compacted := After(cfg, es), r.(compacts := false), es + [Compacted];
    OneMoreEvent(cfg, es, Replied(r));
    OneMoreEvent(cfg, es, Compacted);
    OneMoreEvent(cfg, compacted, Replied(plain));
    CompactionIsSpent(cfg, st, r, plain);
    assert Next(cfg, st, Replied(r)) == Next(cfg, Next(cfg, st, Compacted), Replied(plain));
  }

  /** Every result without a compaction is of one of these kinds, when no output means no text. */
  lemma EveryResultIsCovered(cfg: Config, r: Reply)
    requires !r.compacts && (r.noOutput ==> r.text.Empty? && !r.reasoning)
    ensures r.hasTools || Mute(cfg, r) || IsAnswer(cfg, r) || IsLongAnswer(cfg, r) || IsProgressOnly(cfg, r)
            || IsTruncated(cfg, r) || IsThought(cfg, r) || IsSilent(cfg, r) || IsChatter(cfg, r) || IsDeadEnd(cfg, r)
  {
  }
}

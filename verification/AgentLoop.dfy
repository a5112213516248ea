/**
 * The control skeleton of `runAgent` in src/agent/loop.ts: the turn cap, the retry loop around the
 * model call and the recovery counters. What the model and the classifiers answer is arbitrary.
 */
module AgentLoop {
  const MAX_THINKING_ONLY_RECOVERY := 3
  const MAX_LENGTH_CONTINUATIONS := 8
  const MAX_SILENT_GENERATION_RECOVERY := 2
  const MAX_NON_THINKING_REASONING_RECOVERY := 1
  const MAX_PROGRESS_ONLY_RECOVERY := 2
  const MAX_DEGENERACY_RECOVERY := 2

  /** `maxTurns` 0 means unlimited; `hardCap` always applies, and a talk seat has one turn. */
  datatype Config = Config(maxTurns: int, hardCap: int, talkOneShot: bool, planMode: bool, supportsThinking: bool) {
    function HardMaxTurns(): int { if talkOneShot then 1 else hardCap }

    predicate MayTurn(turnIndex: nat) {
      (maxTurns == 0 || turnIndex < maxTurns) && turnIndex < HardMaxTurns()
    }
  }

  datatype StopReason = Stop | MaxTokens | StallSalvage | DegenerateGeneration | GlmObservation | Repetition | Other

  /** The visible text: none, only white space, only private thinking, or something to act on. */
  datatype Visible = Empty | Blank | Private | Actionable

  datatype WaitAction = Terminate | Continue | Nudge
  datatype LoopAction = Proceed | Remind | Halt

  /** A result of the model, with what the classifiers and guards say of it. */
  datatype Reply = Reply(hasTools: bool, stopReason: StopReason, noOutput: bool, longOutput: bool,
                         reasoning: bool, text: Visible, background: WaitAction,
                         repeated: LoopAction, stuck: bool, compacts: bool)

  /** An error of the model call: fatal kinds, an overflow with the outcome of its compaction, a transient one. */
  datatype Fault = Fatal | Overflow(compacted: bool) | Transient

  /** What the provider boundary sees: a compaction before a call, an error, a result. */
  datatype Event = Compacted | Threw(fault: Fault) | Replied(reply: Reply)

  datatype State = State(turnIndex: nat, overflowRecoveryAttempted: bool, thinkingOnly: nat, silent: nat,
                         nonThinking: nat, progressOnly: nat, degeneracy: nat, ended: bool)

  function Begin(cfg: Config): State { State(0, false, 0, 0, 0, 0, 0, !cfg.MayTurn(0)) }

  /** Back to the head of the loop. */
  function Again(cfg: Config, st: State): State {
    st.(overflowRecoveryAttempted := false, ended := !cfg.MayTurn(st.turnIndex))
  }

  function End(st: State): State { st.(ended := true) }

  // ---------------------------------------------------------------- the decisions after a result

  predicate ReasoningOnly(cfg: Config, r: Reply) {
    !r.hasTools && !cfg.supportsThinking && !r.text.Actionable? && r.reasoning
  }

  predicate LengthCapped(r: Reply) { r.stopReason.MaxTokens? || (r.stopReason.Stop? && r.longOutput) }

  predicate ContinuesLength(cfg: Config, st: State, r: Reply) {
    && LengthCapped(r) && !cfg.planMode && st.thinkingOnly < MAX_LENGTH_CONTINUATIONS
    && (r.reasoning || r.text.Private? || r.text.Actionable?)
  }

  predicate Incomplete(r: Reply) { r.stopReason.StallSalvage? || r.stopReason.MaxTokens? }

  predicate ContinuesThinking(cfg: Config, st: State, r: Reply) {
    && !cfg.talkOneShot && !r.text.Actionable?
    && !r.stopReason.GlmObservation? && !r.stopReason.Repetition?
    && (!r.text.Empty? || (r.reasoning && !Incomplete(r)))
    && st.thinkingOnly < MAX_THINKING_ONLY_RECOVERY
  }

  /** Why the loop goes round again after a result without tool calls. */
  datatype Recovery = VisibleAnswer | LengthExtension | ThinkingOnly | Degeneracy | Silence | ProgressOnly

  datatype Verdict = Finish | Onward | Recover(kind: Recovery) | AfterWait

  /** The first check that applies decides. */
  function TextVerdict(cfg: Config, st: State, r: Reply): Verdict {
    if ContinuesLength(cfg, st, r) then Recover(LengthExtension)
    else if Incomplete(r) then Finish
    else if r.stopReason.DegenerateGeneration? && !cfg.planMode then
      if st.degeneracy < MAX_DEGENERACY_RECOVERY then Recover(Degeneracy) else Finish
    else if r.noOutput && st.silent < MAX_SILENT_GENERATION_RECOVERY then Recover(Silence)
    else if r.stopReason.GlmObservation? && !cfg.planMode then
      if r.text.Actionable? && st.progressOnly < MAX_PROGRESS_ONLY_RECOVERY then Recover(ProgressOnly)
      else LastVerdict(cfg, st, r)
    else if !r.text.Actionable? && r.reasoning && cfg.supportsThinking && r.stopReason.Repetition? then Finish
    else if ReasoningOnly(cfg, r) && st.nonThinking < MAX_NON_THINKING_REASONING_RECOVERY then Recover(VisibleAnswer)
    else LastVerdict(cfg, st, r)
  }

  function LastVerdict(cfg: Config, st: State, r: Reply): Verdict {
    if ContinuesThinking(cfg, st, r) then Recover(ThinkingOnly)
    else if r.text.Actionable? && !r.background.Terminate? then AfterWait
    else Finish
  }

  function ToolVerdict(r: Reply): Verdict {
    if r.repeated.Remind? then Onward
    else if r.repeated.Halt? || r.stuck then Finish
    else Onward
  }

  /** A turn is counted for a result, except for hidden reasoning of a model that must not think. */
  function Turned(cfg: Config, st: State, r: Reply): State {
    if ReasoningOnly(cfg, r) then st
    else st.(turnIndex := st.turnIndex + 1, thinkingOnly := if r.compacts then 0 else st.thinkingOnly)
  }

  function VerdictOn(cfg: Config, st: State, r: Reply): Verdict {
    if ReasoningOnly(cfg, r) then
      if st.nonThinking < MAX_NON_THINKING_REASONING_RECOVERY then Recover(VisibleAnswer) else Finish
    else if cfg.talkOneShot then Finish
    else if r.hasTools then ToolVerdict(r)
    else TextVerdict(cfg, Turned(cfg, st, r), r)
  }

  function Spend(st: State, kind: Recovery): State {
    match kind
    case VisibleAnswer => st.(nonThinking := st.nonThinking + 1)
    case LengthExtension => st.(thinkingOnly := st.thinkingOnly + 1)
    case ThinkingOnly => st.(thinkingOnly := st.thinkingOnly + 1)
    case Degeneracy => st.(degeneracy := st.degeneracy + 1)
    case Silence => st.(silent := st.silent + 1)
    case ProgressOnly => st.(progressOnly := st.progressOnly + 1)
  }

  function AfterReply(cfg: Config, st: State, r: Reply): State {
    match VerdictOn(cfg, st, r)
    case Finish => End(Turned(cfg, st, r))
    case Recover(kind) => Again(cfg, Spend(Turned(cfg, st, r), kind))
    case Onward => Again(cfg, Turned(cfg, st, r))
    case AfterWait => Again(cfg, Turned(cfg, st, r))
  }

  function AfterFault(st: State, fault: Fault): State {
    match fault
    case Fatal => End(st)
    case Overflow(compacted) =>
      if st.overflowRecoveryAttempted || !compacted then End(st)
      else st.(overflowRecoveryAttempted := true, thinkingOnly := 0)
    case Transient => st
  }

  function Next(cfg: Config, st: State, e: Event): State {
    if st.ended then st
    else match e
      case Compacted => st.(thinkingOnly := 0)
      case Threw(fault) => AfterFault(st, fault)
      case Replied(reply) => AfterReply(cfg, st, reply)
  }

  function After(cfg: Config, es: seq<Event>): State {
    if es == [] then Begin(cfg) else Next(cfg, After(cfg, es[..|es| - 1]), es[|es| - 1])
  }

  /** The loops themselves, driven by what the provider boundary sees until that runs out. */
  method RunAgent(cfg: Config, es: seq<Event>) returns (st: State)
    ensures st == After(cfg, es)
  {
    st := Begin(cfg);
    var i := 0;
    while !st.ended && i < |es|
      invariant 0 <= i <= |es| && st == After(cfg, es[..i])
      decreases |es| - i
    {
      var result: Reply;
      var gotResult;
      st, i, gotResult, result := CallModel(cfg, st, es, i);
      if gotResult {
        ResultIsNext(cfg, es, i, result);
        st := AfterReply(cfg, st, result);
        i := i + 1;
      }
    }
    if st.ended {
      EndedStays(cfg, es, i);
    }
    assert es[..|es|] == es;
  }

  /** The retry loop: until a result, a fault that ends the run, or the end of what is seen. */
  method CallModel(cfg: Config, before: State, es: seq<Event>, from: nat)
    returns (st: State, i: nat, gotResult: bool, result: Reply)
    requires from < |es| && !before.ended && before == After(cfg, es[..from])
    ensures from <= i <= |es| && st == After(cfg, es[..i])
    ensures gotResult ==> !st.ended && i < |es| && es[i] == Replied(result)
    ensures !gotResult ==> (st.ended || i == |es|) && from < i
  {
    st, i, gotResult := before, from, false;
    result := Reply(false, Stop, false, false, false, Empty, Terminate, Proceed, false, false);
    while i < |es|
      invariant from <= i <= |es| && st == After(cfg, es[..i]) && !st.ended && !gotResult
    {
      OneMore(cfg, es, i);
      match es[i] {
        case Replied(reply) =>
          gotResult, result := true, reply;
          return;
        case Compacted =>
          st := st.(thinkingOnly := 0);
        case Threw(fault) =>
          match fault {
            case Fatal =>
              st := End(st);
            case Overflow(compacted) =>
              if !st.overflowRecoveryAttempted && compacted {
                st := st.(overflowRecoveryAttempted := true, thinkingOnly := 0);
              } else {
                st := End(st);
              }
            case Transient =>
          }
      }
      i := i + 1;
      if st.ended {
        return;
      }
    }
  }

  lemma {:induction false} OneMore(cfg: Config, es: seq<Event>, i: nat)
    requires i < |es|
    ensures After(cfg, es[..i + 1]) == Next(cfg, After(cfg, es[..i]), es[i])
  {
    assert es[..i + 1][..i] == es[..i];
  }

  lemma {:induction false} ResultIsNext(cfg: Config, es: seq<Event>, i: nat, r: Reply)
    requires i < |es| && es[i] == Replied(r) && !After(cfg, es[..i]).ended
    ensures After(cfg, es[..i + 1]) == AfterReply(cfg, After(cfg, es[..i]), r)
  {
    OneMore(cfg, es, i);
  }

  lemma {:induction false} EndedStays(cfg: Config, es: seq<Event>, i: nat)
    requires i <= |es| && After(cfg, es[..i]).ended
    ensures After(cfg, es) == After(cfg, es[..i])
    decreases |es|
  {
    if i == |es| {
      assert es[..i] == es;
    } else {
      assert es[..|es| - 1][..i] == es[..i];
      EndedStays(cfg, es[..|es| - 1], i);
    }
  }

  // ---------------------------------------------------------------- what a run amounts to

  /** Results taken, compactions after an overflow, and all compactions. */
  datatype Tally = Tally(results: nat, overflows: nat, compactions: nat)

  function Count(cfg: Config, t: Tally, st: State, e: Event): Tally {
    if st.ended then t
    else match e
      case Compacted => t.(compactions := t.compactions + 1)
      case Threw(fault) =>
        if fault.Overflow? && !AfterFault(st, fault).ended
        then t.(overflows := t.overflows + 1, compactions := t.compactions + 1)
        else t
      case Replied(r) =>
        t.(results := t.results + 1,
           compactions := t.compactions + if r.compacts && !ReasoningOnly(cfg, r) then 1 else 0)
  }

  function Tallied(cfg: Config, es: seq<Event>): Tally {
    if es == [] then Tally(0, 0, 0)
    else Count(cfg, Tallied(cfg, es[..|es| - 1]), After(cfg, es[..|es| - 1]), es[|es| - 1])
  }

  /** How often the run was given a recovery of a kind. */
  function Recoveries(cfg: Config, es: seq<Event>, kind: Recovery): nat {
    if es == [] then 0
    else
      var st, e := After(cfg, es[..|es| - 1]), es[|es| - 1];
      Recoveries(cfg, es[..|es| - 1], kind)
      + if !st.ended && e.Replied? && VerdictOn(cfg, st, e.reply) == Recover(kind) then 1 else 0
  }

  // ---------------------------------------------------------------- the bound on results

  /** The smaller of the caps that apply: one turn for a talk seat, else the hard cap; `maxTurns` unless it is 0. */
  function Cap(cfg: Config): nat {
    var hard := if cfg.talkOneShot then 1 else if 0 < cfg.hardCap then cfg.hardCap else 0;
    if cfg.maxTurns == 0 then hard
    else if cfg.maxTurns < 0 then 0
    else if cfg.maxTurns < hard then cfg.maxTurns else hard
  }

  lemma CapIsTheGuard(cfg: Config, turnIndex: nat)
    ensures cfg.MayTurn(turnIndex) <==> turnIndex < Cap(cfg)
  {
  }

  /** Results a run may take beyond its cap: one for a model that must not answer with reasoning alone. */
  function Extra(cfg: Config): nat { if cfg.supportsThinking || Cap(cfg) == 0 then 0 else 1 }

  ghost predicate Bounded(cfg: Config, st: State, t: Tally) {
    && st.turnIndex <= Cap(cfg)
    && st.nonThinking <= Extra(cfg)
    && (if st.ended then t.results <= Cap(cfg) + Extra(cfg)
        else st.turnIndex < Cap(cfg) && t.results == st.turnIndex + st.nonThinking)
    && t.overflows + (if st.ended || st.overflowRecoveryAttempted then 0 else 1) <= t.results + 1
    && (Cap(cfg) == 0 ==> t.overflows == 0)
    && t.overflows <= Cap(cfg) + Extra(cfg)
  }

  lemma ReplyTurns(cfg: Config, st: State, r: Reply)
    ensures var next := AfterReply(cfg, st, r);
            && next.turnIndex == (if ReasoningOnly(cfg, r) then st.turnIndex else st.turnIndex + 1)
            && (ReasoningOnly(cfg, r) && !next.ended ==> next.nonThinking == st.nonThinking + 1 == 1)
            && (!ReasoningOnly(cfg, r) ==> next.nonThinking == st.nonThinking)
            && (next.nonThinking == st.nonThinking
                || (st.nonThinking == 0 && next.nonThinking == 1 && !cfg.supportsThinking))
            && (!next.ended ==> cfg.MayTurn(next.turnIndex) && !next.overflowRecoveryAttempted)
  {
  }

  lemma StepStaysBounded(cfg: Config, st: State, t: Tally, e: Event)
    requires Bounded(cfg, st, t)
    ensures Bounded(cfg, Next(cfg, st, e), Count(cfg, t, st, e))
  {
    CapIsTheGuard(cfg, st.turnIndex);
    if e.Replied? && !st.ended {
      ReplyTurns(cfg, st, e.reply);
      CapIsTheGuard(cfg, AfterReply(cfg, st, e.reply).turnIndex);
    }
  }

  lemma {:induction false} RunStaysBounded(cfg: Config, es: seq<Event>)
    ensures Bounded(cfg, After(cfg, es), Tallied(cfg, es))
  {
    CapIsTheGuard(cfg, 0);
    if es != [] {
      RunStaysBounded(cfg, es[..|es| - 1]);
      StepStaysBounded(cfg, After(cfg, es[..|es| - 1]), Tallied(cfg, es[..|es| - 1]), es[|es| - 1]);
    }
  }

  /**
   * Whatever the model answers, a run takes no more results than its cap, and one more if the model
   * must not answer with reasoning alone; each pass of the loop allows one overflow compaction.
   */
  lemma {:induction false} ResultsAreBounded(cfg: Config, es: seq<Event>)
    ensures var t := Tallied(cfg, es);
            t.results <= Cap(cfg) + Extra(cfg) && t.overflows <= t.results + 1 && t.overflows <= Cap(cfg) + Extra(cfg)
  {
    RunStaysBounded(cfg, es);
  }

  function Replies(es: seq<Event>): nat {
    if es == [] then 0 else Replies(es[..|es| - 1]) + if es[|es| - 1].Replied? then 1 else 0
  }

  lemma {:induction false} OpenRunTakesAll(cfg: Config, es: seq<Event>)
    requires !After(cfg, es).ended
    ensures Tallied(cfg, es).results == Replies(es)
  {
    if es != [] {
      OpenRunTakesAll(cfg, es[..|es| - 1]);
    }
  }

  /** Once the model has given that many results, the run is over. */
  lemma {:induction false} RunEnds(cfg: Config, es: seq<Event>)
    requires Cap(cfg) + Extra(cfg) <= Replies(es)
    ensures After(cfg, es).ended
  {
    RunStaysBounded(cfg, es);
    if !After(cfg, es).ended {
      OpenRunTakesAll(cfg, es);
    }
  }

  /** Turns left, and the turn-free recovery: a result that does not end the run uses one of them up. */
  function Measure(cfg: Config, st: State): (int, int) {
    (Cap(cfg) - st.turnIndex, Extra(cfg) - st.nonThinking)
  }

  lemma ResultsDecreaseTheMeasure(cfg: Config, st: State, t: Tally, r: Reply)
    requires Bounded(cfg, st, t) && !st.ended
    ensures var before, after := Measure(cfg, st), Measure(cfg, AfterReply(cfg, st, r));
            && 0 <= before.0 && 0 <= before.1 && 0 <= after.0
            && (!AfterReply(cfg, st, r).ended ==>
                  0 <= after.1 && (after.0 < before.0 || (after.0 == before.0 && after.1 < before.1)))
  {
    ReplyTurns(cfg, st, r);
    CapIsTheGuard(cfg, st.turnIndex);
    CapIsTheGuard(cfg, AfterReply(cfg, st, r).turnIndex);
  }

  const SOME_TOOLS := Reply(true, Stop, false, false, false, Empty, Terminate, Proceed, false, false)
  const HIDDEN_ANSWER := Reply(false, Stop, false, false, true, Empty, Terminate, Proceed, false, false)

  /** A model that hides its first answer and then keeps calling tools. */
  function Restless(cfg: Config, n: nat): seq<Event> {
    if n == 0 then []
    else Restless(cfg, n - 1) + [Replied(if n == 1 && Extra(cfg) == 1 then HIDDEN_ANSWER else SOME_TOOLS)]
  }

  lemma ToolsTakeATurn(cfg: Config, st: State)
    ensures var next := AfterReply(cfg, st, SOME_TOOLS);
            && next.turnIndex == st.turnIndex + 1 && next.nonThinking == st.nonThinking
            && (next.ended <==> !cfg.MayTurn(st.turnIndex + 1))
  {
  }

  lemma HiddenAnswerTakesNone(cfg: Config, st: State)
    requires !cfg.supportsThinking && st.nonThinking == 0
    ensures AfterReply(cfg, st, HIDDEN_ANSWER) == Again(cfg, st.(nonThinking := 1))
  {
  }

  lemma {:induction false} OneMoreReply(cfg: Config, es: seq<Event>, r: Reply)
    requires !After(cfg, es).ended
    ensures After(cfg, es + [Replied(r)]) == AfterReply(cfg, After(cfg, es), r)
    ensures Tallied(cfg, es + [Replied(r)]).results == Tallied(cfg, es).results + 1
  {
    assert (es + [Replied(r)])[..|es|] == es;
  }

  ghost predicate RestlessAfter(cfg: Config, n: nat, st: State) {
    && st.nonThinking == (if n == 0 then 0 else Extra(cfg))
    && st.turnIndex == n - st.nonThinking
    && (st.ended <==> n == Cap(cfg) + Extra(cfg))
  }

  lemma {:induction false} RestlessRun(cfg: Config, n: nat)
    requires n <= Cap(cfg) + Extra(cfg)
    ensures RestlessAfter(cfg, n, After(cfg, Restless(cfg, n))) && Tallied(cfg, Restless(cfg, n)).results == n
  {
    CapIsTheGuard(cfg, 0);
    if n > 0 {
      var before, r := Restless(cfg, n - 1), if n == 1 && Extra(cfg) == 1 then HIDDEN_ANSWER else SOME_TOOLS;
      RestlessRun(cfg, n - 1);
      OneMoreReply(cfg, before, r);
      RestlessStep(cfg, After(cfg, before), n, r);
      assert Restless(cfg, n) == before + [Replied(r)];
    }
  }

  lemma RestlessStep(cfg: Config, st: State, n: nat, r: Reply)
    requires 0 < n <= Cap(cfg) + Extra(cfg) && RestlessAfter(cfg, n - 1, st)
    requires r == if n == 1 && Extra(cfg) == 1 then HIDDEN_ANSWER else SOME_TOOLS
    ensures RestlessAfter(cfg, n, AfterReply(cfg, st, r))
  {
    if n == 1 && Extra(cfg) == 1 {
      HiddenAnswerTakesNone(cfg, st);
      CapIsTheGuard(cfg, st.turnIndex);
    } else {
      ToolsTakeATurn(cfg, st);
      CapIsTheGuard(cfg, st.turnIndex + 1);
    }
  }

  /** The bound on results is the best there is. */
  lemma {:induction false} BoundIsReached(cfg: Config)
    ensures exists es :: Tallied(cfg, es).results == Cap(cfg) + Extra(cfg)
  {
    var n := Cap(cfg) + Extra(cfg);
    RestlessRun(cfg, n);
    assert Tallied(cfg, Restless(cfg, n)).results == n;
  }

  // ---------------------------------------------------------------- the retry loop

  predicate NoReplies(es: seq<Event>) { forall i :: 0 <= i < |es| ==> !es[i].Replied? }

  /** Between two results at most one overflow is answered with a compaction. */
  lemma {:induction false} OneOverflowPerCall(cfg: Config, es: seq<Event>, retries: seq<Event>)
    requires NoReplies(retries)
    ensures var before, after := Tallied(cfg, es), Tallied(cfg, es + retries);
            && before.overflows <= after.overflows <= before.overflows + 1
            && after.results == before.results
            && (After(cfg, es + retries).ended || after.overflows == before.overflows
                || After(cfg, es + retries).overflowRecoveryAttempted)
            && (After(cfg, es).ended ==> After(cfg, es + retries).ended)
            && (After(cfg, es).overflowRecoveryAttempted ==>
                  after.overflows == before.overflows
                  && (After(cfg, es + retries).ended || After(cfg, es + retries).overflowRecoveryAttempted))
    decreases |retries|
  {
    if retries == [] {
      assert es + retries == es;
    } else {
      var fewer, all := retries[..|retries| - 1], es + retries;
      assert all[..|all| - 1] == es + fewer;
      OneOverflowPerCall(cfg, es, fewer);
    }
  }

  predicate Harmless(e: Event) { e.Compacted? || e == Threw(Transient) }

  /** Transient errors alone never end a run, however many there are. */
  lemma {:induction false} TransientsNeverEndARun(cfg: Config, es: seq<Event>, retries: seq<Event>)
    requires !After(cfg, es).ended && forall i :: 0 <= i < |retries| ==> Harmless(retries[i])
    ensures !After(cfg, es + retries).ended
    decreases |retries|
  {
    if retries == [] {
      assert es + retries == es;
    } else {
      var all := es + retries;
      assert all[..|all| - 1] == es + retries[..|retries| - 1];
      TransientsNeverEndARun(cfg, es, retries[..|retries| - 1]);
    }
  }

  // ---------------------------------------------------------------- the recovery budgets

  /** What the counters hold of each kind. */
  function Spent(st: State, kind: Recovery): nat {
    match kind
    case VisibleAnswer => st.nonThinking
    case LengthExtension => st.thinkingOnly
    case ThinkingOnly => st.thinkingOnly
    case Degeneracy => st.degeneracy
    case Silence => st.silent
    case ProgressOnly => st.progressOnly
  }

  function Limit(kind: Recovery): nat {
    match kind
    case VisibleAnswer => MAX_NON_THINKING_REASONING_RECOVERY
    case LengthExtension => MAX_LENGTH_CONTINUATIONS
    case ThinkingOnly => MAX_THINKING_ONLY_RECOVERY
    case Degeneracy => MAX_DEGENERACY_RECOVERY
    case Silence => MAX_SILENT_GENERATION_RECOVERY
    case ProgressOnly => MAX_PROGRESS_ONLY_RECOVERY
  }

  predicate SharesCounter(kind: Recovery) { kind.LengthExtension? || kind.ThinkingOnly? }

  lemma RecoveryIsWithinLimit(cfg: Config, st: State, r: Reply)
    ensures var v := VerdictOn(cfg, st, r);
            v.Recover? ==> Spent(Turned(cfg, st, r), v.kind) < Limit(v.kind)
  {
  }

  lemma ReplySpends(cfg: Config, st: State, r: Reply, kind: Recovery)
    requires !SharesCounter(kind)
    ensures var v := VerdictOn(cfg, st, r);
            Spent(AfterReply(cfg, st, r), kind) == Spent(st, kind) + if v == Recover(kind) then 1 else 0
  {
  }

  /** A recovery of its own counter happens as often as the counter says, within its limit. */
  lemma {:induction false} RecoveriesAreCounted(cfg: Config, es: seq<Event>, kind: Recovery)
    requires !SharesCounter(kind)
    ensures Recoveries(cfg, es, kind) == Spent(After(cfg, es), kind) <= Limit(kind)
  {
    if es != [] {
      var st, e := After(cfg, es[..|es| - 1]), es[|es| - 1];
      RecoveriesAreCounted(cfg, es[..|es| - 1], kind);
      if e.Replied? && !st.ended {
        ReplySpends(cfg, st, e.reply, kind);
        RecoveryIsWithinLimit(cfg, st, e.reply);
      }
    }
  }

  // ---------------------------------------------------------------- the shared counter

  /** The event compacts the conversation, before a call or with a result. */
  predicate Compacts(cfg: Config, st: State, e: Event) {
    match e
    case Compacted => true
    case Threw(fault) => fault.Overflow? && !AfterFault(st, fault).ended
    case Replied(r) => r.compacts && !ReasoningOnly(cfg, r)
  }

  predicate Gives(cfg: Config, st: State, e: Event, kind: Recovery) {
    !st.ended && e.Replied? && VerdictOn(cfg, st, e.reply) == Recover(kind)
  }

  /** How often the run was given a recovery of a kind since its last compaction. */
  function SinceCompaction(cfg: Config, es: seq<Event>, kind: Recovery): nat {
    if es == [] then 0
    else
      var st, e := After(cfg, es[..|es| - 1]), es[|es| - 1];
      (if !st.ended && Compacts(cfg, st, e) then 0 else SinceCompaction(cfg, es[..|es| - 1], kind))
      + if Gives(cfg, st, e, kind) then 1 else 0
  }

  /** Length extensions and thinking recoveries since the last compaction. */
  function SharedSince(cfg: Config, es: seq<Event>): nat {
    SinceCompaction(cfg, es, LengthExtension) + SinceCompaction(cfg, es, ThinkingOnly)
  }

  lemma StepShares(cfg: Config, st: State, e: Event)
    ensures Next(cfg, st, e).thinkingOnly
            == (if !st.ended && Compacts(cfg, st, e) then 0 else st.thinkingOnly)
               + (if Gives(cfg, st, e, LengthExtension) then 1 else 0)
               + (if Gives(cfg, st, e, ThinkingOnly) then 1 else 0)
    ensures Gives(cfg, st, e, LengthExtension) ==> Next(cfg, st, e).thinkingOnly <= MAX_LENGTH_CONTINUATIONS
    ensures Gives(cfg, st, e, ThinkingOnly) ==> Next(cfg, st, e).thinkingOnly <= MAX_THINKING_ONLY_RECOVERY
  {
  }

  /** One counter for both: what it holds is what was given of either since the last compaction. */
  lemma {:induction false} CounterIsShared(cfg: Config, es: seq<Event>)
    ensures After(cfg, es).thinkingOnly == SharedSince(cfg, es) <= MAX_LENGTH_CONTINUATIONS
    ensures SinceCompaction(cfg, es, ThinkingOnly) <= MAX_THINKING_ONLY_RECOVERY
  {
    if es != [] {
      CounterIsShared(cfg, es[..|es| - 1]);
      StepShares(cfg, After(cfg, es[..|es| - 1]), es[|es| - 1]);
    }
  }

  lemma CountCompactions(cfg: Config, t: Tally, st: State, e: Event)
    ensures Count(cfg, t, st, e).compactions
            == t.compactions + if !st.ended && Compacts(cfg, st, e) then 1 else 0
  {
  }

  lemma {:induction false} SharedRecoveriesAreBounded(cfg: Config, es: seq<Event>)
    ensures Recoveries(cfg, es, ThinkingOnly)
            <= 3 * Tallied(cfg, es).compactions + SinceCompaction(cfg, es, ThinkingOnly)
    ensures Recoveries(cfg, es, LengthExtension) + Recoveries(cfg, es, ThinkingOnly)
            <= 8 * Tallied(cfg, es).compactions + SharedSince(cfg, es)
  {
    if es != [] {
      var before, st, e := es[..|es| - 1], After(cfg, es[..|es| - 1]), es[|es| - 1];
      SharedRecoveriesAreBounded(cfg, before);
      CounterIsShared(cfg, before);
      CountCompactions(cfg, Tallied(cfg, before), st, e);
    }
  }

  /** In a whole run: one, two, two, two; and per compaction three more, eight with the length extensions. */
  lemma {:induction false} RecoveriesAreBudgeted(cfg: Config, es: seq<Event>)
    ensures Recoveries(cfg, es, VisibleAnswer) <= 1 && Recoveries(cfg, es, Silence) <= 2
    ensures Recoveries(cfg, es, ProgressOnly) <= 2 && Recoveries(cfg, es, Degeneracy) <= 2
    ensures Recoveries(cfg, es, ThinkingOnly) <= 3 * (Tallied(cfg, es).compactions + 1)
    ensures Recoveries(cfg, es, LengthExtension) + Recoveries(cfg, es, ThinkingOnly)
            <= 8 * (Tallied(cfg, es).compactions + 1)
  {
    RecoveriesAreCounted(cfg, es, VisibleAnswer);
    RecoveriesAreCounted(cfg, es, Silence);
    RecoveriesAreCounted(cfg, es, ProgressOnly);
    RecoveriesAreCounted(cfg, es, Degeneracy);
    SharedRecoveriesAreBounded(cfg, es);
    CounterIsShared(cfg, es);
  }

  // ---------------------------------------------------------------- the budgets are used up

  const BLANK_ANSWER := Reply(false, Stop, false, false, false, Blank, Terminate, Proceed, false, false)
  const CUT_ANSWER := Reply(false, MaxTokens, false, false, false, Actionable, Terminate, Proceed, false, false)

  lemma BlankIsRecovered(cfg: Config, st: State)
    requires !cfg.talkOneShot && !st.ended && st.thinkingOnly < MAX_THINKING_ONLY_RECOVERY
    ensures VerdictOn(cfg, st, BLANK_ANSWER) == Recover(ThinkingOnly)
    ensures AfterReply(cfg, st, BLANK_ANSWER)
            == Again(cfg, st.(turnIndex := st.turnIndex + 1, thinkingOnly := st.thinkingOnly + 1))
  {
  }

  lemma CutIsRecovered(cfg: Config, st: State)
    requires !cfg.talkOneShot && !cfg.planMode && !st.ended && st.thinkingOnly < MAX_LENGTH_CONTINUATIONS
    ensures VerdictOn(cfg, st, CUT_ANSWER) == Recover(LengthExtension)
    ensures AfterReply(cfg, st, CUT_ANSWER)
            == Again(cfg, st.(turnIndex := st.turnIndex + 1, thinkingOnly := st.thinkingOnly + 1))
  {
  }

  lemma {:induction false} OneMoreEvent(cfg: Config, es: seq<Event>, e: Event)
    ensures After(cfg, es + [e]) == Next(cfg, After(cfg, es), e)
    ensures Tallied(cfg, es + [e]) == Count(cfg, Tallied(cfg, es), After(cfg, es), e)
    ensures forall kind :: Recoveries(cfg, es + [e], kind)
                           == Recoveries(cfg, es, kind) + if Gives(cfg, After(cfg, es), e, kind) then 1 else 0
  {
    assert (es + [e])[..|es|] == es;
  }

  /** What a run has used up so far. */
  ghost predicate Used(cfg: Config, es: seq<Event>, compactions: nat, thinking: nat, length: nat, counter: nat) {
    var st := After(cfg, es);
    && Tallied(cfg, es).compactions == compactions
    && Recoveries(cfg, es, ThinkingOnly) == thinking && Recoveries(cfg, es, LengthExtension) == length
    && st.turnIndex == thinking + length && st.thinkingOnly == counter
    && (st.ended <==> Cap(cfg) <= thinking + length)
  }

  lemma CompactedUses(cfg: Config, es: seq<Event>, compactions: nat, thinking: nat, length: nat, counter: nat)
    requires Used(cfg, es, compactions, thinking, length, counter) && thinking + length < Cap(cfg)
    ensures Used(cfg, es + [Compacted], compactions + 1, thinking, length, 0)
  {
    OneMoreEvent(cfg, es, Compacted);
  }

  lemma BlankUses(cfg: Config, es: seq<Event>, compactions: nat, thinking: nat, length: nat, counter: nat)
    requires Used(cfg, es, compactions, thinking, length, counter) && thinking + length < Cap(cfg)
    requires !cfg.talkOneShot && counter < MAX_THINKING_ONLY_RECOVERY
    ensures Used(cfg, es + [Replied(BLANK_ANSWER)], compactions, thinking + 1, length, counter + 1)
  {
    OneMoreEvent(cfg, es, Replied(BLANK_ANSWER));
    BlankIsRecovered(cfg, After(cfg, es));
    CapIsTheGuard(cfg, thinking + length + 1);
  }

  lemma CutUses(cfg: Config, es: seq<Event>, compactions: nat, thinking: nat, length: nat, counter: nat)
    requires Used(cfg, es, compactions, thinking, length, counter) && thinking + length < Cap(cfg)
    requires !cfg.talkOneShot && !cfg.planMode && counter < MAX_LENGTH_CONTINUATIONS
    ensures Used(cfg, es + [Replied(CUT_ANSWER)], compactions, thinking, length + 1, counter + 1)
  {
    OneMoreEvent(cfg, es, Replied(CUT_ANSWER));
    CutIsRecovered(cfg, After(cfg, es));
    CapIsTheGuard(cfg, thinking + length + 1);
  }

  /** Blank answers, as long as the thinking recoveries allow, and then answers cut off. */
  lemma {:induction false} Stretch(cfg: Config, es: seq<Event>, compactions: nat, thinking: nat, length: nat, n: nat)
    returns (all: seq<Event>)
    requires !cfg.talkOneShot && !cfg.planMode && n <= 8 && thinking + length + n <= Cap(cfg)
    requires Used(cfg, es, compactions, thinking, length, 0)
    ensures var blanks := if n < 3 then n else 3;
            Used(cfg, all, compactions, thinking + blanks, length + (n - blanks), n)
  {
    all := es;
    if n > 0 {
      all := Stretch(cfg, es, compactions, thinking, length, n - 1);
      if n <= 3 {
        BlankUses(cfg, all, compactions, thinking + n - 1, length, n - 1);
        all := all + [Replied(BLANK_ANSWER)];
      } else {
        CutUses(cfg, all, compactions, thinking + 3, length + (n - 4), n - 1);
        all := all + [Replied(CUT_ANSWER)];
      }
    }
  }

  /** Both budgets are used up by one run, whatever the number of its compactions. */
  lemma {:induction false} BudgetIsReached(cfg: Config, compactions: nat) returns (es: seq<Event>)
    requires !cfg.talkOneShot && !cfg.planMode && 8 * (compactions + 1) <= Cap(cfg)
    ensures Tallied(cfg, es).compactions == compactions
    ensures Recoveries(cfg, es, ThinkingOnly) == 3 * (compactions + 1)
    ensures Recoveries(cfg, es, LengthExtension) + Recoveries(cfg, es, ThinkingOnly) == 8 * (compactions + 1)
    ensures Used(cfg, es, compactions, 3 * (compactions + 1), 5 * (compactions + 1), 8)
  {
    CapIsTheGuard(cfg, 0);
    if compactions == 0 {
      es := Stretch(cfg, [], 0, 0, 0, 8);
    } else {
      var before := BudgetIsReached(cfg, compactions - 1);
      CompactedUses(cfg, before, compactions - 1, 3 * compactions, 5 * compactions, 8);
      es := Stretch(cfg, before + [Compacted], compactions, 3 * compactions, 5 * compactions, 8);
    }
  }

  /** With a compaction before each of them, blank answers are recovered as long as there are turns. */
  lemma {:induction false} BlanksUseTheTurns(cfg: Config, n: nat) returns (es: seq<Event>)
    requires !cfg.talkOneShot && n <= Cap(cfg)
    ensures Used(cfg, es, n, n, 0, if n == 0 then 0 else 1)
  {
    CapIsTheGuard(cfg, 0);
    es := [];
    if n > 0 {
      es := BlanksUseTheTurns(cfg, n - 1);
      CompactedUses(cfg, es, n - 1, n - 1, 0, if n == 1 then 0 else 1);
      BlankUses(cfg, es + [Compacted], n, n - 1, 0, 0);
      es := es + [Compacted] + [Replied(BLANK_ANSWER)];
    }
  }

  lemma StepTurns(cfg: Config, st: State, e: Event)
    ensures st.turnIndex + (if Gives(cfg, st, e, ThinkingOnly) then 1 else 0) <= Next(cfg, st, e).turnIndex
    ensures cfg.talkOneShot ==> !Gives(cfg, st, e, ThinkingOnly)
  {
  }

  lemma {:induction false} ThinkingTakesTurns(cfg: Config, es: seq<Event>)
    ensures Recoveries(cfg, es, ThinkingOnly) <= After(cfg, es).turnIndex
    ensures cfg.talkOneShot ==> Recoveries(cfg, es, ThinkingOnly) == 0
  {
    if es != [] {
      ThinkingTakesTurns(cfg, es[..|es| - 1]);
      StepTurns(cfg, After(cfg, es[..|es| - 1]), es[|es| - 1]);
    }
  }

  /**
   * No limit on the thinking recoveries of a whole run holds because of their counter: a run stays
   * below one if and only if the turn cap does, or it is a talk seat, which has no such recoveries.
   */
  lemma {:induction false} PerRunLimitExactly(cfg: Config, limit: nat)
    ensures (forall es :: Recoveries(cfg, es, ThinkingOnly) <= limit) <==> cfg.talkOneShot || Cap(cfg) <= limit
  {
    if cfg.talkOneShot || Cap(cfg) <= limit {
      forall es
        ensures Recoveries(cfg, es, ThinkingOnly) <= limit
      {
        ThinkingTakesTurns(cfg, es);
        RunStaysBounded(cfg, es);
      }
    } else {
      var es := BlanksUseTheTurns(cfg, limit + 1);
      assert Recoveries(cfg, es, ThinkingOnly) > limit;
    }
  }
}

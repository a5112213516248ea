/** `evaluateRepeatedToolLoop` of src/agent/tool-loop-guard.ts, one call per turn that uses tools. */
module RepeatedToolLoop {
  import opened Wrappers
  import opened Seqs
  import opened StableStringify
  import opened ToolSignature

  datatype Limits = Limits(errorNudgeAt: nat, errorStopAt: nat, emptyArgsStopAt: nat, successNudgeAt: nat)

  const DEFAULT_LIMITS := Limits(2, 6, 4, 3)

  datatype Action = Pass | Nudge | Stop
  datatype Kind = NoCalls | SuccessRepeat | ErrorRepeat | EmptyArgs

  datatype Verdict = Verdict(action: Action, kind: Kind, count: nat, previousSignature: Option<string>)

  /** A turn's calls, whether any of them failed, and whether the first error is a schema rejection. */
  datatype Turn = Turn(calls: seq<ToolCall>, hadError: bool, schemaError: bool)

  predicate EmptyInput(input: Json) { input in {Null, Arr([]), Obj([])} }

  predicate HaveEmptyArgs(calls: seq<ToolCall>) {
    calls != [] && forall i :: 0 <= i < |calls| ==> EmptyInput(calls[i].input)
  }

  predicate IsEmptyArgs(turn: Turn) { turn.hadError && (turn.schemaError || HaveEmptyArgs(turn.calls)) }

  function Escalate(count: nat, nudgeAt: nat, stopAt: nat): Action {
    if stopAt <= count then Stop else if nudgeAt <= count then Nudge else Pass
  }

  function Evaluate(limits: Limits, before: Verdict, turn: Turn): Verdict {
    if turn.calls == [] then Verdict(Pass, NoCalls, 0, None)
    else
      var sig := Signature(turn.calls);
      var count := if before.previousSignature == Some(sig) then before.count + 1 else 1;
      if IsEmptyArgs(turn) then
        Verdict(Escalate(count, limits.errorNudgeAt, limits.emptyArgsStopAt), EmptyArgs, count, Some(sig))
      else if turn.hadError then
        Verdict(Escalate(count, limits.errorNudgeAt, limits.errorStopAt), ErrorRepeat, count, Some(sig))
      else
        Verdict(if limits.successNudgeAt <= count then Nudge else Pass, SuccessRepeat, count, Some(sig))
  }

  function After(limits: Limits, turns: seq<Turn>): Verdict {
    if turns == [] then Verdict(Pass, NoCalls, 0, None)
    else Evaluate(limits, After(limits, turns[..|turns| - 1]), turns[|turns| - 1])
  }

  // ---------------------------------------------------------------- what the count means

  ghost predicate Proper(turns: seq<Turn>) {
    forall k :: 0 <= k < |turns| ==> ProperTurn(turns[k])
  }

  ghost predicate ProperTurn(turn: Turn) {
    forall tc :: tc in turn.calls ==> Valid(tc.input) && Legible(tc.name)
  }

  /** The same calls, in any order and with the keys of their inputs in any order. */
  ghost predicate SameCalls(a: Turn, b: Turn) {
    && (a.calls == [] <==> b.calls == [])
    && multiset(Map(Meaning, a.calls)) == multiset(Map(Meaning, b.calls))
  }

  /** The last k turns all made the calls of the last one. */
  ghost predicate Repeated(turns: seq<Turn>, k: nat) {
    k <= |turns| && forall i :: |turns| - k <= i < |turns| ==> SameCalls(turns[i], turns[|turns| - 1])
  }

  lemma SameSignature(a: Turn, b: Turn)
    requires ProperTurn(a) && ProperTurn(b) && a.calls != [] && b.calls != []
    ensures Signature(a.calls) == Signature(b.calls) <==> SameCalls(a, b)
  {
    SignatureTellsTheCalls(a.calls, b.calls);
  }

  lemma SameCallsReflexive(a: Turn)
    ensures SameCalls(a, a)
  {
  }

  lemma RepeatedOnce(turns: seq<Turn>, k: nat)
    requires 1 < |turns| && 0 < k
    requires SameCalls(turns[|turns| - 2], turns[|turns| - 1])
    ensures Repeated(turns, k) <==> Repeated(turns[..|turns| - 1], k - 1)
  {
    var before, last := turns[..|turns| - 1], turns[|turns| - 1];
    assert forall i :: 0 <= i < |before| ==>
      (SameCalls(turns[i], last) <==> SameCalls(before[i], before[|before| - 1]));
  }

  lemma NotRepeated(turns: seq<Turn>, k: nat)
    requires 1 < k && turns != []
    requires 1 < |turns| ==> !SameCalls(turns[|turns| - 2], turns[|turns| - 1])
    ensures !Repeated(turns, k)
  {
  }

  lemma {:induction false} PreviousSignature(limits: Limits, turns: seq<Turn>)
    requires turns != []
    ensures After(limits, turns).previousSignature
            == if turns[|turns| - 1].calls == [] then None else Some(Signature(turns[|turns| - 1].calls))
  {
  }

  /** A turn continues the count of the turn before if it made the same calls. */
  lemma {:induction false} CountStep(limits: Limits, turns: seq<Turn>)
    requires Proper(turns) && turns != [] && turns[|turns| - 1].calls != []
    ensures var n := |turns| - 1;
            After(limits, turns).count ==
              if 0 < n && SameCalls(turns[n - 1], turns[n]) then After(limits, turns[..n]).count + 1 else 1
  {
    var n := |turns| - 1;
    if 0 < n {
      PreviousSignature(limits, turns[..n]);
      if turns[n - 1].calls != [] {
        SameSignature(turns[n - 1], turns[n]);
      }
    }
  }

  /** The count is the number of turns in a row that made the same calls as the last one, failed or not. */
  lemma {:induction false} CountIsTrailingRun(limits: Limits, turns: seq<Turn>, k: nat)
    requires Proper(turns) && turns != [] && turns[|turns| - 1].calls != []
    ensures k <= After(limits, turns).count <==> Repeated(turns, k)
    decreases |turns|
  {
    var n := |turns| - 1;
    CountStep(limits, turns);
    if k <= 1 {
      RepeatedOnceAlways(turns, k);
    } else if 0 < n && SameCalls(turns[n - 1], turns[n]) {
      RepeatedOnce(turns, k);
      ProperBefore(turns);
      CountIsTrailingRun(limits, turns[..n], k - 1);
    } else {
      NotRepeated(turns, k);
    }
  }

  lemma RepeatedOnceAlways(turns: seq<Turn>, k: nat)
    requires k <= 1 && turns != []
    ensures Repeated(turns, k)
  {
    SameCallsReflexive(turns[|turns| - 1]);
  }

  lemma ProperBefore(turns: seq<Turn>)
    requires Proper(turns) && 1 < |turns| && turns[|turns| - 1].calls != []
    requires SameCalls(turns[|turns| - 2], turns[|turns| - 1])
    ensures var before := turns[..|turns| - 1]; Proper(before) && before[|before| - 1].calls != []
  {
  }

  // ---------------------------------------------------------------- the verdicts

  /** How many arguments a call has: the fields of an object, the items of an array, or the value itself. */
  function Arguments(input: Json): nat {
    match input
    case Null => 0
    case Arr(items) => |items|
    case Obj(fields) => |fields|
    case _ => 1
  }

  /** A schema rejection, or not one argument in any of the calls. */
  predicate LacksArguments(turn: Turn) {
    turn.schemaError || forall tc :: tc in turn.calls ==> Arguments(tc.input) == 0
  }

  lemma EmptyArgsExactly(turn: Turn)
    requires turn.calls != []
    ensures IsEmptyArgs(turn) <==> turn.hadError && LacksArguments(turn)
  {
    if LacksArguments(turn) {
      assert forall i :: 0 <= i < |turn.calls| ==> turn.calls[i] in turn.calls;
    }
  }

  function StopAt(limits: Limits, turn: Turn): nat {
    if LacksArguments(turn) then limits.emptyArgsStopAt else limits.errorStopAt
  }

  /** A run is stopped at a turn exactly when that turn failed and its calls have been made often enough in a row. */
  lemma {:induction false} StopsExactly(limits: Limits, turns: seq<Turn>)
    requires Proper(turns) && turns != [] && turns[|turns| - 1].calls != []
    ensures var last := turns[|turns| - 1];
            After(limits, turns).action == Stop <==> last.hadError && Repeated(turns, StopAt(limits, last))
  {
    EmptyArgsExactly(turns[|turns| - 1]);
    CountIsTrailingRun(limits, turns, StopAt(limits, turns[|turns| - 1]));
  }

  /** A repeat that fails is a reminder once it is made often enough in a row, until it is stopped. */
  lemma {:induction false} FailureIsNudgedExactly(limits: Limits, turns: seq<Turn>)
    requires Proper(turns) && turns != [] && turns[|turns| - 1].calls != [] && turns[|turns| - 1].hadError
    ensures var v, last := After(limits, turns), turns[|turns| - 1];
            && (v.action == Nudge
                <==> Repeated(turns, limits.errorNudgeAt) && !Repeated(turns, StopAt(limits, last)))
            && v.kind == if LacksArguments(last) then EmptyArgs else ErrorRepeat
  {
    EmptyArgsExactly(turns[|turns| - 1]);
    CountIsTrailingRun(limits, turns, limits.errorNudgeAt);
    CountIsTrailingRun(limits, turns, StopAt(limits, turns[|turns| - 1]));
  }

  /** A repeat that succeeds is at most a reminder, and becomes one at the third time. */
  lemma {:induction false} SuccessIsNudgedExactly(limits: Limits, turns: seq<Turn>)
    requires Proper(turns) && turns != [] && turns[|turns| - 1].calls != [] && !turns[|turns| - 1].hadError
    ensures var v := After(limits, turns);
            && v.action != Stop
            && (v.action == Nudge <==> Repeated(turns, limits.successNudgeAt))
            && v.kind == SuccessRepeat
  {
    CountIsTrailingRun(limits, turns, limits.successNudgeAt);
  }

  /** The same successful calls n times in a row. */
  function Poll(calls: seq<ToolCall>, n: nat): seq<Turn> {
    if n == 0 then [] else Poll(calls, n - 1) + [Turn(calls, false, false)]
  }

  lemma {:induction false} PollCounts(limits: Limits, calls: seq<ToolCall>, n: nat)
    requires calls != [] && 0 < n
    ensures After(limits, Poll(calls, n)).count == n
    ensures After(limits, Poll(calls, n)).previousSignature == Some(Signature(calls))
  {
    assert Poll(calls, n)[..n - 1] == Poll(calls, n - 1) by {
      PollLength(calls, n - 1);
    }
    PollLength(calls, n);
    if n > 1 {
      PollCounts(limits, calls, n - 1);
    }
  }

  lemma {:induction false} PollLength(calls: seq<ToolCall>, n: nat)
    ensures |Poll(calls, n)| == n
  {
    if n > 0 {
      PollLength(calls, n - 1);
    }
  }

  /**
   * Successes count towards the stop: a call that has been polled successfully five times or more
   * ends the run at its first failure, although nothing has kept failing.
   */
  lemma {:induction false} OneFailureEndsAPoll(limits: Limits, calls: seq<ToolCall>, n: nat, schemaError: bool)
    requires calls != [] && 0 < n
    requires StopAt(limits, Turn(calls, true, schemaError)) <= n + 1
    ensures After(limits, Poll(calls, n) + [Turn(calls, true, schemaError)]).action == Stop
  {
    var all := Poll(calls, n) + [Turn(calls, true, schemaError)];
    EmptyArgsExactly(Turn(calls, true, schemaError));
    PollCounts(limits, calls, n);
    assert all[..|all| - 1] == Poll(calls, n);
  }
}

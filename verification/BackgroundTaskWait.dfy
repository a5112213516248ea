/**
 * The bounded wait for background tasks of src/agent/background-task-wait.ts. `decide` is split
 * where it awaits the registry: Decide runs up to the wait, Resume from the wait on.
 */
module BackgroundTaskWait {
  import opened Wrappers

  const MAX_BACKGROUND_TASK_WAIT_MS := 610_000

  datatype Action = Terminate | Continue | Nudge

  /** Either the answer, or a wait of so many milliseconds for the next task to end. */
  datatype Answer = Act(action: Action) | Wait(remainingMs: nat)

  /** What one call sees: the text, the registry, and the clock where it sets and reads the deadline. */
  datatype Turn = Turn(waitIntent: bool, alreadyTerminal: bool, running: nat, now: int, again: int)

  datatype State = State(deadlineAt: Option<int>, expiryNudgeSent: bool, disposed: bool)

  function Clamp(budgetMs: real): (r: nat)
    ensures r <= MAX_BACKGROUND_TASK_WAIT_MS
  {
    var whole := if 0 < budgetMs.Floor then budgetMs.Floor else 0;
    if whole < MAX_BACKGROUND_TASK_WAIT_MS then whole else MAX_BACKGROUND_TASK_WAIT_MS
  }

  function Remaining(deadlineAt: int, now: int): nat { if now < deadlineAt then deadlineAt - now else 0 }

  /** `decide` up to its await. */
  function Begin(budgetMs: nat, st: State, turn: Turn): (State, Answer) {
    if st.disposed || !turn.waitIntent then (st, Act(Terminate))
    else if turn.alreadyTerminal then (st, Act(Continue))
    else if turn.running == 0 || st.expiryNudgeSent then (st, Act(Terminate))
    else
      var deadlineAt := if st.deadlineAt.None? then turn.now + budgetMs else st.deadlineAt.value;
      (st.(deadlineAt := Some(deadlineAt)), Wait(Remaining(deadlineAt, turn.again)))
  }

  /** `decide` from its await on. */
  function Settle(st: State, terminal: bool): (State, Action) {
    if terminal then (st, Continue)
    else if st.disposed then (st, Terminate)
    else (st.(expiryNudgeSent := true), Nudge)
  }

  class Controller {
    const budgetMs: nat
    var deadlineAt: Option<int>
    var expiryNudgeSent: bool
    var disposed: bool

    ghost function Now(): State
      reads this
    {
      State(deadlineAt, expiryNudgeSent, disposed)
    }

    constructor (budgetMs: real, externallyAborted: bool)
      ensures this.budgetMs == Clamp(budgetMs) && Now() == State(None, false, externallyAborted)
    {
      this.budgetMs := Clamp(budgetMs);
      deadlineAt, expiryNudgeSent, disposed := None, false, externallyAborted;
    }

    method Decide(turn: Turn) returns (answer: Answer)
      modifies this
      ensures (Now(), answer) == Begin(budgetMs, old(Now()), turn)
    {
      if disposed || !turn.waitIntent {
        return Act(Terminate);
      }
      if turn.alreadyTerminal {
        return Act(Continue);
      }
      if turn.running == 0 {
        return Act(Terminate);
      }
      if expiryNudgeSent {
        return Act(Terminate);
      }
      if deadlineAt.None? {
        deadlineAt := Some(turn.now + budgetMs);
      }
      return Wait(Remaining(deadlineAt.value, turn.again));
    }

    method Resume(terminal: bool) returns (action: Action)
      modifies this
      ensures (Now(), action) == Settle(old(Now()), terminal)
    {
      if terminal {
        return Continue;
      }
      if disposed {
        return Terminate;
      }
      expiryNudgeSent := true;
      return Nudge;
    }

    method Dispose()
      modifies this
      ensures Now() == old(Now()).(disposed := true)
    {
      disposed := true;
    }
  }

  // ---------------------------------------------------------------- runs

  /**
   * One caller that awaits each answer, the registry's wait settling once, and disposal at any time.
   * TaskEnds and TimerFires resolve a pending wait, Resume hands its result to `decide`.
   */
  datatype Event =
    | Decide(turn: Turn)
    | TaskEnds(at: int)
    | TimerFires(at: int)
    | Dispose(at: int)
    | Resume(at: int)

  /** A wait and, once it is settled, whether a task ended it. */
  datatype Pending = Pending(since: int, remainingMs: nat, result: Option<bool>) {
    predicate TaskEnded() { result.Some? && result.value }
  }

  /** `actions` are the answers so far, `waited` the milliseconds spent in settled waits. */
  datatype Machine = Machine(st: State, pending: Option<Pending>, clock: int, waited: int, actions: seq<Action>)

  function Start(disposed: bool, clock: int): Machine {
    Machine(State(None, false, disposed), None, clock, 0, [])
  }

  function TimeOf(e: Event): int { if e.Decide? then e.turn.again else e.at }

  /** The first of several events settles a pending wait. */
  function SettlePending(m: Machine, terminal: bool, at: int): Machine {
    if m.pending.Some? && m.pending.value.result.None? then
      m.(pending := Some(m.pending.value.(result := Some(terminal))), waited := m.waited + at - m.pending.value.since)
    else m
  }

  function Next(budgetMs: nat, m: Machine, e: Event): Machine {
    match e
    case Decide(turn) =>
      var (st, answer) := Begin(budgetMs, m.st, turn);
      var asked := m.(st := st, clock := turn.again);
      (match answer
       case Act(action) => asked.(actions := m.actions + [action])
       case Wait(remainingMs) =>
         // A wait without time left resolves at once.
         asked.(pending := Some(Pending(turn.again, remainingMs, if remainingMs == 0 then Some(false) else None))))
    case TaskEnds(at) => SettlePending(m, true, at).(clock := at)
    case TimerFires(at) => SettlePending(m, false, at).(clock := at)
    case Dispose(at) => SettlePending(m.(st := m.st.(disposed := true)), false, at).(clock := at)
    case Resume(at) =>
      if m.pending.None? || m.pending.value.result.None? then m.(clock := at)
      else
        var (st, action) := Settle(m.st, m.pending.value.result.value);
        m.(st := st, pending := None, clock := at, actions := m.actions + [action])
  }

  /** Clocks do not run backwards, calls do not overlap, and the timer is at most `late` behind. */
  predicate Allowed(late: nat, m: Machine, e: Event) {
    && m.clock <= TimeOf(e)
    && (e.Decide? ==> m.pending.None? && m.clock <= e.turn.now <= e.turn.again)
    && (m.pending.Some? && m.pending.value.result.None? ==>
          TimeOf(e) <= m.pending.value.since + m.pending.value.remainingMs + late)
  }

  function After(budgetMs: nat, m: Machine, es: seq<Event>): Machine {
    if es == [] then m else Next(budgetMs, After(budgetMs, m, es[..|es| - 1]), es[|es| - 1])
  }

  predicate Possible(budgetMs: nat, late: nat, m: Machine, es: seq<Event>) {
    es == [] || (Possible(budgetMs, late, m, es[..|es| - 1])
                 && Allowed(late, After(budgetMs, m, es[..|es| - 1]), es[|es| - 1]))
  }

  function Nudges(actions: seq<Action>): nat {
    if actions == [] then 0
    else Nudges(actions[..|actions| - 1]) + if actions[|actions| - 1].Nudge? then 1 else 0
  }

  lemma {:induction false} NudgesOneMore(actions: seq<Action>, a: Action)
    ensures Nudges(actions + [a]) == Nudges(actions) + if a.Nudge? then 1 else 0
  {
    assert (actions + [a])[..|actions|] == actions;
  }

  /** The waits so far lie between the first wait and the deadline, apart from a late timer. */
  ghost predicate Inv(budgetMs: nat, late: nat, m: Machine) {
    && 0 <= m.waited <= budgetMs + late
    && Nudges(m.actions) == (if m.st.expiryNudgeSent then 1 else 0)
    && (m.st.expiryNudgeSent ==> m.pending.None?)
    && match m.st.deadlineAt
       case None => m.waited == 0 && m.pending.None?
       case Some(deadlineAt) =>
         && m.waited <= m.clock - (deadlineAt - budgetMs)
         && (m.pending.Some? ==> PendingInv(budgetMs, m, m.pending.value, deadlineAt))
  }

  ghost predicate PendingInv(budgetMs: nat, m: Machine, p: Pending, deadlineAt: int) {
    && p.since <= m.clock
    && (p.result.None? ==> p.since + p.remainingMs == deadlineAt && m.waited <= p.since - (deadlineAt - budgetMs))
  }

  lemma SettleKeepsInv(budgetMs: nat, late: nat, m: Machine, terminal: bool, at: int)
    requires Inv(budgetMs, late, m) && m.clock <= at
    requires m.pending.Some? && m.pending.value.result.None? ==>
               at <= m.pending.value.since + m.pending.value.remainingMs + late
    ensures Inv(budgetMs, late, SettlePending(m, terminal, at).(clock := at))
  {
  }

  lemma DecideKeepsInv(budgetMs: nat, late: nat, m: Machine, turn: Turn)
    requires Inv(budgetMs, late, m) && Allowed(late, m, Decide(turn))
    ensures Inv(budgetMs, late, Next(budgetMs, m, Decide(turn)))
  {
    var answer := Begin(budgetMs, m.st, turn).1;
    if answer.Act? {
      NudgesOneMore(m.actions, answer.action);
    }
  }

  lemma ResumeKeepsInv(budgetMs: nat, late: nat, m: Machine, at: int)
    requires Inv(budgetMs, late, m) && Allowed(late, m, Resume(at))
    ensures Inv(budgetMs, late, Next(budgetMs, m, Resume(at)))
  {
    if m.pending.Some? && m.pending.value.result.Some? {
      var (st, action) := Settle(m.st, m.pending.value.result.value);
      NudgesOneMore(m.actions, action);
      assert Next(budgetMs, m, Resume(at)) == Machine(st, None, at, m.waited, m.actions + [action]);
    }
  }

  lemma StepKeepsInv(budgetMs: nat, late: nat, m: Machine, e: Event)
    requires Inv(budgetMs, late, m) && Allowed(late, m, e)
    ensures Inv(budgetMs, late, Next(budgetMs, m, e))
  {
    match e
    case Decide(turn) => DecideKeepsInv(budgetMs, late, m, turn);
    case TaskEnds(at) => SettleKeepsInv(budgetMs, late, m, true, at);
    case TimerFires(at) => SettleKeepsInv(budgetMs, late, m, false, at);
    case Dispose(at) => SettleKeepsInv(budgetMs, late, m.(st := m.st.(disposed := true)), false, at);
    case Resume(at) => ResumeKeepsInv(budgetMs, late, m, at);
  }

  lemma {:induction false} RunKeepsInv(budgetMs: nat, late: nat, m: Machine, es: seq<Event>)
    requires Inv(budgetMs, late, m) && Possible(budgetMs, late, m, es)
    ensures Inv(budgetMs, late, After(budgetMs, m, es))
  {
    if es != [] {
      RunKeepsInv(budgetMs, late, m, es[..|es| - 1]);
      StepKeepsInv(budgetMs, late, After(budgetMs, m, es[..|es| - 1]), es[|es| - 1]);
    }
  }

  /** However the run goes: at most the budget is waited, and at most one nudge is given. */
  lemma {:induction false} WaitingIsBounded(budgetMs: real, late: nat, disposed: bool, clock: int, es: seq<Event>)
    requires Possible(Clamp(budgetMs), late, Start(disposed, clock), es)
    ensures var m := After(Clamp(budgetMs), Start(disposed, clock), es);
            && m.waited <= Clamp(budgetMs) + late <= MAX_BACKGROUND_TASK_WAIT_MS + late
            && Nudges(m.actions) <= 1
            && (m.st.expiryNudgeSent <==> Nudges(m.actions) == 1)
  {
    RunKeepsInv(Clamp(budgetMs), late, Start(disposed, clock), es);
  }

  // ---------------------------------------------------------------- the answers

  function Calls(es: seq<Event>): nat {
    if es == [] then 0 else Calls(es[..|es| - 1]) + if es[|es| - 1].Decide? then 1 else 0
  }

  function Open(m: Machine): nat { if m.pending.Some? then 1 else 0 }

  /** Each call is answered once, unless it is still waiting. */
  lemma {:induction false} EveryCallIsAnsweredOnce(budgetMs: nat, late: nat, m: Machine, es: seq<Event>)
    requires Possible(budgetMs, late, m, es)
    ensures var after := After(budgetMs, m, es);
            |after.actions| + Open(after) == |m.actions| + Open(m) + Calls(es)
  {
    if es != [] {
      EveryCallIsAnsweredOnce(budgetMs, late, m, es[..|es| - 1]);
    }
  }

  /** Whole milliseconds between nothing and the longest wait. */
  lemma ClampExactly(budgetMs: real)
    ensures budgetMs < 1.0 ==> Clamp(budgetMs) == 0
    ensures MAX_BACKGROUND_TASK_WAIT_MS as real <= budgetMs ==> Clamp(budgetMs) == MAX_BACKGROUND_TASK_WAIT_MS
    ensures 0.0 <= budgetMs < MAX_BACKGROUND_TASK_WAIT_MS as real ==>
              Clamp(budgetMs) as real <= budgetMs < Clamp(budgetMs) as real + 1.0
  {
  }

  /** No call has found an ended task, and none ended a wait. */
  predicate NoTaskEnded(es: seq<Event>) {
    forall i :: 0 <= i < |es| ==> !es[i].TaskEnds? && (es[i].Decide? ==> !es[i].turn.alreadyTerminal)
  }

  /** A run is told of a task only if one has ended. */
  lemma {:induction false} NothingEndedNothingTold(budgetMs: nat, disposed: bool, clock: int, es: seq<Event>)
    requires NoTaskEnded(es)
    ensures var m := After(budgetMs, Start(disposed, clock), es);
            Continue !in m.actions && (m.pending.Some? ==> !m.pending.value.TaskEnded())
  {
    if es != [] {
      NothingEndedNothingTold(budgetMs, disposed, clock, es[..|es| - 1]);
      assert After(budgetMs, Start(disposed, clock), es)
             == Next(budgetMs, After(budgetMs, Start(disposed, clock), es[..|es| - 1]), es[|es| - 1]);
    }
  }

  /** The same run, as its events alone tell it. */
  predicate Disposed(disposed: bool, es: seq<Event>) { disposed || exists i :: 0 <= i < |es| && es[i].Dispose? }

  lemma {:induction false} DisposedByHistory(budgetMs: nat, disposed: bool, clock: int, es: seq<Event>)
    ensures After(budgetMs, Start(disposed, clock), es).st.disposed <==> Disposed(disposed, es)
  {
    if es != [] {
      DisposedByHistory(budgetMs, disposed, clock, es[..|es| - 1]);
      assert forall i :: 0 <= i < |es| - 1 ==> es[..|es| - 1][i] == es[i];
    }
  }

  /**
   * After any run, a call in which the model waits: it is told of a task that has already ended, whether
   * or not others run or the nudge has been given; otherwise it waits exactly while tasks run and no
   * nudge was given; otherwise it ends. Without such a wish, or after a disposal, it ends.
   */
  lemma {:induction false} CallIsAnsweredExactly(budgetMs: nat, late: nat, disposed: bool, clock: int,
                                                 es: seq<Event>, turn: Turn)
    requires Possible(budgetMs, late, Start(disposed, clock), es + [Decide(turn)])
    ensures var before := After(budgetMs, Start(disposed, clock), es);
            var after := After(budgetMs, Start(disposed, clock), es + [Decide(turn)]);
            if Disposed(disposed, es) || !turn.waitIntent then after.actions == before.actions + [Terminate]
            else if turn.alreadyTerminal then after.actions == before.actions + [Continue]
            else if 0 < turn.running && Nudges(before.actions) == 0
            then after.pending.Some? && after.actions == before.actions
            else after.actions == before.actions + [Terminate]
  {
    var start, all := Start(disposed, clock), es + [Decide(turn)];
    assert all[..|all| - 1] == es;
    DisposedByHistory(budgetMs, disposed, clock, es);
    RunKeepsInv(budgetMs, late, start, es);
  }

  /** The next answer is, or is bound to be, that a task has ended. */
  ghost predicate Reports(answered: nat, m: Machine) {
    if |m.actions| == answered then m.pending.Some? && m.pending.value.TaskEnded()
    else answered < |m.actions| && m.actions[answered] == Continue
  }

  lemma StepReports(budgetMs: nat, late: nat, answered: nat, m: Machine, e: Event)
    requires Allowed(late, m, e) && Reports(answered, m)
    ensures Reports(answered, Next(budgetMs, m, e))
  {
  }

  /** A task that ends a wait is the next answer, even when timer or disposal come before the answer does. */
  lemma {:induction false} EndedTaskIsReported(budgetMs: nat, late: nat, m: Machine, at: int, es: seq<Event>)
    requires m.pending.Some? && m.pending.value.result.None?
    requires Possible(budgetMs, late, Next(budgetMs, m, TaskEnds(at)), es)
    ensures Reports(|m.actions|, After(budgetMs, Next(budgetMs, m, TaskEnds(at)), es))
  {
    if es != [] {
      EndedTaskIsReported(budgetMs, late, m, at, es[..|es| - 1]);
      StepReports(budgetMs, late, |m.actions|, After(budgetMs, Next(budgetMs, m, TaskEnds(at)), es[..|es| - 1]),
                  es[|es| - 1]);
    }
  }

  /** A wait that the timer ends before any task does is answered with the nudge, unless the run was disposed. */
  lemma {:induction false} TimedOutWaitNudges(budgetMs: nat, disposed: bool, clock: int, es: seq<Event>, at: int,
                                              later: int)
    requires !Disposed(disposed, es)
    requires var m := After(budgetMs, Start(disposed, clock), es); m.pending.Some? && m.pending.value.result.None?
    ensures var m := After(budgetMs, Start(disposed, clock), es);
            var after := After(budgetMs, m, [] + [TimerFires(at)] + [Resume(later)]);
            after.actions == m.actions + [Nudge] && after.pending.None?
  {
    var m := After(budgetMs, Start(disposed, clock), es);
    var one := [] + [TimerFires(at)];
    var two := one + [Resume(later)];
    DisposedByHistory(budgetMs, disposed, clock, es);
    assert one[..0] == [] && two[..1] == one;
    assert After(budgetMs, m, one) == Next(budgetMs, m, TimerFires(at));
    assert After(budgetMs, m, two) == Next(budgetMs, After(budgetMs, m, one), Resume(later));
  }

  /** A timer does not fire before its time. */
  predicate NotEarly(m: Machine, e: Event) {
    e.TimerFires? && m.pending.Some? && m.pending.value.result.None? ==>
      m.pending.value.since + m.pending.value.remainingMs <= e.at
  }

  predicate NeverEarly(budgetMs: nat, m: Machine, es: seq<Event>) {
    es == [] || (NeverEarly(budgetMs, m, es[..|es| - 1]) && NotEarly(After(budgetMs, m, es[..|es| - 1]), es[|es| - 1]))
  }

  /** Whoever has given up waiting has waited until the deadline. */
  ghost predicate Patient(m: Machine) {
    && (m.st.expiryNudgeSent || m.pending.Some? ==> m.st.deadlineAt.Some?)
    && (m.st.expiryNudgeSent ==> m.st.deadlineAt.value <= m.clock)
    && (m.pending.Some? ==>
          && (m.pending.value.result.None? ==>
                m.pending.value.since + m.pending.value.remainingMs == m.st.deadlineAt.value)
          && (m.pending.value.result == Some(false) ==> m.st.disposed || m.st.deadlineAt.value <= m.clock))
  }

  lemma StepStaysPatient(budgetMs: nat, late: nat, m: Machine, e: Event)
    requires Patient(m) && Allowed(late, m, e) && NotEarly(m, e)
    ensures Patient(Next(budgetMs, m, e))
  {
  }

  /** The nudge is given only once the deadline has passed: until then every call waits or is told of a task. */
  lemma {:induction false} NudgeOnlyAfterDeadline(budgetMs: nat, late: nat, disposed: bool, clock: int, es: seq<Event>)
    requires Possible(budgetMs, late, Start(disposed, clock), es) && NeverEarly(budgetMs, Start(disposed, clock), es)
    ensures var m := After(budgetMs, Start(disposed, clock), es);
            && Patient(m)
            && (m.st.expiryNudgeSent ==> m.st.deadlineAt.Some? && m.st.deadlineAt.value <= m.clock)
  {
    if es != [] {
      NudgeOnlyAfterDeadline(budgetMs, late, disposed, clock, es[..|es| - 1]);
      StepStaysPatient(budgetMs, late, After(budgetMs, Start(disposed, clock), es[..|es| - 1]), es[|es| - 1]);
    }
  }

  // ---------------------------------------------------------------- what stays

  /** What never changes back: the deadline, the nudge and the disposal. */
  ghost predicate Later(a: State, b: State) {
    && (a.deadlineAt.Some? ==> b.deadlineAt == a.deadlineAt)
    && (a.expiryNudgeSent ==> b.expiryNudgeSent)
    && (a.disposed ==> b.disposed)
  }

  lemma {:induction false} RunMovesForward(budgetMs: nat, m: Machine, es: seq<Event>)
    ensures Later(m.st, After(budgetMs, m, es).st)
  {
    if es != [] {
      RunMovesForward(budgetMs, m, es[..|es| - 1]);
    }
  }

  /** The first wait of a run fixes the deadline: later waits are cut to end by it. */
  lemma {:induction false} OneDeadline(budgetMs: nat, m: Machine, first: Turn, es: seq<Event>, turn: Turn)
    requires Begin(budgetMs, m.st, first).1.Wait? && m.st.deadlineAt.None?
    ensures var st := After(budgetMs, Next(budgetMs, m, Decide(first)), es).st;
            var answer := Begin(budgetMs, st, turn).1;
            && st.deadlineAt == Some(first.now + budgetMs)
            && (answer.Wait? ==> turn.again + answer.remainingMs <= first.now + budgetMs || answer.remainingMs == 0)
  {
    RunMovesForward(budgetMs, Next(budgetMs, m, Decide(first)), es);
  }

  /** After a nudge no call waits again. */
  lemma {:induction false} NoWaitAfterNudge(budgetMs: nat, m: Machine, es: seq<Event>, turn: Turn)
    requires m.st.expiryNudgeSent
    ensures var (st, answer) := Begin(budgetMs, After(budgetMs, m, es).st, turn);
            answer == Act(Continue) || answer == Act(Terminate)
  {
    RunMovesForward(budgetMs, m, es);
  }

  /** Disposed, and not still about to report a task that had ended before. */
  ghost predicate Ending(m: Machine) {
    m.st.disposed && (m.pending.Some? ==> m.pending.value.result.Some? && !m.pending.value.TaskEnded())
  }

  lemma EndingOnlyTerminates(budgetMs: nat, m: Machine, e: Event)
    requires Ending(m)
    ensures var after := Next(budgetMs, m, e);
            Ending(after) && (after.actions == m.actions || after.actions == m.actions + [Terminate])
  {
  }

  /** Every answer after a disposal is `terminate`, unless a task had already ended the pending wait. */
  lemma {:induction false} DisposedOnlyTerminates(budgetMs: nat, m: Machine, at: int, es: seq<Event>)
    requires m.pending.Some? ==> !m.pending.value.TaskEnded()
    ensures var disposed := Next(budgetMs, m, Dispose(at));
            var after := After(budgetMs, disposed, es);
            && disposed.actions == m.actions
            && Ending(after)
            && m.actions <= after.actions
            && forall i :: |m.actions| <= i < |after.actions| ==> after.actions[i] == Terminate
  {
    var disposed := Next(budgetMs, m, Dispose(at));
    if es != [] {
      DisposedOnlyTerminates(budgetMs, m, at, es[..|es| - 1]);
      var before := After(budgetMs, disposed, es[..|es| - 1]);
      EndingOnlyTerminates(budgetMs, before, es[|es| - 1]);
      assert After(budgetMs, disposed, es) == Next(budgetMs, before, es[|es| - 1]);
    }
  }
}

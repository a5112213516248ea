/**
 * The settle race of `runToolGuarded` in src/agent/turn.ts: the handler against the turn's abort
 * signal and a watchdog for tools that stay silent.
 */
module GuardedRun {
  import opened Wrappers

  /** `silentMs` 0 stands for a handler without a watchdog. */
  datatype Config = Config(hasSignal: bool, silentMs: nat) {
    predicate Guarded() { hasSignal || 0 < silentMs }
  }

  datatype Outcome = Cancelled | Abandoned | Resolved(result: string) | Rejected(error: string)

  datatype State = State(started: bool, settled: bool, watchdog: Option<int>, listening: bool, outcome: Option<Outcome>)

  /** What the call finds: an aborted signal, and a handler that may throw before it returns a promise. */
  datatype Entry = Entry(now: int, aborted: bool, thrown: Option<string>)

  /** The event loop reaching a time, and what else can happen to a running call. */
  datatype Event = Aborts | Progress(at: int) | Tick(at: int) | Resolves(result: string) | Rejects(error: string)

  /** A promise keeps its first outcome. */
  function First(outcome: Option<Outcome>, other: Outcome): Option<Outcome> {
    if outcome.Some? then outcome else Some(other)
  }

  class Run {
    const cfg: Config
    var started: bool
    var settled: bool
    var watchdog: Option<int>
    var listening: bool
    var outcome: Option<Outcome>

    ghost function Now(): State
      reads this
    {
      State(started, settled, watchdog, listening, outcome)
    }

    constructor (cfg: Config, entry: Entry)
      ensures this.cfg == cfg && Now() == Launch(cfg, entry)
    {
      this.cfg := cfg;
      started, settled, watchdog, listening, outcome := false, false, None, false, None;
      new;
      if cfg.Guarded() && cfg.hasSignal && entry.aborted {
        SettleWith(Cancelled);
        return;
      }
      if cfg.Guarded() && cfg.hasSignal {
        listening := true;
      }
      if cfg.Guarded() && 0 < cfg.silentMs {
        ArmWatchdog(entry.now);
      }
      started := true;
      if entry.thrown.Some? {
        outcome := First(outcome, Rejected(entry.thrown.value));
      }
    }

    method SettleWith(o: Outcome)
      modifies this
      ensures Now() == Settle(old(Now()), o)
    {
      if settled {
        return;
      }
      settled := true;
      watchdog, listening := None, false;
      outcome := First(outcome, o);
    }

    method ArmWatchdog(now: int)
      modifies this`watchdog
      ensures Now() == Arm(cfg, old(Now()), now)
    {
      if cfg.silentMs == 0 || settled {
        return;
      }
      watchdog := Some(now + cfg.silentMs);
    }

    method Handle(e: Event)
      modifies this
      ensures Now() == Next(cfg, old(Now()), e)
    {
      match e {
        case Aborts =>
          if listening {
            SettleWith(Cancelled);
          }
        case Progress(at) =>
          ArmWatchdog(at);
        case Tick(at) =>
          if watchdog.Some? && watchdog.value <= at {
            SettleWith(Abandoned);
          }
        case Resolves(result) =>
          Complete(Resolved(result));
        case Rejects(error) =>
          Complete(Rejected(error));
      }
    }

    /** The handler's own promise settles. */
    method Complete(o: Outcome)
      modifies this
      ensures Now() == Completed(cfg, old(Now()), o)
    {
      if !started {
        return;
      }
      if cfg.Guarded() {
        SettleWith(o);
      } else {
        outcome := First(outcome, o);
      }
    }
  }

  // ---------------------------------------------------------------- specification

  function Launch(cfg: Config, entry: Entry): State {
    if cfg.hasSignal && entry.aborted then State(false, true, None, false, Some(Cancelled))
    else
      State(true, false, if 0 < cfg.silentMs then Some(entry.now + cfg.silentMs) else None, cfg.hasSignal,
            if entry.thrown.Some? then Some(Rejected(entry.thrown.value)) else None)
  }

  function Settle(st: State, o: Outcome): State {
    if st.settled then st
    else st.(settled := true, watchdog := None, listening := false, outcome := First(st.outcome, o))
  }

  function Arm(cfg: Config, st: State, now: int): State {
    if cfg.silentMs == 0 || st.settled then st else st.(watchdog := Some(now + cfg.silentMs))
  }

  function Completed(cfg: Config, st: State, o: Outcome): State {
    if !st.started then st
    else if cfg.Guarded() then Settle(st, o)
    else st.(outcome := First(st.outcome, o))
  }

  function Next(cfg: Config, st: State, e: Event): State {
    match e
    case Aborts => if st.listening then Settle(st, Cancelled) else st
    case Progress(at) => Arm(cfg, st, at)
    case Tick(at) => if st.watchdog.Some? && st.watchdog.value <= at then Settle(st, Abandoned) else st
    case Resolves(result) => Completed(cfg, st, Resolved(result))
    case Rejects(error) => Completed(cfg, st, Rejected(error))
  }

  function After(cfg: Config, entry: Entry, es: seq<Event>): State {
    if es == [] then Launch(cfg, entry)
    else Next(cfg, After(cfg, entry, es[..|es| - 1]), es[|es| - 1])
  }

  /** The last sign of life: the start, or the latest progress. */
  function LastActivity(entry: Entry, es: seq<Event>): int {
    if es == [] then entry.now
    else if es[|es| - 1].Progress? then es[|es| - 1].at
    else LastActivity(entry, es[..|es| - 1])
  }

  /** Whether event i would settle the call, going by the history alone. */
  predicate Settling(cfg: Config, entry: Entry, es: seq<Event>, i: nat)
    requires i < |es|
  {
    match es[i]
    case Aborts => cfg.hasSignal
    case Progress(_) => false
    case Tick(at) => 0 < cfg.silentMs && LastActivity(entry, es[..i]) + cfg.silentMs <= at
    case Resolves(_) => true
    case Rejects(_) => true
  }

  function OutcomeOf(e: Event): Outcome
    requires !e.Progress?
  {
    match e
    case Aborts => Cancelled
    case Tick(_) => Abandoned
    case Resolves(result) => Resolved(result)
    case Rejects(error) => Rejected(error)
  }

  /** Event i settles the call, and none before it does. */
  ghost predicate FirstSettling(cfg: Config, entry: Entry, es: seq<Event>, i: nat) {
    i < |es| && Settling(cfg, entry, es, i) && NoneSettling(cfg, entry, es, i)
  }

  ghost predicate NoneSettling(cfg: Config, entry: Entry, es: seq<Event>, n: nat) {
    forall k: nat :: k < n && k < |es| ==> !Settling(cfg, entry, es, k)
  }

  lemma SettlingInPrefix(cfg: Config, entry: Entry, es: seq<Event>, i: nat)
    requires i + 1 < |es|
    ensures Settling(cfg, entry, es[..|es| - 1], i) <==> Settling(cfg, entry, es, i)
  {
    assert es[..|es| - 1][..i] == es[..i];
  }

  /** The handler is running, unsettled, and watched since its last sign of life. */
  ghost predicate Waiting(cfg: Config, entry: Entry, es: seq<Event>, st: State) {
    && st.started && !st.settled && st.outcome.None?
    && st.listening == cfg.hasSignal
    && st.watchdog == if 0 < cfg.silentMs then Some(LastActivity(entry, es) + cfg.silentMs) else None
  }

  /** Settled with an outcome, with nothing left armed or registered. */
  ghost predicate Done(cfg: Config, st: State, o: Outcome) {
    && st.outcome == Some(o) && st.watchdog.None? && !st.listening
    && (cfg.Guarded() ==> st.settled)
  }

  /** A handler that returns a promise, in a turn not aborted before. */
  predicate Normal(cfg: Config, entry: Entry) { !(cfg.hasSignal && entry.aborted) && entry.thrown.None? }

  lemma {:induction false} StepFromWaiting(cfg: Config, entry: Entry, es: seq<Event>)
    requires es != []
    requires Waiting(cfg, entry, es[..|es| - 1], After(cfg, entry, es[..|es| - 1]))
    ensures var st := After(cfg, entry, es);
            if Settling(cfg, entry, es, |es| - 1) then Done(cfg, st, OutcomeOf(es[|es| - 1]))
            else Waiting(cfg, entry, es, st)
  {
    NextFromWaiting(cfg, After(cfg, entry, es[..|es| - 1]), es[|es| - 1], LastActivity(entry, es[..|es| - 1]));
  }

  lemma NextFromWaiting(cfg: Config, st: State, e: Event, last: int)
    requires st.started && !st.settled && st.outcome.None? && st.listening == cfg.hasSignal
    requires st.watchdog == if 0 < cfg.silentMs then Some(last + cfg.silentMs) else None
    ensures var next := Next(cfg, st, e);
            match e
            case Aborts => if cfg.hasSignal then Done(cfg, next, Cancelled) else next == st
            case Progress(at) =>
              next == st.(watchdog := if 0 < cfg.silentMs then Some(at + cfg.silentMs) else None)
            case Tick(at) =>
              if 0 < cfg.silentMs && last + cfg.silentMs <= at then Done(cfg, next, Abandoned) else next == st
            case Resolves(result) => Done(cfg, next, Resolved(result))
            case Rejects(error) => Done(cfg, next, Rejected(error))
  {
  }

  lemma StepFromDone(cfg: Config, st: State, e: Event, o: Outcome)
    requires Done(cfg, st, o)
    ensures Done(cfg, Next(cfg, st, e), o)
  {
  }

  /** In every interleaving the outcome is that of the first event that settles the call. */
  lemma {:induction false} FirstSettlingWins(cfg: Config, entry: Entry, es: seq<Event>)
    requires Normal(cfg, entry)
    ensures NoneSettling(cfg, entry, es, |es|) ==> Waiting(cfg, entry, es, After(cfg, entry, es))
    ensures forall i: nat :: FirstSettling(cfg, entry, es, i) ==> Done(cfg, After(cfg, entry, es), OutcomeOf(es[i]))
  {
    if es != [] {
      var before := es[..|es| - 1];
      FirstSettlingWins(cfg, entry, before);
      forall k: nat | k + 1 < |es|
        ensures Settling(cfg, entry, before, k) <==> Settling(cfg, entry, es, k)
      {
        SettlingInPrefix(cfg, entry, es, k);
      }
      if NoneSettling(cfg, entry, before, |before|) {
        StepFromWaiting(cfg, entry, es);
      }
      forall i: nat | FirstSettling(cfg, entry, es, i)
        ensures Done(cfg, After(cfg, entry, es), OutcomeOf(es[i]))
      {
        if i + 1 < |es| {
          assert FirstSettling(cfg, entry, before, i);
          StepFromDone(cfg, After(cfg, entry, before), es[|es| - 1], OutcomeOf(es[i]));
        } else {
          assert NoneSettling(cfg, entry, before, |before|);
        }
      }
    }
  }

  lemma {:induction false} SomeIsFirst(cfg: Config, entry: Entry, es: seq<Event>, k: nat) returns (i: nat)
    requires k < |es| && Settling(cfg, entry, es, k)
    ensures i <= k && FirstSettling(cfg, entry, es, i)
  {
    i := 0;
    while !Settling(cfg, entry, es, i)
      invariant i <= k && NoneSettling(cfg, entry, es, i)
      decreases k - i
    {
      i := i + 1;
    }
  }

  /** With a signal: settled and cleaned up, or still listening to it. */
  ghost predicate Abortable(st: State) {
    if st.settled then st.outcome.Some? && st.watchdog.None? && !st.listening else st.listening
  }

  /**
   * An abort always settles the call, and a settled call has no watchdog and no listener. That holds
   * for a handler that throws too: the listener it leaves behind goes with the abort.
   */
  lemma {:induction false} AbortAlwaysSettles(cfg: Config, entry: Entry, es: seq<Event>)
    requires cfg.hasSignal
    ensures var st := After(cfg, entry, es);
            Abortable(st) && (entry.aborted || Aborts in es ==> st.settled)
  {
    if es != [] {
      AbortAlwaysSettles(cfg, entry, es[..|es| - 1]);
      assert es == es[..|es| - 1] + [es[|es| - 1]];
    }
  }

  /** A turn aborted before the call never starts the handler. */
  lemma {:induction false} AbortedNeverStarts(cfg: Config, entry: Entry, es: seq<Event>)
    requires cfg.hasSignal && entry.aborted
    ensures After(cfg, entry, es) == State(false, true, None, false, Some(Cancelled))
  {
    if es != [] {
      AbortedNeverStarts(cfg, entry, es[..|es| - 1]);
    }
  }

  /** Nothing is left behind once the caller has its answer. */
  ghost predicate CleansUp(cfg: Config, entry: Entry) {
    forall es :: LeavesNothing(After(cfg, entry, es))
  }

  ghost predicate LeavesNothing(st: State) {
    st.outcome.Some? ==> st.watchdog.None? && !st.listening
  }

  /**
   * A handler that throws instead of returning a promise rejects the call, but not through the
   * settle function: its watchdog stays armed and its listener registered.
   */
  lemma CleansUpExactly(cfg: Config, entry: Entry)
    ensures CleansUp(cfg, entry) <==>
            !cfg.Guarded() || (cfg.hasSignal && entry.aborted) || entry.thrown.None?
  {
    if cfg.hasSignal && entry.aborted {
      forall es
        ensures LeavesNothing(After(cfg, entry, es))
      {
        AbortedNeverStarts(cfg, entry, es);
      }
    } else if !cfg.Guarded() {
      forall es
        ensures LeavesNothing(After(cfg, entry, es))
      {
        UnguardedHoldsNothing(cfg, entry, es);
      }
    } else if entry.thrown.None? {
      forall es
        ensures LeavesNothing(After(cfg, entry, es))
      {
        NormalLeavesNothing(cfg, entry, es);
      }
    } else {
      assert !LeavesNothing(After(cfg, entry, []));
    }
  }

  lemma {:induction false} NormalLeavesNothing(cfg: Config, entry: Entry, es: seq<Event>)
    requires Normal(cfg, entry)
    ensures LeavesNothing(After(cfg, entry, es))
  {
    FirstSettlingWins(cfg, entry, es);
    if !NoneSettling(cfg, entry, es, |es|) {
      var k: nat :| k < |es| && Settling(cfg, entry, es, k);
      var i := SomeIsFirst(cfg, entry, es, k);
      assert FirstSettling(cfg, entry, es, i);
    }
  }

  lemma {:induction false} UnguardedHoldsNothing(cfg: Config, entry: Entry, es: seq<Event>)
    requires !cfg.Guarded()
    ensures var st := After(cfg, entry, es); st.watchdog.None? && !st.listening
  {
    if es != [] {
      UnguardedHoldsNothing(cfg, entry, es[..|es| - 1]);
    }
  }
}

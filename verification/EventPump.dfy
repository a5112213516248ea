/**
 * The live-event pump of src/android-entry.ts and the de-duplication that follows it. Between two
 * suspension points the code runs undisturbed, so one action is one such stretch.
 */
module EventPump {
  /** An agent event: a tool start with the identifier of its call, or anything else. */
  datatype Event = ToolStart(toolCallId: string, input: string) | Other(text: string)

  /** Where the consuming generator stands: about to run, waiting for a wake-up, or past the pump. */
  datatype Consumer = Ready | Asleep | Exited

  datatype State = State(liveEvents: seq<Event>, wakeLive: bool, turnDone: bool, consumer: Consumer)

  const Start := State([], false, false, Ready)

  datatype Action = Push(event: Event) | Finish | Resume

  predicate Enabled(s: State, a: Action) { a.Resume? ==> s.consumer == Ready }

  /** `signalLive`: a registered waker is taken out and called. */
  function Signal(s: State): State {
    if s.wakeLive then s.(wakeLive := false, consumer := Ready) else s
  }

  /** The consumer from one suspension to the next, with the event it yields, if any. */
  function Advance(s: State): (State, seq<Event>) {
    if s.liveEvents != [] then (s.(liveEvents := s.liveEvents[1..]), [s.liveEvents[0]])
    else if s.turnDone then (s.(consumer := Exited), [])
    else
      var armed := s.(wakeLive := true, consumer := Asleep);
      (if armed.turnDone || armed.liveEvents != [] then Signal(armed) else armed, [])
  }

  function Step(s: State, a: Action): (State, seq<Event>) {
    match a
    case Push(event) => (Signal(s.(liveEvents := s.liveEvents + [event])), [])
    case Finish => (Signal(s.(turnDone := true)), [])
    case Resume => Advance(s)
  }

  /** The pump object: the variables shared by the emitter callback, the turn and the generator. */
  class Pump {
    var liveEvents: seq<Event>
    var wakeLive: bool
    var turnDone: bool
    var consumer: Consumer

    ghost function Fields(): State
      reads this
    {
      State(liveEvents, wakeLive, turnDone, consumer)
    }

    constructor ()
      ensures Fields() == Start
    {
      liveEvents, wakeLive, turnDone, consumer := [], false, false, Ready;
    }

    method SignalLive()
      modifies this`wakeLive, this`consumer
      ensures Fields() == Signal(old(Fields()))
    {
      var wake := wakeLive;
      wakeLive := false;
      if wake {
        consumer := Ready;
      }
    }

    method OnLiveEvent(event: Event)
      modifies this
      ensures Fields() == Step(old(Fields()), Push(event)).0
    {
      liveEvents := liveEvents + [event];
      SignalLive();
    }

    method OnTurnDone()
      modifies this
      ensures Fields() == Step(old(Fields()), Finish).0
    {
      turnDone := true;
      SignalLive();
    }

    method Next() returns (yielded: seq<Event>)
      modifies this
      ensures (Fields(), yielded) == Step(old(Fields()), Resume)
    {
      if |liveEvents| > 0 {
        yielded := [liveEvents[0]];
        liveEvents := liveEvents[1..];
      } else if turnDone {
        consumer := Exited;
        yielded := [];
      } else {
        wakeLive := true;
        consumer := Asleep;
        if turnDone || |liveEvents| > 0 {
          SignalLive();
        }
        yielded := [];
      }
    }
  }

  // ---------------------------------------------------------------- every interleaving

  /** The state after the first n actions, the events pushed and the events yielded. */
  datatype History = History(state: State, pushed: seq<Event>, yielded: seq<Event>)

  ghost predicate Schedule(actions: seq<Action>, n: nat)
    requires n <= |actions|
  {
    n == 0 || (Schedule(actions, n - 1) && Enabled(After(actions, n - 1).state, actions[n - 1]))
  }

  ghost function After(actions: seq<Action>, n: nat): History
    requires n <= |actions|
  {
    if n == 0 then History(Start, [], [])
    else
      var h := After(actions, n - 1);
      var (state, yielded) := Step(h.state, actions[n - 1]);
      History(state,
              h.pushed + if actions[n - 1].Push? then [actions[n - 1].event] else [],
              h.yielded + yielded)
  }

  /** Nothing lost, nothing doubled, and a sleeper has a waker and nothing to do. */
  ghost predicate Sound(h: History) {
    && h.pushed == h.yielded + h.state.liveEvents
    && (h.state.consumer == Asleep <==> h.state.wakeLive)
    && (h.state.consumer == Asleep ==> h.state.liveEvents == [] && !h.state.turnDone)
    && (h.state.consumer == Exited ==> h.state.turnDone)
  }

  lemma StepIsSound(h: History, a: Action)
    requires Sound(h) && Enabled(h.state, a)
    ensures var (state, yielded) := Step(h.state, a);
            Sound(History(state, h.pushed + if a.Push? then [a.event] else [], h.yielded + yielded))
  {
    var (state, yielded) := Step(h.state, a);
    match a
    case Push(event) =>
      assert h.pushed + [event] == (h.yielded + []) + (h.state.liveEvents + [event]);
    case Finish =>
      assert h.pushed + [] == (h.yielded + []) + h.state.liveEvents;
    case Resume =>
      if h.state.liveEvents != [] {
        assert h.state.liveEvents == yielded + state.liveEvents;
        assert h.pushed + [] == (h.yielded + yielded) + state.liveEvents;
      } else {
        assert h.pushed + [] == (h.yielded + []) + [];
      }
  }

  /**
   * In every interleaving of the turn and the consumer, what was yielded and what is queued are
   * exactly the pushed events in order, and the consumer is never asleep with an event pending or
   * the turn done.
   */
  lemma {:induction false} PumpIsSound(actions: seq<Action>, n: nat)
    requires n <= |actions| && Schedule(actions, n)
    ensures Sound(After(actions, n))
  {
    if n > 0 {
      PumpIsSound(actions, n - 1);
      StepIsSound(After(actions, n - 1), actions[n - 1]);
    }
  }

  /** Nothing to yield and the turn still on. */
  ghost predicate IsIdle(actions: seq<Action>, n: nat)
    requires n <= |actions|
  {
    After(actions, n).pushed == After(actions, n).yielded && Finish !in actions[..n]
  }

  /** The consumer last ran with nothing to do, and nothing has happened since. */
  ghost predicate FellAsleep(actions: seq<Action>, n: nat)
    requires n <= |actions|
  {
    0 < n && actions[n - 1] == Resume && IsIdle(actions, n - 1)
  }

  lemma {:induction false} DoneByHistory(actions: seq<Action>, n: nat)
    requires n <= |actions|
    ensures After(actions, n).state.turnDone <==> Finish in actions[..n]
  {
    if n > 0 {
      DoneByHistory(actions, n - 1);
      assert actions[..n] == actions[..n - 1] + [actions[n - 1]];
    }
  }

  lemma QueueByHistory(h: History)
    requires Sound(h)
    ensures h.state.liveEvents == [] <==> h.pushed == h.yielded
  {
    if h.pushed == h.yielded {
      assert |h.pushed| == |h.yielded| + |h.state.liveEvents|;
    }
  }

  lemma {:induction false} LeftStaysLeft(actions: seq<Action>, k: nat, n: nat)
    requires k <= n <= |actions| && Schedule(actions, n) && After(actions, k).state.consumer == Exited
    ensures After(actions, n).state.consumer == Exited && After(actions, n).yielded == After(actions, k).yielded
    decreases n
  {
    if k < n {
      LeftStaysLeft(actions, k, n - 1);
      SchedulePrefix(actions, n - 1, n);
      PumpIsSound(actions, n - 1);
    }
  }

  lemma {:induction false} SchedulePrefix(actions: seq<Action>, k: nat, n: nat)
    requires k + 1 == n <= |actions| && Schedule(actions, n)
    ensures Schedule(actions, k)
  {
  }

  /**
   * The consumer by the history alone: after a run of its own it sleeps exactly if there was nothing to
   * yield and the turn still on, and has left exactly if there was nothing to yield and the turn done;
   * after any other action it is not asleep.
   */
  lemma ConsumerExactly(actions: seq<Action>, n: nat)
    requires n <= |actions| && Schedule(actions, n)
    ensures After(actions, n).state.consumer == Asleep <==> FellAsleep(actions, n)
    ensures 0 < n && actions[n - 1] == Resume ==>
              (After(actions, n).state.consumer == Exited
               <==> After(actions, n - 1).pushed == After(actions, n - 1).yielded && Finish in actions[..n - 1])
  {
    PumpIsSound(actions, n);
    if n > 0 {
      PumpIsSound(actions, n - 1);
      DoneByHistory(actions, n - 1);
      QueueByHistory(After(actions, n - 1));
    }
  }

  /** The pump leaves only after every event pushed so far has been yielded. */
  lemma ExitIsComplete(actions: seq<Action>, n: nat)
    requires n < |actions| && Schedule(actions, n + 1)
    requires After(actions, n).state.consumer != Exited && After(actions, n + 1).state.consumer == Exited
    ensures After(actions, n + 1).yielded == After(actions, n + 1).pushed && After(actions, n + 1).state.turnDone
  {
    PumpIsSound(actions, n);
    PumpIsSound(actions, n + 1);
  }

  /** The consumer running alone k times. */
  function Drain(s: State, k: nat): (State, seq<Event>)
    decreases k
  {
    if k == 0 || s.consumer != Ready then (s, [])
    else
      var (next, head) := Advance(s);
      var (last, tail) := Drain(next, k - 1);
      (last, head + tail)
  }

  lemma {:induction false} ReadyDrains(s: State)
    requires s.turnDone && s.consumer == Ready
    ensures Drain(s, |s.liveEvents| + 1).0 == s.(liveEvents := [], consumer := Exited)
    ensures Drain(s, |s.liveEvents| + 1).1 == s.liveEvents
    decreases |s.liveEvents|
  {
    if s.liveEvents != [] {
      ReadyDrains(s.(liveEvents := s.liveEvents[1..]));
    }
  }

  /**
   * No lost wake-up: however the turn and the consumer took turns until the turn was done, the consumer
   * is awake or has left, and running it once more than there are queued events yields the rest of what
   * was pushed, in order, and leaves the pump.
   */
  lemma {:induction false} DrainsAfterDone(actions: seq<Action>, n: nat)
    requires n <= |actions| && Schedule(actions, n) && After(actions, n).state.turnDone
    ensures var h := After(actions, n);
            var (last, rest) := Drain(h.state, |h.state.liveEvents| + 1);
            && h.state.consumer != Asleep
            && last.consumer == Exited
            && (h.state.consumer == Ready ==> last.liveEvents == [] && h.yielded + rest == h.pushed)
  {
    PumpIsSound(actions, n);
    var s := After(actions, n).state;
    if s.consumer == Ready {
      ReadyDrains(s);
    }
  }

  // ---------------------------------------------------------------- de-duplication of tool starts

  /** Position i holds the first start of its call, or no start at all. */
  predicate IsKept(events: seq<Event>, i: nat)
    requires i < |events|
  {
    events[i].ToolStart? ==>
      forall j :: 0 <= j < i ==> !(events[j].ToolStart? && events[j].toolCallId == events[i].toolCallId)
  }

  /** The kept positions among the first n, in order. */
  function Kept(events: seq<Event>, n: nat): (r: seq<nat>)
    requires n <= |events|
    ensures |r| <= n && forall p :: 0 <= p < |r| ==> r[p] < n && IsKept(events, r[p])
    ensures forall p, q :: 0 <= p < q < |r| ==> r[p] < r[q]
    ensures forall i :: 0 <= i < n && IsKept(events, i) ==> i in r
  {
    if n == 0 then [] else if IsKept(events, n - 1) then Kept(events, n - 1) + [n - 1] else Kept(events, n - 1)
  }

  /** The last start of a call among the first n events. */
  function LastStart(events: seq<Event>, n: nat, id: string): Event
    requires n <= |events| && exists i :: 0 <= i < n && events[i].ToolStart? && events[i].toolCallId == id
  {
    if events[n - 1].ToolStart? && events[n - 1].toolCallId == id then events[n - 1] else LastStart(events, n - 1, id)
  }

  /** What stands at kept position i once the first n events have been seen. */
  function Final(events: seq<Event>, n: nat, i: nat): Event
    requires i < n <= |events|
  {
    if events[i].ToolStart? then LastStart(events, n, events[i].toolCallId) else events[i]
  }

  /** One event per kept position: the position of the first start of a call, the content of its last. */
  function Normalized(events: seq<Event>, n: nat): (r: seq<Event>)
    requires n <= |events|
    ensures |r| == |Kept(events, n)|
    ensures forall p :: 0 <= p < |r| ==> r[p] == Final(events, n, Kept(events, n)[p])
  {
    seq(|Kept(events, n)|, p requires 0 <= p < |Kept(events, n)| => Final(events, n, Kept(events, n)[p]))
  }

  /** The index map after n events: each started call at its position among the kept ones. */
  ghost predicate Indexed(events: seq<Event>, kept: seq<nat>, n: nat, indexById: map<string, nat>)
    requires n <= |events|
  {
    && (forall id :: id in indexById ==> PositionOf(events, kept, id, indexById[id]))
    && (forall i :: 0 <= i < n && events[i].ToolStart? ==> events[i].toolCallId in indexById)
  }

  ghost predicate PositionOf(events: seq<Event>, kept: seq<nat>, id: string, p: nat) {
    p < |kept| && kept[p] < |events| && events[kept[p]].ToolStart? && events[kept[p]].toolCallId == id
  }

  lemma IndexedAgain(events: seq<Event>, kept: seq<nat>, k: nat, indexById: map<string, nat>)
    requires k < |events| && Indexed(events, kept, k, indexById)
    requires events[k].ToolStart? && events[k].toolCallId in indexById
    ensures Indexed(events, kept, k + 1, indexById)
  {
  }

  lemma IndexedNext(events: seq<Event>, kept: seq<nat>, k: nat, indexById: map<string, nat>)
    requires k < |events| && Indexed(events, kept, k, indexById)
    ensures var e := events[k];
            Indexed(events, kept + [k], k + 1,
                    if e.ToolStart? then indexById[e.toolCallId := |kept|] else indexById)
  {
    forall id | id in indexById
      ensures PositionOf(events, kept + [k], id, indexById[id])
    {
      assert PositionOf(events, kept, id, indexById[id]);
    }
  }

  method Normalize(events: seq<Event>) returns (normalized: seq<Event>)
    ensures normalized == Normalized(events, |events|)
  {
    normalized := [];
    var indexById: map<string, nat> := map[];
    for k := 0 to |events|
      invariant normalized == Normalized(events, k)
      invariant IndexedAt(events, k, indexById)
    {
      var ev := events[k];
      if ev.ToolStart? && ev.toolCallId in indexById {
        SeenAgain(events, k, indexById);
        normalized := normalized[indexById[ev.toolCallId] := ev];
      } else {
        SeenFirst(events, k, indexById);
        if ev.ToolStart? {
          indexById := indexById[ev.toolCallId := |normalized|];
        }
        normalized := normalized + [ev];
      }
    }
  }

  ghost predicate IndexedAt(events: seq<Event>, n: nat, indexById: map<string, nat>)
    requires n <= |events|
  {
    Indexed(events, Kept(events, n), n, indexById)
  }

  lemma SeenAgain(events: seq<Event>, k: nat, indexById: map<string, nat>)
    requires k < |events| && IndexedAt(events, k, indexById)
    requires events[k].ToolStart? && events[k].toolCallId in indexById
    ensures var p := indexById[events[k].toolCallId];
            p < |Normalized(events, k)| && Normalized(events, k + 1) == Normalized(events, k)[p := events[k]]
    ensures IndexedAt(events, k + 1, indexById)
  {
    StartAgain(events, k, indexById[events[k].toolCallId]);
    IndexedAgain(events, Kept(events, k), k, indexById);
  }

  lemma SeenFirst(events: seq<Event>, k: nat, indexById: map<string, nat>)
    requires k < |events| && IndexedAt(events, k, indexById)
    requires events[k].ToolStart? ==> events[k].toolCallId !in indexById
    ensures var e := events[k];
            && Normalized(events, k + 1) == Normalized(events, k) + [e]
            && IndexedAt(events, k + 1,
                         if e.ToolStart? then indexById[e.toolCallId := |Normalized(events, k)|] else indexById)
  {
    KeepNext(events, k, indexById);
    IndexedNext(events, Kept(events, k), k, indexById);
  }

  /** A call that starts again replaces its entry in place. */
  lemma StartAgain(events: seq<Event>, k: nat, p: nat)
    requires k < |events| && events[k].ToolStart? && PositionOf(events, Kept(events, k), events[k].toolCallId, p)
    ensures Kept(events, k + 1) == Kept(events, k)
    ensures Normalized(events, k + 1) == Normalized(events, k)[p := events[k]]
  {
    var kept := Kept(events, k);
    forall q | 0 <= q < |kept|
      ensures Final(events, k + 1, kept[q]) == if q == p then events[k] else Final(events, k, kept[q])
    {
      assert IsKept(events, kept[q]) && IsKept(events, kept[p]);
    }
  }

  /** Any other event, and the first start of a call, is appended. */
  lemma KeepNext(events: seq<Event>, k: nat, indexById: map<string, nat>)
    requires k < |events| && Indexed(events, Kept(events, k), k, indexById)
    requires events[k].ToolStart? ==> events[k].toolCallId !in indexById
    ensures Kept(events, k + 1) == Kept(events, k) + [k]
    ensures Normalized(events, k + 1) == Normalized(events, k) + [events[k]]
  {
    assert IsKept(events, k);
    KeptNext(events, k);
  }

  lemma KeptNext(events: seq<Event>, k: nat)
    requires k < |events| && IsKept(events, k)
    ensures Kept(events, k + 1) == Kept(events, k) + [k]
    ensures Normalized(events, k + 1) == Normalized(events, k) + [events[k]]
  {
    var kept := Kept(events, k);
    forall q | 0 <= q < |kept|
      ensures Final(events, k + 1, kept[q]) == Final(events, k, kept[q])
    {
    }
  }

  // ---------------------------------------------------------------- what de-duplication keeps

  function Others(events: seq<Event>): seq<Event> {
    if events == [] then []
    else if events[0].ToolStart? then Others(events[1..]) else [events[0]] + Others(events[1..])
  }

  lemma {:induction false} OthersAppend(xs: seq<Event>, e: Event)
    ensures Others(xs + [e]) == Others(xs) + if e.ToolStart? then [] else [e]
  {
    if xs == [] {
      assert xs + [e] == [e];
    } else {
      assert (xs + [e])[1..] == xs[1..] + [e];
      OthersAppend(xs[1..], e);
    }
  }

  lemma {:induction false} OthersIgnoreStarts(xs: seq<Event>, p: nat, e: Event)
    requires p < |xs| && xs[p].ToolStart? && e.ToolStart?
    ensures Others(xs[p := e]) == Others(xs)
  {
    if p > 0 {
      assert xs[p := e][1..] == xs[1..][p - 1 := e];
      OthersIgnoreStarts(xs[1..], p - 1, e);
    } else {
      assert xs[p := e][1..] == xs[1..];
    }
  }

  lemma OthersStep(events: seq<Event>, k: nat)
    requires k < |events|
    ensures Others(Normalized(events, k + 1))
            == Others(Normalized(events, k)) + if events[k].ToolStart? then [] else [events[k]]
  {
    if IsKept(events, k) {
      KeptNext(events, k);
      OthersAppend(Normalized(events, k), events[k]);
    } else {
      var p := EntryOf(events, k);
      StartAgain(events, k, p);
      FinalKeepsCall(events, k, Kept(events, k)[p]);
      OthersIgnoreStarts(Normalized(events, k), p, events[k]);
    }
  }

  /** Events other than tool starts survive, in their order. */
  lemma {:induction false} OthersKeepTheirOrder(events: seq<Event>, n: nat)
    requires n <= |events|
    ensures Others(Normalized(events, n)) == Others(events[..n])
  {
    if n == 0 {
      assert Normalized(events, 0) == [] == events[..0];
    } else {
      var k := n - 1;
      OthersKeepTheirOrder(events, k);
      OthersStep(events, k);
      OthersPrefix(events, k);
    }
  }

  lemma OthersPrefix(events: seq<Event>, k: nat)
    requires k < |events|
    ensures Others(events[..k + 1]) == Others(events[..k]) + if events[k].ToolStart? then [] else [events[k]]
  {
    OthersAppend(events[..k], events[k]);
    assert events[..k + 1] == events[..k] + [events[k]];
  }

  lemma {:induction false} FirstStart(events: seq<Event>, k: nat, id: string) returns (j: nat)
    requires k <= |events| && exists i :: 0 <= i < k && events[i].ToolStart? && events[i].toolCallId == id
    ensures j < k && events[j].ToolStart? && events[j].toolCallId == id && IsKept(events, j)
  {
    var i: nat :| i < k && events[i].ToolStart? && events[i].toolCallId == id;
    if IsKept(events, i) {
      j := i;
    } else {
      j := FirstStart(events, i, id);
    }
  }

  /** The kept entry of a call that had started before. */
  lemma {:induction false} EntryOf(events: seq<Event>, k: nat) returns (p: nat)
    requires k < |events| && !IsKept(events, k)
    ensures PositionOf(events, Kept(events, k), events[k].toolCallId, p)
  {
    var id := events[k].toolCallId;
    var j := FirstStart(events, k, id);
    assert j in Kept(events, k);
    p :| 0 <= p < |Kept(events, k)| && Kept(events, k)[p] == j;
  }

  /** Each call that starts is shown once: its identifiers are those that occurred, without repetition. */
  lemma StartsAreUnique(events: seq<Event>, p: nat, q: nat)
    requires p < q < |Normalized(events, |events|)|
    requires Normalized(events, |events|)[p].ToolStart? && Normalized(events, |events|)[q].ToolStart?
    ensures Normalized(events, |events|)[p].toolCallId != Normalized(events, |events|)[q].toolCallId
  {
    var kept := Kept(events, |events|);
    FinalKeepsCall(events, |events|, kept[p]);
    FinalKeepsCall(events, |events|, kept[q]);
    assert IsKept(events, kept[p]) && IsKept(events, kept[q]);
  }

  lemma FinalKeepsCall(events: seq<Event>, n: nat, i: nat)
    requires i < n <= |events|
    ensures Final(events, n, i).ToolStart? == events[i].ToolStart?
    ensures events[i].ToolStart? ==> Final(events, n, i).toolCallId == events[i].toolCallId
  {
    if events[i].ToolStart? {
      LastStartIsLast(events, n, events[i].toolCallId);
    }
  }

  lemma {:induction false} LastStartIsLast(events: seq<Event>, n: nat, id: string)
    requires n <= |events| && exists i :: 0 <= i < n && events[i].ToolStart? && events[i].toolCallId == id
    ensures var last := LastStart(events, n, id);
            && last.ToolStart? && last.toolCallId == id
            && exists i :: 0 <= i < n && events[i] == last
                 && forall j :: i < j < n ==> !(events[j].ToolStart? && events[j].toolCallId == id)
  {
    if !(events[n - 1].ToolStart? && events[n - 1].toolCallId == id) {
      LastStartIsLast(events, n - 1, id);
      var i :| 0 <= i < n - 1 && events[i] == LastStart(events, n - 1, id)
               && forall j :: i < j < n - 1 ==> !(events[j].ToolStart? && events[j].toolCallId == id);
      assert events[i] == LastStart(events, n, id);
    } else {
      assert events[n - 1] == LastStart(events, n, id);
    }
  }
}

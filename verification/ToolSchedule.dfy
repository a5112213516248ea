/**
 * The tool batch of `executeTurn` in src/agent/turn.ts: read-only calls start while the model still
 * streams, the rest when it has ended, writes last and one at a time, all sharing one retry budget.
 */
module ToolSchedule {
  import opened Wrappers
  import opened Seqs

  const MAX_CONCURRENT_STREAMING_TOOLS := 8

  /** `readOnly` is what the registry says of the handler; an unknown tool has none and counts as a write. */
  datatype Call = Call(id: string, name: string, readOnly: bool)

  datatype Config = Config(requiredTool: Option<string>, maxRetries: nat)

  /** Streaming, then waiting for the calls started by then, for the other reads, for each write. */
  datatype Phase = Streaming | Overlapping | Reading | Writing | Done | Dropping | Dropped | Refused

  /** What happened to the calls, by their position in the batch. */
  datatype Entry = Started(call: nat) | Retried(call: nat) | Finished(call: nat, result: string)

  /** `early` are the calls started while streaming, `writes` those still to be dispatched. */
  datatype State = State(phase: Phase, calls: seq<Call>, early: set<nat>, running: set<nat>, inflight: nat,
                         writes: seq<nat>, budget: nat, results: map<string, string>, log: seq<Entry>)

  datatype Event =
    | Arrives(toolCall: Call)
    | StreamEnds(truncated: bool, salvaged: seq<Call>)
    | Succeeds(call: nat, result: string)
    | Fails(call: nat, error: string, retryable: bool)

  function Begin(cfg: Config): State {
    State(Streaming, [], {}, {}, 0, [], cfg.maxRetries, map[], [])
  }

  // ---------------------------------------------------------------- steps

  function Start(st: State, i: nat): State {
    st.(running := st.running + {i}, log := st.log + [Started(i)])
  }

  function StartEach(st: State, indices: seq<nat>): State
    decreases |indices|
  {
    if indices == [] then st else StartEach(Start(st, indices[0]), indices[1..])
  }

  /** A read-only call starts at once, unless eight are under way or the batch must be checked first. */
  function Arrive(cfg: Config, st: State, call: Call): State {
    var i, next := |st.calls|, st.(calls := st.calls + [call]);
    if cfg.requiredTool.None? && call.readOnly && st.inflight < MAX_CONCURRENT_STREAMING_TOOLS
    then Start(next.(early := st.early + {i}, inflight := st.inflight + 1), i)
    else next
  }

  /** The result of a started call stands under this id. */
  predicate HasEarly(calls: seq<Call>, early: set<nat>, id: string) {
    exists j :: j in early && 0 <= j < |calls| && calls[j].id == id
  }

  /** The calls from position i on that were not started while streaming. */
  function Remaining(calls: seq<Call>, early: set<nat>, readOnly: bool, i: nat): seq<nat>
    requires i <= |calls|
    decreases |calls| - i
  {
    if i == |calls| then []
    else (if !HasEarly(calls, early, calls[i].id) && calls[i].readOnly == readOnly then [i] else [])
         + Remaining(calls, early, readOnly, i + 1)
  }

  predicate Honoured(required: Option<string>, calls: seq<Call>) {
    required.Some? ==> calls != [] && forall c :: c in calls ==> c.name == required.value
  }

  /** Calls of a truncated turn are dropped; without any call, those salvaged from markup are taken. */
  function EndStream(cfg: Config, st: State, truncated: bool, salvaged: seq<Call>): State {
    if truncated && st.calls != [] then Advance(st.(phase := Dropping))
    else
      var next := if st.calls == [] then st.(calls := salvaged) else st;
      if !Honoured(cfg.requiredTool, next.calls) then next.(phase := Refused)
      else Advance(next.(phase := Overlapping))
  }

  function StartReads(st: State): State {
    StartEach(st.(phase := Reading, writes := Remaining(st.calls, st.early, false, 0)),
              Remaining(st.calls, st.early, true, 0))
  }

  function NextWrite(st: State): State {
    if st.writes == [] then st.(phase := Done)
    else Start(st.(phase := Writing, writes := st.writes[1..]), st.writes[0])
  }

  /** The next stage begins when nothing is running. */
  function Advance(st: State): State {
    if st.running != {} then st
    else match st.phase
      case Overlapping => var begun := StartReads(st); if begun.running == {} then NextWrite(begun) else begun
      case Reading => NextWrite(st)
      case Writing => NextWrite(st)
      case Dropping => st.(phase := Dropped)
      case _ => st
  }

  function Finish(st: State, i: nat, result: string): State
    requires i < |st.calls|
  {
    Advance(st.(running := st.running - {i}, inflight := if st.inflight == 0 then 0 else st.inflight - 1,
                results := st.results[st.calls[i].id := result], log := st.log + [Finished(i, result)]))
  }

  /** A transient failure is tried again while the shared budget lasts; any other one is the result. */
  function Fail(st: State, i: nat, error: string, retryable: bool): State
    requires i < |st.calls|
  {
    if retryable && st.budget > 0 then st.(budget := st.budget - 1, log := st.log + [Retried(i)])
    else Finish(st, i, error)
  }

  predicate Enabled(st: State, e: Event) {
    match e
    case Arrives(_) => st.phase.Streaming?
    case StreamEnds(_, _) => st.phase.Streaming?
    case Succeeds(i, _) => i in st.running && i < |st.calls|
    case Fails(i, _, _) => i in st.running && i < |st.calls|
  }

  function Next(cfg: Config, st: State, e: Event): State {
    if !Enabled(st, e) then st
    else match e
      case Arrives(call) => Arrive(cfg, st, call)
      case StreamEnds(truncated, salvaged) => EndStream(cfg, st, truncated, salvaged)
      case Succeeds(i, result) => Finish(st, i, result)
      case Fails(i, error, retryable) => Fail(st, i, error, retryable)
  }

  function After(cfg: Config, es: seq<Event>): State {
    if es == [] then Begin(cfg) else Next(cfg, After(cfg, es[..|es| - 1]), es[|es| - 1])
  }

  /** The results in the order of the calls, leaving out calls that have none. */
  function Collect(calls: seq<Call>, results: map<string, string>): seq<string> {
    if calls == [] then []
    else (if calls[0].id in results then [results[calls[0].id]] else []) + Collect(calls[1..], results)
  }

  // ---------------------------------------------------------------- the batch as an object

  class Batch {
    const cfg: Config
    var phase: Phase
    var toolCalls: seq<Call>
    var early: set<nat>
    var running: set<nat>
    var inflightCount: nat
    var writeCalls: seq<nat>
    var budget: nat
    var resultMap: map<string, string>
    ghost var log: seq<Entry>

    ghost function Now(): State
      reads this
    {
      State(phase, toolCalls, early, running, inflightCount, writeCalls, budget, resultMap, log)
    }

    constructor (cfg: Config)
      ensures this.cfg == cfg && Now() == Begin(cfg)
    {
      this.cfg := cfg;
      phase, toolCalls, early, running := Streaming, [], {}, {};
      inflightCount, writeCalls, budget, resultMap, log := 0, [], cfg.maxRetries, map[], [];
    }

    method Dispatch(i: nat)
      modifies this`running, this`log
      ensures Now() == Start(old(Now()), i)
    {
      running := running + {i};
      log := log + [Started(i)];
    }

    method OnToolUseEnd(call: Call)
      modifies this
      ensures Now() == Arrive(cfg, old(Now()), call)
    {
      toolCalls := toolCalls + [call];
      if cfg.requiredTool.None? && call.readOnly && inflightCount < MAX_CONCURRENT_STREAMING_TOOLS {
        inflightCount := inflightCount + 1;
        early := early + {|toolCalls| - 1};
        Dispatch(|toolCalls| - 1);
      }
    }

    /** The calls not started yet, reads and writes apart. */
    method Separate() returns (remainingReadOnly: seq<nat>, writes: seq<nat>)
      ensures remainingReadOnly == Remaining(toolCalls, early, true, 0)
      ensures writes == Remaining(toolCalls, early, false, 0)
    {
      remainingReadOnly, writes := [], [];
      for i := 0 to |toolCalls|
        invariant remainingReadOnly + Remaining(toolCalls, early, true, i) == Remaining(toolCalls, early, true, 0)
        invariant writes + Remaining(toolCalls, early, false, i) == Remaining(toolCalls, early, false, 0)
      {
        if !HasEarly(toolCalls, early, toolCalls[i].id) {
          if toolCalls[i].readOnly {
            Assoc(remainingReadOnly, [i], Remaining(toolCalls, early, true, i + 1));
            remainingReadOnly := remainingReadOnly + [i];
          } else {
            Assoc(writes, [i], Remaining(toolCalls, early, false, i + 1));
            writes := writes + [i];
          }
        }
      }
    }

    method DispatchReads()
      modifies this
      ensures Now() == StartReads(old(Now()))
    {
      var remaining, writes := Separate();
      phase, writeCalls := Reading, writes;
      for k := 0 to |remaining|
        invariant StartEach(Now(), remaining[k..]) == StartReads(old(Now()))
      {
        assert remaining[k..][1..] == remaining[k + 1..];
        Dispatch(remaining[k]);
      }
    }

    method DispatchWrite()
      modifies this
      ensures Now() == NextWrite(old(Now()))
    {
      if writeCalls == [] {
        phase := Done;
      } else {
        var i := writeCalls[0];
        phase, writeCalls := Writing, writeCalls[1..];
        Dispatch(i);
      }
    }

    method GoOn()
      modifies this
      ensures Now() == Advance(old(Now()))
    {
      if running != {} {
        return;
      }
      match phase {
        case Overlapping =>
          DispatchReads();
          if running == {} {
            DispatchWrite();
          }
        case Reading =>
          DispatchWrite();
        case Writing =>
          DispatchWrite();
        case Dropping =>
          phase := Dropped;
        case _ =>
      }
    }

    method OnStreamEnd(truncated: bool, salvaged: seq<Call>)
      modifies this
      ensures Now() == EndStream(cfg, old(Now()), truncated, salvaged)
    {
      if truncated && toolCalls != [] {
        phase := Dropping;
        GoOn();
        return;
      }
      if toolCalls == [] {
        toolCalls := salvaged;
      }
      if !Honoured(cfg.requiredTool, toolCalls) {
        phase := Refused;
        return;
      }
      phase := Overlapping;
      GoOn();
    }

    method OnResult(i: nat, result: string)
      requires i < |toolCalls|
      modifies this
      ensures Now() == Finish(old(Now()), i, result)
    {
      running := running - {i};
      inflightCount := if inflightCount == 0 then 0 else inflightCount - 1;
      resultMap := resultMap[toolCalls[i].id := result];
      log := log + [Finished(i, result)];
      GoOn();
    }

    method OnFailure(i: nat, error: string, retryable: bool)
      requires i < |toolCalls|
      modifies this
      ensures Now() == Fail(old(Now()), i, error, retryable)
    {
      if retryable && budget > 0 {
        budget := budget - 1;
        log := log + [Retried(i)];
      } else {
        OnResult(i, error);
      }
    }
  }
}

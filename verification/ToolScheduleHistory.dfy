/** What the log of a tool batch says, whatever order calls arrive and finish in. */
module ToolScheduleHistory {
  import opened ToolSchedule

  // ---------------------------------------------------------------- reading the log

  function StartedIn(log: seq<Entry>): set<nat> {
    if log == [] then {}
    else StartedIn(log[..|log| - 1]) + if log[|log| - 1].Started? then {log[|log| - 1].call} else {}
  }

  function FinishedIn(log: seq<Entry>): set<nat> {
    if log == [] then {}
    else FinishedIn(log[..|log| - 1]) + if log[|log| - 1].Finished? then {log[|log| - 1].call} else {}
  }

  function Starts(log: seq<Entry>, i: nat): nat {
    if log == [] then 0 else Starts(log[..|log| - 1], i) + if log[|log| - 1] == Started(i) then 1 else 0
  }

  function Finishes(log: seq<Entry>, i: nat): nat {
    if log == [] then 0
    else Finishes(log[..|log| - 1], i) + if log[|log| - 1].Finished? && log[|log| - 1].call == i then 1 else 0
  }

  /** First attempts and retries. */
  function Attempts(log: seq<Entry>): nat {
    if log == [] then 0 else Attempts(log[..|log| - 1]) + if log[|log| - 1].Finished? then 0 else 1
  }

  function RetriesIn(log: seq<Entry>): nat {
    if log == [] then 0 else RetriesIn(log[..|log| - 1]) + if log[|log| - 1].Retried? then 1 else 0
  }

  /** Calls start once, and are retried and finish only while they run. */
  ghost predicate Proper(log: seq<Entry>) {
    log == [] ||
    (var before, e := log[..|log| - 1], log[|log| - 1];
     && Proper(before)
     && if e.Started? then e.call !in StartedIn(before)
        else e.call in StartedIn(before) && e.call !in FinishedIn(before))
  }

  lemma OneMoreEntry(log: seq<Entry>, e: Entry)
    ensures (log + [e])[..|log + [e]| - 1] == log && (log + [e])[|log + [e]| - 1] == e
  {
  }

  lemma {:induction false} ProperCounts(log: seq<Entry>, i: nat)
    requires Proper(log)
    ensures Starts(log, i) == if i in StartedIn(log) then 1 else 0
    ensures Finishes(log, i) == if i in FinishedIn(log) then 1 else 0
  {
    if log != [] {
      ProperCounts(log[..|log| - 1], i);
    }
  }

  lemma {:induction false} AttemptsAreStartsAndRetries(log: seq<Entry>)
    requires Proper(log)
    ensures Attempts(log) == |StartedIn(log)| + RetriesIn(log)
  {
    if log != [] {
      AttemptsAreStartsAndRetries(log[..|log| - 1]);
    }
  }

  // ---------------------------------------------------------------- positions in the batch

  ghost predicate DistinctIds(calls: seq<Call>) {
    forall i, j :: 0 <= i < j < |calls| ==> calls[i].id != calls[j].id
  }

  /** The read-only calls, and the writes before position k. */
  function Before(calls: seq<Call>, k: nat): set<nat> {
    set i: nat | i < |calls| && (calls[i].readOnly || i < k)
  }

  function All(calls: seq<Call>): set<nat> { Before(calls, |calls|) }

  /** When a write starts, every read and every earlier write has finished, and nothing else has started. */
  ghost predicate WritesAlone(calls: seq<Call>, log: seq<Entry>) {
    log == [] ||
    (var before, e := log[..|log| - 1], log[|log| - 1];
     && WritesAlone(calls, before)
     && (e.Started? && e.call < |calls| && !calls[e.call].readOnly ==>
           StartedIn(before) == FinishedIn(before) == Before(calls, e.call)))
  }

  ghost predicate OnlyReads(calls: seq<Call>, indices: set<nat>) {
    forall i :: i in indices ==> i < |calls| && calls[i].readOnly
  }

  lemma {:induction false} ReadsLeaveWritesAlone(calls: seq<Call>, log: seq<Entry>)
    requires OnlyReads(calls, StartedIn(log))
    ensures WritesAlone(calls, log)
  {
    if log != [] {
      var before, e := log[..|log| - 1], log[|log| - 1];
      assert StartedIn(before) <= StartedIn(log);
      assert e.Started? ==> e.call in StartedIn(log);
      ReadsLeaveWritesAlone(calls, before);
    }
  }

  function WritesFrom(calls: seq<Call>, k: nat): seq<nat>
    requires k <= |calls|
    decreases |calls| - k
  {
    if k == |calls| then []
    else (if !calls[k].readOnly then [k] else []) + WritesFrom(calls, k + 1)
  }

  lemma BeforeSkipsRead(calls: seq<Call>, k: nat)
    requires k < |calls| && calls[k].readOnly
    ensures Before(calls, k + 1) == Before(calls, k)
  {
  }

  /** `ws` are the writes from position k on, and the first of them has no write before it from there. */
  ghost predicate StartsAt(calls: seq<Call>, k: nat, ws: seq<nat>) {
    if ws == [] then Before(calls, k) == All(calls)
    else
      && k <= ws[0] < |calls| && !calls[ws[0]].readOnly
      && Before(calls, ws[0]) == Before(calls, k)
      && ws[1..] == WritesFrom(calls, ws[0] + 1)
  }

  lemma {:induction false} FirstWrite(calls: seq<Call>, k: nat)
    requires k <= |calls|
    ensures StartsAt(calls, k, WritesFrom(calls, k))
    decreases |calls| - k
  {
    if k < |calls| {
      var rest := WritesFrom(calls, k + 1);
      if calls[k].readOnly {
        FirstWrite(calls, k + 1);
        BeforeSkipsRead(calls, k);
        assert [] + rest == rest;
      } else {
        assert ([k] + rest)[1..] == rest;
      }
    }
  }

  lemma BeforeOneMore(calls: seq<Call>, w: nat)
    requires w < |calls|
    ensures Before(calls, w + 1) == Before(calls, w) + {w}
  {
  }

  lemma EarlyById(calls: seq<Call>, early: set<nat>, i: nat)
    requires DistinctIds(calls) && i < |calls|
    ensures HasEarly(calls, early, calls[i].id) <==> i in early
  {
  }

  lemma RemainingHead(calls: seq<Call>, early: set<nat>, readOnly: bool, k: nat)
    requires DistinctIds(calls) && k < |calls|
    ensures Remaining(calls, early, readOnly, k)
            == (if k !in early && calls[k].readOnly == readOnly then [k] else [])
               + Remaining(calls, early, readOnly, k + 1)
  {
    EarlyById(calls, early, k);
  }

  lemma {:induction false} RemainingWrites(calls: seq<Call>, early: set<nat>, k: nat)
    requires DistinctIds(calls) && OnlyReads(calls, early) && k <= |calls|
    ensures Remaining(calls, early, false, k) == WritesFrom(calls, k)
    decreases |calls| - k
  {
    if k < |calls| {
      RemainingHead(calls, early, false, k);
      RemainingWrites(calls, early, k + 1);
      assert k in early ==> calls[k].readOnly;
    }
  }

  /** Positions from k on in increasing order, namely the reads not started early. */
  ghost predicate ReadsFrom(calls: seq<Call>, early: set<nat>, k: nat, indices: seq<nat>) {
    (forall i: nat :: i in indices <==> IsLateRead(calls, early, k, i)) && Increasing(indices)
  }

  predicate IsLateRead(calls: seq<Call>, early: set<nat>, k: nat, i: nat) {
    k <= i < |calls| && calls[i].readOnly && i !in early
  }

  ghost predicate Increasing(indices: seq<nat>) {
    forall a, b :: 0 <= a < b < |indices| ==> indices[a] < indices[b]
  }

  lemma IncreasingCons(k: nat, rest: seq<nat>)
    requires Increasing(rest) && forall i :: i in rest ==> k < i
    ensures Increasing([k] + rest)
  {
    forall a, b | 0 <= a < b < |[k] + rest|
      ensures ([k] + rest)[a] < ([k] + rest)[b]
    {
      assert rest[b - 1] in rest;
    }
  }

  lemma {:induction false} RemainingReads(calls: seq<Call>, early: set<nat>, k: nat)
    requires DistinctIds(calls) && k <= |calls|
    ensures ReadsFrom(calls, early, k, Remaining(calls, early, true, k))
    decreases |calls| - k
  {
    if k < |calls| {
      var rest := Remaining(calls, early, true, k + 1);
      RemainingReads(calls, early, k + 1);
      IncreasingCons(k, rest);
      RemainingHead(calls, early, true, k);
      assert [] + rest == rest;
      assert forall i: nat :: IsLateRead(calls, early, k, i) <==>
                                IsLateRead(calls, early, k + 1, i) || (i == k && IsLateRead(calls, early, k, k));
    }
  }

  // ---------------------------------------------------------------- invariants

  /** What holds in every phase. */
  ghost predicate LogInv(cfg: Config, st: State) {
    && Proper(st.log)
    && FinishedIn(st.log) <= StartedIn(st.log) <= All(st.calls)
    && st.running == StartedIn(st.log) - FinishedIn(st.log)
    && RetriesIn(st.log) + st.budget == cfg.maxRetries
    && ResultsStand(st)
  }

  ghost predicate ResultsStand(st: State) {
    forall q :: 0 <= q < |st.log| ==> ResultStands(st, st.log[q])
  }

  ghost predicate ResultStands(st: State, e: Entry) {
    e.Finished? ==> e.call < |st.calls| && st.calls[e.call].id in st.results
                    && st.results[st.calls[e.call].id] == e.result
  }

  lemma StartKeepsLog(cfg: Config, st: State, i: nat)
    requires LogInv(cfg, st) && i < |st.calls| && i !in StartedIn(st.log)
    ensures LogInv(cfg, Start(st, i))
    ensures StartedIn(Start(st, i).log) == StartedIn(st.log) + {i} && FinishedIn(Start(st, i).log) == FinishedIn(st.log)
  {
    OneMoreEntry(st.log, Started(i));
    forall q | 0 <= q < |st.log + [Started(i)]|
      ensures ResultStands(Start(st, i), (st.log + [Started(i)])[q])
    {
      assert q < |st.log| ==> ResultStands(st, st.log[q]);
    }
  }

  /** Finished, before the next stage is considered. */
  function Record(st: State, i: nat, result: string): State
    requires i < |st.calls|
  {
    st.(running := st.running - {i}, inflight := if st.inflight == 0 then 0 else st.inflight - 1,
        results := st.results[st.calls[i].id := result], log := st.log + [Finished(i, result)])
  }

  lemma {:induction false} FinishedCalls(log: seq<Entry>)
    ensures forall q :: 0 <= q < |log| && log[q].Finished? ==> log[q].call in FinishedIn(log)
  {
    if log != [] {
      FinishedCalls(log[..|log| - 1]);
    }
  }

  lemma RecordKeepsLog(cfg: Config, st: State, i: nat, result: string)
    requires LogInv(cfg, st) && i < |st.calls| && i in st.running && DistinctIds(st.calls)
    ensures LogInv(cfg, Record(st, i, result))
    ensures StartedIn(Record(st, i, result).log) == StartedIn(st.log)
    ensures FinishedIn(Record(st, i, result).log) == FinishedIn(st.log) + {i}
  {
    var e := Finished(i, result);
    OneMoreEntry(st.log, e);
    FinishedCalls(st.log);
    forall q | 0 <= q < |st.log + [e]|
      ensures ResultStands(Record(st, i, result), (st.log + [e])[q])
    {
      assert q < |st.log| ==> ResultStands(st, st.log[q]);
    }
  }

  lemma {:induction false} EntryKeepsWritesAlone(calls: seq<Call>, log: seq<Entry>, e: Entry)
    requires WritesAlone(calls, log) && (e.Started? ==> e.call < |calls| && calls[e.call].readOnly)
    ensures WritesAlone(calls, log + [e])
  {
    OneMoreEntry(log, e);
  }

  /** What holds in each phase. */
  ghost predicate PhaseInv(cfg: Config, st: State) {
    && WritesAlone(st.calls, st.log)
    && match st.phase
       case Streaming => EarlyInv(st) && |st.running| == st.inflight && (cfg.requiredTool.Some? ==> st.log == [])
       case Overlapping => EarlyInv(st) && st.running != {}
       case Dropping => EarlyInv(st) && st.running != {}
       case Dropped => EarlyInv(st) && st.running == {}
       case Refused => st.log == []
       case Reading =>
         StartedIn(st.log) == Before(st.calls, 0) && st.writes == WritesFrom(st.calls, 0) && st.running != {}
       case Writing => WritingFrom(st) && st.running != {}
       case Done => StartedIn(st.log) == All(st.calls) && st.running == {}
  }

  ghost predicate EarlyInv(st: State) {
    st.early == StartedIn(st.log) && OnlyReads(st.calls, st.early) && |st.running| <= MAX_CONCURRENT_STREAMING_TOOLS
  }

  ghost predicate WritingFrom(st: State) {
    exists k: nat :: k <= |st.calls| && WritingAt(st, k)
  }

  ghost predicate WritingAt(st: State, k: nat)
    requires k <= |st.calls|
  {
    StartedIn(st.log) == Before(st.calls, k) && st.writes == WritesFrom(st.calls, k)
  }

  ghost predicate Inv(cfg: Config, st: State) { LogInv(cfg, st) && PhaseInv(cfg, st) }

  // ---------------------------------------------------------------- the stages

  lemma NextWriteKeepsInv(cfg: Config, st: State, k: nat)
    requires LogInv(cfg, st) && st.running == {} && WritesAlone(st.calls, st.log)
    requires k <= |st.calls| && WritingAt(st, k)
    ensures Inv(cfg, NextWrite(st))
  {
    FirstWrite(st.calls, k);
    if st.writes != [] {
      var w := st.writes[0];
      var ready := st.(phase := Writing, writes := st.writes[1..]);
      assert LogInv(cfg, ready);
      StartKeepsLog(cfg, ready, w);
      BeforeOneMore(st.calls, w);
      OneMoreEntry(st.log, Started(w));
      assert w in NextWrite(st).running;
      assert WritingAt(NextWrite(st), w + 1);
    }
  }

  lemma IncreasingTail(indices: seq<nat>)
    requires indices != [] && Increasing(indices)
    ensures indices[0] in indices && Increasing(indices[1..])
    ensures forall j :: j in indices[1..] ==> j in indices && j != indices[0]
    ensures (set j | j in indices) == {indices[0]} + set j | j in indices[1..]
  {
    var rest := indices[1..];
    forall j | j in rest
      ensures j in indices && j != indices[0]
    {
      var b :| 0 <= b < |rest| && rest[b] == j;
      assert indices[b + 1] == j;
    }
  }

  lemma {:induction false} StartEachKeepsLog(cfg: Config, st: State, indices: seq<nat>)
    requires LogInv(cfg, st) && WritesAlone(st.calls, st.log)
    requires forall i :: i in indices ==> i < |st.calls| && st.calls[i].readOnly && i !in StartedIn(st.log)
    requires Increasing(indices)
    ensures var next := StartEach(st, indices);
            && LogInv(cfg, next) && WritesAlone(next.calls, next.log)
            && next.calls == st.calls && next.phase == st.phase && next.writes == st.writes
            && FinishedIn(next.log) == FinishedIn(st.log)
            && StartedIn(next.log) == StartedIn(st.log) + set i | i in indices
    decreases |indices|
  {
    if indices != [] {
      var i, rest := indices[0], indices[1..];
      IncreasingTail(indices);
      StartKeepsLog(cfg, st, i);
      EntryKeepsWritesAlone(st.calls, st.log, Started(i));
      StartEachKeepsLog(cfg, Start(st, i), rest);
    }
  }

  lemma StartReadsKeepsInv(cfg: Config, st: State)
    requires LogInv(cfg, st) && WritesAlone(st.calls, st.log) && DistinctIds(st.calls)
    requires st.early == StartedIn(st.log) && OnlyReads(st.calls, st.early) && st.running == {}
    ensures var next := StartReads(st);
            && LogInv(cfg, next) && WritesAlone(next.calls, next.log)
            && next.phase == Reading && next.calls == st.calls && WritingAt(next, 0)
  {
    RemainingWrites(st.calls, st.early, 0);
    RemainingReads(st.calls, st.early, 0);
    var indices := Remaining(st.calls, st.early, true, 0);
    var ready := st.(phase := Reading, writes := Remaining(st.calls, st.early, false, 0));
    assert LogInv(cfg, ready);
    StartEachKeepsLog(cfg, ready, indices);
    assert StartedIn(st.log) + (set i | i in indices) == Before(st.calls, 0);
  }

  /** Ready for the next stage, or still waiting for this one. */
  ghost predicate Ready(st: State) {
    match st.phase
    case Streaming => false
    case Overlapping => EarlyInv(st)
    case Dropping => EarlyInv(st)
    case Reading => WritingAt(st, 0)
    case Writing => WritingFrom(st)
    case _ => false
  }

  /** What the start of the reads leaves: some are running, or the first write may start. */
  ghost predicate ReadsStarted(cfg: Config, st: State) {
    && LogInv(cfg, st) && WritesAlone(st.calls, st.log)
    && st.phase.Reading? && WritingAt(st, 0)
  }

  lemma AfterReads(cfg: Config, st: State)
    requires ReadsStarted(cfg, st)
    ensures Inv(cfg, if st.running == {} then NextWrite(st) else st)
  {
    if st.running == {} {
      NextWriteKeepsInv(cfg, st, 0);
    }
  }

  lemma LeaveOverlap(cfg: Config, st: State)
    requires LogInv(cfg, st) && WritesAlone(st.calls, st.log) && DistinctIds(st.calls)
    requires st.phase.Overlapping? && EarlyInv(st) && st.running == {}
    ensures ReadsStarted(cfg, StartReads(st))
  {
    StartReadsKeepsInv(cfg, st);
  }

  lemma LeaveWrite(cfg: Config, st: State)
    requires LogInv(cfg, st) && WritesAlone(st.calls, st.log)
    requires st.phase.Writing? && WritingFrom(st) && st.running == {}
    ensures Inv(cfg, NextWrite(st))
  {
    var k: nat :| k <= |st.calls| && WritingAt(st, k);
    NextWriteKeepsInv(cfg, st, k);
  }

  lemma AdvanceKeepsInv(cfg: Config, st: State)
    requires LogInv(cfg, st) && WritesAlone(st.calls, st.log) && DistinctIds(st.calls) && Ready(st)
    ensures Inv(cfg, Advance(st))
  {
    if st.running == {} {
      match st.phase
      case Overlapping =>
        LeaveOverlap(cfg, st);
        AfterReads(cfg, StartReads(st));
      case Reading => NextWriteKeepsInv(cfg, st, 0);
      case Writing => LeaveWrite(cfg, st);
      case Dropping => assert LogInv(cfg, st.(phase := Dropped));
    }
  }

  // ---------------------------------------------------------------- the events

  lemma OneMoreCall(cfg: Config, st: State, call: Call)
    requires Inv(cfg, st) && st.phase.Streaming?
    ensures Inv(cfg, st.(calls := st.calls + [call]))
  {
    var next := st.(calls := st.calls + [call]);
    forall q | 0 <= q < |st.log|
      ensures ResultStands(next, st.log[q])
    {
      assert ResultStands(st, st.log[q]);
    }
    assert All(st.calls) <= All(next.calls);
    ReadsLeaveWritesAlone(next.calls, next.log);
  }

  lemma StartEarlyKeepsInv(cfg: Config, st: State, i: nat)
    requires Inv(cfg, st) && st.phase.Streaming? && cfg.requiredTool.None?
    requires i < |st.calls| && st.calls[i].readOnly && i !in StartedIn(st.log)
    requires st.inflight < MAX_CONCURRENT_STREAMING_TOOLS
    ensures Inv(cfg, Start(st.(early := st.early + {i}, inflight := st.inflight + 1), i))
  {
    var more := st.(early := st.early + {i}, inflight := st.inflight + 1);
    StartEarlyKeepsLog(cfg, st, more, i);
    StartEarlyKeepsPhase(cfg, st, i);
  }

  lemma StartEarlyKeepsLog(cfg: Config, st: State, more: State, i: nat)
    requires LogInv(cfg, st) && more == st.(early := more.early, inflight := more.inflight)
    requires i < |st.calls| && i !in StartedIn(st.log)
    ensures LogInv(cfg, Start(more, i))
  {
    assert LogInv(cfg, more);
    StartKeepsLog(cfg, more, i);
  }

  lemma StartEarlyKeepsPhase(cfg: Config, st: State, i: nat)
    requires st.phase.Streaming? && EarlyInv(st) && |st.running| == st.inflight && st.running <= StartedIn(st.log)
    requires WritesAlone(st.calls, st.log) && cfg.requiredTool.None?
    requires i < |st.calls| && st.calls[i].readOnly && i !in StartedIn(st.log)
    requires st.inflight < MAX_CONCURRENT_STREAMING_TOOLS
    ensures PhaseInv(cfg, Start(st.(early := st.early + {i}, inflight := st.inflight + 1), i))
  {
    OneMoreEntry(st.log, Started(i));
    EntryKeepsWritesAlone(st.calls, st.log, Started(i));
    assert i !in st.running && |st.running + {i}| == |st.running| + 1;
  }

  lemma ArriveKeepsInv(cfg: Config, st: State, call: Call)
    requires Inv(cfg, st) && st.phase.Streaming?
    ensures Inv(cfg, Arrive(cfg, st, call))
  {
    OneMoreCall(cfg, st, call);
    assert |st.calls| !in All(st.calls);
    if cfg.requiredTool.None? && call.readOnly && st.inflight < MAX_CONCURRENT_STREAMING_TOOLS {
      StartEarlyKeepsInv(cfg, st.(calls := st.calls + [call]), |st.calls|);
    }
  }

  lemma EndStreamKeepsInv(cfg: Config, st: State, truncated: bool, salvaged: seq<Call>)
    requires Inv(cfg, st) && st.phase.Streaming? && DistinctIds(EndStream(cfg, st, truncated, salvaged).calls)
    ensures Inv(cfg, EndStream(cfg, st, truncated, salvaged))
  {
    EndStreamCalls(cfg, st, truncated, salvaged);
    if truncated && st.calls != [] {
      EnterStage(cfg, st, Dropping);
    } else if st.calls == [] {
      NothingStarted(cfg, st);
      SalvagedKeepsInv(cfg, st, salvaged);
      LeaveStream(cfg, st.(calls := salvaged));
    } else {
      LeaveStream(cfg, st);
    }
  }

  lemma SalvagedKeepsInv(cfg: Config, st: State, salvaged: seq<Call>)
    requires Inv(cfg, st) && st.phase.Streaming? && st.log == []
    ensures Inv(cfg, st.(calls := salvaged))
  {
    assert WritesAlone(salvaged, []);
  }

  lemma EnterStage(cfg: Config, st: State, phase: Phase)
    requires Inv(cfg, st) && st.phase.Streaming? && DistinctIds(st.calls) && phase in {Overlapping, Dropping}
    ensures Inv(cfg, Advance(st.(phase := phase)))
  {
    assert LogInv(cfg, st.(phase := phase));
    AdvanceKeepsInv(cfg, st.(phase := phase));
  }

  lemma LeaveStream(cfg: Config, st: State)
    requires Inv(cfg, st) && st.phase.Streaming? && DistinctIds(st.calls)
    ensures Inv(cfg, if !Honoured(cfg.requiredTool, st.calls) then st.(phase := Refused)
                     else Advance(st.(phase := Overlapping)))
  {
    if Honoured(cfg.requiredTool, st.calls) {
      EnterStage(cfg, st, Overlapping);
    } else {
      assert LogInv(cfg, st.(phase := Refused));
    }
  }

  lemma {:induction false} ProperLogStarts(log: seq<Entry>)
    requires Proper(log) && log != []
    ensures StartedIn(log) != {}
  {
    var before, e := log[..|log| - 1], log[|log| - 1];
    assert e.call in StartedIn(before) + {e.call};
    if e.Started? {
      assert e.call in StartedIn(log);
    } else {
      assert e.call in StartedIn(before);
      assert StartedIn(log) == StartedIn(before);
    }
  }

  lemma NothingStarted(cfg: Config, st: State)
    requires LogInv(cfg, st) && st.calls == []
    ensures st.log == []
  {
    if st.log != [] {
      ProperLogStarts(st.log);
    }
  }

  lemma {:induction false} StartEachCalls(st: State, indices: seq<nat>)
    ensures StartEach(st, indices).calls == st.calls
    decreases |indices|
  {
    if indices != [] {
      StartEachCalls(Start(st, indices[0]), indices[1..]);
    }
  }

  lemma AdvanceCalls(st: State)
    ensures Advance(st).calls == st.calls
  {
    StartEachCalls(st.(phase := Reading, writes := Remaining(st.calls, st.early, false, 0)),
                   Remaining(st.calls, st.early, true, 0));
  }

  lemma EndStreamCalls(cfg: Config, st: State, truncated: bool, salvaged: seq<Call>)
    ensures EndStream(cfg, st, truncated, salvaged).calls
            == if st.calls == [] then (if truncated && st.calls != [] then st.calls else salvaged) else st.calls
  {
    AdvanceCalls(st.(phase := Dropping));
    AdvanceCalls((if st.calls == [] then st.(calls := salvaged) else st).(phase := Overlapping));
  }

  lemma FinishKeepsInv(cfg: Config, st: State, i: nat, result: string)
    requires Inv(cfg, st) && i < |st.calls| && i in st.running && DistinctIds(st.calls)
    ensures Inv(cfg, Finish(st, i, result))
  {
    var done := Record(st, i, result);
    RecordKeepsLog(cfg, st, i, result);
    EntryKeepsWritesAlone(st.calls, st.log, Finished(i, result));
    if st.phase.Writing? {
      var k: nat :| k <= |st.calls| && WritingAt(st, k);
      assert WritingAt(done, k);
    }
    if st.phase.Streaming? {
      assert Advance(done) == done;
    } else {
      AdvanceKeepsInv(cfg, done);
    }
  }

  lemma RetryKeepsLog(cfg: Config, st: State, i: nat)
    requires LogInv(cfg, st) && i in st.running && 0 < st.budget
    ensures var next := st.(budget := st.budget - 1, log := st.log + [Retried(i)]);
            && LogInv(cfg, next)
            && StartedIn(next.log) == StartedIn(st.log) && FinishedIn(next.log) == FinishedIn(st.log)
  {
    var next := st.(budget := st.budget - 1, log := st.log + [Retried(i)]);
    OneMoreEntry(st.log, Retried(i));
    forall q | 0 <= q < |next.log|
      ensures ResultStands(next, next.log[q])
    {
      assert q < |st.log| ==> ResultStands(st, st.log[q]);
    }
  }

  lemma RetryKeepsInv(cfg: Config, st: State, i: nat)
    requires Inv(cfg, st) && i in st.running && 0 < st.budget
    ensures Inv(cfg, st.(budget := st.budget - 1, log := st.log + [Retried(i)]))
  {
    var next := st.(budget := st.budget - 1, log := st.log + [Retried(i)]);
    RetryKeepsLog(cfg, st, i);
    EntryKeepsWritesAlone(st.calls, st.log, Retried(i));
    if st.phase.Writing? {
      var k: nat :| k <= |st.calls| && WritingAt(st, k);
      assert WritingAt(next, k);
    }
    assert st.log == [] ==> st.running == {};
  }

  lemma FailKeepsInv(cfg: Config, st: State, i: nat, error: string, retryable: bool)
    requires Inv(cfg, st) && i < |st.calls| && i in st.running && DistinctIds(st.calls)
    ensures Inv(cfg, Fail(st, i, error, retryable))
  {
    if retryable && st.budget > 0 {
      RetryKeepsInv(cfg, st, i);
    } else {
      FinishKeepsInv(cfg, st, i, error);
    }
  }

  // ---------------------------------------------------------------- whole turns

  lemma NextKeepsInv(cfg: Config, st: State, e: Event)
    requires Inv(cfg, st) && DistinctIds(Next(cfg, st, e).calls)
    ensures Inv(cfg, Next(cfg, st, e))
  {
    if Enabled(st, e) {
      match e
      case Arrives(call) => ArriveKeepsInv(cfg, st, call);
      case StreamEnds(truncated, salvaged) => EndStreamKeepsInv(cfg, st, truncated, salvaged);
      case Succeeds(i, result) =>
        AdvanceCalls(Record(st, i, result));
        FinishKeepsInv(cfg, st, i, result);
      case Fails(i, error, retryable) =>
        AdvanceCalls(Record(st, i, error));
        FailKeepsInv(cfg, st, i, error, retryable);
    }
  }

  lemma CallsOnlyGrow(cfg: Config, st: State, e: Event)
    ensures st.calls <= Next(cfg, st, e).calls
  {
    if Enabled(st, e) {
      match e
      case Arrives(call) =>
      case StreamEnds(truncated, salvaged) => EndStreamCalls(cfg, st, truncated, salvaged);
      case Succeeds(i, result) => AdvanceCalls(Record(st, i, result));
      case Fails(i, error, retryable) => AdvanceCalls(Record(st, i, error));
    }
  }

  lemma {:induction false} TurnKeepsInv(cfg: Config, es: seq<Event>)
    requires DistinctIds(After(cfg, es).calls)
    ensures Inv(cfg, After(cfg, es))
  {
    if es == [] {
      assert WritesAlone([], []);
    } else {
      var before := After(cfg, es[..|es| - 1]);
      CallsOnlyGrow(cfg, before, es[|es| - 1]);
      assert DistinctIds(before.calls);
      TurnKeepsInv(cfg, es[..|es| - 1]);
      NextKeepsInv(cfg, before, es[|es| - 1]);
    }
  }

  /** In a finished batch every call has started once and finished once. */
  lemma {:induction false} EveryCallRunsOnce(cfg: Config, es: seq<Event>, i: nat)
    requires var st := After(cfg, es); DistinctIds(st.calls) && st.phase.Done? && i < |st.calls|
    ensures Starts(After(cfg, es).log, i) == 1 && Finishes(After(cfg, es).log, i) == 1
  {
    TurnKeepsInv(cfg, es);
    ProperCounts(After(cfg, es).log, i);
  }

  /**
   * At every moment: a write has only ever started with every read and every earlier write finished
   * and nothing else begun; no call has been dispatched twice; and while calls overlap the stream or
   * outlive it, at most eight of them run.
   */
  lemma {:induction false} ScheduleIsSafe(cfg: Config, es: seq<Event>, i: nat)
    requires DistinctIds(After(cfg, es).calls)
    ensures var st := After(cfg, es);
            && WritesAlone(st.calls, st.log)
            && Starts(st.log, i) <= 1
            && (st.phase.Streaming? || st.phase.Overlapping? || st.phase.Dropping? ==>
                  |st.running| <= MAX_CONCURRENT_STREAMING_TOOLS && OnlyReads(st.calls, StartedIn(st.log)))
  {
    TurnKeepsInv(cfg, es);
    ProperCounts(After(cfg, es).log, i);
  }

  /** Nothing left to wait for: the stream goes on, the batch is over, or some call is running. */
  ghost predicate Live(st: State) {
    st.phase in {Streaming, Done, Dropped, Refused} || st.running != {}
  }

  lemma NextWriteIsLive(st: State)
    ensures Live(NextWrite(st))
  {
    if st.writes != [] {
      assert st.writes[0] in NextWrite(st).running;
    }
  }

  lemma AdvanceIsLive(st: State)
    ensures Live(Advance(st))
  {
    NextWriteIsLive(st);
    NextWriteIsLive(StartReads(st));
  }

  /** A batch is never stuck, whatever the ids: until it is over, the stream goes on or some call is running. */
  lemma {:induction false} NeverStalls(cfg: Config, es: seq<Event>)
    ensures Live(After(cfg, es))
  {
    if es != [] {
      var st, e := After(cfg, es[..|es| - 1]), es[|es| - 1];
      NeverStalls(cfg, es[..|es| - 1]);
      if Enabled(st, e) {
        match e
        case Arrives(call) =>
        case StreamEnds(truncated, salvaged) =>
          AdvanceIsLive(st.(phase := Dropping));
          AdvanceIsLive((if st.calls == [] then st.(calls := salvaged) else st).(phase := Overlapping));
        case Succeeds(i, result) => AdvanceIsLive(Record(st, i, result));
        case Fails(i, error, retryable) => AdvanceIsLive(Record(st, i, error));
      }
    }
  }

  lemma {:induction false} StartedAreBounded(calls: seq<Call>, s: set<nat>, n: nat)
    requires forall i :: i in s ==> i < n
    ensures |s| <= n
  {
    if n > 0 {
      var fewer := s - {n - 1};
      StartedAreBounded(calls, fewer, n - 1);
      if n - 1 in s {
        assert s == fewer + {n - 1};
      } else {
        assert s == fewer;
      }
    }
  }

  /** All attempts of a turn together are at most one per call and the shared retry budget. */
  lemma {:induction false} AttemptsAreBounded(cfg: Config, es: seq<Event>)
    requires DistinctIds(After(cfg, es).calls)
    ensures Attempts(After(cfg, es).log) <= |After(cfg, es).calls| + cfg.maxRetries
  {
    var st := After(cfg, es);
    TurnKeepsInv(cfg, es);
    AttemptsAreStartsAndRetries(st.log);
    StartedAreBounded(st.calls, StartedIn(st.log), |st.calls|);
  }

  /** A batch whose required tool is not honoured, or that stands to be checked, has dispatched nothing. */
  lemma {:induction false} UncheckedDispatchesNothing(cfg: Config, es: seq<Event>)
    requires DistinctIds(After(cfg, es).calls) && cfg.requiredTool.Some?
    requires After(cfg, es).phase in {Streaming, Refused}
    ensures After(cfg, es).log == []
  {
    TurnKeepsInv(cfg, es);
  }

  /** A truncated turn has dispatched no write, whatever it had streamed. */
  lemma {:induction false} TruncatedRunsNoWrites(cfg: Config, es: seq<Event>, i: nat)
    requires var st := After(cfg, es);
             DistinctIds(st.calls) && st.phase.Dropped? && i < |st.calls| && !st.calls[i].readOnly
    ensures Starts(After(cfg, es).log, i) == 0
  {
    TurnKeepsInv(cfg, es);
    ProperCounts(After(cfg, es).log, i);
  }

  lemma {:induction false} FinishedHasEntry(log: seq<Entry>, i: nat) returns (q: nat)
    requires i in FinishedIn(log)
    ensures q < |log| && log[q].Finished? && log[q].call == i
  {
    if log[|log| - 1].Finished? && log[|log| - 1].call == i {
      q := |log| - 1;
    } else {
      q := FinishedHasEntry(log[..|log| - 1], i);
    }
  }

  lemma {:induction false} CollectIsPointwise(calls: seq<Call>, results: map<string, string>)
    requires forall i :: 0 <= i < |calls| ==> calls[i].id in results
    ensures |Collect(calls, results)| == |calls|
    ensures forall i :: 0 <= i < |calls| ==> Collect(calls, results)[i] == results[calls[i].id]
  {
    if calls != [] {
      CollectIsPointwise(calls[1..], results);
    }
  }

  /** The results of a finished batch: one per call, in call order, each the one its call finished with. */
  lemma {:induction false} ResultsAreInOrder(cfg: Config, es: seq<Event>)
    requires DistinctIds(After(cfg, es).calls) && After(cfg, es).phase.Done?
    ensures var st := After(cfg, es);
            var out := Collect(st.calls, st.results);
            && |out| == |st.calls|
            && forall q :: 0 <= q < |st.log| && st.log[q].Finished? ==>
                 st.log[q].call < |out| && out[st.log[q].call] == st.log[q].result
  {
    var st := After(cfg, es);
    TurnKeepsInv(cfg, es);
    forall i: nat | i < |st.calls|
      ensures st.calls[i].id in st.results
    {
      assert i in FinishedIn(st.log);
      var q := FinishedHasEntry(st.log, i);
      assert ResultStands(st, st.log[q]);
    }
    CollectIsPointwise(st.calls, st.results);
    forall q | 0 <= q < |st.log| && st.log[q].Finished?
      ensures st.log[q].call < |st.calls| && st.results[st.calls[st.log[q].call].id] == st.log[q].result
    {
      assert ResultStands(st, st.log[q]);
    }
  }

  // ---------------------------------------------------------------- ids that are shared

  /** A call is dispatched while streaming, or after it unless the id of such a call is its own. */
  predicate Due(calls: seq<Call>, early: set<nat>, i: nat) {
    i in early || (i < |calls| && !HasEarly(calls, early, calls[i].id))
  }

  function Times(indices: seq<nat>, i: nat): nat
    decreases |indices|
  {
    if indices == [] then 0 else (if indices[0] == i then 1 else 0) + Times(indices[1..], i)
  }

  function AsNat(b: bool): nat { if b then 1 else 0 }

  predicate Remains(calls: seq<Call>, early: set<nat>, readOnly: bool, k: nat, i: nat) {
    k <= i < |calls| && !HasEarly(calls, early, calls[i].id) && calls[i].readOnly == readOnly
  }

  lemma {:induction false} TimesCons(k: nat, rest: seq<nat>, i: nat)
    ensures Times([k] + rest, i) == AsNat(k == i) + Times(rest, i)
    ensures Times([] + rest, i) == Times(rest, i)
  {
    assert ([k] + rest)[1..] == rest && [] + rest == rest;
  }

  lemma {:induction false} RemainsOnce(calls: seq<Call>, early: set<nat>, readOnly: bool, k: nat, i: nat)
    requires k <= |calls|
    ensures Times(Remaining(calls, early, readOnly, k), i) == AsNat(Remains(calls, early, readOnly, k, i))
    decreases |calls| - k
  {
    if k < |calls| {
      RemainsOnce(calls, early, readOnly, k + 1, i);
      TimesCons(k, Remaining(calls, early, readOnly, k + 1), i);
    }
  }

  lemma {:induction false} StartsOneMore(log: seq<Entry>, e: Entry, i: nat)
    ensures Starts(log + [e], i) == Starts(log, i) + AsNat(e == Started(i))
  {
    OneMoreEntry(log, e);
  }

  lemma {:induction false} StartEachStarts(st: State, indices: seq<nat>, i: nat)
    ensures var next := StartEach(st, indices);
            && Starts(next.log, i) == Starts(st.log, i) + Times(indices, i)
            && next == st.(running := next.running, log := next.log)
    decreases |indices|
  {
    if indices != [] {
      StartsOneMore(st.log, Started(indices[0]), i);
      StartEachStarts(Start(st, indices[0]), indices[1..], i);
    }
  }

  /** How often call i has started, and is still to be started. */
  ghost predicate StartsOf(st: State, i: nat) {
    match st.phase
    case Reading => Starts(st.log, i) + Times(st.writes, i) == AsNat(Due(st.calls, st.early, i))
    case Writing => Starts(st.log, i) + Times(st.writes, i) == AsNat(Due(st.calls, st.early, i))
    case Done => Starts(st.log, i) == AsNat(Due(st.calls, st.early, i))
    case _ => Starts(st.log, i) == AsNat(i in st.early)
  }

  ghost predicate StartsInv(st: State, i: nat) {
    StartsOf(st, i) && forall j :: j in st.early ==> j < |st.calls|
  }

  lemma NextWriteStarts(st: State, i: nat)
    requires StartsInv(st.(phase := Writing), i)
    ensures StartsInv(NextWrite(st), i)
  {
    if st.writes != [] {
      StartsOneMore(st.log, Started(st.writes[0]), i);
    }
  }

  lemma StartReadsStarts(st: State, i: nat)
    requires StartsInv(st, i) && st.phase.Overlapping?
    ensures StartsInv(StartReads(st), i) && StartReads(st).phase.Reading?
  {
    RemainsOnce(st.calls, st.early, false, 0, i);
    RemainsOnce(st.calls, st.early, true, 0, i);
    StartEachStarts(st.(phase := Reading, writes := Remaining(st.calls, st.early, false, 0)),
                    Remaining(st.calls, st.early, true, 0), i);
    assert i in st.early ==> HasEarly(st.calls, st.early, st.calls[i].id);
  }

  lemma AdvanceStarts(st: State, i: nat)
    requires StartsInv(st, i)
    ensures StartsInv(Advance(st), i)
  {
    if st.running == {} {
      match st.phase
      case Overlapping =>
        StartReadsStarts(st, i);
        NextWriteStarts(StartReads(st), i);
      case Reading => NextWriteStarts(st, i);
      case Writing => NextWriteStarts(st, i);
      case _ =>
    }
  }

  lemma ArriveStarts(cfg: Config, st: State, call: Call, i: nat)
    requires StartsInv(st, i) && st.phase.Streaming?
    ensures StartsInv(Arrive(cfg, st, call), i)
  {
    assert |st.calls| !in st.early;
    StartsOneMore(st.log, Started(|st.calls|), i);
  }

  lemma RecordStarts(st: State, k: nat, result: string, i: nat)
    requires StartsInv(st, i) && k < |st.calls|
    ensures StartsInv(Record(st, k, result), i)
  {
    StartsOneMore(st.log, Finished(k, result), i);
  }

  lemma NextStarts(cfg: Config, st: State, e: Event, i: nat)
    requires StartsInv(st, i)
    ensures StartsInv(Next(cfg, st, e), i)
  {
    if Enabled(st, e) {
      match e
      case Arrives(call) => ArriveStarts(cfg, st, call, i);
      case StreamEnds(truncated, salvaged) =>
        var next := if st.calls == [] then st.(calls := salvaged) else st;
        assert st.calls == [] ==> st.early == {};
        AdvanceStarts(st.(phase := Dropping), i);
        AdvanceStarts(next.(phase := Overlapping), i);
      case Succeeds(k, result) =>
        RecordStarts(st, k, result, i);
        AdvanceStarts(Record(st, k, result), i);
      case Fails(k, error, retryable) =>
        StartsOneMore(st.log, Retried(k), i);
        RecordStarts(st, k, error, i);
        AdvanceStarts(Record(st, k, error), i);
    }
  }

  /** Whatever the ids, in a finished batch: the calls that are due started once, the others never. */
  lemma {:induction false} TurnStarts(cfg: Config, es: seq<Event>, i: nat)
    ensures StartsInv(After(cfg, es), i)
  {
    if es != [] {
      TurnStarts(cfg, es[..|es| - 1], i);
      NextStarts(cfg, After(cfg, es[..|es| - 1]), es[|es| - 1], i);
    }
  }

  /** No call that waited for the end of the stream has the id of one that did not. */
  ghost predicate IdsApart(calls: seq<Call>, early: set<nat>) {
    forall i: nat :: i < |calls| && i !in early ==> !HasEarly(calls, early, calls[i].id)
  }

  /**
   * A finished batch, whatever its ids: every call started exactly once if and only if no call that
   * waited for the end of the stream has the id of one started before it; any other never starts.
   */
  lemma {:induction false} EveryCallStartsExactly(cfg: Config, es: seq<Event>)
    requires After(cfg, es).phase.Done?
    ensures var st := After(cfg, es);
            && (forall i: nat :: Starts(st.log, i) == if Due(st.calls, st.early, i) then 1 else 0)
            && ((forall i: nat :: i < |st.calls| ==> Starts(st.log, i) == 1) <==> IdsApart(st.calls, st.early))
  {
    var st := After(cfg, es);
    forall i: nat
      ensures Starts(st.log, i) == if Due(st.calls, st.early, i) then 1 else 0
    {
      TurnStarts(cfg, es, i);
    }
    if forall i: nat :: i < |st.calls| ==> Starts(st.log, i) == 1 {
      forall i: nat | i < |st.calls| && i !in st.early
        ensures !HasEarly(st.calls, st.early, st.calls[i].id)
      {
        assert Starts(st.log, i) == 1;
      }
    }
  }

  lemma {:induction false} Append(cfg: Config, es: seq<Event>, e: Event)
    ensures After(cfg, es + [e]) == Next(cfg, After(cfg, es), e)
  {
    assert (es + [e])[..|es|] == es;
  }

  lemma {:induction false} NothingRemains(calls: seq<Call>, readOnly: bool)
    requires |calls| == 2 && calls[0].id == calls[1].id
    ensures Remaining(calls, {0}, readOnly, 0) == []
  {
    assert 0 in {0} && HasEarly(calls, {0}, calls[0].id);
    assert Remaining(calls, {0}, readOnly, 2) == [];
    assert Remaining(calls, {0}, readOnly, 1) == [];
  }

  /** A write that shares the id of a read started while streaming is one that never starts. */
  lemma {:induction false} SharedIdLosesTheWrite(cfg: Config, look: Call, write: Call, result: string)
    requires cfg.requiredTool.None? && look.readOnly && !write.readOnly && look.id == write.id
    ensures var st := After(cfg, [] + [Arrives(look)] + [Arrives(write)] + [StreamEnds(false, [])]
                                 + [Succeeds(0, result)]);
            st.phase.Done? && st.calls == [look, write] && st.log == [Started(0), Finished(0, result)]
  {
    Append(cfg, [], Arrives(look));
    Append(cfg, [] + [Arrives(look)], Arrives(write));
    Append(cfg, [] + [Arrives(look)] + [Arrives(write)], StreamEnds(false, []));
    Append(cfg, [] + [Arrives(look)] + [Arrives(write)] + [StreamEnds(false, [])], Succeeds(0, result));
    var one := Arrive(cfg, Begin(cfg), look);
    assert one.running == {0} && one.early == {0} && one.log == [Started(0)] && one.calls == [look];
    var three := Next(cfg, Next(cfg, one, Arrives(write)), StreamEnds(false, []));
    assert three == one.(phase := Overlapping, calls := [look, write]);
    NothingRemains([look, write], true);
    NothingRemains([look, write], false);
    assert {0} - {0} == {};
  }
}

/** What the stream of a turn decides about its tool batch, told by the events alone. */
module ToolScheduleStream {
  import opened Wrappers
  import opened ToolSchedule
  import opened ToolScheduleHistory

  /** The end of the stream, if it has come. */
  function EndOf(es: seq<Event>): Option<Event> {
    if es == [] then None
    else
      var before := EndOf(es[..|es| - 1]);
      if before.Some? then before
      else if es[|es| - 1].StreamEnds? then Some(es[|es| - 1])
      else None
  }

  /** The calls that arrived before it. */
  function Arrived(es: seq<Event>): seq<Call> {
    if es == [] then []
    else
      var before := es[..|es| - 1];
      Arrived(before) + if EndOf(before).None? && es[|es| - 1].Arrives? then [es[|es| - 1].toolCall] else []
  }

  lemma {:induction false} EndIsAnEnd(es: seq<Event>)
    ensures EndOf(es).Some? ==> EndOf(es).value.StreamEnds?
  {
    if es != [] {
      EndIsAnEnd(es[..|es| - 1]);
    }
  }

  /** The calls of the batch: those that arrived or, when none did, those salvaged from the text. */
  function CallsBy(es: seq<Event>): seq<Call> {
    EndIsAnEnd(es);
    if EndOf(es).Some? && Arrived(es) == [] then EndOf(es).value.salvaged else Arrived(es)
  }

  /** A stream that broke off with calls under way. */
  predicate IsCutOff(es: seq<Event>) {
    EndIsAnEnd(es);
    EndOf(es).Some? && EndOf(es).value.truncated && Arrived(es) != []
  }

  /** A required tool was not called, or another one was. */
  predicate IsDishonoured(cfg: Config, calls: seq<Call>) {
    cfg.requiredTool.Some? && (calls == [] || exists i :: 0 <= i < |calls| && calls[i].name != cfg.requiredTool.value)
  }

  predicate IsDropping(phase: Phase) { phase == Dropping || phase == Dropped }

  /** The batch stands where the stream has put it. */
  ghost predicate StandsBy(cfg: Config, es: seq<Event>, st: State) {
    && st.calls == CallsBy(es)
    && (st.phase == Streaming <==> EndOf(es) == None)
    && (IsDropping(st.phase) <==> IsCutOff(es))
    && (st.phase == Refused <==> EndOf(es).Some? && !IsCutOff(es) && IsDishonoured(cfg, CallsBy(es)))
  }

  /** The stage a batch is in, and its calls, are the same as far as the stream goes. */
  predicate SamePlace(st: State, next: State) {
    && (next.phase == Streaming <==> st.phase == Streaming)
    && (IsDropping(next.phase) <==> IsDropping(st.phase))
    && (next.phase == Refused <==> st.phase == Refused)
    && next.calls == st.calls
  }

  predicate IsUnderWay(phase: Phase) { phase == Overlapping || phase == Reading || phase == Writing || phase == Done }

  lemma StagesAreOnePlace(st: State, next: State)
    requires IsUnderWay(st.phase) && IsUnderWay(next.phase) && next.calls == st.calls
    ensures SamePlace(st, next)
  {
  }

  lemma NextWriteIsUnderWay(st: State)
    ensures IsUnderWay(NextWrite(st).phase)
  {
  }

  lemma StartReadsIsReading(st: State)
    ensures StartReads(st).phase == Reading
  {
    StartEachPhase(st.(phase := Reading, writes := Remaining(st.calls, st.early, false, 0)),
                   Remaining(st.calls, st.early, true, 0));
  }

  lemma AdvanceIsUnderWay(st: State, begun: State)
    requires IsUnderWay(st.phase) && begun == StartReads(st)
    ensures IsUnderWay(Advance(st).phase)
  {
    StartReadsIsReading(st);
    NextWriteIsUnderWay(st);
    NextWriteIsUnderWay(begun);
  }

  lemma AdvanceStaysInPlace(st: State)
    ensures SamePlace(st, Advance(st))
  {
    AdvanceCalls(st);
    if IsUnderWay(st.phase) {
      AdvanceIsUnderWay(st, StartReads(st));
      StagesAreOnePlace(st, Advance(st));
    }
  }

  lemma {:induction false} StartEachPhase(st: State, indices: seq<nat>)
    ensures StartEach(st, indices).phase == st.phase
    decreases |indices|
  {
    if indices != [] {
      StartEachPhase(Start(st, indices[0]), indices[1..]);
    }
  }

  lemma HonouredExactly(cfg: Config, calls: seq<Call>)
    ensures Honoured(cfg.requiredTool, calls) <==> !IsDishonoured(cfg, calls)
  {
    if cfg.requiredTool.Some? && IsDishonoured(cfg, calls) && calls != [] {
      var i :| 0 <= i < |calls| && calls[i].name != cfg.requiredTool.value;
      assert calls[i] in calls;
    }
  }

  lemma EndStreamDecides(cfg: Config, st: State, truncated: bool, salvaged: seq<Call>)
    requires st.phase == Streaming
    ensures var next, calls := EndStream(cfg, st, truncated, salvaged), if st.calls == [] then salvaged else st.calls;
            && next.calls == calls
            && next.phase != Streaming
            && (IsDropping(next.phase) <==> truncated && st.calls != [])
            && (next.phase == Refused <==> !(truncated && st.calls != []) && IsDishonoured(cfg, calls))
  {
    var calls := if st.calls == [] then salvaged else st.calls;
    HonouredExactly(cfg, calls);
    AdvanceStaysInPlace(st.(phase := Dropping));
    AdvanceStaysInPlace(st.(calls := calls, phase := Overlapping));
  }

  lemma OtherEventsStayInPlace(cfg: Config, st: State, e: Event)
    requires !e.Arrives? && !e.StreamEnds?
    ensures SamePlace(st, Next(cfg, st, e))
  {
    if Enabled(st, e) {
      match e
      case Succeeds(i, result) => AdvanceStaysInPlace(Record(st, i, result));
      case Fails(i, error, retryable) => AdvanceStaysInPlace(Record(st, i, error));
    }
  }

  /**
   * Whatever order calls arrive and finish in: the batch has the calls that arrived, or those salvaged
   * when none did; it streams until the stream ends, is dropped exactly if the stream broke off with
   * calls under way, and is refused exactly if a required tool was not called or another one was.
   */
  lemma {:induction false} StreamDecides(cfg: Config, es: seq<Event>)
    ensures StandsBy(cfg, es, After(cfg, es))
  {
    if es != [] {
      var before, e := es[..|es| - 1], es[|es| - 1];
      var st := After(cfg, before);
      StreamDecides(cfg, before);
      EndIsAnEnd(before);
      EndIsAnEnd(es);
      if e.StreamEnds? && st.phase == Streaming {
        EndStreamDecides(cfg, st, e.truncated, e.salvaged);
      } else if !e.Arrives? && !e.StreamEnds? {
        OtherEventsStayInPlace(cfg, st, e);
      }
    }
  }
}

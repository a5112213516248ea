/**
 * The server-sent-event reader of src/local-core-protocol.ts: decoded text arrives in arbitrary
 * chunks, frames end at a blank line, and the data lines of a frame make one event.
 */
module SseFraming {
  import opened Seqs
  import opened Text

  predicate IsBoundary(s: string, i: nat) { i + 1 < |s| && s[i] == '\n' && s[i + 1] == '\n' }

  /** The first blank-line boundary at or after i, or |s| when there is none. */
  function Boundary(s: string, i: nat): (r: nat)
    requires i <= |s|
    ensures i <= r <= |s|
    ensures r < |s| ==> IsBoundary(s, r)
    ensures forall j :: i <= j < r ==> !IsBoundary(s, j)
    decreases |s| - i
  {
    if i == |s| || IsBoundary(s, i) then i else Boundary(s, i + 1)
  }

  datatype Framing = Framing(frames: seq<string>, rest: string)

  /** The frames of a whole text, and what is left after the last boundary. */
  function Split(s: string): Framing {
    var b := Boundary(s, 0);
    if b == |s| then Framing([], s)
    else
      var tail := Split(s[b + 2..]);
      Framing([s[..b]] + tail.frames, tail.rest)
  }

  // ---------------------------------------------------------------- the data of a frame

  /** Splitting at LF, each with at most one CR before it. */
  function Lines(s: string, i: nat, start: nat): seq<string>
    requires start <= i <= |s|
    decreases |s| - i
  {
    if i == |s| then [s[start..]]
    else if s[i] == '\n' then
      [Line(s, start, i)] + Lines(s, i + 1, i + 1)
    else Lines(s, i + 1, start)
  }

  /** The line from `start` to the LF at i, without a CR at its end. */
  function Line(s: string, start: nat, i: nat): string
    requires start <= i <= |s|
  {
    if start < i && s[i - 1] == '\r' then s[start..i - 1] else s[start..i]
  }

  const DATA := "data:"

  predicate IsDataLine(line: string) { DATA <= line }

  function DataOf(lines: seq<string>): seq<string> {
    if lines == [] then []
    else if IsDataLine(lines[0]) then [TrimStart(lines[0][|DATA|..])] + DataOf(lines[1..])
    else DataOf(lines[1..])
  }

  function JoinLines(lines: seq<string>): string {
    if lines == [] then "" else if |lines| == 1 then lines[0] else lines[0] + "\n" + JoinLines(lines[1..])
  }

  function EventText(frame: string): string { JoinLines(DataOf(Lines(frame, 0, 0))) }

  /** The event text handed on for a frame; a frame without data is dropped. */
  function EventOf(frame: string): seq<string> {
    if EventText(frame) == "" then [] else [EventText(frame)]
  }

  function Events(frames: seq<string>): seq<string> {
    if frames == [] then [] else EventOf(frames[0]) + Events(frames[1..])
  }

  // ---------------------------------------------------------------- the reader

  class Reader {
    var buffer: string
    var delivered: seq<string>

    constructor ()
      ensures buffer == "" && delivered == []
    {
      buffer, delivered := "", [];
    }

    method Flush(chunk: string)
      modifies this
      ensures var framing := Split(old(buffer) + chunk);
              buffer == framing.rest && delivered == old(delivered) + Events(framing.frames)
    {
      buffer := buffer + chunk;
      ghost var whole := buffer;
      ghost var taken: seq<string> := [];
      var boundary := Boundary(buffer, 0);
      while boundary < |buffer|
        invariant boundary == Boundary(buffer, 0)
        invariant Split(whole) == Framing(taken + Split(buffer).frames, Split(buffer).rest)
        invariant delivered == old(delivered) + Events(taken)
        decreases |buffer|
      {
        var frame := buffer[..boundary];
        FirstFrameIsCut(buffer, boundary);
        TakeFrame(taken, old(delivered), frame, Split(buffer[boundary + 2..]));
        taken := taken + [frame];
        buffer := buffer[boundary + 2..];
        var data := EventText(frame);
        if data != "" {
          delivered := delivered + [data];
        }
        boundary := Boundary(buffer, 0);
      }
      assert taken + [] == taken;
    }

    /** A response body read to its end, in whatever chunks the decoder yields. */
    method Consume(chunks: seq<string>)
      requires buffer == ""
      modifies this
      ensures var framing := Split(Concat(chunks));
              buffer == framing.rest && delivered == old(delivered) + Events(framing.frames)
    {
      for i := 0 to |chunks|
        invariant buffer == Split(Concat(chunks[..i])).rest
        invariant delivered == old(delivered) + Events(Split(Concat(chunks[..i])).frames)
      {
        TakeChunk(chunks, i, old(delivered));
        Flush(chunks[i]);
      }
      assert chunks[..|chunks|] == chunks;
    }
  }

  lemma {:induction false} EventsCons(frame: string, frames: seq<string>)
    ensures Events([frame] + frames) == EventOf(frame) + Events(frames)
  {
    assert ([frame] + frames)[1..] == frames;
  }

  lemma {:induction false} EventsAppend(xs: seq<string>, ys: seq<string>)
    ensures Events(xs + ys) == Events(xs) + Events(ys)
  {
    if xs == [] {
      assert xs + ys == ys;
    } else {
      var x, tail := xs[0], xs[1..];
      assert xs == [x] + tail;
      EventsAppend(tail, ys);
      EventsCons(x, tail + ys);
      EventsCons(x, tail);
      Assoc([x], tail, ys);
      Assoc(EventOf(x), Events(tail), Events(ys));
    }
  }

  lemma {:induction false} OneMoreEvent(delivered: seq<string>, taken: seq<string>, frame: string)
    ensures delivered + Events(taken + [frame]) == (delivered + Events(taken)) + EventOf(frame)
  {
    EventsAppend(taken, [frame]);
    EventsCons(frame, []);
    assert [frame] + [] == [frame] && EventOf(frame) + [] == EventOf(frame);
    Assoc(delivered, Events(taken), EventOf(frame));
  }

  lemma {:induction false} FirstFrameIsCut(s: string, b: nat)
    requires b == Boundary(s, 0) < |s|
    ensures Split(s) == Framing([s[..b]] + Split(s[b + 2..]).frames, Split(s[b + 2..]).rest)
  {
  }

  /** One turn of the flush loop. */
  lemma {:induction false} TakeFrame(taken: seq<string>, delivered: seq<string>, frame: string, tail: Framing)
    ensures taken + ([frame] + tail.frames) == (taken + [frame]) + tail.frames
    ensures delivered + Events(taken + [frame]) == (delivered + Events(taken)) + EventOf(frame)
    ensures (delivered + Events(taken)) + [] == delivered + Events(taken)
  {
    Assoc(taken, [frame], tail.frames);
    OneMoreEvent(delivered, taken, frame);
  }

  /** One turn of the read loop. */
  lemma TakeChunk(chunks: seq<string>, i: nat, delivered: seq<string>)
    requires i < |chunks|
    ensures var sofar, whole := Split(Concat(chunks[..i])), Split(Concat(chunks[..i + 1]));
            var next := Split(sofar.rest + chunks[i]);
            && whole.rest == next.rest
            && delivered + Events(whole.frames) == (delivered + Events(sofar.frames)) + Events(next.frames)
  {
    var sofar := Split(Concat(chunks[..i]));
    var next := Split(sofar.rest + chunks[i]);
    ConcatOneMore(chunks, i);
    SplitAppend(Concat(chunks[..i]), chunks[i]);
    EventsAppend(sofar.frames, next.frames);
    Assoc(delivered, Events(sofar.frames), Events(next.frames));
  }

  // ---------------------------------------------------------------- chunking

  const BLANK := "\n\n"

  /** The first boundary of the frame and its closing blank line is that blank line. */
  ghost predicate Closed(frame: string) {
    forall j :: 0 <= j < |frame| ==> !IsBoundary(frame + "\n", j)
  }

  lemma {:induction false} BoundaryAfterClosed(frame: string, tail: string, i: nat)
    requires Closed(frame) && i <= |frame|
    ensures Boundary(frame + (BLANK + tail), i) == |frame|
    decreases |frame| - i
  {
    var s := frame + (BLANK + tail);
    if i < |frame| {
      BoundaryAfterClosed(frame, tail, i + 1);
      assert !IsBoundary(frame + "\n", i);
      assert s[i] == (frame + "\n")[i] && s[i + 1] == (frame + "\n")[i + 1];
    } else {
      assert s[i] == '\n' && s[i + 1] == '\n';
    }
  }

  /** A text that begins with a closed frame yields that frame first, whatever follows. */
  lemma {:induction false} SplitFrame(frame: string, tail: string)
    requires Closed(frame)
    ensures Split(frame + (BLANK + tail)) == Framing([frame] + Split(tail).frames, Split(tail).rest)
  {
    var s := frame + (BLANK + tail);
    BoundaryAfterClosed(frame, tail, 0);
    assert s[..|frame|] == frame && s[|frame| + 2..] == tail;
  }

  /** A text with a boundary is a closed frame, a blank line and a shorter text. */
  lemma FirstFrame(s: string) returns (frame: string, tail: string)
    requires Boundary(s, 0) < |s|
    ensures s == frame + (BLANK + tail) && Closed(frame) && |tail| < |s|
  {
    var b := Boundary(s, 0);
    frame, tail := s[..b], s[b + 2..];
    forall j | 0 <= j < b
      ensures !IsBoundary(frame + "\n", j)
    {
      assert !IsBoundary(s, j);
      assert s[b] == '\n';
    }
  }

  /** Splitting on what was left over, once more text has come, continues the splitting of the whole. */
  lemma {:induction false} SplitAppend(s: string, t: string)
    ensures var first := Split(s);
            var second := Split(first.rest + t);
            Split(s + t) == Framing(first.frames + second.frames, second.rest)
    decreases |s|
  {
    if Boundary(s, 0) < |s| {
      var frame, tail := FirstFrame(s);
      SplitAppend(tail, t);
      SplitFrame(frame, tail);
      SplitFrame(frame, tail + t);
      Assoc(BLANK, tail, t);
      Assoc(frame, BLANK + tail, t);
      Assoc([frame], Split(tail).frames, Split(Split(tail).rest + t).frames);
    }
  }

  /** Two ways to cut one text into chunks deliver the same events and leave the same buffer. */
  lemma {:induction false} ChunkingIsIrrelevant(chunks: seq<string>, others: seq<string>)
    requires Concat(chunks) == Concat(others)
    ensures Feed(chunks) == Feed(others) == Split(Concat(chunks))
  {
    FeedIsSplit(chunks);
    FeedIsSplit(others);
  }

  /** Frames and buffer after feeding the chunks one at a time. */
  function Feed(chunks: seq<string>): Framing {
    if chunks == [] then Framing([], "")
    else
      var before := Feed(chunks[..|chunks| - 1]);
      var next := Split(before.rest + chunks[|chunks| - 1]);
      Framing(before.frames + next.frames, next.rest)
  }

  lemma {:induction false} FeedIsSplit(chunks: seq<string>)
    ensures Feed(chunks) == Split(Concat(chunks))
  {
    if chunks != [] {
      var init := chunks[..|chunks| - 1];
      FeedIsSplit(init);
      SplitAppend(Concat(init), chunks[|chunks| - 1]);
    }
  }

  // ---------------------------------------------------------------- what the frames are

  /** Frames closed by a blank line each, then the rest. */
  function Rejoin(f: Framing): string
    decreases |f.frames|
  {
    if f.frames == [] then f.rest else f.frames[0] + (BLANK + Rejoin(Framing(f.frames[1..], f.rest)))
  }

  /** No frame reaches into its closing boundary, and the rest has none. */
  ghost predicate Proper(f: Framing) {
    && (forall frame :: frame in f.frames ==> Closed(frame))
    && forall j: nat :: !IsBoundary(f.rest, j)
  }

  lemma {:induction false} SplitIsProper(s: string)
    ensures Rejoin(Split(s)) == s && Proper(Split(s))
    decreases |s|
  {
    if Boundary(s, 0) < |s| {
      var frame, tail := FirstFrame(s);
      SplitIsProper(tail);
      SplitFrame(frame, tail);
      assert Split(s).frames[1..] == Split(tail).frames;
    } else {
      assert forall j: nat :: j < |s| ==> !IsBoundary(s, j);
    }
  }

  lemma {:induction false} NoBoundary(s: string)
    requires forall j: nat :: !IsBoundary(s, j)
    ensures Boundary(s, 0) == |s|
  {
  }

  /** The framing is the only proper one: any other cut of the same text into proper frames is this one. */
  lemma {:induction false} FramingIsUnique(f: Framing)
    requires Proper(f)
    ensures Split(Rejoin(f)) == f
    decreases |f.frames|
  {
    if f.frames == [] {
      NoBoundary(f.rest);
    } else {
      var frame, tail := f.frames[0], Framing(f.frames[1..], f.rest);
      assert f.frames == [frame] + tail.frames;
      assert frame in f.frames && Proper(tail);
      FramingIsUnique(tail);
      SplitFrame(frame, Rejoin(tail));
    }
  }

  /** SSE framing is independent of chunking, complete and canonical. */
  lemma {:induction false} FramingTheorem(chunks: seq<string>, f: Framing)
    ensures Rejoin(Feed(chunks)) == Concat(chunks) && Proper(Feed(chunks))
    ensures Proper(f) && Rejoin(f) == Concat(chunks) ==> f == Feed(chunks)
  {
    FeedIsSplit(chunks);
    SplitIsProper(Concat(chunks));
    if Proper(f) && Rejoin(f) == Concat(chunks) {
      FramingIsUnique(f);
    }
  }

  // ---------------------------------------------------------------- data lines

  /** A line of a frame: data with white space after the colon, or anything else, such as a comment. */
  datatype Row = Data(gap: string, line: string, crlf: bool) | Aside(line: string, crlf: bool)

  function Written(row: Row): string { if row.Data? then DATA + (row.gap + row.line) else row.line }

  function Break(row: Row): string { if row.crlf then "\r\n" else "\n" }

  /** A frame of these lines. */
  function Encode(rows: seq<Row>): string {
    if rows == [] then "" else if |rows| == 1 then Written(rows[0])
    else Written(rows[0]) + (Break(rows[0]) + Encode(rows[1..]))
  }

  /** What the frame is to say. */
  function Told(rows: seq<Row>): seq<string> {
    if rows == [] then [] else (if rows[0].Data? then [rows[0].line] else []) + Told(rows[1..])
  }

  /** No line breaks inside; data begins where the white space ends, and nothing else looks like data. */
  predicate IsPlain(row: Row) {
    && (forall k :: 0 <= k < |Written(row)| ==> Written(row)[k] != '\n' && Written(row)[k] != '\r')
    && match row
       case Data(gap, line, _) => (forall k :: 0 <= k < |gap| ==> IsSpace(gap[k])) && (line != "" ==> !IsSpace(line[0]))
       case Aside(line, _) => !(DATA <= line)
  }

  predicate ArePlain(rows: seq<Row>) { forall i :: 0 <= i < |rows| ==> IsPlain(rows[i]) }

  lemma {:induction false} LinesSkip(s: string, i: nat, start: nat, end: nat)
    requires start <= i <= end <= |s| && forall k :: i <= k < end ==> s[k] != '\n'
    ensures Lines(s, i, start) == Lines(s, end, start)
    decreases end - i
  {
    if i < end {
      LinesSkip(s, i + 1, start, end);
    }
  }

  lemma SliceShift(s: string, t: string, i: nat, j: nat)
    requires i <= j <= |t|
    ensures (s + t)[|s| + i..|s| + j] == t[i..j]
  {
  }

  lemma TailShift(s: string, t: string, start: nat)
    requires start <= |t|
    ensures (s + t)[|s| + start..] == t[start..]
  {
  }

  lemma LineShift(s: string, t: string, start: nat, i: nat)
    requires start <= i <= |t|
    ensures Line(s + t, |s| + start, |s| + i) == Line(t, start, i)
  {
    SliceShift(s, t, start, i);
    if start < i {
      SliceShift(s, t, start, i - 1);
    }
  }

  lemma {:induction false} LinesShift(s: string, t: string, i: nat, start: nat)
    requires start <= i <= |t|
    ensures Lines(s + t, |s| + i, |s| + start) == Lines(t, i, start)
    decreases |t| - i
  {
    if i == |t| {
      TailShift(s, t, start);
    } else if t[i] == '\n' {
      LinesShift(s, t, i + 1, i + 1);
      LineShift(s, t, start, i);
    } else {
      LinesShift(s, t, i + 1, start);
    }
  }

  function AllWritten(rows: seq<Row>): seq<string> {
    if rows == [] then [] else [Written(rows[0])] + AllWritten(rows[1..])
  }

  lemma {:induction false} LineBeforeBreak(head: string, row: Row, tail: string)
    requires forall k :: 0 <= k < |head| ==> head[k] != '\n' && head[k] != '\r'
    ensures var s := head + (Break(row) + tail);
            Lines(s, 0, 0) == [head] + Lines(tail, 0, 0)
  {
    var s := head + (Break(row) + tail);
    var whole := head + Break(row);
    assert s == whole + tail;
    LinesSkip(s, 0, 0, |whole| - 1);
    LinesShift(whole, tail, 0, 0);
    assert s[|whole| - 1] == '\n' && Line(s, 0, |whole| - 1) == head;
  }

  lemma {:induction false} LinesOfEncoding(rows: seq<Row>)
    requires rows != [] && ArePlain(rows)
    ensures Lines(Encode(rows), 0, 0) == AllWritten(rows)
  {
    var head := Written(rows[0]);
    assert IsPlain(rows[0]);
    if |rows| > 1 {
      LineBeforeBreak(head, rows[0], Encode(rows[1..]));
      LinesOfEncoding(rows[1..]);
    } else {
      LinesSkip(head, 0, 0, |head|);
      assert head[0..] == head && AllWritten(rows[1..]) == [];
    }
  }

  lemma {:induction false} GapIsTrimmed(gap: string, line: string)
    requires (forall k :: 0 <= k < |gap| ==> IsSpace(gap[k])) && (line != "" ==> !IsSpace(line[0]))
    ensures TrimStart(gap + line) == line
  {
    if gap == "" {
      assert gap + line == line;
    } else {
      assert (gap + line)[1..] == gap[1..] + line;
      GapIsTrimmed(gap[1..], line);
    }
  }

  lemma {:induction false} DataIsTold(rows: seq<Row>)
    requires ArePlain(rows)
    ensures DataOf(AllWritten(rows)) == Told(rows)
  {
    if rows != [] {
      var row := rows[0];
      assert IsPlain(row);
      DataIsTold(rows[1..]);
      assert AllWritten(rows)[1..] == AllWritten(rows[1..]);
      if row.Data? {
        GapIsTrimmed(row.gap, row.line);
        assert Written(row)[|DATA|..] == row.gap + row.line && Written(row)[..|DATA|] == DATA;
      }
    }
  }

  /** Text without line breaks. */
  predicate IsOneLine(s: string) { forall k :: 0 <= k < |s| ==> s[k] != '\n' && s[k] != '\r' }

  lemma {:induction false} LineThenRest(head: string, tail: string)
    requires IsOneLine(head)
    ensures Lines(head + ("\n" + tail), 0, 0) == [head] + Lines(tail, 0, 0)
  {
    LineBeforeBreak(head, Aside("", false), tail);
  }

  /** Joined lines split into the same lines again. */
  lemma {:induction false} JoinedLinesSplit(lines: seq<string>)
    requires lines != [] && forall line :: line in lines ==> IsOneLine(line)
    ensures Lines(JoinLines(lines), 0, 0) == lines
  {
    var head := lines[0];
    assert head in lines;
    if |lines| == 1 {
      LinesSkip(head, 0, 0, |head|);
      assert head[0..] == head;
    } else {
      JoinedLinesSplit(lines[1..]);
      LineThenRest(head, JoinLines(lines[1..]));
      assert JoinLines(lines) == head + ("\n" + JoinLines(lines[1..]));
    }
  }

  lemma {:induction false} ToldAreLines(rows: seq<Row>)
    requires ArePlain(rows)
    ensures forall line :: line in Told(rows) ==> IsOneLine(line)
  {
    if rows != [] {
      ToldAreLines(rows[1..]);
      if rows[0].Data? {
        assert IsPlain(rows[0]);
        LineIsWritten(rows[0]);
      }
    }
  }

  lemma LineIsWritten(row: Row)
    requires row.Data? && IsPlain(row)
    ensures IsOneLine(row.line)
  {
    forall k | 0 <= k < |row.line|
      ensures row.line[k] != '\n' && row.line[k] != '\r'
    {
      assert Written(row)[|DATA| + |row.gap| + k] == row.line[k];
    }
  }

  /**
   * The data of a frame reads back: of lines ended by LF or CRLF, those after `data:` and white space
   * come back, one to a line, and all others are left out; without data there is no text.
   */
  lemma {:induction false} DataRoundTrip(rows: seq<Row>)
    requires rows != [] && ArePlain(rows)
    ensures if Told(rows) == [] then EventText(Encode(rows)) == ""
            else Lines(EventText(Encode(rows)), 0, 0) == Told(rows)
  {
    LinesOfEncoding(rows);
    DataIsTold(rows);
    ToldAreLines(rows);
    if Told(rows) != [] {
      JoinedLinesSplit(Told(rows));
    }
  }

  /** The events are the texts of the frames that have one, in order. */
  lemma {:induction false} EventsAreTheTexts(frames: seq<string>)
    ensures Events(frames) == Filter(text => text != "", Map(EventText, frames))
    decreases |frames|
  {
    var p: string -> bool := text => text != "";
    if frames != [] {
      EventsAreTheTexts(frames[1..]);
      assert Map(EventText, frames) == [EventText(frames[0])] + Map(EventText, frames[1..]);
      FilterCons(p, EventText(frames[0]), Map(EventText, frames[1..]));
    }
  }
}

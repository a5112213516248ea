/**
 * The holding back of a streamed tail, for any list of markers, any test for complete markup and
 * any stripper. src/agent/dsml-salvage.ts uses it with its own markers, see DsmlStream.
 */
module StreamHold {
  import opened Text

  /** `t` is the beginning of a marker, but not a whole one; the empty text counts. */
  predicate IsPartial(markers: seq<string>, t: string) {
    exists k :: 0 <= k < |markers| && t <= markers[k] && t != markers[k]
  }

  /** The first position from i on whose suffix is partial, or the end. */
  function HoldFrom(markers: seq<string>, s: string, i: nat): (r: nat)
    requires i <= |s|
    ensures i <= r <= |s|
    ensures r < |s| ==> IsPartial(markers, s[r..])
    ensures forall j :: i <= j < r ==> !IsPartial(markers, s[j..])
    decreases |s| - i
  {
    if i == |s| || IsPartial(markers, s[i..]) then i else HoldFrom(markers, s, i + 1)
  }

  /** Where the longest partial suffix begins. */
  function HoldIndex(markers: seq<string>, s: string): (r: nat)
    ensures r <= |s|
  {
    HoldFrom(markers, s, 0)
  }

  lemma {:induction false} HoldFromLater(markers: seq<string>, s: string, i: nat, j: nat)
    requires i <= j <= |s| && forall k :: i <= k < j ==> !IsPartial(markers, s[k..])
    ensures HoldFrom(markers, s, i) == HoldFrom(markers, s, j)
    decreases j - i
  {
    if i < j {
      HoldFromLater(markers, s, i + 1, j);
    }
  }

  /** Looking at the last positions only, as many as the longest marker has characters. */
  method IncompleteMarkerIndex(markers: seq<string>, holdMax: nat, text: string) returns (index: nat)
    requires forall k :: 0 <= k < |markers| ==> |markers[k]| <= holdMax
    ensures index == HoldIndex(markers, text)
  {
    if text == "" {
      return 0;
    }
    var start := if |text| < holdMax then 0 else |text| - holdMax;
    assert forall k :: 0 <= k < start ==> !IsPartial(markers, text[k..]);
    HoldFromLater(markers, text, 0, start);
    index := start;
    while index < |text|
      invariant start <= index <= |text|
      invariant HoldFrom(markers, text, index) == HoldIndex(markers, text)
    {
      if IsPartial(markers, text[index..]) {
        return;
      }
      index := index + 1;
    }
  }

  datatype Held = Held(text: string, carry: string)

  function HoldDelta(markers: seq<string>, test: string -> bool, strip: string -> string,
                     delta: string, carry: string, finished: bool): Held {
    if carry + delta == "" then Held("", "")
    else
      var source := if test(carry + delta) then strip(carry + delta) else carry + delta;
      if finished then Held(source, "")
      else
        var cut := HoldIndex(markers, source);
        Held(source[..cut], source[cut..])
  }

  /** What has been emitted and what is carried after the chunks. */
  function Feed(markers: seq<string>, test: string -> bool, strip: string -> string, chunks: seq<string>): Held {
    if chunks == [] then Held("", "")
    else
      var before := Feed(markers, test, strip, chunks[..|chunks| - 1]);
      var next := HoldDelta(markers, test, strip, chunks[|chunks| - 1], before.carry, false);
      Held(before.text + next.text, next.carry)
  }

  /** A longer text holds back nothing that the shorter one had let go. */
  lemma HoldMovesForward(markers: seq<string>, p: string, d: string)
    ensures HoldIndex(markers, p) <= HoldIndex(markers, p + d)
  {
    var h := HoldIndex(markers, p + d);
    if h < |p| {
      PartialPrefix(markers, p[h..], d);
      assert (p + d)[h..] == p[h..] + d;
    }
  }

  lemma PartialPrefix(markers: seq<string>, t: string, d: string)
    requires IsPartial(markers, t + d)
    ensures IsPartial(markers, t)
  {
    var k :| 0 <= k < |markers| && t + d <= markers[k] && t + d != markers[k];
    assert t <= markers[k] && |t| < |markers[k]|;
  }

  lemma HoldOfSuffix(markers: seq<string>, s: string, c: nat)
    requires c <= HoldIndex(markers, s)
    ensures HoldIndex(markers, s[c..]) == HoldIndex(markers, s) - c
  {
    var t, h := s[c..], HoldIndex(markers, s);
    forall j | 0 <= j <= |t|
      ensures t[j..] == s[c + j..]
    {
    }
    HoldFromLater(markers, t, 0, h - c);
  }

  /** The state in which exactly the longest partial suffix of `whole` is held. */
  function Split(markers: seq<string>, whole: string): Held {
    var h := HoldIndex(markers, whole);
    Held(whole[..h], whole[h..])
  }

  lemma SplitStep(markers: seq<string>, whole: string, delta: string)
    ensures var c := HoldIndex(markers, whole);
            var held := Split(markers, whole);
            var next := Split(markers, held.carry + delta);
            && held.carry + delta == (whole + delta)[c..]
            && Held(held.text + next.text, next.carry) == Split(markers, whole + delta)
  {
    var c, s := HoldIndex(markers, whole), whole + delta;
    HoldMovesForward(markers, whole, delta);
    HoldOfSuffix(markers, s, c);
    SlicesMeet(whole, delta, c, HoldIndex(markers, s));
  }

  lemma SlicesMeet(whole: string, delta: string, c: nat, h: nat)
    requires c <= |whole| && c <= h <= |whole| + |delta|
    ensures whole[c..] + delta == (whole + delta)[c..]
    ensures whole[..c] + (whole[c..] + delta)[..h - c] == (whole + delta)[..h]
    ensures (whole[c..] + delta)[h - c..] == (whole + delta)[h..]
  {
    var s := whole + delta;
    assert whole[c..] + delta == s[c..];
    assert s[c..][..h - c] == s[c..h] && whole[..c] == s[..c];
  }

  /** No part of the text passes the test for complete markup. */
  ghost predicate Clear(test: string -> bool, s: string) {
    forall i: nat, j: nat :: ClearPart(test, s, i, j)
  }

  ghost predicate ClearPart(test: string -> bool, s: string, i: nat, j: nat) {
    i <= j <= |s| ==> !test(s[i..j])
  }

  lemma ClearPrefix(test: string -> bool, s: string, t: string)
    requires Clear(test, s + t)
    ensures Clear(test, s)
  {
    forall i: nat, j: nat
      ensures ClearPart(test, s, i, j)
    {
      assert ClearPart(test, s + t, i, j);
      if i <= j <= |s| {
        assert (s + t)[i..j] == s[i..j];
      }
    }
  }

  lemma ClearSuffix(test: string -> bool, s: string, c: nat)
    requires Clear(test, s) && c <= |s|
    ensures !test(s[c..])
  {
    assert ClearPart(test, s, c, |s|);
    assert s[c..] == s[c..|s|];
  }

  /** No chunk, together with the carry, passes the test. */
  ghost predicate Untouched(markers: seq<string>, test: string -> bool, strip: string -> string, chunks: seq<string>) {
    forall i :: 0 <= i < |chunks| ==> UntouchedAt(markers, test, strip, chunks, i)
  }

  ghost predicate UntouchedAt(markers: seq<string>, test: string -> bool, strip: string -> string,
                              chunks: seq<string>, i: nat)
    requires i < |chunks|
  {
    !test(Feed(markers, test, strip, chunks[..i]).carry + chunks[i])
  }

  lemma ClearIsStable(markers: seq<string>, test: string -> bool, strip: string -> string, s: string)
    requires Clear(test, s)
    ensures Stable(markers, test, strip, s)
  {
    forall i: nat, j: nat
      ensures StableAt(markers, test, strip, s, i, j)
    {
      if i <= j <= |s| {
        assert ClearPart(test, s, HoldIndex(markers, s[..i]), j);
      }
    }
  }

  lemma {:induction false} FeedIsSplit(markers: seq<string>, test: string -> bool, strip: string -> string,
                                       chunks: seq<string>)
    requires Clear(test, Concat(chunks))
    ensures Feed(markers, test, strip, chunks) == Split(markers, Concat(chunks))
  {
    ClearIsStable(markers, test, strip, Concat(chunks));
    StableIsSplit(markers, test, strip, chunks);
  }

  lemma {:induction false} ClearIsUntouched(markers: seq<string>, test: string -> bool, strip: string -> string,
                                            chunks: seq<string>)
    requires Clear(test, Concat(chunks))
    ensures Untouched(markers, test, strip, chunks)
  {
    forall i | 0 <= i < |chunks|
      ensures UntouchedAt(markers, test, strip, chunks, i)
    {
      var before, whole := Concat(chunks[..i]), Concat(chunks[..i + 1]);
      PrefixOfConcat(chunks, i + 1);
      ClearPrefix(test, whole, Concat(chunks)[|whole|..]);
      ConcatOneMore(chunks, i);
      ClearPrefix(test, before, chunks[i]);
      FeedIsSplit(markers, test, strip, chunks[..i]);
      SplitStep(markers, before, chunks[i]);
      ClearSuffix(test, whole, HoldIndex(markers, before));
    }
  }

  lemma {:induction false} PrefixOfConcat(chunks: seq<string>, n: nat)
    requires n <= |chunks|
    ensures |Concat(chunks[..n])| <= |Concat(chunks)|
    ensures Concat(chunks) == Concat(chunks[..n]) + Concat(chunks)[|Concat(chunks[..n])|..]
    decreases |chunks|
  {
    if n < |chunks| {
      var init := chunks[..|chunks| - 1];
      PrefixOfConcat(init, n);
      assert init[..n] == chunks[..n];
    } else {
      assert chunks[..n] == chunks;
    }
  }

  /** The held state accounts for the whole text and holds no more and no less than the partial suffix. */
  lemma SplitIsExact(markers: seq<string>, whole: string)
    ensures var held := Split(markers, whole);
            && held.text + held.carry == whole
            && (held.carry == "" || IsPartial(markers, held.carry))
            && forall j :: 0 <= j < |held.text| ==> !IsPartial(markers, whole[j..])
  {
    var h := HoldIndex(markers, whole);
    assert whole[..h] + whole[h..] == whole;
  }

  /** A part that passes the test can be made the whole of what one chunk presents. */
  lemma TestCanBeTriggered(markers: seq<string>, test: string -> bool, strip: string -> string,
                           text: string, n: nat)
    requires 0 < n <= |text| && test(text[..n])
    ensures Concat([text[..n], text[n..]]) == text
    ensures !Untouched(markers, test, strip, [text[..n], text[n..]])
  {
    var chunks := [text[..n], text[n..]];
    assert Feed(markers, test, strip, chunks[..0]).carry + chunks[0] == text[..n];
    assert !UntouchedAt(markers, test, strip, chunks, 0);
    ConcatOneMore(chunks, 0);
    ConcatOneMore(chunks, 1);
    assert chunks[..2] == chunks && "" + text[..n] == text[..n];
  }

  // ---------------------------------------------------------------- when nothing is lost

  /** The stripper is kept out of `t` or leaves it alone. */
  predicate Spared(test: string -> bool, strip: string -> string, t: string) { t != "" && test(t) ==> strip(t) == t }

  /** What is presented when the first i characters have come in chunks and the chunk up to j comes next. */
  function Presented(markers: seq<string>, s: string, i: nat, j: nat): string
    requires i <= j <= |s|
  {
    s[HoldIndex(markers, s[..i])..j]
  }

  ghost predicate StableAt(markers: seq<string>, test: string -> bool, strip: string -> string,
                           s: string, i: nat, j: nat)
  {
    i <= j <= |s| ==> Spared(test, strip, Presented(markers, s, i, j))
  }

  /** Every piece that a cut of the text presents to the stripper is left alone. */
  ghost predicate Stable(markers: seq<string>, test: string -> bool, strip: string -> string, s: string) {
    forall i: nat, j: nat :: StableAt(markers, test, strip, s, i, j)
  }

  /** The stripper never makes a text longer, and only leaves one alone that it does not shorten. */
  ghost predicate Shortens(strip: string -> string) {
    forall t :: Shrunk(strip(t), t)
  }

  predicate Shrunk(a: string, b: string) { a == b || |a| < |b| }

  /** What has been emitted and what is carried, or emitted at the end, make up the text. */
  ghost predicate Exact(markers: seq<string>, test: string -> bool, strip: string -> string, chunks: seq<string>) {
    var held, whole := Feed(markers, test, strip, chunks), Concat(chunks);
    && held.text + held.carry == whole
    && held.text + HoldDelta(markers, test, strip, "", held.carry, true).text == whole
  }

  lemma StablePrefix(markers: seq<string>, test: string -> bool, strip: string -> string, s: string, t: string)
    requires Stable(markers, test, strip, s + t)
    ensures Stable(markers, test, strip, s)
  {
    forall i: nat, j: nat
      ensures StableAt(markers, test, strip, s, i, j)
    {
      assert StableAt(markers, test, strip, s + t, i, j);
      if i <= j <= |s| {
        assert (s + t)[..i] == s[..i];
        var c := HoldIndex(markers, s[..i]);
        assert (s + t)[c..j] == s[c..j];
      }
    }
  }

  /** A spared piece is split at the end of what can be let go. */
  lemma SparedIsSplit(markers: seq<string>, test: string -> bool, strip: string -> string, delta: string, carry: string)
    requires Spared(test, strip, carry + delta)
    ensures HoldDelta(markers, test, strip, delta, carry, false) == Split(markers, carry + delta)
  {
  }

  lemma StableNext(markers: seq<string>, test: string -> bool, strip: string -> string, whole: string, delta: string)
    requires Stable(markers, test, strip, whole + delta)
    ensures Spared(test, strip, Split(markers, whole).carry + delta)
  {
    var s := whole + delta;
    assert s[..|whole|] == whole;
    assert StableAt(markers, test, strip, s, |whole|, |s|);
    SplitStep(markers, whole, delta);
    assert Presented(markers, s, |whole|, |s|) == s[HoldIndex(markers, whole)..];
  }

  /** One chunk more, from the split state. */
  lemma SplitThen(markers: seq<string>, test: string -> bool, strip: string -> string, whole: string, delta: string)
    requires Stable(markers, test, strip, whole + delta)
    ensures var held := Split(markers, whole);
            var next := HoldDelta(markers, test, strip, delta, held.carry, false);
            Held(held.text + next.text, next.carry) == Split(markers, whole + delta)
  {
    StableNext(markers, test, strip, whole, delta);
    SparedIsSplit(markers, test, strip, delta, Split(markers, whole).carry);
    SplitStep(markers, whole, delta);
  }

  lemma {:induction false} StableIsSplit(markers: seq<string>, test: string -> bool, strip: string -> string,
                                         chunks: seq<string>)
    requires Stable(markers, test, strip, Concat(chunks))
    ensures Feed(markers, test, strip, chunks) == Split(markers, Concat(chunks))
  {
    if chunks != [] {
      var before := chunks[..|chunks| - 1];
      StablePrefix(markers, test, strip, Concat(before), chunks[|chunks| - 1]);
      StableIsSplit(markers, test, strip, before);
      SplitThen(markers, test, strip, Concat(before), chunks[|chunks| - 1]);
    }
  }

  /**
   * However a stable text is cut into chunks: what has been emitted and what is carried make up the
   * text, the carry is its longest suffix that is a proper beginning of a marker, and finishing
   * emits the rest.
   */
  lemma {:induction false} StableIsExact(markers: seq<string>, test: string -> bool, strip: string -> string,
                                         chunks: seq<string>)
    requires Stable(markers, test, strip, Concat(chunks))
    ensures Exact(markers, test, strip, chunks)
    ensures var held, whole := Feed(markers, test, strip, chunks), Concat(chunks);
            && (held.carry == "" || IsPartial(markers, held.carry))
            && (forall j :: 0 <= j < |held.text| ==> !IsPartial(markers, whole[j..]))
  {
    var whole := Concat(chunks);
    StableIsSplit(markers, test, strip, chunks);
    SplitIsExact(markers, whole);
    assert whole[..|whole|] == whole;
    assert StableAt(markers, test, strip, whole, |whole|, |whole|);
    assert Split(markers, whole).carry + "" == Presented(markers, whole, |whole|, |whole|);
  }

  // ---------------------------------------------------------------- when something is

  function Size(held: Held): nat { |held.text| + |held.carry| }

  lemma StepSize(markers: seq<string>, test: string -> bool, strip: string -> string, delta: string, carry: string)
    requires Shortens(strip)
    ensures Size(HoldDelta(markers, test, strip, delta, carry, false)) <= |carry| + |delta|
    ensures !Spared(test, strip, carry + delta) ==>
              Size(HoldDelta(markers, test, strip, delta, carry, false)) < |carry| + |delta|
  {
    assert Shrunk(strip(carry + delta), carry + delta);
  }

  lemma {:induction false} FeedOneMore(markers: seq<string>, test: string -> bool, strip: string -> string,
                                       chunks: seq<string>, d: string)
    ensures var before := Feed(markers, test, strip, chunks);
            var next := HoldDelta(markers, test, strip, d, before.carry, false);
            Feed(markers, test, strip, chunks + [d]) == Held(before.text + next.text, next.carry)
    ensures Concat(chunks + [d]) == Concat(chunks) + d
  {
    assert (chunks + [d])[..|chunks|] == chunks;
  }

  /** What is lost stays lost: a chunk adds no more than itself. */
  lemma {:induction false} SizeOneMore(markers: seq<string>, test: string -> bool, strip: string -> string,
                                       chunks: seq<string>, d: string)
    requires Shortens(strip)
    ensures var before, after := Feed(markers, test, strip, chunks), Feed(markers, test, strip, chunks + [d]);
            && Size(after) <= Size(before) + |d|
            && (!Spared(test, strip, before.carry + d) ==> Size(after) < Size(before) + |d|)
  {
    FeedOneMore(markers, test, strip, chunks, d);
    StepSize(markers, test, strip, d, Feed(markers, test, strip, chunks).carry);
  }

  /** The cut that presents the piece of StableAt. */
  function Cut(s: string, i: nat, j: nat): seq<string>
    requires i <= j <= |s|
  {
    [] + [s[..i]] + [s[i..j]] + [s[j..]]
  }

  lemma {:induction false} ConcatOneMoreChunk(chunks: seq<string>, d: string)
    ensures Concat(chunks + [d]) == Concat(chunks) + d
  {
    assert (chunks + [d])[..|chunks|] == chunks;
  }

  lemma CutIsText(s: string, i: nat, j: nat)
    requires i <= j <= |s|
    ensures Concat(Cut(s, i, j)) == s
  {
    ConcatOneMoreChunk([], s[..i]);
    ConcatOneMoreChunk([] + [s[..i]], s[i..j]);
    ConcatOneMoreChunk([] + [s[..i]] + [s[i..j]], s[j..]);
    assert "" + s[..i] + s[i..j] + s[j..] == s;
  }

  lemma {:induction false} UnstableLoses(markers: seq<string>, test: string -> bool, strip: string -> string,
                                         s: string, i: nat, j: nat)
    requires Shortens(strip) && !StableAt(markers, test, strip, s, i, j)
    ensures Size(Feed(markers, test, strip, Cut(s, i, j))) < |s|
  {
    var first := [] + [s[..i]];
    var second := first + [s[i..j]];
    SizeOneMore(markers, test, strip, [], s[..i]);
    SizeOneMore(markers, test, strip, first, s[i..j]);
    SizeOneMore(markers, test, strip, second, s[j..]);
    assert "" + s[..i] == s[..i];
    if Spared(test, strip, s[..i]) {
      FeedOneMore(markers, test, strip, [], s[..i]);
      SparedIsSplit(markers, test, strip, s[..i], "");
      var held := Split(markers, s[..i]);
      assert "" + held.text == held.text && Feed(markers, test, strip, first) == held;
      SlicesMeet(s[..i], s[i..j], HoldIndex(markers, s[..i]), |s[..i]|);
      assert s[..i] + s[i..j] == s[..j];
      assert held.carry + s[i..j] == Presented(markers, s, i, j);
    }
  }

  /** A first chunk that the stripper changes is lost for good. */
  lemma FirstChunkLoses(markers: seq<string>, test: string -> bool, strip: string -> string, head: string, tail: string)
    requires Shortens(strip) && !Spared(test, strip, head)
    ensures Concat([] + [head] + [tail]) == head + tail
    ensures !Exact(markers, test, strip, [] + [head] + [tail])
  {
    var first := [] + [head];
    var cut := first + [tail];
    FeedOneMore(markers, test, strip, [], head);
    FeedOneMore(markers, test, strip, first, tail);
    assert "" + head == head;
    SizeOneMore(markers, test, strip, [], head);
    SizeOneMore(markers, test, strip, first, tail);
    var held := Feed(markers, test, strip, cut);
    assert |held.text + held.carry| < |head + tail|;
  }

  /** A text that fails the test and ends in no beginning of a marker goes through whole. */
  lemma WholeIsExact(markers: seq<string>, test: string -> bool, strip: string -> string, text: string)
    requires !test(text) && HoldIndex(markers, text) == |text|
    ensures Concat([] + [text]) == text && Exact(markers, test, strip, [] + [text])
  {
    FeedOneMore(markers, test, strip, [], text);
    assert "" + text == text;
    SparedIsSplit(markers, test, strip, text, "");
    assert Split(markers, text) == Held(text, "") && text + "" == text;
  }

  /**
   * Chunk-independence, exactly: nothing is lost in any cut of a text if and only if every piece
   * that a cut can present to the stripper is left alone by it.
   */
  lemma ExactForEveryCut(markers: seq<string>, test: string -> bool, strip: string -> string, text: string)
    requires Shortens(strip)
    ensures (forall chunks :: Concat(chunks) == text ==> Exact(markers, test, strip, chunks))
            <==> Stable(markers, test, strip, text)
  {
    if Stable(markers, test, strip, text) {
      forall chunks | Concat(chunks) == text
        ensures Exact(markers, test, strip, chunks)
      {
        StableIsExact(markers, test, strip, chunks);
      }
    } else {
      var i: nat, j: nat :| !StableAt(markers, test, strip, text, i, j);
      CutIsText(text, i, j);
      UnstableLoses(markers, test, strip, text, i, j);
      var held := Feed(markers, test, strip, Cut(text, i, j));
      assert |held.text + held.carry| < |text|;
      assert !Exact(markers, test, strip, Cut(text, i, j));
    }
  }
}

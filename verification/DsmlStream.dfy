/** The streaming hold of src/agent/dsml-salvage.ts with its own markers and tests. */
module DsmlStream {
  import opened Text
  import opened DsmlMarkup
  import StreamHold

  function MarkersWithBar(bar: char): seq<string> {
    [DsmlTag("<", bar, bar, "tool_calls>"), DsmlTag("<", bar, bar, "toolcalls>"),
     DsmlTag("</", bar, bar, "tool_calls>"),
     DsmlTag("<", bar, bar, "invoke"), DsmlTag("</", bar, bar, "invoke>"),
     DsmlTag("<", bar, bar, "parameter"), DsmlTag("</", bar, bar, "parameter>")]
  }

  /** The markers a tail may be the beginning of. */
  function Markers(): (r: seq<string>)
    ensures forall k :: 0 <= k < |r| ==> |r[k]| <= HOLD_MAX
  {
    MarkersWithBar(FULL_BAR) + MarkersWithBar('|')
    + ["<invoke", "</invoke>", "<parameter", "</parameter>", "<tool_call", "</tool_call>"]
  }

  /** The length of the longest marker. */
  const HOLD_MAX := 19

  method HoldDsmlStreamDelta(delta: string, carry: string, finished: bool) returns (held: StreamHold.Held)
    ensures held == StreamHold.HoldDelta(Markers(), HasMarkup, StripMarkup, delta, carry, finished)
  {
    var source := carry + delta;
    if source == "" {
      return StreamHold.Held("", "");
    }
    if HasMarkup(source) {
      source := StripMarkup(source);
    }
    if finished {
      return StreamHold.Held(source, "");
    }
    var cut := StreamHold.IncompleteMarkerIndex(Markers(), HOLD_MAX, source);
    held := StreamHold.Held(source[..cut], source[cut..]);
  }

  // ---------------------------------------------------------------- openers

  predicate AnyOccurs(ps: seq<Pattern>, s: string) {
    exists k :: 0 <= k < |ps| && Occurs(ps[k], s)
  }

  /** The same heads wherever they stand, even with a word character after them. */
  function Unbounded(ps: seq<Pattern>): (r: seq<Pattern>)
    ensures |r| == |ps| && forall k :: 0 <= k < |ps| ==> r[k] == ps[k].(bounded := false)
  {
    seq(|ps|, k requires 0 <= k < |ps| => ps[k].(bounded := false))
  }

  /** A head found in a part of a text is found in the text, apart from the word boundary. */
  lemma OccursInWhole(ps: seq<Pattern>, s: string, i: nat, j: nat)
    requires i <= j <= |s| && AnyOccurs(ps, s[i..j])
    ensures AnyOccurs(Unbounded(ps), s)
  {
    var part := s[i..j];
    var n :| 0 <= n < |ps| && Occurs(ps[n], part);
    var p, q := ps[n], Unbounded(ps)[n];
    var k :| 0 <= k < |part| && Hit(p, part[k..]).Some?;
    var m :| 0 <= m < |p.heads| && HeadFits(p, p.heads[m], part[k..]);
    assert HeadFits(q, q.heads[m], s[i + k..]);
    assert Hit(q, s[i + k..]).Some?;
    assert Occurs(q, s);
  }

  /** An opener can be cut off right after its head, where it passes the test with the boundary too. */
  lemma OpenerEndsAPrefix(ps: seq<Pattern>, s: string) returns (n: nat)
    requires AnyOccurs(Unbounded(ps), s)
    requires forall k :: 0 <= k < |ps| ==> "" !in ps[k].heads
    ensures 0 < n <= |s| && AnyOccurs(ps, s[..n])
  {
    var k :| 0 <= k < |ps| && Occurs(Unbounded(ps)[k], s);
    var p, q := ps[k], Unbounded(ps)[k];
    var i :| 0 <= i < |s| && Hit(q, s[i..]).Some?;
    var m :| 0 <= m < |q.heads| && HeadFits(q, q.heads[m], s[i..]);
    var h := p.heads[m];
    assert h in p.heads;
    n := i + |h|;
    var first := s[..n];
    assert HeadFits(p, h, first[i..]);
    assert Hit(p, first[i..]).Some?;
    assert Occurs(p, first);
  }

  /** The tests of the source. */
  function Tests(): seq<Pattern> {
    [DSML_MARKER, StrayTag("invoke"), StrayTag("parameter"), StrayTag("tool_call")]
  }

  /** No opener anywhere, so no marker is completed in any part of the text. */
  predicate OpenerFree(s: string) { !AnyOccurs(Unbounded(Tests()), s) }

  lemma MarkupIsTests(s: string)
    ensures HasMarkup(s) <==> AnyOccurs(Tests(), s)
  {
    var ps := Tests();
    assert ps[0] == DSML_MARKER && ps[1] == StrayTag("invoke");
    assert ps[2] == StrayTag("parameter") && ps[3] == StrayTag("tool_call");
  }

  lemma TestsHaveHeads()
    ensures forall k :: 0 <= k < |Tests()| ==> "" !in Tests()[k].heads
  {
  }

  lemma OpenerFreeIsClear(s: string)
    requires OpenerFree(s)
    ensures StreamHold.Clear(HasMarkup, s)
  {
    forall i: nat, j: nat
      ensures StreamHold.ClearPart(HasMarkup, s, i, j)
    {
      if i <= j <= |s| {
        MarkupIsTests(s[i..j]);
        if AnyOccurs(Tests(), s[i..j]) {
          OccursInWhole(Tests(), s, i, j);
        }
      }
    }
  }

  lemma OpenerFreeHasNoMarkup(s: string)
    requires OpenerFree(s)
    ensures !HasMarkup(s)
  {
    assert s[0..|s|] == s;
    MarkupIsTests(s);
    if AnyOccurs(Tests(), s[0..|s|]) {
      OccursInWhole(Tests(), s, 0, |s|);
    }
  }

  // ---------------------------------------------------------------- theorems

  function Feed(chunks: seq<string>): StreamHold.Held {
    StreamHold.Feed(Markers(), HasMarkup, StripMarkup, chunks)
  }

  ghost predicate Untouched(chunks: seq<string>) {
    StreamHold.Untouched(Markers(), HasMarkup, StripMarkup, chunks)
  }

  predicate IsPartial(t: string) { StreamHold.IsPartial(Markers(), t) }

  /**
   * Chunk-independence of the hold. However an opener-free text is cut into chunks: what has been
   * emitted and what is carried make up the text, the carry is its longest suffix that is a proper
   * beginning of a marker, and finishing emits the rest.
   */
  lemma {:induction false} HoldIsChunkIndependent(chunks: seq<string>)
    requires OpenerFree(Concat(chunks))
    ensures var held, whole := Feed(chunks), Concat(chunks);
            && held.text + held.carry == whole
            && (held.carry == "" || IsPartial(held.carry))
            && (forall j :: 0 <= j < |held.text| ==> !IsPartial(whole[j..]))
            && held.text + StreamHold.HoldDelta(Markers(), HasMarkup, StripMarkup, "", held.carry, true).text == whole
  {
    OpenerFreeIsClear(Concat(chunks));
    StreamHold.ClearIsStable(Markers(), HasMarkup, StripMarkup, Concat(chunks));
    StreamHold.StableIsExact(Markers(), HasMarkup, StripMarkup, chunks);
  }

  /**
   * The stripper stays out of a text under every chunking exactly when the text has no opener. A
   * text that only fails the tests with their word boundary is not enough: a chunk may end right
   * after the opener.
   */
  lemma StripperStaysOutExactly(text: string)
    ensures (forall chunks :: Concat(chunks) == text ==> Untouched(chunks)) <==> OpenerFree(text)
  {
    if OpenerFree(text) {
      OpenerFreeIsClear(text);
      forall chunks | Concat(chunks) == text
        ensures Untouched(chunks)
      {
        StreamHold.ClearIsUntouched(Markers(), HasMarkup, StripMarkup, chunks);
      }
    } else {
      TestsHaveHeads();
      var n := OpenerEndsAPrefix(Tests(), text);
      MarkupIsTests(text[..n]);
      StreamHold.TestCanBeTriggered(Markers(), HasMarkup, StripMarkup, text, n);
    }
  }
}

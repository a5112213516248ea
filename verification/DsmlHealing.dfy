/** The stripper of src/agent/dsml-salvage.ts on texts that carry printed calls: it leaves what salvage leaves. */
module DsmlHealing {
  import opened DsmlMarkup
  import opened DsmlPatterns
  import opened DsmlStream
  import opened DsmlTagFacts
  import opened DsmlRoundTrip
  import opened DsmlCollapse

  // ---------------------------------------------------------------- the last, untied marker

  lemma {:induction false} MarkerPasses(t: string)
    requires NoneAt(DSML_MARKER, t, "")
    ensures ReplaceFirstMarker(t) == t
  {
    if t != "" {
      assert t + "" == t;
      MarkerPasses(t[1..]);
    }
  }

  lemma MarkersArePlain()
    ensures PlainHeads(DSML_MARKER)
    ensures forall h :: h in DSML_MARKER.heads ==> h != "" && h[0] in BARS
  {
    forall h | h in DSML_MARKER.heads
      ensures PlainHead(h) && h != "" && h[0] in BARS
    {
      var first, second := HeadBars("", "", h);
      assert DsmlTag("", first, second, "") == [first, 'D', 'S', 'M', 'L', second];
    }
  }

  lemma {:induction false} NoMarkerInProse(text: string, s: string)
    requires OpenerFree(text) && Boundary(s)
    ensures NoneAt(DSML_MARKER, text, s)
  {
    MarkersArePlain();
    assert Tests()[0] == DSML_MARKER;
    assert !Occurs(Unbounded(Tests())[0], text);
    ProseNone(DSML_MARKER, text, s);
  }

  lemma {:induction false} NoMarkerInSpace(s: string)
    ensures NoneAt(DSML_MARKER, " ", s)
  {
    MarkersArePlain();
    assert (" " + s)[0] == ' ';
    assert " "[1..] == "";
  }

  /** What is left of a document once its blocks are gone has no marker. */
  lemma {:induction false} NoMarkerIsLeft(doc: Doc)
    requires GoodDoc(doc)
    ensures NoneAt(DSML_MARKER, Render(doc, 3), "")
    decreases doc
  {
    match doc
    case End(text) => NoMarkerInProse(text, "");
    case Then(text, form, call, rest) =>
      var after := Render(rest, 3);
      NoMarkerIsLeft(rest);
      NoMarkerInSpace(after);
      NoMarkerInProse(text, " " + after);
      assert after + "" == after && (" " + after) + "" == " " + after;
      NoneAppend(DSML_MARKER, " ", after, "");
      NoneAppend(DSML_MARKER, text, " " + after, "");
  }

  // ---------------------------------------------------------------- the steps of the stripper

  lemma {:induction false} StraysAreGoneAtLast(doc: Doc, s: string)
    requires GoodDoc(doc) && s == Render(doc, 3)
    ensures StripStrays(StrayTag("invoke"), s) == s && StripStrays(StrayTag("parameter"), s) == s
    ensures StripStrays(StrayTag("tool_call"), s) == s
  {
    TheWords();
    WordIsTag("invoke", 1, Initials(3));
    WordIsTag("parameter", 2, Initials(3));
    StraysAreGone(StrayTag("invoke"), doc, 3);
    StraysAreGone(StrayTag("parameter"), doc, 3);
    ToolCallStraysAreGone(doc, s);
  }

  lemma {:induction false} StripInSteps(s0: string, s1: string, s2: string, s3: string)
    requires HasMarkup(s0) && ScanElements(DSML, "invoke", s0).out == s1 && StripStrays(STRAY_DSML, s1) == s1
    requires ScanElements(Bare, "invoke", s1).out == s2 && ScanToolCalls(s2).out == s3
    requires StripStrays(StrayTag("invoke"), s3) == s3 && StripStrays(StrayTag("parameter"), s3) == s3
    requires StripStrays(StrayTag("tool_call"), s3) == s3 && ReplaceFirstMarker(s3) == s3
    ensures StripMarkup(s0) == CollapseWhitespace(s3)
  {
  }

  lemma {:induction false} StripRendered(doc: Doc, s0: string, s1: string, s2: string, s3: string)
    requires GoodDoc(doc) && doc.Then?
    requires s0 == Render(doc, 0) && s1 == Render(doc, 1) && s2 == Render(doc, 2) && s3 == Render(doc, 3)
    ensures StripMarkup(s0) == CollapseWhitespace(s3)
  {
    DocHasMarkup(doc);
    ScanOfStage(DSML, doc, 0, s0, CallsAt(doc, 0), s1);
    DsmlStraysAreGone(doc, s1);
    ScanOfStage(Bare, doc, 1, s1, CallsAt(doc, 1), s2);
    ScanReadsToolCalls(doc);
    StraysAreGoneAtLast(doc, s3);
    NoMarkerIsLeft(doc);
    MarkerPasses(s3);
    StripInSteps(s0, s1, s2, s3);
  }

  /** The prose alone, with a space for each block. */
  function Prose(doc: Doc): string {
    match doc
    case End(text) => text
    case Then(text, _, _, rest) => text + (" " + Prose(rest))
  }

  lemma {:induction false} ProseIsRendered(doc: Doc)
    ensures Render(doc, 3) == Prose(doc)
  {
    if doc.Then? {
      ProseIsRendered(doc.rest);
    }
  }

  /**
   * Whatever calls a text carries, in whatever forms: the stripper leaves what salvage leaves, a tidy
   * text with exactly the words of the prose.
   */
  lemma {:induction false} StripsToTheProse(doc: Doc)
    requires GoodDoc(doc) && doc.Then?
    ensures var text := StripMarkup(Render(doc, 0));
            && text == Salvaged(Render(doc, 0)).cleaned
            && Words(text, true) == Words(Prose(doc), true)
            && Tidy(text)
            && (Tidy(Prose(doc)) ==> text == Prose(doc))
  {
    var s3 := Render(doc, 3);
    StripRendered(doc, Render(doc, 0), Render(doc, 1), Render(doc, 2), s3);
    SalvageRoundTrip(doc);
    ProseIsRendered(doc);
    WordsStay(s3);
    CollapseIsTidy(s3);
    TidyExactly(s3);
  }
}

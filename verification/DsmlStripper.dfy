/**
 * What the stripper of src/agent/dsml-salvage.ts does to the exactness of the streaming hold: it
 * only ever shortens a text, so nothing is lost exactly where it leaves every piece alone.
 */
module DsmlStripper {
  import opened Wrappers
  import opened Text
  import opened DsmlMarkup
  import opened DsmlPatterns
  import opened DsmlStream
  import StreamHold

  predicate Shrunk(a: string, b: string) { StreamHold.Shrunk(a, b) }

  // ---------------------------------------------------------------- every step shortens

  /** Heads of two characters or more, so that a space in their place is shorter. */
  ghost predicate LongHeads(p: Pattern) {
    forall h :: h in p.heads ==> 2 <= |h|
  }

  lemma HitIsLong(p: Pattern, s: string)
    requires LongHeads(p) && Hit(p, s).Some?
    ensures 2 <= Hit(p, s).value <= |s|
  {
  }

  lemma ElementIsLong(d: Dialect, word: string, s: string)
    requires LongHeads(OpenTag(d, word)) && MatchElement(d, word, s).Some?
    ensures |MatchElement(d, word, s).value.rest| + 2 <= |s|
  {
    HitIsLong(OpenTag(d, word), s);
  }

  lemma {:induction false} ScanShortens(d: Dialect, word: string, s: string)
    requires LongHeads(OpenTag(d, word))
    ensures Shrunk(ScanElements(d, word, s).out, s)
    decreases |s|
  {
    if s != "" {
      var found := MatchElement(d, word, s);
      if found.Some? {
        ElementIsLong(d, word, s);
        ScanShortens(d, word, found.value.rest);
      } else {
        ScanShortens(d, word, s[1..]);
      }
    }
  }

  lemma ToolCallIsLong(s: string)
    requires MatchToolCall(s).Some?
    ensures |MatchToolCall(s).value.after| + 2 <= |s|
  {
  }

  lemma {:induction false} ToolScanShortens(s: string)
    ensures Shrunk(ScanToolCalls(s).out, s)
    decreases |s|
  {
    if s != "" {
      var found := MatchToolCall(s);
      if found.Some? {
        ToolCallIsLong(s);
        ToolScanShortens(found.value.after);
      } else {
        ToolScanShortens(s[1..]);
      }
    }
  }

  lemma {:induction false} StripShortens(p: Pattern, s: string)
    requires "" !in p.heads && LongHeads(p)
    ensures Shrunk(StripStrays(p, s), s)
    decreases |s|
  {
    if s != "" {
      var hit := Hit(p, s);
      var end := if hit.Some? then StrayEnd(s[hit.value..]) else None;
      if end.Some? {
        HitIsLong(p, s);
        StripShortens(p, end.value);
      } else {
        StripShortens(p, s[1..]);
      }
    }
  }

  /** A head of `p` and, within 200 characters, the end of its tag. */
  ghost predicate IsStray(p: Pattern, s: string) {
    Hit(p, s).Some? && exists k: nat :: IsTagEnd(s[Hit(p, s).value..], k)
  }

  predicate IsTagEnd(s: string, k: nat) { k <= 200 && k < |s| && s[k] == '>' && '>' !in s[..k] }

  /** Some position begins a complete stray tag. */
  ghost predicate HasStray(p: Pattern, s: string) {
    exists i :: 0 <= i < |s| && IsStray(p, s[i..])
  }

  lemma {:induction false} UntilIs(s: string)
    ensures match Until('>', s)
            case None => '>' !in s
            case Some(cut) => var k := |cut.before|; k < |s| && s[k] == '>' && '>' !in s[..k] && cut.after == s[k + 1..]
  {
    if s != "" && s[0] != '>' {
      UntilIs(s[1..]);
      var cut := Until('>', s[1..]);
      if cut.Some? {
        var k := |cut.value.before|;
        assert s[1..][..k] == s[1..k + 1] && s[..k + 1] == [s[0]] + s[1..k + 1];
        assert s[1..][k + 1..] == s[k + 2..];
      }
    }
  }

  lemma InPrefix(s: string, k: nat, m: nat)
    requires k < m <= |s|
    ensures s[k] in s[..m]
  {
    assert s[..m][k] == s[k];
  }

  lemma FirstIsUnique(c: char, s: string, k: nat, m: nat)
    requires k < |s| && s[k] == c && c !in s[..k] && m < |s| && s[m] == c && c !in s[..m]
    ensures k == m
  {
    if k < m {
      InPrefix(s, k, m);
    } else if m < k {
      InPrefix(s, m, k);
    }
  }

  lemma StrayEndIs(s: string)
    ensures StrayEnd(s).Some? <==> exists k: nat :: IsTagEnd(s, k)
    ensures forall k: nat :: IsTagEnd(s, k) ==> StrayEnd(s) == Some(s[k + 1..])
  {
    UntilIs(s);
    var cut := Until('>', s);
    forall k: nat | IsTagEnd(s, k)
      ensures StrayEnd(s) == Some(s[k + 1..])
    {
      assert s[k] in s;
      FirstIsUnique('>', s, k, |cut.value.before|);
    }
    if cut.Some? && |cut.value.before| <= 200 {
      assert IsTagEnd(s, |cut.value.before|);
    }
  }

  lemma StrayTail(p: Pattern, s: string)
    requires s != ""
    ensures HasStray(p, s) <==> IsStray(p, s) || HasStray(p, s[1..])
  {
    assert s[0..] == s;
    forall i | 1 <= i < |s|
      ensures s[i..] == s[1..][i - 1..]
    {
    }
    if HasStray(p, s) {
      var i :| 0 <= i < |s| && IsStray(p, s[i..]);
      assert i == 0 || IsStray(p, s[1..][i - 1..]);
    }
    if HasStray(p, s[1..]) {
      var i :| 0 <= i < |s[1..]| && IsStray(p, s[1..][i..]);
      assert s[1..][i..] == s[i + 1..];
    }
  }

  /** A stray tag, and then `rest`. */
  ghost predicate StrayThen(p: Pattern, s: string, rest: string) {
    Hit(p, s).Some? && exists k: nat :: IsTagEnd(s[Hit(p, s).value..], k) && rest == s[Hit(p, s).value..][k + 1..]
  }

  lemma {:induction false} StripAtStray(p: Pattern, s: string, rest: string)
    requires "" !in p.heads && LongHeads(p) && StrayThen(p, s, rest)
    ensures StripStrays(p, s) == " " + StripStrays(p, rest)
    ensures |StripStrays(p, s)| < |s|
  {
    HitIsLong(p, s);
    StrayEndIs(s[Hit(p, s).value..]);
    StripShortens(p, rest);
  }

  lemma {:induction false} NoStrayKeepsHead(p: Pattern, s: string)
    requires "" !in p.heads && s != "" && !IsStray(p, s)
    ensures StripStrays(p, s) == [s[0]] + StripStrays(p, s[1..])
  {
    if Hit(p, s).Some? {
      StrayEndIs(s[Hit(p, s).value..]);
    }
  }

  lemma {:induction false} StrayIsChanged(p: Pattern, s: string)
    requires "" !in p.heads && LongHeads(p) && IsStray(p, s)
    ensures StripStrays(p, s) != s
  {
    var k: nat :| IsTagEnd(s[Hit(p, s).value..], k);
    StripAtStray(p, s, s[Hit(p, s).value..][k + 1..]);
  }

  lemma {:induction false} SameTail(s: string, tail: string)
    requires s != ""
    ensures [s[0]] + tail == s <==> tail == s[1..]
  {
    assert ([s[0]] + tail)[1..] == tail && [s[0]] + s[1..] == s;
  }

  /**
   * Stripping leaves a text alone if and only if it holds no complete stray tag: a head of the pattern
   * whose tag ends within 200 characters.
   */
  lemma {:induction false} StripsExactly(p: Pattern, s: string)
    requires "" !in p.heads && LongHeads(p)
    ensures StripStrays(p, s) == s <==> !HasStray(p, s)
  {
    if s != "" {
      StrayTail(p, s);
      if IsStray(p, s) {
        StrayIsChanged(p, s);
      } else {
        NoStrayKeepsHead(p, s);
        StripsExactly(p, s[1..]);
        SameTail(s, StripStrays(p, s[1..]));
      }
    }
  }

  /** No position of `lead` begins a stray tag, given that `s` follows it. */
  ghost predicate NoStrayIn(p: Pattern, lead: string, s: string) {
    lead == "" || (!IsStray(p, lead + s) && NoStrayIn(p, lead[1..], s))
  }

  lemma {:induction false} LeadStays(p: Pattern, lead: string, s: string)
    requires "" !in p.heads && NoStrayIn(p, lead, s)
    ensures StripStrays(p, lead + s) == lead + StripStrays(p, s)
  {
    if lead == "" {
      assert lead + s == s && lead + StripStrays(p, s) == StripStrays(p, s);
    } else {
      DropFirst(lead, s);
      NoStrayKeepsHead(p, lead + s);
      LeadStays(p, lead[1..], s);
      ConsAppend(lead[0], lead[1..], StripStrays(p, s));
    }
  }

  /** The first stray tag goes, with a space in its place, and what stands before it stays. */
  lemma {:induction false} FirstStrayGoes(p: Pattern, lead: string, s: string, rest: string)
    requires "" !in p.heads && LongHeads(p) && NoStrayIn(p, lead, s) && StrayThen(p, s, rest)
    ensures StripStrays(p, lead + s) == lead + (" " + StripStrays(p, rest))
  {
    LeadStays(p, lead, s);
    StripAtStray(p, s, rest);
  }

  lemma MarkerIsSix(s: string)
    requires Hit(DSML_MARKER, s).Some?
    ensures 6 <= |s|
  {
  }

  lemma {:induction false} MarkerShortens(s: string)
    ensures Shrunk(ReplaceFirstMarker(s), s)
  {
    if s != "" {
      if Hit(DSML_MARKER, s).Some? {
        MarkerIsSix(s);
      } else {
        MarkerShortens(s[1..]);
      }
    }
  }

  lemma {:induction false} BlanksShorten(s: string)
    ensures Shrunk(CollapseBlanks(s), s)
    decreases |s|
  {
    if s != "" {
      var n := RunOfBlanks(s);
      BlanksShorten(if 2 <= n then s[n..] else s[1..]);
    }
  }

  lemma {:induction false} BlankLinesShorten(s: string, lineStart: bool)
    ensures Shrunk(EmptyBlankLines(s, lineStart), s)
    decreases |s|
  {
    if s != "" {
      var n := RunOfBlanks(s);
      if lineStart && 0 < n && (n == |s| || IsLineEnd(s[n])) {
        BlankLinesShorten(s[n..], false);
      } else {
        BlankLinesShorten(s[1..], IsLineEnd(s[0]));
      }
    }
  }

  lemma {:induction false} NewlinesShorten(s: string)
    ensures Shrunk(CollapseNewlines(s), s)
    decreases |s|
  {
    if s != "" {
      var n := RunOfNewlines(s);
      NewlinesShorten(if 3 <= n then s[n..] else s[1..]);
    }
  }

  lemma {:induction false} TrimEndShortens(s: string)
    ensures Shrunk(TrimEnd(s), s)
  {
    if s != "" && IsSpace(s[|s| - 1]) {
      TrimEndShortens(s[..|s| - 1]);
    }
  }

  lemma {:induction false} TrimStartShortens(s: string)
    ensures Shrunk(TrimStart(s), s)
  {
    if s != "" && IsSpace(s[0]) {
      TrimStartShortens(s[1..]);
    }
  }

  lemma {:induction false} CollapseShortens(s: string)
    ensures Shrunk(CollapseWhitespace(s), s)
    ensures |CollapseBlanks(s)| < |s| ==> |CollapseWhitespace(s)| < |s|
  {
    var blanks := CollapseBlanks(s);
    var lines := EmptyBlankLines(blanks, true);
    var newlines := CollapseNewlines(lines);
    BlanksShorten(s);
    BlankLinesShorten(blanks, true);
    NewlinesShorten(lines);
    TrimStartShortens(newlines);
    TrimEndShortens(TrimStart(newlines));
  }

  // ---------------------------------------------------------------- the whole stripper

  lemma OpenTagsAreLong()
    ensures LongHeads(OpenTag(DSML, "invoke")) && LongHeads(OpenTag(Bare, "invoke"))
  {
  }

  lemma StraysAreLong(word: string)
    requires word != ""
    ensures LongHeads(StrayTag(word)) && "" !in StrayTag(word).heads
  {
  }

  lemma StrayDsmlIsLong()
    ensures LongHeads(STRAY_DSML) && "" !in STRAY_DSML.heads
  {
    forall h | h in STRAY_DSML.heads
      ensures 2 <= |h|
    {
      assert h in DsmlTags("<", "") || h in DsmlTags("</", "");
    }
  }

  lemma {:induction false} StraysShorten(s: string)
    ensures Shrunk(StripStrays(StrayTag("tool_call"),
                               StripStrays(StrayTag("parameter"), StripStrays(StrayTag("invoke"), s))), s)
  {
    StraysAreLong("invoke");
    StraysAreLong("parameter");
    StraysAreLong("tool_call");
    var one := StripStrays(StrayTag("invoke"), s);
    var two := StripStrays(StrayTag("parameter"), one);
    StripShortens(StrayTag("invoke"), s);
    StripShortens(StrayTag("parameter"), one);
    StripShortens(StrayTag("tool_call"), two);
  }

  /** The text with all markup taken out, before its white space is collapsed. */
  function Unmarked(source: string): string {
    var dsml := StripStrays(STRAY_DSML, ScanElements(DSML, "invoke", source).out);
    var bare := ScanElements(Bare, "invoke", dsml).out;
    var grok := ScanToolCalls(bare).out;
    ReplaceFirstMarker(StripStrays(StrayTag("tool_call"),
                                   StripStrays(StrayTag("parameter"), StripStrays(StrayTag("invoke"), grok))))
  }

  lemma StripIsCollapse(source: string)
    ensures StripMarkup(source) == if HasMarkup(source) then CollapseWhitespace(Unmarked(source)) else source
  {
  }

  lemma UnmarkingShortens(source: string)
    ensures Shrunk(Unmarked(source), source)
  {
    OpenTagsAreLong();
    StrayDsmlIsLong();
    var scanned := ScanElements(DSML, "invoke", source).out;
    var dsml := StripStrays(STRAY_DSML, scanned);
    var bare := ScanElements(Bare, "invoke", dsml).out;
    var grok := ScanToolCalls(bare).out;
    ScanShortens(DSML, "invoke", source);
    StripShortens(STRAY_DSML, scanned);
    ScanShortens(Bare, "invoke", dsml);
    ToolScanShortens(bare);
    StraysShorten(grok);
    MarkerShortens(StripStrays(StrayTag("tool_call"),
                               StripStrays(StrayTag("parameter"), StripStrays(StrayTag("invoke"), grok))));
  }

  lemma StripperShortens()
    ensures StreamHold.Shortens(StripMarkup)
  {
    forall t
      ensures Shrunk(StripMarkup(t), t)
    {
      StripIsCollapse(t);
      UnmarkingShortens(t);
      CollapseShortens(Unmarked(t));
    }
  }

  // ---------------------------------------------------------------- exactness

  ghost predicate Exact(chunks: seq<string>) {
    StreamHold.Exact(Markers(), HasMarkup, StripMarkup, chunks)
  }

  /** The stripper leaves alone whatever piece of the text a cut can present to it. */
  ghost predicate LeftAlone(text: string) {
    StreamHold.Stable(Markers(), HasMarkup, StripMarkup, text)
  }

  /**
   * The hold, exactly: in every cut of a text the emitted and the carried part make up the text if
   * and only if the stripper leaves alone every piece that a cut can present to it.
   */
  lemma ExactForEveryCut(text: string)
    ensures (forall chunks :: Concat(chunks) == text ==> Exact(chunks)) <==> LeftAlone(text)
  {
    StripperShortens();
    StreamHold.ExactForEveryCut(Markers(), HasMarkup, StripMarkup, text);
  }

  // ---------------------------------------------------------------- text without closed tags

  /** No closing bracket and no bar: no tag and no DSML marker is complete. */
  predicate Unclosed(s: string) { '>' !in s && FULL_BAR !in s && '|' !in s }

  lemma {:induction false} UntilMissing(c: char, s: string)
    requires c !in s
    ensures Until(c, s) == None
  {
    if s != "" {
      UntilMissing(c, s[1..]);
    }
  }

  lemma {:induction false} UntilKeepsMissing(c: char, x: char, s: string)
    requires x !in s && Until(c, s).Some?
    ensures x !in Until(c, s).value.after
  {
    if s[0] != c {
      UntilKeepsMissing(c, x, s[1..]);
    }
  }

  lemma AfterNameUnclosed(d: Dialect, word: string, s: string)
    requires '>' !in s
    ensures AfterName(d, word, s) == None
  {
    if Until('"', s).Some? {
      UntilKeepsMissing('"', '>', s);
      UntilMissing('>', Until('"', s).value.after);
    }
  }

  lemma {:induction false} SearchNameUnclosed(d: Dialect, word: string, s: string, afterWordChar: bool)
    requires '>' !in s
    ensures SearchName(d, word, s, afterWordChar) == None
    decreases |s|
  {
    if NAME <= s {
      AfterNameUnclosed(d, word, s[|NAME|..]);
    }
    if s != "" {
      SearchNameUnclosed(d, word, s[1..], IsWordChar(s[0]));
    }
  }

  lemma NoElementHere(d: Dialect, word: string, s: string)
    requires '>' !in s
    ensures MatchElement(d, word, s) == None
  {
    var hit := Hit(OpenTag(d, word), s);
    if hit.Some? {
      SearchNameUnclosed(d, word, s[hit.value..], true);
    }
  }

  lemma {:induction false} ScanUnclosed(d: Dialect, word: string, s: string)
    requires '>' !in s
    ensures ScanElements(d, word, s).out == s
  {
    if s != "" {
      NoElementHere(d, word, s);
      ScanUnclosed(d, word, s[1..]);
    }
  }

  lemma ToolCallNeedsBracket(s: string)
    requires '>' !in s
    ensures Hit(TOOL_CALL_OPEN, s) == None
  {
    if 10 < |s| {
      assert s[10] in s && TOOL_CALL_OPEN.heads[0][10] == '>';
    }
  }

  lemma {:induction false} ToolScanUnclosed(s: string)
    requires '>' !in s
    ensures ScanToolCalls(s).out == s
  {
    if s != "" {
      ToolCallNeedsBracket(s);
      ToolScanUnclosed(s[1..]);
    }
  }

  lemma {:induction false} NoStrayHere(p: Pattern, s: string)
    requires "" !in p.heads && '>' !in s && s != ""
    ensures StripStrays(p, s) == [s[0]] + StripStrays(p, s[1..])
  {
    var hit := Hit(p, s);
    if hit.Some? {
      UntilMissing('>', s[hit.value..]);
    }
  }

  lemma {:induction false} StripUnclosed(p: Pattern, s: string)
    requires "" !in p.heads && '>' !in s
    ensures StripStrays(p, s) == s
  {
    if s != "" {
      NoStrayHere(p, s);
      StripUnclosed(p, s[1..]);
    }
  }

  lemma MarkerNeedsBar(s: string)
    requires FULL_BAR !in s && '|' !in s
    ensures Hit(DSML_MARKER, s) == None
  {
    if s != "" {
      assert s[0] in s;
    }
  }

  lemma {:induction false} MarkerMissing(s: string)
    requires FULL_BAR !in s && '|' !in s
    ensures ReplaceFirstMarker(s) == s
  {
    if s != "" {
      MarkerNeedsBar(s);
      MarkerMissing(s[1..]);
    }
  }

  /** Where no tag is complete, the stripper collapses white space and does nothing else. */
  lemma UnclosedIsOnlyCollapsed(s: string)
    requires Unclosed(s)
    ensures Unmarked(s) == s
  {
    StrayDsmlIsLong();
    StraysAreLong("invoke");
    StraysAreLong("parameter");
    StraysAreLong("tool_call");
    ScanUnclosed(DSML, "invoke", s);
    StripUnclosed(STRAY_DSML, s);
    ScanUnclosed(Bare, "invoke", s);
    ToolScanUnclosed(s);
    StripUnclosed(StrayTag("invoke"), s);
    StripUnclosed(StrayTag("parameter"), s);
    StripUnclosed(StrayTag("tool_call"), s);
    MarkerMissing(s);
  }

  predicate Spaceless(s: string) { forall i :: 0 <= i < |s| ==> !IsSpace(s[i]) }

  lemma {:induction false} SpacelessIsKept(s: string, lineStart: bool)
    requires Spaceless(s)
    ensures CollapseBlanks(s) == s && EmptyBlankLines(s, lineStart) == s && CollapseNewlines(s) == s
    ensures TrimStart(s) == s && TrimEnd(s) == s
    decreases |s|
  {
    if s != "" {
      assert !IsSpace(s[0]) && !IsBlank(s[0]);
      SpacelessIsKept(s[1..], IsLineEnd(s[0]));
    }
  }

  lemma PieceIsPlain(s: string, i: nat, j: nat)
    requires i <= j <= |s| && Unclosed(s) && Spaceless(s)
    ensures Unclosed(s[i..j]) && Spaceless(s[i..j])
  {
  }

  /** An opener alone loses nothing: without white space, bars and closing brackets every cut is exact. */
  lemma {:induction false} SpacelessIsExact(chunks: seq<string>)
    requires Unclosed(Concat(chunks)) && Spaceless(Concat(chunks))
    ensures Exact(chunks)
  {
    var text := Concat(chunks);
    forall i: nat, j: nat
      ensures StreamHold.StableAt(Markers(), HasMarkup, StripMarkup, text, i, j)
    {
      if i <= j <= |text| {
        var piece := StreamHold.Presented(Markers(), text, i, j);
        PieceIsPlain(text, StreamHold.HoldIndex(Markers(), text[..i]), j);
        StripIsCollapse(piece);
        UnclosedIsOnlyCollapsed(piece);
        SpacelessIsKept(piece, true);
      }
    }
    StreamHold.StableIsExact(Markers(), HasMarkup, StripMarkup, chunks);
  }

  // ---------------------------------------------------------------- texts that lose

  /** The words whose bare tags the tests look for. */
  predicate IsOpenerWord(word: string) { word in ["invoke", "parameter", "tool_call"] }

  /** A word that folding leaves alone. */
  predicate Folded(word: string) {
    word != "" && word[0] != '/' && forall k :: 0 <= k < |word| ==> Lower(word[k]) == word[k]
  }

  lemma OpenerWordIsFolded(word: string)
    requires IsOpenerWord(word)
    ensures Folded(word)
  {
  }

  lemma OpenerWordsDiffer(word: string, other: string)
    requires IsOpenerWord(word) && IsOpenerWord(other)
    ensures word == other || word[0] != other[0]
  {
  }

  lemma TestIsOpener(k: nat)
    requires k < |Tests()|
    ensures Tests()[k] == DSML_MARKER || exists word :: IsOpenerWord(word) && Tests()[k] == StrayTag(word)
  {
    assert IsOpenerWord("invoke") && IsOpenerWord("parameter") && IsOpenerWord("tool_call");
  }

  lemma OpenerIsMarkup(word: string, s: string)
    requires IsOpenerWord(word) && Occurs(StrayTag(word), s)
    ensures HasMarkup(s)
  {
  }

  lemma OpenerOccurs(word: string, lead: string)
    requires Folded(word)
    ensures Occurs(StrayTag(word), lead + ("<" + word))
  {
    var p, s := StrayTag(word), lead + ("<" + word);
    assert s[|lead|..] == p.heads[0];
    assert HeadFits(p, p.heads[0], s[|lead|..]);
    assert Hit(p, s[|lead|..]).Some?;
  }

  lemma NoTagHere(word: string, s: string)
    requires s != "" && s[0] != '<'
    ensures Hit(StrayTag(word), s).None?
  {
  }

  lemma OtherTagHere(word: string, other: string, tail: string)
    requires Folded(word) && Folded(other) && word[0] != other[0]
    ensures Hit(StrayTag(other), "<" + word + tail).None?
  {
    var s := "<" + word + tail;
    assert s[1] == word[0] == Lower(word[0]);
    assert ("<" + other)[1] == other[0] && ("</" + other)[1] == '/';
  }

  lemma WordGoesOn(word: string, tail: string)
    requires Folded(word) && tail != "" && IsWordChar(tail[0])
    ensures Hit(StrayTag(word), "<" + word + tail).None?
  {
    var s := "<" + word + tail;
    assert s[1] == word[0] == Lower(word[0]) && s[1 + |word|] == tail[0];
    assert ("</" + word)[1] == '/' && |"<" + word| == 1 + |word|;
  }

  /** The only bracket of the text stands before the word. */
  predicate OneBracket(lead: string, tail: string) { '<' !in lead && '<' !in tail }

  lemma BracketIsThere(lead: string, word: string, tail: string, i: nat)
    requires IsOpenerWord(word) && OneBracket(lead, tail) && i < |lead + ("<" + word + tail)|
    ensures i == |lead| ==> (lead + ("<" + word + tail))[i..] == "<" + word + tail
    ensures i != |lead| ==> (lead + ("<" + word + tail))[i] != '<'
  {
    if i < |lead| {
      assert lead[i] in lead;
    } else if |lead| < i <= |lead| + |word| {
      assert word[i - |lead| - 1] != '<';
    } else if |lead| < i {
      assert tail[i - |lead| - 1 - |word|] in tail;
    }
  }

  lemma OpenerIsNowhere(lead: string, word: string, tail: string, other: string)
    requires IsOpenerWord(word) && IsOpenerWord(other) && OneBracket(lead, tail) && tail != "" && IsWordChar(tail[0])
    ensures !Occurs(StrayTag(other), lead + ("<" + word + tail))
  {
    var s := lead + ("<" + word + tail);
    OpenerWordIsFolded(word);
    OpenerWordIsFolded(other);
    OpenerWordsDiffer(word, other);
    forall i | 0 <= i < |s|
      ensures Hit(StrayTag(other), s[i..]).None?
    {
      BracketIsThere(lead, word, tail, i);
      if i != |lead| {
        NoTagHere(other, s[i..]);
      } else if other == word {
        WordGoesOn(word, tail);
      } else {
        OtherTagHere(word, other, tail);
      }
    }
  }

  lemma MarkerIsNowhere(s: string)
    requires Unclosed(s)
    ensures !HasDsml(s)
  {
    forall i | 0 <= i < |s|
      ensures Hit(DSML_MARKER, s[i..]).None?
    {
      MarkerNeedsBar(s[i..]);
    }
  }

  lemma LongerWordIsNoMarkup(lead: string, word: string, tail: string)
    requires IsOpenerWord(word) && OneBracket(lead, tail) && tail != "" && IsWordChar(tail[0])
    requires Unclosed(lead + ("<" + word + tail))
    ensures !HasMarkup(lead + ("<" + word + tail))
  {
    var s := lead + ("<" + word + tail);
    MarkerIsNowhere(s);
    forall other | IsOpenerWord(other)
      ensures !Occurs(StrayTag(other), s)
    {
      OpenerIsNowhere(lead, word, tail, other);
    }
    forall k | 0 <= k < |Tests()|
      ensures !Occurs(Tests()[k], s)
    {
      TestIsOpener(k);
    }
    MarkupIsTests(s);
  }

  lemma BarMarkerStart(bar: char, m: string)
    requires bar in BARS && m in MarkersWithBar(bar)
    ensures 2 <= |m| && m[0] == '<' && m[1] in [FULL_BAR, '|', '/']
  {
  }

  /** A marker with the first letter of an opener's word is that opener. */
  lemma MarkerStart(word: string, m: string)
    requires IsOpenerWord(word) && m in Markers()
    ensures 2 <= |m| && m[0] == '<' && (m[1] == word[0] ==> |m| == 1 + |word|)
  {
    if m in MarkersWithBar(FULL_BAR) {
      BarMarkerStart(FULL_BAR, m);
    } else if m in MarkersWithBar('|') {
      BarMarkerStart('|', m);
    } else {
      assert m in ["<invoke", "</invoke>", "<parameter", "</parameter>", "<tool_call", "</tool_call>"];
    }
  }

  lemma SuffixIsNoBeginning(lead: string, word: string, tail: string, h: nat)
    requires IsOpenerWord(word) && OneBracket(lead, tail) && tail != "" && h < |lead + ("<" + word + tail)|
    ensures !StreamHold.IsPartial(Markers(), (lead + ("<" + word + tail))[h..])
  {
    var t := (lead + ("<" + word + tail))[h..];
    forall k | 0 <= k < |Markers()|
      ensures !(t <= Markers()[k])
    {
      var m := Markers()[k];
      MarkerStart(word, m);
      BracketIsThere(lead, word, tail, h);
      if h == |lead| {
        assert t[1] == word[0];
        assert |m| < |t| || m[1] != t[1];
      } else {
        assert m[0] != t[0];
      }
    }
  }

  /** No suffix of such a text is the beginning of a marker. */
  lemma NothingIsHeld(lead: string, word: string, tail: string)
    requires IsOpenerWord(word) && OneBracket(lead, tail) && tail != ""
    ensures StreamHold.HoldIndex(Markers(), lead + ("<" + word + tail)) == |lead + ("<" + word + tail)|
  {
    var s := lead + ("<" + word + tail);
    var h := StreamHold.HoldIndex(Markers(), s);
    if h < |s| {
      SuffixIsNoBeginning(lead, word, tail, h);
    }
  }

  predicate TwoBlanks(s: string, i: nat) { i + 1 < |s| && IsBlank(s[i]) && IsBlank(s[i + 1]) }

  lemma {:induction false} TwoBlanksCollapse(s: string, i: nat)
    requires TwoBlanks(s, i)
    ensures |CollapseBlanks(s)| < |s|
    decreases i
  {
    var n := RunOfBlanks(s);
    if i == 0 {
      assert s[1..][0] == s[1] && RunOfBlanks(s[1..]) > 0;
    }
    if 2 <= n {
      BlanksShorten(s[n..]);
    } else {
      TwoBlanksCollapse(s[1..], i - 1);
    }
  }

  lemma {:induction false} CollapseIsSeen(s: string)
    requires HasMarkup(s) && Unclosed(s) && |CollapseBlanks(s)| < |s|
    ensures !StreamHold.Spared(HasMarkup, StripMarkup, s)
  {
    UnclosedIsOnlyCollapsed(s);
    StripIsCollapse(s);
    CollapseShortens(s);
  }

  /** Two cuts of a text, of which one presents only a beginning that the stripper changes. */
  lemma TwoCuts(head: string, tail: string, text: string)
    requires text == head + tail && !StreamHold.Spared(HasMarkup, StripMarkup, head)
    requires !HasMarkup(text) && StreamHold.HoldIndex(Markers(), text) == |text|
    ensures Concat([] + [text]) == Concat([] + [head] + [tail]) == text
    ensures Exact([] + [text]) && !Exact([] + [head] + [tail])
  {
    StripperShortens();
    StreamHold.FirstChunkLoses(Markers(), HasMarkup, StripMarkup, head, tail);
    StreamHold.WholeIsExact(Markers(), HasMarkup, StripMarkup, text);
  }

  /** Two blanks, the word of an opener and a character that goes on with it. */
  predicate Losing(lead: string, word: string, tail: string, i: nat) {
    && IsOpenerWord(word) && OneBracket(lead, tail) && TwoBlanks(lead, i)
    && tail != "" && IsWordChar(tail[0]) && Unclosed(lead + ("<" + word + tail))
  }

  /**
   * The word boundary matters. A text in which the word of an opener goes on passes no test, and in one
   * chunk it is emitted as it is; cut right after the opener, two blanks before it have become one.
   */
  lemma BoundaryCutLoses(lead: string, word: string, tail: string, i: nat)
    requires Losing(lead, word, tail, i)
    ensures Concat([] + [lead + ("<" + word + tail)]) == Concat([] + [lead + ("<" + word)] + [tail])
    ensures Exact([] + [lead + ("<" + word + tail)])
    ensures !Exact([] + [lead + ("<" + word)] + [tail])
  {
    var head, text := lead + ("<" + word), lead + ("<" + word + tail);
    assert head + tail == text && head == text[..|head|];
    OpenerWordIsFolded(word);
    OpenerOccurs(word, lead);
    OpenerIsMarkup(word, head);
    TwoBlanksCollapse(head, i);
    CollapseIsSeen(head);
    LongerWordIsNoMarkup(lead, word, tail);
    NothingIsHeld(lead, word, tail);
    TwoCuts(head, tail, text);
  }

  lemma LosingExists()
    ensures exists lead, word, tail, i: nat :: Losing(lead, word, tail, i)
  {
    assert Losing("a  ", "invoke", "s", 1);
  }

  /** Two cuts of one text, of which only the first is exact. */
  ghost predicate CutMatters(whole: seq<string>, cut: seq<string>) {
    Concat(whole) == Concat(cut) && Exact(whole) && !Exact(cut)
  }

  /** Such texts exist, `a  <invokes` is one: the hold depends on the cut. */
  lemma HoldDependsOnTheCut() returns (whole: seq<string>, cut: seq<string>)
    ensures CutMatters(whole, cut)
  {
    LosingExists();
    var lead, word, tail, i: nat :| Losing(lead, word, tail, i);
    BoundaryCutLoses(lead, word, tail, i);
    whole := [] + [lead + ("<" + word + tail)];
    cut := [] + [lead + ("<" + word)] + [tail];
  }
}

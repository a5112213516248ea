/** What the tags of DsmlMarkup have in common, so that text without an opener passes every scanner. */
module DsmlTagFacts {
  import opened Seqs
  import opened DsmlMarkup
  import opened DsmlPatterns
  import opened DsmlStream

  /** No head of `p` in `t`, even with a word character after it. */
  predicate Clear(p: Pattern, t: string) { !Occurs(p.(bounded := false), t) }

  /** The head `g` of `q` stands inside the head `h` of `p`, from position `o`. */
  predicate Inside(p: Pattern, q: Pattern, g: string, h: string, o: nat) {
    && g != "" && o + |g| <= |h|
    && forall k :: 0 <= k < |g| ==>
         if p.fold then q.fold && g[k] == h[o + k] else SameChar(q, g[k], h[o + k])
  }

  ghost predicate HeadCovered(p: Pattern, h: string) {
    exists n, m: nat, o: nat :: 0 <= n < |Tests()| && HeadCoveredBy(p, h, Tests()[n], m, o)
  }

  ghost predicate HeadCoveredBy(p: Pattern, h: string, q: Pattern, m: nat, o: nat) {
    m < |q.heads| && Inside(p, q, q.heads[m], h, o)
  }

  /** A tag of the markup: a literal that begins away from `chars`, and that no opener-free text contains. */
  ghost predicate IsTag(p: Pattern, chars: set<char>) {
    && PlainHeads(p)
    && Begins(p, chars)
    && forall h :: h in p.heads ==> HeadCovered(p, h)
  }

  lemma OpenerFreeIsClearOf(p: Pattern, chars: set<char>, t: string)
    requires IsTag(p, chars) && OpenerFree(t)
    ensures Clear(p, t)
  {
    if !Clear(p, t) {
      TagBringsOpener(p, chars, t);
    }
  }

  lemma TagBringsOpener(p: Pattern, chars: set<char>, t: string)
    requires IsTag(p, chars) && !Clear(p, t)
    ensures !OpenerFree(t)
  {
    var bare := p.(bounded := false);
    var i :| 0 <= i < |t| && Hit(bare, t[i..]).Some?;
    var k :| 0 <= k < |bare.heads| && HeadFits(bare, bare.heads[k], t[i..]);
    var h := p.heads[k];
    assert HeadCovered(p, h);
    var n, m: nat, o: nat :| 0 <= n < |Tests()| && HeadCoveredBy(p, h, Tests()[n], m, o);
    InsideFits(p, Tests()[n], m, h, o, t, i);
    assert Occurs(Unbounded(Tests())[n], t);
  }

  lemma InsideFits(p: Pattern, q: Pattern, m: nat, h: string, o: nat, t: string, i: nat)
    requires i < |t| && HeadFits(p.(bounded := false), h, t[i..]) && HeadCoveredBy(p, h, q, m, o)
    ensures Occurs(q.(bounded := false), t)
  {
    var g, u := q.heads[m], q.(bounded := false);
    forall k | 0 <= k < |g|
      ensures SameChar(u, g[k], t[i + o..][k])
    {
      assert t[i + o..][k] == t[i..][o + k];
      assert SameChar(p, h[o + k], t[i..][o + k]);
    }
    assert HeadFits(u, u.heads[m], t[i + o..]);
    assert Hit(u, t[i + o..]).Some?;
  }

  // ---------------------------------------------------------------- the tags one by one

  /** The characters that may follow `<` or `</` in blocks that are still there at a stage. */
  function Initials(stage: nat): set<char> {
    if stage <= 1 then {'i', 'p', 't', 'a'} else if stage == 2 then {'t', 'a'} else {}
  }

  lemma DsmlHeadIsPlain(p: Pattern, open: string, first: char, second: char, word: string)
    requires open in ["<", "</"] && first in BARS && second in BARS
    requires ' ' !in word && '<' !in word && !p.fold
    ensures var h := DsmlTag(open, first, second, word);
            h != "" && PlainHead(h) && HeadBegins(p, h, Initials(1))
  {
    assert DsmlTag(open, first, second, word) == open + [first, 'D', 'S', 'M', 'L', second] + word;
  }

  lemma DsmlHeadIsCovered(p: Pattern, open: string, first: char, second: char, word: string)
    requires first in BARS && second in BARS && !p.fold
    ensures HeadCovered(p, DsmlTag(open, first, second, word))
  {
    var h := DsmlTag(open, first, second, word);
    assert h == open + [first, 'D', 'S', 'M', 'L', second] + word;
    var m := (if first == FULL_BAR then 0 else 2) + (if second == FULL_BAR then 0 else 1);
    var g := DSML_MARKER.heads[m];
    assert g == DsmlTag("", first, second, "") == [first, 'D', 'S', 'M', 'L', second];
    assert Tests()[0] == DSML_MARKER;
    assert HeadCoveredBy(p, h, Tests()[0], m, |open|);
  }

  lemma DsmlHeadIsTag(p: Pattern, open: string, first: char, second: char, word: string)
    requires open in ["<", "</"] && first in BARS && second in BARS
    requires ' ' !in word && '<' !in word && !p.fold
    ensures var h := DsmlTag(open, first, second, word);
            h != "" && PlainHead(h) && HeadBegins(p, h, Initials(1)) && HeadCovered(p, h)
  {
    DsmlHeadIsPlain(p, open, first, second, word);
    DsmlHeadIsCovered(p, open, first, second, word);
  }

  lemma DsmlIsTag(word: string)
    requires ' ' !in word && '<' !in word
    ensures IsTag(OpenTag(DSML, word), Initials(1)) && IsTag(CloseTag(DSML, word), Initials(1))
  {
    forall h | h in OpenTag(DSML, word).heads
      ensures PlainHead(h) && HeadBegins(OpenTag(DSML, word), h, Initials(1)) && HeadCovered(OpenTag(DSML, word), h)
    {
      var first, second := HeadBars("<", word, h);
      DsmlHeadIsTag(OpenTag(DSML, word), "<", first, second, word);
    }
    forall h | h in CloseTag(DSML, word).heads
      ensures PlainHead(h) && HeadBegins(CloseTag(DSML, word), h, Initials(1)) && HeadCovered(CloseTag(DSML, word), h)
    {
      var first, second := HeadBars("</", word + ">", h);
      DsmlHeadIsTag(CloseTag(DSML, word), "</", first, second, word + ">");
    }
  }

  lemma HeadBars(open: string, word: string, h: string) returns (first: char, second: char)
    requires h in DsmlTags(open, word)
    ensures first in BARS && second in BARS && h == DsmlTag(open, first, second, word)
  {
    var i :| 0 <= i < 4 && DsmlTags(open, word)[i] == h;
    first, second := if i < 2 then FULL_BAR else '|', if i % 2 == 0 then FULL_BAR else '|';
  }

  lemma StrayDsmlIsTag()
    ensures IsTag(STRAY_DSML, Initials(1))
  {
    var p := STRAY_DSML;
    forall h | h in p.heads
      ensures PlainHead(h) && HeadBegins(p, h, Initials(1)) && HeadCovered(p, h)
    {
      if h in DsmlTags("<", "") {
        var first, second := HeadBars("<", "", h);
        DsmlHeadIsTag(p, "<", first, second, "");
      } else {
        var first, second := HeadBars("</", "", h);
        DsmlHeadIsTag(p, "</", first, second, "");
      }
    }
  }

  predicate IsWord(word: string) {
    word != "" && forall k :: 0 <= k < |word| ==> 'a' <= word[k] <= 'z' || word[k] == '_'
  }

  /** A head that spells the stray tag of `word`, perhaps with a `>` at the end. */
  lemma BareHeadIsTag(p: Pattern, h: string, word: string, n: nat, m: nat, chars: set<char>)
    requires n < |Tests()| && Tests()[n] == StrayTag(word) && m < 2
    requires var g := StrayTag(word).heads[m]; h == g || h == g + ">"
    requires IsWord(word)
    requires forall x :: x in chars ==> !SameChar(p, word[0], x)
    ensures PlainHead(h) && HeadBegins(p, h, chars) && HeadCovered(p, h)
  {
    var g := StrayTag(word).heads[m];
    assert g == if m == 0 then "<" + word else "</" + word;
    assert forall k :: 0 <= k < |g| ==> Lower(g[k]) == g[k] && h[k] == g[k];
    assert HeadCoveredBy(p, h, Tests()[n], m, 0);
  }

  lemma WordIsTag(word: string, n: nat, chars: set<char>)
    requires n < |Tests()| && Tests()[n] == StrayTag(word) && IsWord(word)
    requires forall x :: x in chars ==> Lower(x) == x != word[0]
    ensures IsTag(Pattern(["<" + word], false, true), chars)
    ensures IsTag(Pattern(["<" + word + ">"], false, false), chars)
    ensures IsTag(Pattern(["</" + (word + ">")], false, false), chars)
    ensures IsTag(StrayTag(word), chars)
  {
    BareHeadIsTag(Pattern(["<" + word], false, true), "<" + word, word, n, 0, chars);
    BareHeadIsTag(Pattern(["<" + word + ">"], false, false), "<" + word + ">", word, n, 0, chars);
    Assoc("</", word, ">");
    BareHeadIsTag(Pattern(["</" + (word + ">")], false, false), "</" + (word + ">"), word, n, 1, chars);
    BareHeadIsTag(StrayTag(word), "<" + word, word, n, 0, chars);
    BareHeadIsTag(StrayTag(word), "</" + word, word, n, 1, chars);
  }

  lemma TheWords()
    ensures IsWord("invoke") && IsWord("parameter") && IsWord("tool_call")
    ensures Tests()[1] == StrayTag("invoke") && Tests()[2] == StrayTag("parameter")
    ensures Tests()[3] == StrayTag("tool_call")
    ensures TOOL_CALL_OPEN.heads[0] == "<" + "tool_call" + ">"
    ensures TOOL_CALL_CLOSE.heads[0] == "</" + ("tool_call" + ">")
  {
  }

  lemma InvokeIsTag()
    ensures IsTag(OpenTag(Bare, "invoke"), Initials(2)) && IsTag(StrayTag("invoke"), Initials(2))
    ensures IsTag(CloseTag(Bare, "invoke"), {'p'})
  {
    TheWords();
    WordIsTag("invoke", 1, Initials(2));
    WordIsTag("invoke", 1, {'p'});
  }

  lemma ParameterIsTag()
    ensures IsTag(StrayTag("parameter"), Initials(2)) && IsTag(CloseTag(Bare, "parameter"), {})
  {
    TheWords();
    WordIsTag("parameter", 2, Initials(2));
    WordIsTag("parameter", 2, {});
  }

  lemma ToolCallIsTag()
    ensures IsTag(TOOL_CALL_OPEN, Initials(3)) && IsTag(StrayTag("tool_call"), Initials(3))
    ensures IsTag(TOOL_CALL_CLOSE, {'a'})
  {
    TheWords();
    WordIsTag("tool_call", 3, Initials(3));
    WordIsTag("tool_call", 3, {'a'});
  }
}

/** Tags of src/agent/dsml-salvage.ts that belong to no complete block: salvage and the stripper take them out. */
module DsmlOrphans {
  import opened Wrappers
  import opened Seqs
  import opened DsmlMarkup
  import opened DsmlPatterns
  import opened DsmlStream
  import opened DsmlTagFacts
  import opened DsmlPrinter
  import opened DsmlRoundTrip
  import opened DsmlStripper
  import opened DsmlHealing

  /** Letters, digits and the underscore, by their codes. */
  predicate ContinuesWord(c: char) {
    var n := c as int;
    48 <= n <= 57 || 65 <= n <= 90 || n == 95 || 97 <= n <= 122
  }

  /** The character or its capital. */
  predicate IsCase(c: char, of: char) {
    c == of || (97 <= of as int <= 122 && c as int == of as int - 32)
  }

  predicate SpelledAs(spelled: string, word: string) {
    |spelled| == |word| && forall k :: 0 <= k < |word| ==> IsCase(spelled[k], word[k])
  }

  /** An opening or closing tag; a bare one in any spelling, a DSML one with any word in `attrs`. */
  datatype Orphan = Orphan(form: Form, closing: bool, word: string, spelled: string, attrs: string)

  function Head(o: Orphan): string {
    var open := if o.closing then "</" else "<";
    if o.form.InDsml? then DsmlTag(open, o.form.first, o.form.second, "") else open + o.spelled
  }

  function Written(o: Orphan): string { Head(o) + (o.attrs + ">") }

  predicate GoodOrphan(o: Orphan) {
    && o.form.Valid() && '<' !in o.attrs && '>' !in o.attrs && |o.attrs| <= 200
    && (!o.form.InDsml? ==> SpelledAs(o.spelled, o.word) && (o.attrs != "" ==> !ContinuesWord(o.attrs[0])))
    && (o.form.InBare? ==> o.word == "invoke" || o.word == "parameter")
    && (o.form.InToolCall? ==> o.word == "tool_call")
  }

  /** Which of the four kinds of stray tags it is, in the order in which they are taken out. */
  function Level(o: Orphan): nat {
    if o.form.InDsml? then 0 else if o.form.InToolCall? then 3 else if o.word == "invoke" then 1 else 2
  }

  function Stray(level: nat): Pattern {
    if level == 0 then STRAY_DSML
    else if level == 1 then StrayTag("invoke")
    else if level == 2 then StrayTag("parameter")
    else StrayTag("tool_call")
  }

  /** Pieces of prose, each with an orphan after it. */
  datatype Orphans = Done | More(text: string, orphan: Orphan, rest: Orphans)

  predicate GoodOrphans(os: Orphans, closing: bool) {
    os.More? ==>
      && OpenerFree(os.text) && GoodOrphan(os.orphan) && os.orphan.closing == closing
      && GoodOrphans(os.rest, closing)
  }

  function ShownAt(o: Orphan, level: nat): string { if Level(o) < level then " " else Written(o) }

  /** The text with the first kinds taken out, before `s`. */
  function Left(os: Orphans, level: nat, s: string): string {
    match os
    case Done => s
    case More(text, o, rest) => text + (ShownAt(o, level) + Left(rest, level, s))
  }

  // ---------------------------------------------------------------- spelling

  lemma LowerOfCase(c: char, of: char)
    requires IsCase(c, of) && ('a' <= of <= 'z' || of == '_')
    ensures Lower(c) == of
  {
  }

  lemma WordCharsExactly(c: char)
    ensures ContinuesWord(c) <==> IsWordChar(c)
  {
  }

  /** The words of bare tags, by the level at which their tags are taken out. */
  function WordOf(level: nat): string
    requires 1 <= level <= 3
  {
    if level == 1 then "invoke" else if level == 2 then "parameter" else "tool_call"
  }

  lemma WordOfOrphan(o: Orphan)
    requires GoodOrphan(o) && !o.form.InDsml?
    ensures 1 <= Level(o) <= 3 && o.word == WordOf(Level(o)) && IsWord(o.word)
    ensures Stray(Level(o)) == StrayTag(o.word) == Tests()[Level(o)]
  {
    TheWords();
  }

  lemma SpelledFits(open: string, o: Orphan, s: string)
    requires GoodOrphan(o) && !o.form.InDsml? && IsWord(o.word)
    requires open == if o.closing then "</" else "<"
    ensures HeadFits(StrayTag(o.word), open + o.word, Written(o) + s)
  {
    var u := Written(o) + s;
    assert Written(o) == (open + o.spelled) + (o.attrs + ">");
    forall k | 0 <= k < |open + o.word|
      ensures SameChar(StrayTag(o.word), (open + o.word)[k], u[k])
    {
      if k >= |open| {
        LowerOfCase(o.spelled[k - |open|], o.word[k - |open|]);
      }
    }
    var next := u[|open + o.word|];
    assert next == (o.attrs + ">")[0];
    WordCharsExactly(next);
  }

  // ---------------------------------------------------------------- which heads begin an orphan

  /** Heads of opening tags are one character shorter than those of closing tags. */
  ghost predicate HeadSizes(p: Pattern, n: nat) {
    forall h :: h in p.heads ==> |h| >= 2 && h[0] == '<' && |h| == if h[1] == '/' then n + 1 else n
  }

  lemma DsmlHeadSizes()
    ensures HeadSizes(STRAY_DSML, 7)
  {
    forall h | h in STRAY_DSML.heads
      ensures |h| >= 2 && h[0] == '<' && |h| == if h[1] == '/' then 8 else 7
    {
      if h in DsmlTags("<", "") {
        var first, second := HeadBars("<", "", h);
        assert DsmlTag("<", first, second, "") == ['<', first, 'D', 'S', 'M', 'L', second];
      } else {
        var first, second := HeadBars("</", "", h);
        assert DsmlTag("</", first, second, "") == ['<', '/', first, 'D', 'S', 'M', 'L', second];
      }
    }
  }

  lemma WordHeadSizes(word: string)
    requires IsWord(word)
    ensures HeadSizes(StrayTag(word), |word| + 1)
  {
  }

  lemma HitLength(p: Pattern, n: nat, h: string, u: string)
    requires HeadSizes(p, n) && h in p.heads && HeadFits(p, h, u)
    ensures Hit(p, u) == Some(|h|)
  {
    var i :| 0 <= i < |p.heads| && p.heads[i] == h;
    var k :| 0 <= k < |p.heads| && HeadFits(p, p.heads[k], u) && Hit(p, u) == Some(|p.heads[k]|);
    var g := p.heads[k];
    assert g in p.heads;
    LowerKeepsOthers(p, u[1]);
  }

  lemma DsmlFits(o: Orphan, s: string)
    requires GoodOrphan(o) && o.form.InDsml?
    ensures Head(o) in STRAY_DSML.heads && HeadFits(STRAY_DSML, Head(o), Written(o) + s)
  {
    var open := if o.closing then "</" else "<";
    DsmlTagIsListed(open, o.form.first, o.form.second, "");
    var h, u := Head(o), Written(o) + s;
    assert h in DsmlTags(open, "");
    assert u == h + ((o.attrs + ">") + s);
  }

  /** An orphan begins with a head of its own kind, as long as the orphan's. */
  lemma OrphanIsHit(o: Orphan, s: string)
    requires GoodOrphan(o)
    ensures Hit(Stray(Level(o)), Written(o) + s) == Some(|Head(o)|)
  {
    if o.form.InDsml? {
      DsmlHeadSizes();
      DsmlFits(o, s);
      HitLength(STRAY_DSML, 7, Head(o), Written(o) + s);
    } else {
      var open := if o.closing then "</" else "<";
      WordOfOrphan(o);
      WordHeadSizes(o.word);
      SpelledFits(open, o, s);
      assert open + o.word in StrayTag(o.word).heads;
      HitLength(StrayTag(o.word), |o.word| + 1, open + o.word, Written(o) + s);
    }
  }

  lemma StraysAreLongAt(level: nat)
    ensures "" !in Stray(level).heads && LongHeads(Stray(level))
  {
    StrayDsmlIsLong();
  }

  lemma StrayIsThere(p: Pattern, n: nat, u: string, attrs: string, s: string)
    requires Hit(p, u) == Some(n) && n <= |u| && u[n..] == attrs + (">" + s) && '>' !in attrs && |attrs| <= 200
    ensures StrayThen(p, u, s)
  {
    var after := u[n..];
    assert after[..|attrs|] == attrs && after[|attrs| + 1..] == s;
    assert IsTagEnd(after, |attrs|);
  }

  lemma OrphanSplits(o: Orphan, s: string)
    ensures var u := Written(o) + s; |Head(o)| <= |u| && u[|Head(o)|..] == o.attrs + (">" + s)
  {
  }

  lemma {:induction false} OrphanGoes(o: Orphan, p: Pattern, u: string, s: string)
    requires GoodOrphan(o) && p == Stray(Level(o)) && u == Written(o) + s
    ensures "" !in p.heads && StripStrays(p, u) == " " + StripStrays(p, s)
  {
    OrphanIsHit(o, s);
    OrphanSplits(o, s);
    StraysAreLongAt(Level(o));
    StrayIsThere(p, |Head(o)|, u, o.attrs, s);
    StripAtStray(p, u, s);
  }

  // ---------------------------------------------------------------- what passes over an orphan

  /** A tag is `<`, a slash if it closes, and text without another `<`. */
  ghost predicate IsOneTag(t: string, closing: bool) {
    3 <= |t| && t[0] == '<' && (forall i :: 1 <= i < |t| ==> t[i] != '<') && (t[1] == '/' <==> closing)
  }

  lemma OneTag(closing: bool, open: string, body: string, t: string)
    requires 2 <= |body| && '<' !in body && body[0] != '/'
    requires open == (if closing then "</" else "<") && t == open + body
    ensures IsOneTag(t, closing)
  {
    forall i | 1 <= i < |t|
      ensures t[i] != '<'
    {
      if |open| <= i {
        assert t[i] == body[i - |open|];
      }
    }
  }

  lemma PlainWithEnd(body: string, attrs: string)
    requires '<' !in body && '<' !in attrs
    ensures '<' !in body + (attrs + ">")
  {
  }

  lemma DsmlOrphanBegins(o: Orphan, open: string)
    requires GoodOrphan(o) && o.form.InDsml? && open == if o.closing then "</" else "<"
    ensures IsOneTag(Written(o), o.closing)
  {
    var name := [o.form.first, 'D', 'S', 'M', 'L', o.form.second];
    assert DsmlTag(open, o.form.first, o.form.second, "") == open + name;
    Assoc(open, name, o.attrs + ">");
    PlainWithEnd(name, o.attrs);
    OneTag(o.closing, open, name + (o.attrs + ">"), Written(o));
  }

  lemma BareOrphanBegins(o: Orphan, open: string)
    requires GoodOrphan(o) && !o.form.InDsml? && open == if o.closing then "</" else "<"
    ensures IsOneTag(Written(o), o.closing)
  {
    WordOfOrphan(o);
    LowerOfCase(o.spelled[0], o.word[0]);
    SpelledIsPlain(o);
    PlainWithEnd(o.spelled, o.attrs);
    Assoc(open, o.spelled, o.attrs + ">");
    OneTag(o.closing, open, o.spelled + (o.attrs + ">"), Written(o));
  }

  lemma OrphanBegins(o: Orphan)
    requires GoodOrphan(o)
    ensures IsOneTag(Written(o), o.closing)
  {
    if o.form.InDsml? {
      DsmlOrphanBegins(o, if o.closing then "</" else "<");
    } else {
      BareOrphanBegins(o, if o.closing then "</" else "<");
    }
  }

  lemma SpelledIsPlain(o: Orphan)
    requires GoodOrphan(o) && !o.form.InDsml? && IsWord(o.word)
    ensures '<' !in o.spelled
  {
    forall k | 0 <= k < |o.spelled|
      ensures o.spelled[k] != '<'
    {
      LowerOfCase(o.spelled[k], o.word[k]);
    }
  }

  /** Heads of opening tags only, or of closing tags only. */
  ghost predicate OneSided(p: Pattern, closing: bool) {
    forall h :: h in p.heads ==> |h| >= 2 && h[0] == '<' && (h[1] == '/' <==> closing)
  }

  lemma {:induction false} OtherSideNone(p: Pattern, o: Orphan, s: string)
    requires GoodOrphan(o) && Begins(p, {}) && OneSided(p, !o.closing)
    ensures NoneAt(p, Written(o), s)
  {
    var t := Written(o);
    OrphanBegins(o);
    OtherTagsNone(p, t[1..], s, {});
    forall k | 0 <= k < |p.heads|
      ensures !HeadFits(p, p.heads[k], t + s)
    {
      assert p.heads[k] in p.heads;
      LowerKeepsOthers(p, (t + s)[1]);
    }
  }

  /** The characters after `<` or `</` in orphans of the kinds after this one. */
  function InitialsAfter(level: nat): set<char> {
    if level == 0 then {'i', 'I', 'p', 'P', 't', 'T'}
    else if level == 1 then {'p', 'P', 't', 'T'}
    else if level == 2 then {'t', 'T'}
    else {}
  }

  lemma StrayBegins(level: nat)
    requires level <= 3
    ensures Begins(Stray(level), InitialsAfter(level))
  {
    if level == 0 {
      StrayDsmlBegins();
    }
  }

  lemma StrayDsmlBegins()
    ensures Begins(STRAY_DSML, InitialsAfter(0))
  {
    forall h | h in STRAY_DSML.heads
      ensures HeadBegins(STRAY_DSML, h, InitialsAfter(0))
    {
      if h in DsmlTags("<", "") {
        var first, second := HeadBars("<", "", h);
        assert DsmlTag("<", first, second, "") == ['<', first, 'D', 'S', 'M', 'L', second];
      } else {
        var first, second := HeadBars("</", "", h);
        assert DsmlTag("</", first, second, "") == ['<', '/', first, 'D', 'S', 'M', 'L', second];
      }
    }
  }

  lemma LaterInitial(o: Orphan, level: nat)
    requires GoodOrphan(o) && level < Level(o)
    ensures TagsBegin(Written(o), InitialsAfter(level))
  {
    var t := Written(o);
    OrphanBegins(o);
    WordOfOrphan(o);
    assert IsCase(o.spelled[0], o.word[0]);
    assert t[if o.closing then 2 else 1] == o.spelled[0];
    forall i | 0 <= i < |t| && t[i] == '<'
      ensures TagBegins(t, i, InitialsAfter(level))
    {
    }
  }

  lemma {:induction false} LaterNone(o: Orphan, level: nat, s: string)
    requires GoodOrphan(o) && level < Level(o)
    ensures NoneAt(Stray(level), Written(o), s)
  {
    StrayBegins(level);
    LaterInitial(o, level);
    OtherTagsNone(Stray(level), Written(o), s, InitialsAfter(level));
  }

  // ---------------------------------------------------------------- prose and orphans

  lemma StrayIsTag(level: nat)
    requires level <= 3
    ensures IsTag(Stray(level), {})
  {
    StrayDsmlIsTag();
    InvokeIsTag();
    ParameterIsTag();
    ToolCallIsTag();
    TagOfFewer(STRAY_DSML, Initials(1));
    TagOfFewer(StrayTag("invoke"), Initials(2));
    TagOfFewer(StrayTag("parameter"), Initials(2));
    TagOfFewer(StrayTag("tool_call"), Initials(3));
  }

  lemma TagOfFewer(p: Pattern, chars: set<char>)
    requires IsTag(p, chars)
    ensures IsTag(p, {})
  {
    BeginsLess(p, chars, {});
  }

  lemma {:induction false} TextPasses(p: Pattern, text: string, s: string)
    requires IsTag(p, {}) && OpenerFree(text) && Boundary(s)
    ensures NoneAt(p, text, s)
  {
    OpenerFreeIsClearOf(p, {}, text);
    ProseNone(p, text, s);
  }

  lemma ShownBegins(o: Orphan, level: nat, s: string)
    requires GoodOrphan(o)
    ensures Boundary(ShownAt(o, level) + s)
  {
    OrphanBegins(o);
  }

  lemma {:induction false} ShownStep(o: Orphan, level: nat, s: string)
    requires GoodOrphan(o) && level <= 3
    ensures "" !in Stray(level).heads
    ensures StripStrays(Stray(level), ShownAt(o, level) + s) == ShownAt(o, level + 1) + StripStrays(Stray(level), s)
  {
    var p := Stray(level);
    StraysAreLongAt(level);
    if Level(o) < level {
      StrayIsTag(level);
      SpaceIsImmune(p);
      StripPasses(p, " ", s);
    } else if Level(o) == level {
      OrphanGoes(o, p, Written(o) + s, s);
    } else {
      LaterNone(o, level, s);
      StripPasses(p, Written(o), s);
    }
  }

  /** Taking out one kind leaves a space for each orphan of that kind, and the rest as it is. */
  lemma {:induction false} StripLeft(os: Orphans, closing: bool, level: nat, s: string)
    requires GoodOrphans(os, closing) && level <= 3
    ensures "" !in Stray(level).heads
    ensures StripStrays(Stray(level), Left(os, level, s)) == Left(os, level + 1, StripStrays(Stray(level), s))
    decreases os
  {
    StraysAreLongAt(level);
    if os.More? {
      var after := Left(os.rest, level, s);
      StrayIsTag(level);
      ShownBegins(os.orphan, level, after);
      TextPasses(Stray(level), os.text, ShownAt(os.orphan, level) + after);
      StripPasses(Stray(level), os.text, ShownAt(os.orphan, level) + after);
      ShownStep(os.orphan, level, after);
      StripLeft(os.rest, closing, level, s);
    }
  }

  lemma {:induction false} ShownNone(p: Pattern, o: Orphan, level: nat, s: string)
    requires GoodOrphan(o) && IsTag(p, {}) && OneSided(p, !o.closing)
    ensures NoneAt(p, ShownAt(o, level), s)
  {
    if Level(o) < level {
      SpaceIsImmune(p);
    } else {
      OtherSideNone(p, o, s);
    }
  }

  /** Nothing begins in the first piece of prose or in its orphan. */
  lemma {:induction false} PieceNone(p: Pattern, os: Orphans, closing: bool, level: nat, s: string)
    requires os.More? && GoodOrphans(os, closing) && IsTag(p, {}) && OneSided(p, !closing)
    ensures NoneAt(p, os.text, ShownAt(os.orphan, level) + s) && NoneAt(p, ShownAt(os.orphan, level), s)
  {
    ShownBegins(os.orphan, level, s);
    TextPasses(p, os.text, ShownAt(os.orphan, level) + s);
    ShownNone(p, os.orphan, level, s);
  }

  lemma {:induction false} LeftNone(p: Pattern, os: Orphans, closing: bool, level: nat, s: string)
    requires GoodOrphans(os, closing) && IsTag(p, {}) && OneSided(p, !closing) && NoneAt(p, s, "")
    ensures NoneAt(p, Left(os, level, s), "")
    decreases os
  {
    if os.More? {
      var block, after := ShownAt(os.orphan, level), Left(os.rest, level, s);
      LeftNone(p, os.rest, closing, level, s);
      PieceNone(p, os, closing, level, after);
      assert after + "" == after && (block + after) + "" == block + after;
      NoneAppend(p, block, after, "");
      NoneAppend(p, os.text, block + after, "");
    }
  }

  // ---------------------------------------------------------------- scanning finds nothing

  lemma {:induction false} NoneAfter(p: Pattern, s: string, c: char)
    requires NoneAt(p, s, "") && Until(c, s).Some?
    ensures NoneAt(p, Until(c, s).value.after, "")
  {
    if s[0] != c {
      NoneAfter(p, s[1..], c);
    }
  }

  lemma {:induction false} NoneLater(p: Pattern, s: string, n: nat)
    requires NoneAt(p, s, "") && n <= |s|
    ensures NoneAt(p, s[n..], "")
  {
    if n == 0 {
      assert s[0..] == s;
    } else {
      NoneLater(p, s[1..], n - 1);
      assert s[1..][n - 1..] == s[n..];
    }
  }

  lemma {:induction false} NoTagFound(p: Pattern, s: string)
    requires NoneAt(p, s, "") && "" !in p.heads
    ensures UntilTag(p, s).None?
  {
    assert s + "" == s;
    if s != "" {
      NoTagFound(p, s[1..]);
    }
  }

  lemma {:induction false} NoElementAfterName(d: Dialect, word: string, s: string)
    requires NoneAt(CloseTag(d, word), s, "") && "" !in CloseTag(d, word).heads
    ensures AfterName(d, word, s).None?
  {
    var p, name := CloseTag(d, word), Until('"', s);
    if name.Some? {
      NoneAfter(p, s, '"');
      var tag := Until('>', name.value.after);
      if tag.Some? {
        NoneAfter(p, name.value.after, '>');
        NoTagFound(p, tag.value.after);
      }
    }
  }

  lemma {:induction false} NoElementHere(d: Dialect, word: string, s: string, afterWordChar: bool)
    requires NoneAt(CloseTag(d, word), s, "") && "" !in CloseTag(d, word).heads
    ensures SearchName(d, word, s, afterWordChar).None?
    decreases |s|
  {
    if NAME <= s {
      NoneLater(CloseTag(d, word), s, |NAME|);
      NoElementAfterName(d, word, s[|NAME|..]);
    }
    if s != "" {
      NoElementHere(d, word, s[1..], IsWordChar(s[0]));
    }
  }

  lemma {:induction false} NoElement(d: Dialect, word: string, s: string)
    requires NoneAt(CloseTag(d, word), s, "") && "" !in CloseTag(d, word).heads
    ensures MatchElement(d, word, s).None?
  {
    var hit := Hit(OpenTag(d, word), s);
    if hit.Some? {
      NoneLater(CloseTag(d, word), s, hit.value);
      NoElementHere(d, word, s[hit.value..], true);
    }
  }

  lemma {:induction false} NoneInTail(p: Pattern, s: string)
    requires s != "" && NoneAt(p, s, "")
    ensures NoneAt(p, s[1..], "")
  {
  }

  lemma {:induction false} NotFoundStep(d: Dialect, word: string, s: string, tail: string)
    requires s != "" && MatchElement(d, word, s).None? && tail == s[1..]
    requires ScanElements(d, word, tail) == Scan([], tail)
    ensures ScanElements(d, word, s) == Scan([], s)
  {
    assert [s[0]] + tail == s;
  }

  /** Without a closing tag there is no complete block. */
  lemma {:induction false} UnclosedIsNotFound(d: Dialect, word: string, s: string)
    requires NoneAt(CloseTag(d, word), s, "") && "" !in CloseTag(d, word).heads
    ensures ScanElements(d, word, s) == Scan([], s)
  {
    if s != "" {
      NoElement(d, word, s);
      NoneInTail(CloseTag(d, word), s);
      UnclosedIsNotFound(d, word, s[1..]);
      NotFoundStep(d, word, s, s[1..]);
    }
  }

  lemma {:induction false} UnclosedToolCall(s: string)
    requires NoneAt(TOOL_CALL_CLOSE, s, "")
    ensures ScanToolCalls(s) == Scan([], s)
  {
    if s != "" {
      if Hit(TOOL_CALL_OPEN, s).Some? {
        NoneLater(TOOL_CALL_CLOSE, s, 11);
        NoTagFound(TOOL_CALL_CLOSE, s[11..]);
      }
      UnclosedToolCall(s[1..]);
      assert [s[0]] + s[1..] == s;
    }
  }

  // ---------------------------------------------------------------- closing tags, then opening tags

  lemma {:induction false} ScanAfterClosers(d: Dialect, os: Orphans, level: nat, s: string)
    requires GoodOrphans(os, true)
    requires IsTag(OpenTag(d, "invoke"), {}) && OneSided(OpenTag(d, "invoke"), false)
    requires ScanElements(d, "invoke", s) == Scan([], s)
    ensures var all := Left(os, level, s); ScanElements(d, "invoke", all) == Scan([], all)
    decreases os
  {
    if os.More? {
      var block, after := ShownAt(os.orphan, level), Left(os.rest, level, s);
      ScanAfterClosers(d, os.rest, level, s);
      PieceNone(OpenTag(d, "invoke"), os, true, level, after);
      ScanPasses(d, "invoke", block, after);
      ScanPasses(d, "invoke", os.text, block + after);
    }
  }

  lemma {:induction false} ToolScanAfterClosers(os: Orphans, level: nat, s: string)
    requires GoodOrphans(os, true) && IsTag(TOOL_CALL_OPEN, {}) && ScanToolCalls(s) == Scan([], s)
    ensures var all := Left(os, level, s); ScanToolCalls(all) == Scan([], all)
    decreases os
  {
    if os.More? {
      var block, after := ShownAt(os.orphan, level), Left(os.rest, level, s);
      ToolScanAfterClosers(os.rest, level, s);
      PieceNone(TOOL_CALL_OPEN, os, true, level, after);
      ToolScanPasses(block, after);
      ToolScanPasses(os.text, block + after);
    }
  }

  /** Prose with closing tags, then prose with opening tags, then prose: nothing that a block could be made of. */
  datatype Scraps = Scraps(closers: Orphans, openers: Orphans, tail: string)

  predicate GoodScraps(scraps: Scraps) {
    GoodOrphans(scraps.closers, true) && GoodOrphans(scraps.openers, false) && OpenerFree(scraps.tail)
  }

  function Opened(scraps: Scraps, level: nat): string { Left(scraps.openers, level, scraps.tail) }

  function TextAt(scraps: Scraps, level: nat): string { Left(scraps.closers, level, Opened(scraps, level)) }

  lemma {:induction false} TailNone(p: Pattern, tail: string)
    requires IsTag(p, {}) && OpenerFree(tail)
    ensures NoneAt(p, tail, "")
  {
    TextPasses(p, tail, "");
  }

  lemma InvokeSides(d: Dialect)
    ensures IsTag(OpenTag(d, "invoke"), {}) && OneSided(OpenTag(d, "invoke"), false)
    ensures IsTag(CloseTag(d, "invoke"), {}) && OneSided(CloseTag(d, "invoke"), true)
    ensures "" !in CloseTag(d, "invoke").heads
  {
    if d.DSML? {
      DsmlIsTag("invoke");
      TagOfFewer(OpenTag(d, "invoke"), Initials(1));
      TagOfFewer(CloseTag(d, "invoke"), Initials(1));
      DsmlSide(OpenTag(d, "invoke"), "<", "invoke", false);
      DsmlSide(CloseTag(d, "invoke"), "</", "invoke" + ">", true);
    } else {
      InvokeIsTag();
      TagOfFewer(OpenTag(d, "invoke"), Initials(2));
      TagOfFewer(CloseTag(d, "invoke"), {'p'});
    }
  }

  lemma DsmlSide(p: Pattern, open: string, word: string, closing: bool)
    requires p.heads == DsmlTags(open, word) && open == if closing then "</" else "<"
    ensures OneSided(p, closing)
  {
    forall h | h in p.heads
      ensures |h| >= 2 && h[0] == '<' && (h[1] == '/' <==> closing)
    {
      var first, second := HeadBars(open, word, h);
      assert h == open + ([first] + ("DSML" + ([second] + word)));
    }
  }

  lemma {:induction false} NoInvoke(d: Dialect, scraps: Scraps, level: nat, s: string)
    requires GoodScraps(scraps) && s == TextAt(scraps, level)
    ensures ScanElements(d, "invoke", s) == Scan([], s)
  {
    var p := CloseTag(d, "invoke");
    InvokeSides(d);
    TailNone(p, scraps.tail);
    LeftNone(p, scraps.openers, false, level, scraps.tail);
    UnclosedIsNotFound(d, "invoke", Opened(scraps, level));
    ScanAfterClosers(d, scraps.closers, level, Opened(scraps, level));
  }

  lemma {:induction false} NoToolCall(scraps: Scraps, level: nat, s: string)
    requires GoodScraps(scraps) && s == TextAt(scraps, level)
    ensures ScanToolCalls(s) == Scan([], s)
  {
    ToolCallIsTag();
    TagOfFewer(TOOL_CALL_OPEN, Initials(3));
    TagOfFewer(TOOL_CALL_CLOSE, {'a'});
    TailNone(TOOL_CALL_CLOSE, scraps.tail);
    LeftNone(TOOL_CALL_CLOSE, scraps.openers, false, level, scraps.tail);
    UnclosedToolCall(Opened(scraps, level));
    ToolScanAfterClosers(scraps.closers, level, Opened(scraps, level));
  }

  /** One kind of stray tags goes. */
  lemma {:induction false} KindGoes(scraps: Scraps, level: nat, before: string, after: string)
    requires GoodScraps(scraps) && level <= 3 && before == TextAt(scraps, level) && after == TextAt(scraps, level + 1)
    ensures "" !in Stray(level).heads && StripStrays(Stray(level), before) == after
  {
    var p := Stray(level);
    StraysAreLongAt(level);
    StrayIsTag(level);
    TailNone(p, scraps.tail);
    assert scraps.tail + "" == scraps.tail;
    StripPasses(p, scraps.tail, "");
    StripLeft(scraps.openers, false, level, scraps.tail);
    StripLeft(scraps.closers, true, level, Opened(scraps, level));
  }

  // ---------------------------------------------------------------- the test before a stage

  lemma MarkedTag(open: string, first: char, second: char)
    ensures DsmlTag(open, first, second, "") == open + DsmlTag("", first, second, "")
  {
  }

  lemma DsmlOccurs(o: Orphan, u: string, open: string, end: string)
    requires o.form.InDsml? && o.form.Valid() && open == if o.closing then "</" else "<"
    requires u == Head(o) + end
    ensures Occurs(DSML_MARKER, u)
  {
    var marker := DsmlTag("", o.form.first, o.form.second, "");
    DsmlTagIsListed("", o.form.first, o.form.second, "");
    MarkedTag(open, o.form.first, o.form.second);
    Assoc(open, marker, end);
    OccursFirst(DSML_MARKER, marker, end);
    OccursLater(DSML_MARKER, open, marker + end);
  }

  lemma HitOccurs(p: Pattern, u: string)
    requires u != "" && Hit(p, u).Some?
    ensures Occurs(p, u)
  {
    assert u[0..] == u;
    assert Hit(p, u[0..]).Some?;
  }

  lemma OrphanOccurs(o: Orphan, s: string, p: Pattern)
    requires GoodOrphan(o) && p == Tests()[Level(o)]
    ensures Occurs(p, Written(o) + s)
  {
    if o.form.InDsml? {
      Assoc(Head(o), o.attrs + ">", s);
      DsmlOccurs(o, Written(o) + s, if o.closing then "</" else "<", (o.attrs + ">") + s);
    } else {
      WordOfOrphan(o);
      OrphanIsHit(o, s);
      HitOccurs(p, Written(o) + s);
    }
  }

  predicate HasKind(os: Orphans, level: nat) { os.More? && (Level(os.orphan) == level || HasKind(os.rest, level)) }

  lemma {:induction false} NoKindNoChange(os: Orphans, level: nat, s: string)
    requires !HasKind(os, level)
    ensures Left(os, level, s) == Left(os, level + 1, s)
  {
    if os.More? {
      NoKindNoChange(os.rest, level, s);
    }
  }

  lemma {:induction false} OccursInLeft(os: Orphans, closing: bool, level: nat, s: string)
    requires level <= 3 && GoodOrphans(os, closing)
    requires HasKind(os, level) || Occurs(Tests()[level], s)
    ensures Occurs(Tests()[level], Left(os, 0, s))
    decreases os
  {
    if os.More? {
      var block, after := ShownAt(os.orphan, 0), Left(os.rest, 0, s);
      if Level(os.orphan) == level {
        OrphanOccurs(os.orphan, after, Tests()[level]);
      } else {
        OccursInLeft(os.rest, closing, level, s);
        OccursLater(Tests()[level], block, after);
      }
      OccursLater(Tests()[level], os.text, block + after);
    }
  }

  predicate Has(scraps: Scraps, level: nat) { HasKind(scraps.closers, level) || HasKind(scraps.openers, level) }

  lemma KindIsSeen(scraps: Scraps, level: nat)
    requires GoodScraps(scraps) && level <= 3 && Has(scraps, level)
    ensures Occurs(Tests()[level], TextAt(scraps, 0))
  {
    if HasKind(scraps.openers, level) {
      OccursInLeft(scraps.openers, false, level, scraps.tail);
    }
    OccursInLeft(scraps.closers, true, level, Opened(scraps, 0));
  }

  lemma AbsentKind(scraps: Scraps, level: nat, before: string, after: string)
    requires !Has(scraps, level) && before == TextAt(scraps, level) && after == TextAt(scraps, level + 1)
    ensures before == after
  {
    NoKindNoChange(scraps.openers, level, scraps.tail);
    NoKindNoChange(scraps.closers, level, Opened(scraps, level));
  }

  // ---------------------------------------------------------------- the whole text

  lemma {:induction false} DsmlStageIs(hasDsml: bool, s0: string, s1: string)
    requires hasDsml ==> ScanElements(DSML, "invoke", s0) == Scan([], s0) && StripStrays(STRAY_DSML, s0) == s1
    requires !hasDsml ==> s0 == s1
    ensures DsmlStage(hasDsml, s0) == Scan([], s1)
  {
  }

  lemma DsmlScrapsGo(scraps: Scraps, hasDsml: bool, s0: string, s1: string)
    requires GoodScraps(scraps) && s0 == TextAt(scraps, 0) && s1 == TextAt(scraps, 1)
    requires Has(scraps, 0) ==> hasDsml
    ensures DsmlStage(hasDsml, s0) == Scan([], s1)
  {
    if hasDsml {
      NoInvoke(DSML, scraps, 0, s0);
      KindGoes(scraps, 0, s0, s1);
    } else {
      AbsentKind(scraps, 0, s0, s1);
    }
    DsmlStageIs(hasDsml, s0, s1);
  }

  lemma BareScrapsGo(scraps: Scraps, hasBare: bool, s1: string, s2: string, s3: string)
    requires GoodScraps(scraps) && s1 == TextAt(scraps, 1) && s2 == TextAt(scraps, 2) && s3 == TextAt(scraps, 3)
    requires Has(scraps, 1) || Has(scraps, 2) ==> hasBare
    ensures BareStage(hasBare, s1) == Scan([], s3)
  {
    if hasBare {
      NoInvoke(Bare, scraps, 1, s1);
      KindGoes(scraps, 1, s1, s2);
      KindGoes(scraps, 2, s2, s3);
    } else {
      AbsentKind(scraps, 1, s1, s2);
      AbsentKind(scraps, 2, s2, s3);
    }
  }

  lemma ToolCallScrapsGo(scraps: Scraps, hasToolCall: bool, s3: string, s4: string)
    requires GoodScraps(scraps) && s3 == TextAt(scraps, 3) && s4 == TextAt(scraps, 4)
    requires Has(scraps, 3) ==> hasToolCall
    ensures ToolCallStage(hasToolCall, s3) == Scan([], s4)
  {
    if hasToolCall {
      NoToolCall(scraps, 3, s3);
      KindGoes(scraps, 3, s3, s4);
    } else {
      AbsentKind(scraps, 3, s3, s4);
    }
  }

  /** The text at each of the five levels. */
  ghost predicate AreLevels(scraps: Scraps, s0: string, s1: string, s2: string, s3: string, s4: string) {
    && s0 == TextAt(scraps, 0) && s1 == TextAt(scraps, 1) && s2 == TextAt(scraps, 2)
    && s3 == TextAt(scraps, 3) && s4 == TextAt(scraps, 4)
  }

  lemma KindIfAny(scraps: Scraps, level: nat, p: Pattern, s0: string)
    requires GoodScraps(scraps) && level <= 3 && p == Tests()[level] && s0 == TextAt(scraps, 0)
    ensures Has(scraps, level) ==> Occurs(p, s0)
  {
    if Has(scraps, level) {
      KindIsSeen(scraps, level);
    }
  }

  lemma KindsAreSeen(scraps: Scraps, s0: string)
    requires GoodScraps(scraps) && s0 == TextAt(scraps, 0)
    ensures Has(scraps, 0) ==> HasDsml(s0)
    ensures Has(scraps, 1) || Has(scraps, 2) ==> HasBare(s0)
    ensures Has(scraps, 3) ==> HasToolCall(s0)
  {
    TheWords();
    KindIfAny(scraps, 0, DSML_MARKER, s0);
    KindIfAny(scraps, 1, StrayTag("invoke"), s0);
    KindIfAny(scraps, 2, StrayTag("parameter"), s0);
    KindIfAny(scraps, 3, StrayTag("tool_call"), s0);
  }

  lemma SomeKind(scraps: Scraps)
    requires GoodScraps(scraps) && (scraps.closers.More? || scraps.openers.More?)
    ensures Has(scraps, 0) || Has(scraps, 1) || Has(scraps, 2) || Has(scraps, 3)
  {
    var o := if scraps.closers.More? then scraps.closers.orphan else scraps.openers.orphan;
    assert Level(o) <= 3 && Has(scraps, Level(o));
  }

  lemma SalvagedScraps(scraps: Scraps, s0: string, s1: string, s2: string, s3: string, s4: string)
    requires GoodScraps(scraps) && AreLevels(scraps, s0, s1, s2, s3, s4)
    requires scraps.closers.More? || scraps.openers.More?
    ensures Salvaged(s0) == Salvage(true, [], CollapseWhitespace(s4))
  {
    KindsAreSeen(scraps, s0);
    SomeKind(scraps);
    DsmlScrapsGo(scraps, HasDsml(s0), s0, s1);
    BareScrapsGo(scraps, HasBare(s0), s1, s2, s3);
    ToolCallScrapsGo(scraps, HasToolCall(s0), s3, s4);
    StagesCompose(HasDsml(s0), HasBare(s0), HasToolCall(s0), s0, Scan([], s1), Scan([], s3), Scan([], s4));
    SalvagedByStages(s0, [], s4);
  }

  /** What each step of the stripper makes of the text. */
  ghost predicate Steps(s0: string, s1: string, s2: string, s3: string, s4: string) {
    && HasMarkup(s0) && ScanElements(DSML, "invoke", s0).out == s0 && StripStrays(STRAY_DSML, s0) == s1
    && ScanElements(Bare, "invoke", s1).out == s1 && ScanToolCalls(s1).out == s1
    && StripStrays(StrayTag("invoke"), s1) == s2 && StripStrays(StrayTag("parameter"), s2) == s3
    && StripStrays(StrayTag("tool_call"), s3) == s4 && ReplaceFirstMarker(s4) == s4
  }

  lemma StrippedInSteps(s0: string, s1: string, s2: string, s3: string, s4: string)
    requires Steps(s0, s1, s2, s3, s4)
    ensures StripMarkup(s0) == CollapseWhitespace(s4)
  {
  }

  lemma {:induction false} NoMarkerLeft(os: Orphans, closing: bool, s: string)
    requires GoodOrphans(os, closing) && NoneAt(DSML_MARKER, s, "")
    ensures NoneAt(DSML_MARKER, Left(os, 4, s), "")
    decreases os
  {
    if os.More? {
      var after := Left(os.rest, 4, s);
      NoMarkerLeft(os.rest, closing, s);
      NoMarkerInSpace(after);
      NoMarkerInProse(os.text, " " + after);
      assert after + "" == after && (" " + after) + "" == " " + after;
      NoneAppend(DSML_MARKER, " ", after, "");
      NoneAppend(DSML_MARKER, os.text, " " + after, "");
    }
  }

  lemma {:induction false} MarkerIsGone(scraps: Scraps, s4: string)
    requires GoodScraps(scraps) && s4 == TextAt(scraps, 4)
    ensures ReplaceFirstMarker(s4) == s4
  {
    NoMarkerInProse(scraps.tail, "");
    NoMarkerLeft(scraps.openers, false, scraps.tail);
    NoMarkerLeft(scraps.closers, true, Opened(scraps, 4));
    MarkerPasses(s4);
  }

  lemma {:induction false} NothingIsScanned(scraps: Scraps, s0: string, s1: string)
    requires GoodScraps(scraps) && s0 == TextAt(scraps, 0) && s1 == TextAt(scraps, 1)
    ensures ScanElements(DSML, "invoke", s0).out == s0 && StripStrays(STRAY_DSML, s0) == s1
    ensures ScanElements(Bare, "invoke", s1).out == s1 && ScanToolCalls(s1).out == s1
  {
    NoInvoke(DSML, scraps, 0, s0);
    KindGoes(scraps, 0, s0, s1);
    NoInvoke(Bare, scraps, 1, s1);
    NoToolCall(scraps, 1, s1);
  }

  lemma ScrapsAreMarkup(scraps: Scraps, s0: string)
    requires GoodScraps(scraps) && s0 == TextAt(scraps, 0) && (scraps.closers.More? || scraps.openers.More?)
    ensures HasMarkup(s0)
  {
    KindsAreSeen(scraps, s0);
    SomeKind(scraps);
  }

  lemma {:induction false} BareStraysGo(scraps: Scraps, s1: string, s2: string, s3: string, s4: string)
    requires GoodScraps(scraps) && s1 == TextAt(scraps, 1) && s2 == TextAt(scraps, 2)
    requires s3 == TextAt(scraps, 3) && s4 == TextAt(scraps, 4)
    ensures StripStrays(StrayTag("invoke"), s1) == s2 && StripStrays(StrayTag("parameter"), s2) == s3
    ensures StripStrays(StrayTag("tool_call"), s3) == s4
  {
    KindGoes(scraps, 1, s1, s2);
    KindGoes(scraps, 2, s2, s3);
    KindGoes(scraps, 3, s3, s4);
  }

  lemma StepsAreTaken(scraps: Scraps, s0: string, s1: string, s2: string, s3: string, s4: string)
    requires GoodScraps(scraps) && AreLevels(scraps, s0, s1, s2, s3, s4)
    requires scraps.closers.More? || scraps.openers.More?
    ensures Steps(s0, s1, s2, s3, s4)
  {
    ScrapsAreMarkup(scraps, s0);
    NothingIsScanned(scraps, s0, s1);
    BareStraysGo(scraps, s1, s2, s3, s4);
    MarkerIsGone(scraps, s4);
  }

  /**
   * Closing tags that close nothing and opening tags that nothing closes, of every kind, in any spelling and
   * with any attributes up to 200 characters: no call is made of them, and salvage and the stripper leave
   * the prose with a space for each, collapsed.
   */
  lemma OrphansAreTakenOut(scraps: Scraps)
    requires GoodScraps(scraps) && (scraps.closers.More? || scraps.openers.More?)
    ensures var cleaned := CollapseWhitespace(TextAt(scraps, 4));
            && Salvaged(TextAt(scraps, 0)) == Salvage(true, [], cleaned)
            && StripMarkup(TextAt(scraps, 0)) == cleaned
  {
    var s0, s1, s2, s3, s4 := TextAt(scraps, 0), TextAt(scraps, 1), TextAt(scraps, 2), TextAt(scraps, 3),
                              TextAt(scraps, 4);
    SalvagedScraps(scraps, s0, s1, s2, s3, s4);
    StepsAreTaken(scraps, s0, s1, s2, s3, s4);
    StrippedInSteps(s0, s1, s2, s3, s4);
  }

  // ---------------------------------------------------------------- where a tag's word ends

  /** The beginning of a bare tag, of any kind and in any spelling. */
  datatype Opener = Opener(closing: bool, level: nat, spelled: string)

  predicate GoodOpener(o: Opener) { 1 <= o.level <= 3 && SpelledAs(o.spelled, WordOf(o.level)) }

  function Beginning(o: Opener): string { (if o.closing then "</" else "<") + o.spelled }

  /** The opening tag it becomes when its word ends there. */
  function Ended(o: Opener): Orphan
    requires GoodOpener(o)
  {
    Orphan(if o.level == 3 then InToolCall else InBare, o.closing, WordOf(o.level), o.spelled, "")
  }

  lemma OpenerIsOrphan(o: Opener)
    requires GoodOpener(o)
    ensures GoodOrphan(Ended(o)) && Level(Ended(o)) == o.level && Written(Ended(o)) == Beginning(o) + ">"
    ensures Stray(o.level) == StrayTag(WordOf(o.level)) == Tests()[o.level] && IsWord(WordOf(o.level))
  {
    WordOfOrphan(Ended(o));
  }

  lemma EndedIsHit(o: Opener, word: string, u: string)
    requires GoodOpener(o) && word == WordOf(o.level) && |Beginning(o)| < |u| && u[..|Beginning(o)|] == Beginning(o)
    requires !ContinuesWord(u[|Beginning(o)|])
    ensures Hit(StrayTag(word), u).Some?
  {
    var open := if o.closing then "</" else "<";
    OpenerIsOrphan(o);
    WordCharsExactly(u[|Beginning(o)|]);
    forall k | 0 <= k < |open + word|
      ensures SameChar(StrayTag(word), (open + word)[k], u[k])
    {
      assert u[k] == Beginning(o)[k];
      if k >= |open| {
        LowerOfCase(o.spelled[k - |open|], word[k - |open|]);
      }
    }
    assert HeadFits(StrayTag(word), open + word, u);
    assert StrayTag(word).heads[if o.closing then 1 else 0] == open + word;
  }

  /** No tag has this head: either its word is another one, or it goes on. */
  lemma NoHeadGoesOn(p: Pattern, open: string, word: string, u: string, n: nat, c: char)
    requires p.fold && p.bounded && IsWord(word) && open in ["<", "</"]
    requires n < |u| && IsWordChar(u[n]) && 2 < n && u[1] != '/' && Lower(u[1]) == c
    requires open == "<" && c == word[0] ==> n == 1 + |word|
    ensures !HeadFits(p, open + word, u)
  {
    var h := open + word;
    assert h[1] == if open == "<" then word[0] else '/';
    LowerKeepsOthers(p, u[1]);
  }

  lemma NoClosingHeadGoesOn(p: Pattern, open: string, word: string, u: string, n: nat, c: char)
    requires p.fold && p.bounded && IsWord(word) && open in ["<", "</"]
    requires n < |u| && IsWordChar(u[n]) && 3 < n && u[1] == '/' && Lower(u[2]) == c
    requires open == "</" && c == word[0] ==> n == 2 + |word|
    ensures !HeadFits(p, open + word, u)
  {
    var h := open + word;
    assert h[1] == if open == "<" then word[0] else '/';
    assert open == "</" ==> h[2] == word[0];
    LowerKeepsOthers(p, u[1]);
  }

  lemma GoingOnIsNoHit(o: Opener, level: nat, u: string)
    requires GoodOpener(o) && 1 <= level <= 3 && |Beginning(o)| < |u| && u[..|Beginning(o)|] == Beginning(o)
    requires ContinuesWord(u[|Beginning(o)|])
    ensures Hit(Stray(level), u).None?
  {
    var p, word, n, own := StrayTag(WordOf(level)), WordOf(level), |Beginning(o)|, WordOf(o.level);
    TheWords();
    WordCharsExactly(u[n]);
    LowerOfCase(o.spelled[0], own[0]);
    assert u[1] == Beginning(o)[1] && u[2] == Beginning(o)[2];
    assert p.heads == ["<" + word, "</" + word];
    if o.closing {
      NoClosingHeadGoesOn(p, "<", word, u, n, own[0]);
      NoClosingHeadGoesOn(p, "</", word, u, n, own[0]);
    } else {
      NoHeadGoesOn(p, "<", word, u, n, own[0]);
      NoHeadGoesOn(p, "</", word, u, n, own[0]);
    }
  }

  lemma BeginningIsOneTag(o: Opener)
    requires GoodOpener(o)
    ensures IsOneTag(Beginning(o), o.closing)
  {
    OpenerIsOrphan(o);
    SpelledIsPlain(Ended(o));
    LowerOfCase(o.spelled[0], WordOf(o.level)[0]);
    OneTag(o.closing, if o.closing then "</" else "<", o.spelled, Beginning(o));
  }

  lemma SpelledHasNoBars(spelled: string, word: string)
    requires SpelledAs(spelled, word) && IsWord(word)
    ensures FULL_BAR !in spelled && '|' !in spelled
  {
    forall k | 0 <= k < |spelled|
      ensures spelled[k] != FULL_BAR && spelled[k] != '|'
    {
      LowerOfCase(spelled[k], word[k]);
    }
  }

  lemma {:induction false} BeginningNone(o: Opener, level: nat, after: string)
    requires GoodOpener(o) && 1 <= level <= 3 && after != "" && ContinuesWord(after[0])
    ensures NoneAt(Stray(level), Beginning(o), after)
  {
    var p, t := Stray(level), Beginning(o);
    var u := t + after;
    BeginningIsOneTag(o);
    assert u[..|t|] == t && u[|t|] == after[0];
    GoingOnIsNoHit(o, level, u);
    StrayIsTag(level);
    OtherTagsNone(p, t[1..], after, {});
  }

  lemma {:induction false} NoMarkerWithoutBars(t: string, s: string)
    requires FULL_BAR !in t && '|' !in t
    ensures NoneAt(DSML_MARKER, t, s)
  {
    if t != "" {
      MarkersArePlain();
      assert (t + s)[0] == t[0];
      NoMarkerWithoutBars(t[1..], s);
    }
  }

  lemma {:induction false} NoneIsNowhere(p: Pattern, s: string)
    requires NoneAt(p, s, "")
    ensures !Occurs(p, s)
  {
    if s != "" {
      assert s + "" == s && s[0..] == s;
      NoneIsNowhere(p, s[1..]);
      forall i | 0 <= i < |s|
        ensures Hit(p, s[i..]).None?
      {
        assert i == 0 || s[i..] == s[1..][i - 1..];
      }
    }
  }

  lemma {:induction false} GoingOnNowhere(p: Pattern, lead: string, t: string, after: string)
    requires NoneAt(p, lead, t + after) && NoneAt(p, t, after) && NoneAt(p, after, "")
    ensures !Occurs(p, lead + (t + after))
  {
    assert after + "" == after && (t + after) + "" == t + after;
    NoneAppend(p, t, after, "");
    NoneAppend(p, lead, t + after, "");
    NoneIsNowhere(p, lead + (t + after));
  }

  lemma NoStrayWhereWordGoesOn(lead: string, o: Opener, level: nat, after: string)
    requires OpenerFree(lead) && GoodOpener(o) && OpenerFree(after) && after != "" && ContinuesWord(after[0])
    requires 1 <= level <= 3
    ensures !Occurs(Stray(level), lead + (Beginning(o) + after))
  {
    StrayIsTag(level);
    BeginningIsOneTag(o);
    TextPasses(Stray(level), lead, Beginning(o) + after);
    BeginningNone(o, level, after);
    TextPasses(Stray(level), after, "");
    GoingOnNowhere(Stray(level), lead, Beginning(o), after);
  }

  lemma NoMarkerWhereWordGoesOn(lead: string, o: Opener, after: string)
    requires OpenerFree(lead) && GoodOpener(o) && OpenerFree(after)
    ensures !Occurs(DSML_MARKER, lead + (Beginning(o) + after))
  {
    BeginningIsOneTag(o);
    NoMarkerInProse(lead, Beginning(o) + after);
    TheWords();
    SpelledHasNoBars(o.spelled, WordOf(o.level));
    NoMarkerWithoutBars(Beginning(o), after);
    NoMarkerInProse(after, "");
    GoingOnNowhere(DSML_MARKER, lead, Beginning(o), after);
  }

  lemma OpenerWhereWordEnds(lead: string, o: Opener, after: string)
    requires GoodOpener(o) && after != "" && !ContinuesWord(after[0])
    ensures HasMarkup(lead + (Beginning(o) + after))
  {
    var t := Beginning(o);
    var u := t + after;
    OpenerIsOrphan(o);
    assert u[..|t|] == t && u[|t|] == after[0];
    EndedIsHit(o, WordOf(o.level), u);
    HitOccurs(StrayTag(WordOf(o.level)), u);
    OccursLater(StrayTag(WordOf(o.level)), lead, u);
  }

  /**
   * A bare tag in any spelling begins markup if and only if its word ends there: no letter of either case, no
   * digit and no underscore follows. If one does, the text is left alone.
   */
  lemma WordEndsExactly(lead: string, o: Opener, after: string)
    requires OpenerFree(lead) && GoodOpener(o) && OpenerFree(after) && after != ""
    ensures var text := lead + (Beginning(o) + after);
            && (HasMarkup(text) <==> !ContinuesWord(after[0]))
            && (ContinuesWord(after[0]) ==> Salvaged(text) == Salvage(false, [], text) && StripMarkup(text) == text)
  {
    if ContinuesWord(after[0]) {
      NoStrayWhereWordGoesOn(lead, o, 1, after);
      NoStrayWhereWordGoesOn(lead, o, 2, after);
      NoStrayWhereWordGoesOn(lead, o, 3, after);
      NoMarkerWhereWordGoesOn(lead, o, after);
    } else {
      OpenerWhereWordEnds(lead, o, after);
    }
  }
}

/** What collapsing white space, the last step of salvage and of the stripper, keeps of a text. */
module DsmlCollapse {
  import opened Text
  import opened DsmlMarkup

  // ---------------------------------------------------------------- the words stay

  /** The words of a text, each after one space; `gap` is whether white space or the beginning comes before. */
  function Words(s: string, gap: bool): string {
    if s == "" then ""
    else if IsSpace(s[0]) then Words(s[1..], true)
    else (if gap then " " else "") + [s[0]] + Words(s[1..], false)
  }

  lemma {:induction false} WordsCons(c: char, s: string, gap: bool)
    ensures Words([c] + s, gap)
            == if IsSpace(c) then Words(s, true) else (if gap then " " else "") + [c] + Words(s, false)
  {
    assert ([c] + s)[1..] == s;
  }

  lemma {:induction false} WordsAfterBlanks(s: string, gap: bool)
    ensures var n := RunOfBlanks(s); Words(s, gap) == Words(s[n..], gap || 0 < n)
  {
    if s != "" && IsBlank(s[0]) {
      WordsAfterBlanks(s[1..], true);
      assert s[1..][RunOfBlanks(s[1..])..] == s[RunOfBlanks(s)..];
    } else {
      assert s[0..] == s;
    }
  }

  lemma {:induction false} WordsAfterNewlines(s: string, gap: bool)
    ensures var n := RunOfNewlines(s); Words(s, gap) == Words(s[n..], gap || 0 < n)
  {
    if s != "" && s[0] == '\n' {
      WordsAfterNewlines(s[1..], true);
      assert s[1..][RunOfNewlines(s[1..])..] == s[RunOfNewlines(s)..];
    } else {
      assert s[0..] == s;
    }
  }

  lemma {:induction false} BlanksKeepWords(s: string, gap: bool)
    ensures Words(CollapseBlanks(s), gap) == Words(s, gap)
    decreases |s|
  {
    if s != "" {
      var n := RunOfBlanks(s);
      if 2 <= n {
        BlanksKeepWords(s[n..], true);
        WordsAfterBlanks(s, gap);
        WordsCons(' ', CollapseBlanks(s[n..]), gap);
      } else {
        BlanksKeepWords(s[1..], IsSpace(s[0]));
        WordsCons(s[0], CollapseBlanks(s[1..]), gap);
      }
    }
  }

  lemma {:induction false} GapMatters(s: string, gap: bool)
    requires s == "" || IsSpace(s[0])
    ensures Words(s, gap) == Words(s, true)
  {
  }

  lemma {:induction false} BlankLinesKeepWords(s: string, lineStart: bool, gap: bool)
    ensures Words(EmptyBlankLines(s, lineStart), gap) == Words(s, gap)
    decreases |s|
  {
    if s != "" {
      var n := RunOfBlanks(s);
      if lineStart && 0 < n && (n == |s| || IsLineEnd(s[n])) {
        BlankLinesKeepWords(s[n..], false, gap);
        WordsAfterBlanks(s, gap);
        GapMatters(s[n..], gap);
      } else {
        BlankLinesKeepWords(s[1..], IsLineEnd(s[0]), IsSpace(s[0]));
        WordsCons(s[0], EmptyBlankLines(s[1..], IsLineEnd(s[0])), gap);
      }
    }
  }

  lemma {:induction false} NewlinesKeepWords(s: string, gap: bool)
    ensures Words(CollapseNewlines(s), gap) == Words(s, gap)
    decreases |s|
  {
    if s != "" {
      var n := RunOfNewlines(s);
      if 3 <= n {
        var rest := CollapseNewlines(s[n..]);
        NewlinesKeepWords(s[n..], true);
        WordsAfterNewlines(s, gap);
        assert "\n\n" + rest == ['\n'] + (['\n'] + rest);
        WordsCons('\n', ['\n'] + rest, gap);
        WordsCons('\n', rest, true);
      } else {
        NewlinesKeepWords(s[1..], IsSpace(s[0]));
        WordsCons(s[0], CollapseNewlines(s[1..]), gap);
      }
    }
  }

  lemma {:induction false} TrimStartKeepsWords(s: string)
    ensures Words(TrimStart(s), true) == Words(s, true)
  {
    if s != "" && IsSpace(s[0]) {
      TrimStartKeepsWords(s[1..]);
    }
  }

  lemma {:induction false} LastSpaceIsNoWord(s: string, gap: bool)
    requires s != "" && IsSpace(s[|s| - 1])
    ensures Words(s[..|s| - 1], gap) == Words(s, gap)
  {
    if |s| > 1 {
      LastSpaceIsNoWord(s[1..], IsSpace(s[0]));
      assert s[1..][..|s| - 2] == s[..|s| - 1][1..];
    }
  }

  lemma {:induction false} TrimEndKeepsWords(s: string, gap: bool)
    ensures Words(TrimEnd(s), gap) == Words(s, gap)
  {
    if s != "" && IsSpace(s[|s| - 1]) {
      TrimEndKeepsWords(s[..|s| - 1], gap);
      LastSpaceIsNoWord(s, gap);
    }
  }

  /** The words of a text survive in their order and stay apart. */
  lemma {:induction false} WordsStay(s: string)
    ensures Words(CollapseWhitespace(s), true) == Words(s, true)
  {
    var blanks := CollapseBlanks(s);
    var lines := EmptyBlankLines(blanks, true);
    var newlines := CollapseNewlines(lines);
    BlanksKeepWords(s, true);
    BlankLinesKeepWords(blanks, true, true);
    NewlinesKeepWords(lines, true);
    TrimStartKeepsWords(newlines);
    TrimEndKeepsWords(TrimStart(newlines), true);
  }

  // ---------------------------------------------------------------- tidy texts

  /** No two blanks stand together. */
  predicate SingleBlanks(s: string) {
    s == "" || ((IsBlank(s[0]) ==> |s| == 1 || !IsBlank(s[1])) && SingleBlanks(s[1..]))
  }

  /** No blank is a line of its own; `lineStart` is whether a line begins here. */
  predicate NoBlankLine(s: string, lineStart: bool) {
    s == "" || ((lineStart && IsBlank(s[0]) ==> 1 < |s| && !IsLineEnd(s[1])) && NoBlankLine(s[1..], IsLineEnd(s[0])))
  }

  /** At most two newlines stand together, `before` ones before the text included. */
  predicate FewNewlines(s: string, before: nat) {
    s == "" || (if s[0] == '\n' then before < 2 && FewNewlines(s[1..], before + 1) else FewNewlines(s[1..], 0))
  }

  predicate Trimmed(s: string) { s == "" || (!IsSpace(s[0]) && !IsSpace(s[|s| - 1])) }

  predicate Tidy(s: string) { SingleBlanks(s) && NoBlankLine(s, true) && FewNewlines(s, 0) && Trimmed(s) }

  // ---------------------------------------------------------------- tidy texts are left alone

  lemma {:induction false} SingleRun(s: string)
    requires SingleBlanks(s)
    ensures RunOfBlanks(s) <= 1
  {
  }

  lemma {:induction false} SingleBlanksStay(s: string)
    requires SingleBlanks(s)
    ensures CollapseBlanks(s) == s
  {
    if s != "" {
      SingleRun(s);
      SingleBlanksStay(s[1..]);
    }
  }

  lemma {:induction false} BlankLinesStay(s: string, lineStart: bool)
    requires SingleBlanks(s) && NoBlankLine(s, lineStart)
    ensures EmptyBlankLines(s, lineStart) == s
  {
    if s != "" {
      SingleRun(s);
      BlankLinesStay(s[1..], IsLineEnd(s[0]));
    }
  }

  lemma {:induction false} FewerBefore(s: string, before: nat, fewer: nat)
    requires FewNewlines(s, before) && fewer <= before
    ensures FewNewlines(s, fewer)
  {
    if s != "" && s[0] == '\n' {
      FewerBefore(s[1..], before + 1, fewer + 1);
    }
  }

  lemma {:induction false} FewRun(s: string, before: nat)
    requires FewNewlines(s, before) && before <= 2
    ensures before + RunOfNewlines(s) <= 2
    decreases |s|
  {
    if s != "" && s[0] == '\n' {
      FewRun(s[1..], before + 1);
    }
  }

  lemma {:induction false} FewNewlinesStay(s: string)
    requires FewNewlines(s, 0)
    ensures CollapseNewlines(s) == s
  {
    if s != "" {
      FewRun(s, 0);
      if s[0] == '\n' {
        FewerBefore(s[1..], 1, 0);
      }
      FewNewlinesStay(s[1..]);
    }
  }

  lemma TidyStays(s: string)
    requires Tidy(s)
    ensures CollapseWhitespace(s) == s
  {
    SingleBlanksStay(s);
    BlankLinesStay(s, true);
    FewNewlinesStay(s);
  }

  // ---------------------------------------------------------------- collapsed texts are tidy

  predicate StartsBlank(s: string) { s != "" && IsBlank(s[0]) }

  predicate StartsLineEnd(s: string) { s != "" && IsLineEnd(s[0]) }

  lemma {:induction false} AfterBlanks(s: string)
    ensures !StartsBlank(s[RunOfBlanks(s)..])
  {
    if StartsBlank(s) {
      AfterBlanks(s[1..]);
      assert s[1..][RunOfBlanks(s[1..])..] == s[RunOfBlanks(s)..];
    }
  }

  lemma {:induction false} AfterNewlines(s: string)
    ensures var rest := s[RunOfNewlines(s)..]; rest == "" || rest[0] != '\n'
  {
    if s != "" && s[0] == '\n' {
      AfterNewlines(s[1..]);
      assert s[1..][RunOfNewlines(s[1..])..] == s[RunOfNewlines(s)..];
    }
  }

  lemma {:induction false} SingleCons(c: char, s: string)
    requires SingleBlanks(s) && (IsBlank(c) ==> !StartsBlank(s))
    ensures SingleBlanks([c] + s)
  {
    assert ([c] + s)[1..] == s;
  }

  lemma {:induction false} BlanksAreSingle(s: string)
    ensures SingleBlanks(CollapseBlanks(s))
    ensures StartsBlank(CollapseBlanks(s)) <==> StartsBlank(s)
    decreases |s|
  {
    if s != "" {
      var n := RunOfBlanks(s);
      if 2 <= n {
        AfterBlanks(s);
        BlanksAreSingle(s[n..]);
        SingleCons(' ', CollapseBlanks(s[n..]));
      } else {
        BlanksAreSingle(s[1..]);
        SingleCons(s[0], CollapseBlanks(s[1..]));
      }
    }
  }

  /** What emptying blank lines does to the first character. */
  lemma {:induction false} EmptiedStart(s: string, lineStart: bool)
    requires SingleBlanks(s)
    ensures var r := EmptyBlankLines(s, lineStart);
            && (StartsBlank(r) ==> StartsBlank(s))
            && (s != "" && !IsBlank(s[0]) ==> r != "" && r[0] == s[0])
  {
    if s != "" {
      SingleRun(s);
      AfterBlanks(s);
    }
  }

  lemma {:induction false} BlankLineCons(c: char, s: string, lineStart: bool)
    requires NoBlankLine(s, IsLineEnd(c)) && (lineStart && IsBlank(c) ==> s != "" && !StartsLineEnd(s))
    ensures NoBlankLine([c] + s, lineStart)
  {
    assert ([c] + s)[1..] == s;
  }

  lemma {:induction false} LineStartMatters(s: string, lineStart: bool, other: bool)
    requires NoBlankLine(s, lineStart) && !StartsBlank(s)
    ensures NoBlankLine(s, other)
  {
  }

  lemma {:induction false} LinesAreEmptied(s: string, lineStart: bool)
    requires SingleBlanks(s)
    ensures var r := EmptyBlankLines(s, lineStart); SingleBlanks(r) && NoBlankLine(r, lineStart)
    decreases |s|
  {
    if s != "" {
      SingleRun(s);
      AfterBlanks(s);
      var n := RunOfBlanks(s);
      if lineStart && 0 < n && (n == |s| || IsLineEnd(s[n])) {
        LinesAreEmptied(s[n..], false);
        EmptiedStart(s[n..], false);
        LineStartMatters(EmptyBlankLines(s[n..], false), false, lineStart);
      } else {
        var next := IsLineEnd(s[0]);
        var r := EmptyBlankLines(s[1..], next);
        LinesAreEmptied(s[1..], next);
        EmptiedStart(s[1..], next);
        SingleCons(s[0], r);
        BlankLineCons(s[0], r, lineStart);
      }
    }
  }

  lemma {:induction false} FewCons(c: char, s: string, before: nat)
    requires if c == '\n' then before < 2 && FewNewlines(s, before + 1) else FewNewlines(s, 0)
    ensures FewNewlines([c] + s, before)
  {
    assert ([c] + s)[1..] == s;
  }

  lemma {:induction false} FirstStays(s: string)
    ensures var r := CollapseNewlines(s); (r == "" <==> s == "") && (s != "" ==> r[0] == s[0])
  {
  }

  /** How many newlines may stand before a collapsed text. */
  function Room(s: string): nat { if 2 <= RunOfNewlines(s) then 0 else 2 - RunOfNewlines(s) }

  lemma {:induction false} NewlinesAreFew(s: string)
    ensures FewNewlines(CollapseNewlines(s), Room(s))
    decreases |s|
  {
    if s != "" {
      var n := RunOfNewlines(s);
      if 3 <= n {
        NewlinesAreFewAfter(s, n);
      } else {
        NewlinesAreFew(s[1..]);
        if s[0] != '\n' {
          FewerBefore(CollapseNewlines(s[1..]), Room(s[1..]), 0);
        }
        FewCons(s[0], CollapseNewlines(s[1..]), Room(s));
      }
    }
  }

  lemma {:induction false} NewlinesAreFewAfter(s: string, n: nat)
    requires n == RunOfNewlines(s) && 3 <= n
    ensures FewNewlines("\n\n" + CollapseNewlines(s[n..]), 0)
    decreases |s|, 0
  {
    var r := CollapseNewlines(s[n..]);
    NewlinesAreFew(s[n..]);
    AfterNewlines(s);
    assert "\n\n" + r == ['\n'] + (['\n'] + r);
    FewCons('\n', r, 1);
    FewCons('\n', ['\n'] + r, 0);
  }

  lemma {:induction false} AfterRun(s: string, lineStart: bool)
    requires SingleBlanks(s) && NoBlankLine(s, lineStart)
    ensures var n := RunOfNewlines(s); SingleBlanks(s[n..]) && NoBlankLine(s[n..], lineStart || 0 < n)
  {
    if s != "" && s[0] == '\n' {
      AfterRun(s[1..], true);
      assert s[1..][RunOfNewlines(s[1..])..] == s[RunOfNewlines(s)..];
    } else {
      assert s[0..] == s;
    }
  }

  lemma {:induction false} NewlinesKeepLines(s: string, lineStart: bool)
    requires SingleBlanks(s) && NoBlankLine(s, lineStart)
    ensures var r := CollapseNewlines(s); SingleBlanks(r) && NoBlankLine(r, lineStart)
    decreases |s|
  {
    if s != "" {
      var n := RunOfNewlines(s);
      if 3 <= n {
        var r := CollapseNewlines(s[n..]);
        AfterRun(s, lineStart);
        NewlinesKeepLines(s[n..], true);
        assert "\n\n" + r == ['\n'] + (['\n'] + r);
        SingleCons('\n', r);
        SingleCons('\n', ['\n'] + r);
        BlankLineCons('\n', r, true);
        BlankLineCons('\n', ['\n'] + r, lineStart);
      } else {
        var r := CollapseNewlines(s[1..]);
        NewlinesKeepLines(s[1..], IsLineEnd(s[0]));
        FirstStays(s[1..]);
        SingleCons(s[0], r);
        BlankLineCons(s[0], r, lineStart);
      }
    }
  }

  lemma {:induction false} TrimStartIsTidy(s: string, lineStart: bool, before: nat)
    requires SingleBlanks(s) && NoBlankLine(s, lineStart) && FewNewlines(s, before)
    ensures var r := TrimStart(s);
            SingleBlanks(r) && NoBlankLine(r, true) && FewNewlines(r, 0) && (r != "" ==> !IsSpace(r[0]))
  {
    if s != "" && IsSpace(s[0]) {
      TrimStartIsTidy(s[1..], IsLineEnd(s[0]), if s[0] == '\n' then before + 1 else 0);
    } else {
      LineStartMatters(s, lineStart, true);
      FewerBefore(s, before, 0);
    }
  }

  lemma {:induction false} TrimEndCuts(s: string)
    ensures var k := |TrimEnd(s)|;
            k <= |s| && TrimEnd(s) == s[..k] && (k == 0 || !IsSpace(s[k - 1]))
  {
    if s != "" && IsSpace(s[|s| - 1]) {
      TrimEndCuts(s[..|s| - 1]);
    } else {
      assert s[..|s|] == s;
    }
  }

  lemma {:induction false} PrefixIsTidy(s: string, k: nat, lineStart: bool, before: nat)
    requires SingleBlanks(s) && NoBlankLine(s, lineStart) && FewNewlines(s, before)
    requires k <= |s| && (k == 0 || !IsSpace(s[k - 1]))
    ensures SingleBlanks(s[..k]) && NoBlankLine(s[..k], lineStart) && FewNewlines(s[..k], before)
  {
    if k > 0 {
      PrefixIsTidy(s[1..], k - 1, IsLineEnd(s[0]), if s[0] == '\n' then before + 1 else 0);
      assert s[..k] == [s[0]] + s[1..][..k - 1];
      SingleCons(s[0], s[1..][..k - 1]);
      BlankLineCons(s[0], s[1..][..k - 1], lineStart);
      FewCons(s[0], s[1..][..k - 1], before);
    }
  }

  lemma {:induction false} TrimmedIsTidy(s: string)
    requires SingleBlanks(s) && NoBlankLine(s, true) && FewNewlines(s, 0)
    ensures Tidy(Trim(s))
  {
    var r := TrimStart(s);
    TrimStartIsTidy(s, true, 0);
    TrimEndCuts(r);
    PrefixIsTidy(r, |TrimEnd(r)|, true, 0);
  }

  lemma CollapseIsTidy(s: string)
    ensures Tidy(CollapseWhitespace(s))
  {
    var blanks := CollapseBlanks(s);
    var lines := EmptyBlankLines(blanks, true);
    var newlines := CollapseNewlines(lines);
    BlanksAreSingle(s);
    LinesAreEmptied(blanks, true);
    NewlinesKeepLines(lines, true);
    NewlinesAreFew(lines);
    FewerBefore(newlines, Room(lines), 0);
    TrimmedIsTidy(newlines);
  }

  /** Collapsing leaves exactly the tidy texts alone, and is done after one time. */
  lemma TidyExactly(s: string)
    ensures CollapseWhitespace(s) == s <==> Tidy(s)
    ensures CollapseWhitespace(CollapseWhitespace(s)) == CollapseWhitespace(s)
  {
    var collapsed := CollapseWhitespace(s);
    CollapseIsTidy(s);
    TidyStays(collapsed);
    if Tidy(s) {
      TidyStays(s);
    }
  }

  // ---------------------------------------------------------------- the lines stay

  function NoBlanks(s: string): string {
    if s == "" then "" else if IsBlank(s[0]) then NoBlanks(s[1..]) else [s[0]] + NoBlanks(s[1..])
  }

  /** Each run of newlines cut to two; `before` newlines come before the text. */
  function Capped(s: string, before: nat): string {
    if s == "" then ""
    else if s[0] != '\n' then [s[0]] + Capped(s[1..], 0)
    else if before < 2 then [s[0]] + Capped(s[1..], before + 1)
    else Capped(s[1..], before + 1)
  }

  lemma {:induction false} NoBlanksCons(c: char, s: string)
    ensures NoBlanks([c] + s) == if IsBlank(c) then NoBlanks(s) else [c] + NoBlanks(s)
  {
    assert ([c] + s)[1..] == s;
  }

  lemma {:induction false} NoBlanksAfterRun(s: string)
    ensures NoBlanks(s[RunOfBlanks(s)..]) == NoBlanks(s)
  {
    if StartsBlank(s) {
      NoBlanksAfterRun(s[1..]);
      assert s[1..][RunOfBlanks(s[1..])..] == s[RunOfBlanks(s)..];
    } else {
      assert s[0..] == s;
    }
  }

  lemma {:induction false} BlanksOnly(s: string)
    ensures NoBlanks(CollapseBlanks(s)) == NoBlanks(s)
    decreases |s|
  {
    if s != "" {
      var n := RunOfBlanks(s);
      if 2 <= n {
        BlanksOnly(s[n..]);
        NoBlanksAfterRun(s);
        NoBlanksCons(' ', CollapseBlanks(s[n..]));
      } else {
        BlanksOnly(s[1..]);
        NoBlanksCons(s[0], CollapseBlanks(s[1..]));
      }
    }
  }

  lemma {:induction false} BlankLinesOnly(s: string, lineStart: bool)
    ensures NoBlanks(EmptyBlankLines(s, lineStart)) == NoBlanks(s)
    decreases |s|
  {
    if s != "" {
      var n := RunOfBlanks(s);
      if lineStart && 0 < n && (n == |s| || IsLineEnd(s[n])) {
        BlankLinesOnly(s[n..], false);
        NoBlanksAfterRun(s);
      } else {
        BlankLinesOnly(s[1..], IsLineEnd(s[0]));
        NoBlanksCons(s[0], EmptyBlankLines(s[1..], IsLineEnd(s[0])));
      }
    }
  }

  lemma {:induction false} CappedCons(c: char, s: string, before: nat)
    ensures Capped([c] + s, before)
            == if c != '\n' then [c] + Capped(s, 0)
               else if before < 2 then [c] + Capped(s, before + 1)
               else Capped(s, before + 1)
  {
    assert ([c] + s)[1..] == s;
  }

  /** A full run leaves out the rest of it. */
  lemma {:induction false} CappedRun(s: string, before: nat)
    requires 2 <= before
    ensures Capped(s, before) == Capped(s[RunOfNewlines(s)..], 0)
    decreases |s|
  {
    if s != "" && s[0] == '\n' {
      CappedRun(s[1..], before + 1);
      assert s[1..][RunOfNewlines(s[1..])..] == s[RunOfNewlines(s)..];
    } else {
      assert s[0..] == s;
    }
  }

  lemma {:induction false} NewlinesAreCapped(s: string, before: nat)
    requires before + RunOfNewlines(s) <= 2 || before == 0
    ensures Capped(s, before) == CollapseNewlines(s)
    decreases |s|
  {
    if s != "" {
      var n := RunOfNewlines(s);
      if 3 <= n {
        NewlinesAreCapped(s[n..], 0);
        CappedRun(s[2..], 2);
        assert s[2..][RunOfNewlines(s[2..])..] == s[n..];
        assert Capped(s[1..], 1) == "\n" + Capped(s[1..][1..], 2) && s[1..][1..] == s[2..];
      } else {
        NewlinesAreCapped(s[1..], if s[0] == '\n' then before + 1 else 0);
      }
    }
  }

  lemma {:induction false} CappedAfterOther(s: string, before: nat)
    requires s != "" && s[0] != '\n'
    ensures Capped(s, before) == Capped(s, 0)
  {
  }

  /** Without blank lines, blanks do not come between newlines. */
  lemma {:induction false} CapIgnoresBlanks(s: string, lineStart: bool, before: nat)
    requires SingleBlanks(s) && NoBlankLine(s, lineStart) && (0 < before ==> lineStart)
    ensures NoBlanks(Capped(s, before)) == Capped(NoBlanks(s), before)
  {
    if s != "" {
      var c, rest := s[0], s[1..];
      var next := if c == '\n' then before + 1 else 0;
      CapIgnoresBlanks(rest, IsLineEnd(c), next);
      NoBlanksCons(c, Capped(rest, next));
      if IsBlank(c) {
        if 0 < before {
          CappedAfterOther(NoBlanks(rest), before);
        }
      } else {
        CappedCons(c, NoBlanks(rest), before);
      }
    }
  }

  lemma {:induction false} TrimStartIgnoresBlanks(s: string)
    ensures NoBlanks(TrimStart(s)) == TrimStart(NoBlanks(s))
  {
    if s != "" && IsSpace(s[0]) {
      TrimStartIgnoresBlanks(s[1..]);
      assert !IsBlank(s[0]) ==> NoBlanks(s)[1..] == NoBlanks(s[1..]);
    }
  }

  lemma {:induction false} NoBlanksLast(s: string)
    requires s != ""
    ensures var c, most := s[|s| - 1], NoBlanks(s[..|s| - 1]);
            NoBlanks(s) == if IsBlank(c) then most else most + [c]
  {
    if |s| > 1 {
      NoBlanksLast(s[1..]);
      assert s[..|s| - 1] == [s[0]] + s[1..][..|s| - 2];
      NoBlanksCons(s[0], s[1..][..|s| - 2]);
    }
  }

  lemma {:induction false} TrimEndIgnoresBlanks(s: string)
    ensures NoBlanks(TrimEnd(s)) == TrimEnd(NoBlanks(s))
  {
    if s != "" {
      NoBlanksLast(s);
      if IsSpace(s[|s| - 1]) {
        TrimEndIgnoresBlanks(s[..|s| - 1]);
        assert !IsBlank(s[|s| - 1]) ==> NoBlanks(s)[..|NoBlanks(s)| - 1] == NoBlanks(s[..|s| - 1]);
      }
    }
  }

  /** Blanks aside, collapsing cuts each run of newlines to two, and the white space at both ends. */
  lemma {:induction false} LinesAreCapped(s: string)
    ensures NoBlanks(CollapseWhitespace(s)) == Trim(Capped(NoBlanks(s), 0))
  {
    var blanks := CollapseBlanks(s);
    var lines := EmptyBlankLines(blanks, true);
    var newlines := CollapseNewlines(lines);
    BlanksOnly(s);
    BlanksAreSingle(s);
    BlankLinesOnly(blanks, true);
    LinesAreEmptied(blanks, true);
    NewlinesAreCapped(lines, 0);
    CapIgnoresBlanks(lines, true, 0);
    TrimStartIgnoresBlanks(newlines);
    TrimEndIgnoresBlanks(TrimStart(newlines));
  }
}

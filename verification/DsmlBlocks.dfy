/** Every printed block is read back as the call it was printed from, and other scanners pass over it. */
module DsmlBlocks {
  import opened Wrappers
  import opened Seqs
  import opened Text
  import opened DsmlMarkup
  import opened DsmlPatterns
  import opened DsmlTagFacts
  import opened DsmlPrinter

  // ---------------------------------------------------------------- invoke blocks

  /** A tag that differs from every head at the same place. */
  lemma ClashIsImmune(p: Pattern, t: string, k: nat)
    requires !p.fold && k < |t| && t[0] == '<' && '<' !in t[1..] && Begins(p, {})
    requires forall h :: h in p.heads ==> k < |h| && h[k] != t[k]
    ensures Immune(p, t)
  {
    PlainIsImmune(p, t[1..]);
    forall s
      ensures NoneAt(p, t, s)
    {
      forall i | 0 <= i < |p.heads|
        ensures !HeadFits(p, p.heads[i], t + s)
      {
        var h := p.heads[i];
        assert h in p.heads && (t + s)[k] == t[k];
      }
    }
  }

  lemma DsmlTagChars(open: string, first: char, second: char, word: string)
    requires word != ""
    ensures var t := DsmlTag(open, first, second, word);
            && |t| == |open| + 6 + |word|
            && (forall k :: 0 <= k < |open| ==> t[k] == open[k])
            && t[|open|] == first
            && (forall k :: 0 <= k < |word| ==> t[|open| + 6 + k] == word[k])
  {
  }

  /** A DSML tag passes a closing pattern that it differs from at one place. */
  lemma DsmlTagIsImmune(p: Pattern, open: string, first: char, second: char, word: string, k: nat)
    requires open in ["<", "</"] && first in BARS && second in BARS && ' ' !in word && '<' !in word
    requires !p.fold && Begins(p, {})
    requires var t := DsmlTag(open, first, second, word);
             k < |t| && forall h :: h in p.heads ==> k < |h| && h[k] != t[k]
    ensures Immune(p, DsmlTag(open, first, second, word))
  {
    var t := DsmlTag(open, first, second, word);
    DsmlHeadIsTag(p, open, first, second, word);
    forall i | 0 <= i < |t[1..]|
      ensures t[1..][i] != '<'
    {
      assert t[1..][i] == t[i + 1];
    }
    ClashIsImmune(p, t, k);
  }

  lemma CallClosersAre(h: string)
    requires h in CloseTag(DSML, "invoke").heads
    ensures 8 < |h| && h[1] == '/' && h[8] == 'i'
  {
    var x, y := HeadBars("</", "invoke" + ">", h);
    DsmlTagChars("</", x, y, "invoke" + ">");
    assert h[1] == "</"[1] && h[2 + 6 + 0] == ("invoke" + ">")[0];
  }

  lemma ParameterTagsAreImmune(form: Form)
    requires form.InDsml? && form.Valid()
    ensures Immune(CloseTag(DSML, "invoke"), form.Open("parameter"))
    ensures Immune(CloseTag(DSML, "invoke"), form.Close("parameter"))
  {
    var p, x, y := CloseTag(DSML, "invoke"), form.first, form.second;
    DsmlIsTag("invoke");
    BeginsLess(p, Initials(1), {});
    forall h | h in p.heads
      ensures 8 < |h| && h[1] == '/' && h[8] == 'i'
    {
      CallClosersAre(h);
    }
    ParameterChars(x, y);
    DsmlTagIsImmune(p, "<", x, y, "parameter", 1);
    DsmlTagIsImmune(p, "</", x, y, "parameter" + ">", 8);
  }

  lemma ParameterChars(x: char, y: char)
    requires x in BARS && y in BARS
    ensures var t := DsmlTag("<", x, y, "parameter"); 1 < |t| && t[1] == x != '/'
    ensures var t := DsmlTag("</", x, y, "parameter" + ">"); 8 < |t| && t[8] == 'p'
    ensures ' ' !in "parameter" && '<' !in "parameter" && ' ' !in "parameter" + ">" && '<' !in "parameter" + ">"
  {
    DsmlTagChars("<", x, y, "parameter");
    DsmlTagChars("</", x, y, "parameter" + ">");
    assert DsmlTag("</", x, y, "parameter" + ">")[2 + 6 + 0] == ("parameter" + ">")[0];
  }

  lemma ValuesAreClear(form: Form, params: seq<Param>, p: Pattern, chars: set<char>)
    requires GoodParams(form, params) && IsTag(p, chars)
    ensures forall i :: 0 <= i < |params| ==> Clear(p, params[i].value)
  {
    forall i | 0 <= i < |params|
      ensures Clear(p, params[i].value)
    {
      assert GoodParam(form, params[i]);
      OpenerFreeIsClearOf(p, chars, params[i].value);
    }
  }

  lemma BareTagsAreImmune(p: Pattern, word: string, chars: set<char>)
    requires Begins(p, chars) && IsWord(word) && word[0] in chars
    ensures Immune(p, InBare.Open(word)) && Immune(p, InBare.Close(word))
  {
    assert ("<" + word)[1..] == word;
    OneTagIsImmune(p, InBare.Open(word), chars);
    assert ("</" + (word + ">"))[1..] == "/" + (word + ">");
    OneTagIsImmune(p, InBare.Close(word), chars);
  }

  lemma {:induction false} ParametersDoNotCloseTheCall(form: Form, params: seq<Param>, s: string)
    requires !form.InToolCall? && GoodParams(form, params)
    ensures NoneAt(CloseTag(form.Dialect(), "invoke"), PrintParams(form, params), s)
  {
    var p := CloseTag(form.Dialect(), "invoke");
    var chars := if form.InDsml? then Initials(1) else {'p'};
    if form.InDsml? {
      DsmlIsTag("invoke");
      ParameterTagsAreImmune(form);
    } else {
      InvokeIsTag();
      TheWords();
      BareTagsAreImmune(p, "parameter", {'p'});
    }
    BeginsLess(p, chars, {});
    ValuesAreClear(form, params, p, chars);
    ParamsPass(p, form, params, s);
  }

  lemma ParameterMatches(form: Form, param: Param, s: string)
    requires !form.InToolCall? && form.Valid() && GoodParam(form, param)
    ensures MatchElement(form.Dialect(), "parameter",
                         PrintElement(form, "parameter", param.key, param.layout, param.value) + s)
            == Some(Element(param.key, param.value, s))
  {
    var p := CloseTag(form.Dialect(), "parameter");
    var chars := if form.InDsml? then Initials(1) else {};
    if form.InDsml? {
      DsmlIsTag("parameter");
    } else {
      ParameterIsTag();
    }
    OpenerFreeIsClearOf(p, chars, param.value);
    CloseIsTag(form, "parameter");
    ProseNone(p, param.value, form.Close("parameter") + s);
    MatchesOwnElement(form, "parameter", param.key, param.layout, param.value, s);
  }

  lemma {:induction false} ParametersAreRead(form: Form, params: seq<Param>, input: map<string, Value>)
    requires !form.InToolCall? && GoodParams(form, params)
    ensures ParamsFrom(input, ScanElements(form.Dialect(), "parameter", PrintParams(form, params)).found)
            == ReadInput(form, input, params)
    decreases |params|
  {
    if params != [] {
      var first, tail, d := params[0], params[1..], form.Dialect();
      var text := PrintParams(form, params);
      GoodTail(form, params);
      ParameterMatches(form, first, PrintParams(form, tail));
      assert ScanElements(d, "parameter", text).found
             == [Element(first.key, first.value, PrintParams(form, tail))]
                + ScanElements(d, "parameter", PrintParams(form, tail)).found;
      ParametersAreRead(form, tail, input[first.key := Coerce(first.value)]);
    }
  }

  /** The text of an invoke block is matched whole and gives back the call as it was meant. */
  lemma InvokeIsRead(form: Form, call: Intent, s: string)
    requires !form.InToolCall? && Good(form, call)
    ensures var r := MatchElement(form.Dialect(), "invoke", Print(form, call) + s);
            && r.Some? && r.value.rest == s
            && CallOf(form.Dialect(), r.value) == CallFor(call)
  {
    var raw := Raw(call);
    ParametersDoNotCloseTheCall(form, raw.params, form.Close("invoke") + s);
    MatchesOwnElement(form, "invoke", raw.name, raw.layout, PrintParams(form, raw.params), s);
    ParametersAreRead(form, raw.params, map[]);
    IntentIsRead(form, call);
  }

  // ---------------------------------------------------------------- tool_call blocks

  lemma OneHeadSpells(h: string)
    ensures Spells(Pattern([h], false, false), h)
  {
  }

  lemma OneHeadBegins(h: string, chars: set<char>)
    requires HeadBegins(Pattern([h], false, false), h, chars)
    ensures Begins(Pattern([h], false, false), chars)
  {
  }

  lemma ArgTagsBegin()
    ensures Begins(ARG_KEY_OPEN, {}) && Begins(ARG_KEY_CLOSE, {})
  {
    OneHeadBegins("<arg_key>", {});
    OneHeadBegins("</arg_key>", {});
  }

  lemma ArgValueCloseIsPlain()
    ensures PlainHeads(ARG_VALUE_CLOSE)
  {
    assert PlainHead("</arg_value>");
  }

  lemma {:induction false} KeyEndsHere(s: string, key: string, cut: Cut)
    requires Hit(ARG_KEY_CLOSE, s).Some? && |"</arg_key>"| <= |s|
    requires var t := TrimStart(s[|"</arg_key>"|..]);
             && Hit(ARG_VALUE_OPEN, t).Some? && |"<arg_value>"| <= |t|
             && UntilTag(ARG_VALUE_CLOSE, t[|"<arg_value>"|..]) == Some(cut)
    ensures SearchKey(s, key) == Some(Arg(key, cut.before, cut.after))
  {
  }

  lemma {:induction false} GapIsTrimmed(gap: string, s: string)
    requires AllSpace(gap) && s != "" && s[0] == '<'
    ensures TrimStart(gap + s) == s
  {
    TrimStartDrops(gap, s);
  }

  /** From the tag that closes the key on. */
  lemma {:induction false} ValueFollowsKey(param: Param, s: string)
    requires GoodParam(InToolCall, param)
    ensures SearchKey("</arg_key>" + (param.layout.gap + ("<arg_value>" + (param.value + ("</arg_value>" + s)))),
                      param.key)
            == Some(Arg(param.key, param.value, s))
  {
    var fromValue := param.value + ("</arg_value>" + s);
    var fromGap := param.layout.gap + ("<arg_value>" + fromValue);
    ValueEnds(param.value, s);
    SkipTag(ARG_VALUE_OPEN, "<arg_value>", fromValue);
    GapIsTrimmed(param.layout.gap, "<arg_value>" + fromValue);
    SkipTag(ARG_KEY_CLOSE, "</arg_key>", fromGap);
    KeyEndsHere("</arg_key>" + fromGap, param.key, Cut(param.value, s));
  }

  lemma SkipTag(p: Pattern, h: string, s: string)
    requires p == Pattern([h], false, false)
    ensures Hit(p, h + s) == Some(|h|) && |h| <= |h + s| && (h + s)[|h|..] == s
  {
    OneHeadSpells(h);
    OwnTagIsHit(p, h, s);
    DropHead(h, s);
  }

  lemma {:induction false} ValueEnds(value: string, s: string)
    requires Clear(ARG_VALUE_CLOSE, value)
    ensures UntilTag(ARG_VALUE_CLOSE, value + ("</arg_value>" + s)) == Some(Cut(value, s))
  {
    ArgValueCloseIsPlain();
    ProseNone(ARG_VALUE_CLOSE, value, "</arg_value>" + s);
    OneHeadSpells("</arg_value>");
    OwnTagEndsBody(ARG_VALUE_CLOSE, "</arg_value>", value, s);
  }

  lemma {:induction false} KeyIsRead(key: string, s: string)
    requires '<' !in key
    ensures MatchArg("<arg_key>" + (key + s)) == SearchKey(s, key)
  {
    OneHeadSpells("<arg_key>");
    OwnTagIsHit(ARG_KEY_OPEN, "<arg_key>", key + s);
    DropHead("<arg_key>", key + s);
    ArgTagsBegin();
    PlainIsImmune(ARG_KEY_CLOSE, key);
    KeyPasses(key, s, "");
    assert "" + key == key;
  }

  /** An argument is matched whole, up to the tag that closes its value. */
  lemma ArgMatches(param: Param, s: string)
    requires GoodParam(InToolCall, param)
    ensures MatchArg(PrintArg(param) + s) == Some(Arg(param.key, param.value, s))
  {
    var gap := param.layout.gap;
    var fromValue := param.value + ("</arg_value>" + s);
    ArgText(param, s);
    KeyIsRead(param.key, "</arg_key>" + (gap + ("<arg_value>" + fromValue)));
    ValueFollowsKey(param, s);
  }

  lemma ArgText(param: Param, s: string)
    ensures PrintArg(param) + s
            == "<arg_key>" + (param.key + ("</arg_key>"
               + (param.layout.gap + ("<arg_value>" + (param.value + ("</arg_value>" + s))))))
  {
    var gap, fromGap := param.layout.gap, (param.layout.gap + "<arg_value>") + (param.value + "</arg_value>");
    Assoc("<arg_key>", param.key + ("</arg_key>" + fromGap), s);
    Assoc(param.key, "</arg_key>" + fromGap, s);
    Assoc("</arg_key>", fromGap, s);
    Assoc(gap + "<arg_value>", param.value + "</arg_value>", s);
    Assoc(param.value, "</arg_value>", s);
    Assoc(gap, "<arg_value>", param.value + ("</arg_value>" + s));
  }

  lemma {:induction false} ArgsAreRead(params: seq<Param>, input: map<string, Value>)
    requires GoodParams(InToolCall, params)
    ensures ArgsFrom(input, PrintArgs(params)) == ReadInput(InToolCall, input, params)
    decreases |params|
  {
    if params != [] {
      GoodTail(InToolCall, params);
      ArgMatches(params[0], PrintArgs(params[1..]));
      ArgsAreRead(params[1..], input[Trim(params[0].key) := Coerce(params[0].value)]);
    }
  }

  lemma {:induction false} NameEndsAtTag(name: string, s: string)
    requires '<' !in name && (s == "" || s[0] == '<')
    ensures BeforeTag(name + s) == name
  {
    if name == "" {
      assert name + s == s;
    } else {
      DropFirst(name, s);
      NameEndsAtTag(name[1..], s);
    }
  }

  lemma {:induction false} ArgsStartWithATag(params: seq<Param>)
    ensures params != [] ==> Hit(ARG_KEY_OPEN, PrintArgs(params)).Some? && PrintArgs(params)[0] == '<'
  {
    if params != [] {
      OneHeadSpells("<arg_key>");
      var rest := params[0].key + ("</arg_key>" + ((params[0].layout.gap + "<arg_value>")
                                                    + (params[0].value + "</arg_value>")));
      Assoc("<arg_key>", rest, PrintArgs(params[1..]));
      OwnTagIsHit(ARG_KEY_OPEN, "<arg_key>", rest + PrintArgs(params[1..]));
    }
  }

  lemma InnerIsRead(call: Intent)
    requires Good(InToolCall, call)
    ensures InnerCall(Raw(call).name + PrintArgs(Raw(call).params)) == Some(CallFor(call))
  {
    var raw := Raw(call);
    var args := PrintArgs(raw.params);
    ArgsStartWithATag(raw.params);
    NameEndsAtTag(raw.name, args);
    DropHead(raw.name, args);
    ArgTagsBegin();
    PlainIsImmune(ARG_KEY_OPEN, raw.name);
    ArgsPass(map[], raw.name, args);
    ArgsAreRead(raw.params, map[]);
    IntentIsRead(InToolCall, call);
    TrimDropsPadding(call.layout.before, call.name, call.layout.after);
  }

  lemma ToolCallIsRead(call: Intent, s: string)
    requires Good(InToolCall, call)
    ensures var r := MatchToolCall(Print(InToolCall, call) + s);
            && r.Some? && r.value.after == s && InnerCall(r.value.before) == Some(CallFor(call))
  {
    var inner := Raw(call).name + PrintArgs(Raw(call).params);
    OneHeadSpells("<tool_call>");
    OneHeadSpells("</tool_call>");
    Assoc("<tool_call>", inner + "</tool_call>", s);
    Assoc(inner, "</tool_call>", s);
    OwnTagIsHit(TOOL_CALL_OPEN, "<tool_call>", inner + ("</tool_call>" + s));
    DropHead("<tool_call>", inner + ("</tool_call>" + s));
    InnerPasses(TOOL_CALL_CLOSE, {'a'}, Raw(call), "</tool_call>" + s);
    OwnTagEndsBody(TOOL_CALL_CLOSE, "</tool_call>", inner, s);
    InnerIsRead(call);
  }

  lemma {:induction false} InnerPasses(p: Pattern, chars: set<char>, call: Printed, s: string)
    requires GoodText(InToolCall, call) && 'a' in chars
    requires p == TOOL_CALL_CLOSE || IsTag(p, chars)
    ensures NoneAt(p, call.name + PrintArgs(call.params), s)
  {
    ToolCallIsTag();
    var all := if p == TOOL_CALL_CLOSE then {'a'} else chars;
    BeginsLess(p, all, {'a'});
    BeginsLess(p, all, {});
    PlainIsImmune(p, call.name);
    ValuesAreClear(InToolCall, call.params, p, all);
    ArgsPassOver(p, call.params, s);
    ImmuneThen(p, call.name, PrintArgs(call.params), s);
  }

  // ---------------------------------------------------------------- blocks of other forms

  lemma {:induction false} BareBlockPasses(p: Pattern, call: Printed, s: string)
    requires GoodText(InBare, call) && IsTag(p, Initials(1))
    ensures NoneAt(p, PrintText(InBare, call), s)
  {
    BeginsLess(p, Initials(1), {});
    TheWords();
    BareTagsAreImmune(p, "invoke", Initials(1));
    BareTagsAreImmune(p, "parameter", Initials(1));
    ValuesAreClear(InBare, call.params, p, Initials(1));
    ParamsPass(p, InBare, call.params, InBare.Close("invoke") + s);
    ElementPasses(p, InBare, "invoke", call.name, call.layout, PrintParams(InBare, call.params), s);
  }

  lemma {:induction false} ToolCallBlockPasses(p: Pattern, chars: set<char>, call: Printed, s: string)
    requires GoodText(InToolCall, call) && IsTag(p, chars) && {'t', 'a'} <= chars
    ensures NoneAt(p, PrintText(InToolCall, call), s)
  {
    var inner := call.name + PrintArgs(call.params);
    OneTagIsImmune(p, "<tool_call>", chars);
    OneTagIsImmune(p, "</tool_call>", chars);
    InnerPasses(p, chars, call, "</tool_call>" + s);
    ThenImmune(p, inner, "</tool_call>", s);
    ImmuneThen(p, "<tool_call>", inner + "</tool_call>", s);
  }

  /** The tags of a stage do not begin anywhere in a block of a later one. */
  lemma {:induction false} LaterBlockPasses(p: Pattern, form: Form, call: Intent, stage: nat, s: string)
    requires Good(form, call) && 1 <= stage <= form.Stage() && IsTag(p, Initials(stage))
    ensures NoneAt(p, Print(form, call), s)
  {
    if form.InBare? {
      BareBlockPasses(p, Raw(call), s);
    } else {
      ToolCallBlockPasses(p, Initials(stage), Raw(call), s);
    }
  }
}

/**
 * Tool calls printed as the markup that models leak: DSML tags with any bars, bare tags, and the
 * tool_call form. Each printed block is read back by the matcher for its form.
 */
module DsmlPrinter {
  import opened Wrappers
  import opened Seqs
  import opened Text
  import opened DsmlMarkup
  import opened DsmlPatterns
  import opened DsmlStream
  import opened DsmlTagFacts

  datatype Form = InDsml(first: char, second: char) | InBare | InToolCall {
    predicate Valid() { InDsml? ==> first in BARS && second in BARS }

    /** The recovery stage that reads this form. */
    function Stage(): nat { if InDsml? then 0 else if InBare? then 1 else 2 }

    function Dialect(): Dialect { if InDsml? then DSML else Bare }

    function Open(word: string): string {
      if InDsml? then DsmlTag("<", first, second, word) else "<" + word
    }

    function Close(word: string): string {
      if InDsml? then DsmlTag("</", first, second, word + ">") else "</" + (word + ">")
    }
  }

  /**
   * The text around what a call means: attributes before and after the name, white space between key and
   * value, and white space around name or key and around a value.
   */
  datatype Layout = Layout(lead: string, more: string, gap: string,
                           before: string, after: string, valueBefore: string, valueAfter: string)

  /** The text of a parameter and of a call. */
  datatype Param = Param(key: string, value: string, layout: Layout)
  datatype Printed = Printed(name: string, params: seq<Param>, layout: Layout)

  /** The rest of an opening tag. */
  function Attributes(layout: Layout, name: string): string {
    layout.lead + (NAME + (name + ("\"" + (layout.more + ">"))))
  }

  function PrintElement(form: Form, word: string, name: string, layout: Layout, body: string): string {
    form.Open(word) + (Attributes(layout, name) + (body + form.Close(word)))
  }

  function PrintParams(form: Form, params: seq<Param>): string {
    if params == [] then ""
    else
      var p := params[0];
      PrintElement(form, "parameter", p.key, p.layout, p.value) + PrintParams(form, params[1..])
  }

  function PrintArg(param: Param): string {
    "<arg_key>" + (param.key + ("</arg_key>" + ((param.layout.gap + "<arg_value>") + (param.value + "</arg_value>"))))
  }

  function PrintArgs(params: seq<Param>): string {
    if params == [] then "" else PrintArg(params[0]) + PrintArgs(params[1..])
  }

  function PrintText(form: Form, call: Printed): string {
    if form.InToolCall? then "<tool_call>" + ((call.name + PrintArgs(call.params)) + "</tool_call>")
    else PrintElement(form, "invoke", call.name, call.layout, PrintParams(form, call.params))
  }

  // ---------------------------------------------------------------- what is meant

  datatype Argument = Argument(key: string, value: Value, layout: Layout)

  /** A call as the model means it, and how it lays it out. */
  datatype Intent = Intent(name: string, arguments: seq<Argument>, layout: Layout)

  function TextOf(value: Value): string {
    match value
    case Text(s) => s
    case Json(text) => text
  }

  function Key(a: Argument): string { a.layout.before + (a.key + a.layout.after) }

  function RawParam(a: Argument): Param {
    Param(Key(a), a.layout.valueBefore + (TextOf(a.value) + a.layout.valueAfter), a.layout)
  }

  function Raw(call: Intent): Printed {
    Printed(call.layout.before + (call.name + call.layout.after), Map(RawParam, call.arguments), call.layout)
  }

  function Print(form: Form, call: Intent): string { PrintText(form, Raw(call)) }

  /** The input object of a call: later values of a key win. */
  function InputFrom(input: map<string, Value>, arguments: seq<Argument>): map<string, Value>
    decreases |arguments|
  {
    if arguments == [] then input else InputFrom(input[arguments[0].key := arguments[0].value], arguments[1..])
  }

  function CallFor(call: Intent): Call { Call(call.name, InputFrom(map[], call.arguments)) }

  ghost predicate DistinctKeys(arguments: seq<Argument>) {
    forall i, j :: 0 <= i < j < |arguments| ==> arguments[i].key != arguments[j].key
  }

  /** With distinct keys the object holds exactly the arguments. */
  lemma {:induction false} InputIsExact(input: map<string, Value>, arguments: seq<Argument>)
    requires DistinctKeys(arguments) && forall i :: 0 <= i < |arguments| ==> arguments[i].key !in input
    ensures var r := InputFrom(input, arguments);
            && (forall k :: k in r <==> k in input || exists i :: 0 <= i < |arguments| && arguments[i].key == k)
            && (forall k :: k in input ==> r[k] == input[k])
            && forall i :: 0 <= i < |arguments| ==> r[arguments[i].key] == arguments[i].value
    decreases |arguments|
  {
    if arguments != [] {
      var tail, next := arguments[1..], input[arguments[0].key := arguments[0].value];
      forall i | 0 <= i < |tail|
        ensures tail[i].key !in next
      {
        assert tail[i] == arguments[i + 1];
      }
      InputIsExact(next, tail);
      var r := InputFrom(next, tail);
      forall k
        ensures k in r <==> k in input || exists i :: 0 <= i < |arguments| && arguments[i].key == k
      {
        if i :| 0 <= i < |arguments| && arguments[i].key == k {
          assert i == 0 || tail[i - 1] == arguments[i];
        }
      }
      forall i | 0 <= i < |arguments|
        ensures arguments[i].key in r && r[arguments[i].key] == arguments[i].value
      {
        assert i == 0 || tail[i - 1] == arguments[i];
      }
    }
  }

  // ---------------------------------------------------------------- what can be printed

  predicate AllSpace(s: string) { forall i :: 0 <= i < |s| ==> IsSpace(s[i]) }

  /** Without white space at either end. */
  predicate Tight(s: string) { s != "" ==> !IsSpace(s[0]) && !IsSpace(s[|s| - 1]) }

  /** The beginnings of JSON texts: an object, a list, a string, a number, or one of the three words. */
  predicate BeginsJson(s: string) {
    || s in ["true", "false", "null"]
    || (1 <= |s| && s[0] in "{[\"0123456789")
    || (2 <= |s| && s[0] == '-' && s[1] in "0123456789")
  }

  /** A JSON value is printed as one, and a text does not look like one. */
  predicate IsTold(value: Value) { Tight(TextOf(value)) && (value.Json? <==> BeginsJson(TextOf(value))) }

  /** The attributes before the name hold no other name and no end of the tag. */
  predicate GoodLead(form: Form, lead: string) {
    && lead != "" && !IsWordChar(lead[0]) && '>' !in lead && '<' !in lead
    && (form.InBare? ==> !IsWordChar(lead[|lead| - 1]))
    && forall i :: 0 <= i < |lead| ==> !(NAME <= (lead + NAME)[i..])
  }

  predicate GoodLayout(form: Form, layout: Layout) {
    if form.InToolCall? then AllSpace(layout.gap)
    else GoodLead(form, layout.lead) && '>' !in layout.more && '<' !in layout.more
  }

  predicate GoodParam(form: Form, param: Param) {
    && '<' !in param.key && OpenerFree(param.value) && Clear(ARG_VALUE_CLOSE, param.value)
    && GoodLayout(form, param.layout)
    && (!form.InToolCall? ==> param.key != "" && '"' !in param.key)
  }

  predicate GoodText(form: Form, call: Printed) {
    && form.Valid() && GoodLayout(form, call.layout)
    && call.name != "" && '<' !in call.name
    && (!form.InToolCall? ==> '"' !in call.name)
    && forall i :: 0 <= i < |call.params| ==> GoodParam(form, call.params[i])
  }

  /** Values and names as they are meant, with white space around them; only the tool_call form trims keys. */
  predicate GoodArgument(form: Form, a: Argument) {
    && IsTold(a.value) && AllSpace(a.layout.valueBefore) && AllSpace(a.layout.valueAfter)
    && if form.InToolCall? then Tight(a.key) && AllSpace(a.layout.before) && AllSpace(a.layout.after)
       else a.layout.before == a.layout.after == ""
  }

  predicate Good(form: Form, call: Intent) {
    && GoodText(form, Raw(call))
    && call.name != "" && Tight(call.name) && AllSpace(call.layout.before) && AllSpace(call.layout.after)
    && forall i :: 0 <= i < |call.arguments| ==> GoodArgument(form, call.arguments[i])
  }

  predicate GoodParams(form: Form, params: seq<Param>) {
    form.Valid() && forall i :: 0 <= i < |params| ==> GoodParam(form, params[i])
  }

  lemma GoodTail(form: Form, params: seq<Param>)
    requires params != [] && GoodParams(form, params)
    ensures GoodParam(form, params[0]) && GoodParams(form, params[1..])
  {
  }

  // ---------------------------------------------------------------- what is read

  lemma {:induction false} TrimStartDrops(before: string, s: string)
    requires AllSpace(before)
    ensures TrimStart(before + s) == TrimStart(s)
  {
    if before == "" {
      assert before + s == s;
    } else {
      assert (before + s)[1..] == before[1..] + s;
      TrimStartDrops(before[1..], s);
    }
  }

  lemma {:induction false} TrimEndDrops(s: string, after: string)
    requires AllSpace(after)
    ensures TrimEnd(s + after) == TrimEnd(s)
    decreases |after|
  {
    if after == "" {
      assert s + after == s;
    } else {
      assert (s + after)[..|s + after| - 1] == s + after[..|after| - 1];
      TrimEndDrops(s, after[..|after| - 1]);
    }
  }

  lemma TrimDropsPadding(before: string, s: string, after: string)
    requires AllSpace(before) && AllSpace(after) && Tight(s)
    ensures Trim(before + (s + after)) == s
  {
    TrimStartDrops(before, s + after);
    if s == "" {
      assert s + after == after + "";
      TrimStartDrops(after, "");
    } else {
      assert (s + after)[0] == s[0];
      TrimEndDrops(s, after);
    }
  }

  lemma ToldIsCoerced(before: string, value: Value, after: string)
    requires AllSpace(before) && AllSpace(after) && IsTold(value)
    ensures Coerce(before + (TextOf(value) + after)) == value
  {
    var text := TextOf(value);
    TrimDropsPadding(before, text, after);
    JsonIsRecognised(text);
  }

  lemma JsonIsRecognised(text: string)
    ensures LooksLikeJson(text) <==> BeginsJson(text)
  {
    if text != "" {
      DigitsAreDigits(text[0]);
      if 2 <= |text| {
        DigitsAreDigits(text[1]);
      }
    }
  }

  lemma DigitsAreDigits(c: char)
    ensures c in "0123456789" <==> IsDigit(c)
    ensures c in "{[\"0123456789" <==> IsDigit(c) || c in {'{', '[', '"'}
  {
    if IsDigit(c) {
      var i := c as int - '0' as int;
      assert "0123456789"[i] == c && "{[\"0123456789"[i + 3] == c;
    }
  }

  /** The input object as the recovery builds it from the texts of the parameters. */
  function ReadInput(form: Form, input: map<string, Value>, params: seq<Param>): map<string, Value>
    decreases |params|
  {
    if params == [] then input
    else
      var key := if form.InToolCall? then Trim(params[0].key) else params[0].key;
      ReadInput(form, input[key := Coerce(params[0].value)], params[1..])
  }

  lemma {:induction false} ArgumentsAreRead(form: Form, input: map<string, Value>, arguments: seq<Argument>)
    requires forall i :: 0 <= i < |arguments| ==> GoodArgument(form, arguments[i])
    ensures ReadInput(form, input, Map(RawParam, arguments)) == InputFrom(input, arguments)
    decreases |arguments|
  {
    if arguments != [] {
      var a := arguments[0];
      assert GoodArgument(form, a);
      ToldIsCoerced(a.layout.valueBefore, a.value, a.layout.valueAfter);
      if form.InToolCall? {
        TrimDropsPadding(a.layout.before, a.key, a.layout.after);
      } else {
        assert "" + (a.key + "") == a.key;
      }
      assert Map(RawParam, arguments)[1..] == Map(RawParam, arguments[1..]);
      ArgumentsAreRead(form, input[a.key := a.value], arguments[1..]);
    }
  }

  /** What is read from the text of a call is what was meant. */
  lemma {:induction false} IntentIsRead(form: Form, call: Intent)
    requires Good(form, call)
    ensures Call(Trim(Raw(call).name), ReadInput(form, map[], Raw(call).params)) == CallFor(call)
  {
    TrimDropsPadding(call.layout.before, call.name, call.layout.after);
    ArgumentsAreRead(form, map[], call.arguments);
  }

  // ---------------------------------------------------------------- one's own tags

  /** `h` is a head of `p`, and every head is as long. */
  ghost predicate Spells(p: Pattern, h: string) {
    !p.fold && h in p.heads && forall g :: g in p.heads ==> |g| == |h|
  }

  lemma OwnTagIsHit(p: Pattern, h: string, s: string)
    requires Spells(p, h) && (p.bounded ==> s == "" || !IsWordChar(s[0]))
    ensures Hit(p, h + s) == Some(|h|)
  {
    var i :| 0 <= i < |p.heads| && p.heads[i] == h;
    assert HeadFits(p, p.heads[i], h + s);
  }

  lemma DsmlTagIsListed(open: string, first: char, second: char, word: string)
    requires first in BARS && second in BARS
    ensures DsmlTag(open, first, second, word) in DsmlTags(open, word)
  {
    var i := (if first == FULL_BAR then 0 else 2) + (if second == FULL_BAR then 0 else 1);
    assert DsmlTags(open, word)[i] == DsmlTag(open, first, second, word);
  }

  lemma FormSpellsItsTags(form: Form, word: string)
    requires form.Valid() && !form.InToolCall?
    ensures Spells(OpenTag(form.Dialect(), word), form.Open(word))
    ensures Spells(CloseTag(form.Dialect(), word), form.Close(word))
  {
    if form.InDsml? {
      DsmlTagIsListed("<", form.first, form.second, word);
      DsmlTagIsListed("</", form.first, form.second, word + ">");
    }
  }

  lemma Regroup(a: string, b: string, c: string, d: string, s: string)
    ensures (a + (b + (c + d))) + s == a + (b + (c + (d + s)))
  {
    Assoc(a, b + (c + d), s);
    Assoc(b, c + d, s);
    Assoc(c, d, s);
  }

  lemma DropHead(h: string, s: string)
    ensures (h + s)[|h|..] == s
  {
  }

  lemma {:induction false} OwnTagEndsBody(p: Pattern, close: string, body: string, s: string)
    requires Spells(p, close) && !p.bounded && NoneAt(p, body, close + s)
    ensures UntilTag(p, body + (close + s)) == Some(Cut(body, s))
  {
    OwnTagIsHit(p, close, s);
    DropHead(close, s);
    assert UntilTag(p, close + s) == Some(Cut("", s));
    UntilTagPasses(p, body, close + s);
    assert body + "" == body;
  }

  /** A printed element is matched whole, provided its body does not close it early. */
  lemma {:induction false} MatchesOwnElement(form: Form, word: string, name: string, layout: Layout, body: string,
                                             s: string)
    requires form.Valid() && !form.InToolCall? && name != "" && '"' !in name && GoodLayout(form, layout)
    requires NoneAt(CloseTag(form.Dialect(), word), body, form.Close(word) + s)
    ensures MatchElement(form.Dialect(), word, PrintElement(form, word, name, layout, body) + s)
            == Some(Element(name, body, s))
  {
    var d, open, close := form.Dialect(), form.Open(word), form.Close(word);
    var fromBody := body + (close + s);
    var fromAttributes := Attributes(layout, name) + fromBody;
    Regroup(open, Attributes(layout, name), body, close, s);
    FormSpellsItsTags(form, word);
    assert fromAttributes[0] == layout.lead[0];
    OwnTagIsHit(OpenTag(d, word), open, fromAttributes);
    DropHead(open, fromAttributes);
    OwnTagEndsBody(CloseTag(d, word), close, body, s);
    ReadsOwnAttributes(form, word, name, layout, fromBody, Cut(body, s));
  }

  lemma {:induction false} CutsAroundName(name: string, more: string, s: string)
    requires '"' !in name && '>' !in more
    ensures Until('"', name + ("\"" + (more + (">" + s)))) == Some(Cut(name, more + (">" + s)))
    ensures Until('>', more + (">" + s)) == Some(Cut(more, s))
  {
    UntilPasses('"', name, more + (">" + s));
    UntilPasses('>', more, s);
    assert "\"" + (more + (">" + s)) == ['"'] + (more + (">" + s)) && ">" + s == ['>'] + s;
  }

  lemma {:induction false} AfterNameIs(d: Dialect, word: string, s: string, name: Cut, tag: Cut, block: Cut)
    requires Until('"', s) == Some(name) && name.before != ""
    requires Until('>', name.after) == Some(tag)
    requires UntilTag(CloseTag(d, word), tag.after) == Some(block)
    ensures AfterName(d, word, s) == Some(Element(name.before, block.before, block.after))
  {
  }

  /** The search passes over attributes that hold no name. */
  lemma {:induction false} SearchPasses(d: Dialect, word: string, lead: string, s: string, afterWordChar: bool)
    requires '>' !in lead && forall i :: 0 <= i < |lead| ==> !(NAME <= (lead + NAME)[i..])
    ensures SearchName(d, word, lead + (NAME + s), afterWordChar)
            == SearchName(d, word, NAME + s, if lead == "" then afterWordChar else IsWordChar(lead[|lead| - 1]))
    decreases |lead|
  {
    if lead == "" {
      assert lead + (NAME + s) == NAME + s;
    } else {
      NoNameHere(lead, s);
      DropFirst(lead, NAME + s);
      forall i | 0 <= i < |lead[1..]|
        ensures !(NAME <= (lead[1..] + NAME)[i..])
      {
        assert (lead[1..] + NAME)[i..] == (lead + NAME)[i + 1..];
      }
      SearchPasses(d, word, lead[1..], s, IsWordChar(lead[0]));
    }
  }

  lemma NoNameHere(lead: string, s: string)
    requires lead != "" && !(NAME <= (lead + NAME)[0..])
    ensures !(NAME <= lead + (NAME + s))
  {
    assert (lead + NAME)[0..] == lead + NAME && lead + (NAME + s) == (lead + NAME) + s;
    assert ((lead + NAME) + s)[..|NAME|] == (lead + NAME)[..|NAME|];
  }

  lemma {:induction false} SearchFindsName(d: Dialect, word: string, s: string, afterWordChar: bool)
    requires (d.Bare? ==> !afterWordChar) && AfterName(d, word, s).Some?
    ensures SearchName(d, word, NAME + s, afterWordChar) == AfterName(d, word, s)
  {
    assert (NAME + s)[|NAME|..] == s && NAME <= NAME + s;
  }

  lemma AttributesText(layout: Layout, name: string, s: string)
    ensures Attributes(layout, name) + s == layout.lead + (NAME + (name + ("\"" + (layout.more + (">" + s)))))
  {
    var more := layout.more + ">";
    Assoc(layout.lead, NAME + (name + ("\"" + more)), s);
    Assoc(NAME, name + ("\"" + more), s);
    Assoc(name, "\"" + more, s);
    Assoc("\"", more, s);
    Assoc(layout.more, ">", s);
  }

  lemma {:induction false} ReadsOwnAttributes(form: Form, word: string, name: string, layout: Layout, s: string,
                                              block: Cut)
    requires !form.InToolCall? && name != "" && '"' !in name && GoodLayout(form, layout)
    requires UntilTag(CloseTag(form.Dialect(), word), s) == Some(block)
    ensures SearchName(form.Dialect(), word, Attributes(layout, name) + s, true)
            == Some(Element(name, block.before, block.after))
  {
    var d, lead, more := form.Dialect(), layout.lead, layout.more;
    var text := name + ("\"" + (more + (">" + s)));
    CutsAroundName(name, more, s);
    AfterNameIs(d, word, text, Cut(name, more + (">" + s)), Cut(more, s), block);
    AttributesText(layout, name, s);
    SearchPasses(d, word, lead, text, true);
    SearchFindsName(d, word, text, IsWordChar(lead[|lead| - 1]));
  }

  // ---------------------------------------------------------------- passing over printed text

  lemma PlainIsImmune(p: Pattern, t: string)
    requires Begins(p, {}) && '<' !in t
    ensures Immune(p, t)
  {
    OtherTagsImmune(p, t, {});
  }

  lemma BeginsLess(p: Pattern, chars: set<char>, fewer: set<char>)
    requires Begins(p, chars) && fewer <= chars
    ensures Begins(p, fewer)
  {
    forall h | h in p.heads
      ensures HeadBegins(p, h, fewer)
    {
      assert HeadBegins(p, h, chars);
    }
  }

  lemma OneTagIsImmune(p: Pattern, t: string, chars: set<char>)
    requires Begins(p, chars) && t != "" && t[0] == '<' && '<' !in t[1..] && TagBegins(t, 0, chars)
    ensures Immune(p, t)
  {
    forall i | 1 <= i < |t|
      ensures t[i] != '<'
    {
      assert t[1..][i - 1] == t[i];
    }
    OtherTagsImmune(p, t, chars);
  }

  lemma {:induction false} ImmuneThen(p: Pattern, a: string, t: string, s: string)
    requires Immune(p, a) && NoneAt(p, t, s)
    ensures NoneAt(p, a + t, s)
  {
    NoneAppend(p, a, t, s);
  }

  lemma {:induction false} ThenImmune(p: Pattern, t: string, a: string, s: string)
    requires NoneAt(p, t, a + s) && Immune(p, a)
    ensures NoneAt(p, t + a, s)
  {
    NoneAppend(p, t, a, s);
  }

  /** Two immune pieces before and one after a piece that ends at the last of them. */
  lemma {:induction false} PiecesPass(p: Pattern, a: string, b: string, c: string, d: string, s: string)
    requires Immune(p, a) && Immune(p, b) && Immune(p, d) && NoneAt(p, c, d + s)
    ensures NoneAt(p, a + (b + (c + d)), s)
  {
    ThenImmune(p, c, d, s);
    ImmuneThen(p, b, c + d, s);
    ImmuneThen(p, a, b + (c + d), s);
  }

  lemma AttributesAreImmune(p: Pattern, form: Form, layout: Layout, name: string)
    requires Begins(p, {}) && '<' !in name && !form.InToolCall? && GoodLayout(form, layout)
    ensures Immune(p, Attributes(layout, name))
  {
    PlainIsImmune(p, Attributes(layout, name));
  }

  /** An element passes when its tags and its body do. */
  lemma {:induction false} ElementPasses(p: Pattern, form: Form, word: string, name: string, layout: Layout,
                                         body: string, s: string)
    requires Begins(p, {}) && '<' !in name && !form.InToolCall? && GoodLayout(form, layout)
    requires Immune(p, form.Open(word)) && Immune(p, form.Close(word))
    requires NoneAt(p, body, form.Close(word) + s)
    ensures NoneAt(p, PrintElement(form, word, name, layout, body), s)
  {
    AttributesAreImmune(p, form, layout, name);
    PiecesPass(p, form.Open(word), Attributes(layout, name), body, form.Close(word), s);
  }

  lemma {:induction false} ParamsPass(p: Pattern, form: Form, params: seq<Param>, s: string)
    requires PlainHeads(p) && Begins(p, {}) && GoodParams(form, params) && !form.InToolCall?
    requires Immune(p, form.Open("parameter")) && Immune(p, form.Close("parameter"))
    requires forall i :: 0 <= i < |params| ==> Clear(p, params[i].value)
    ensures NoneAt(p, PrintParams(form, params), s)
  {
    if params != [] {
      var first, tail := params[0], params[1..];
      GoodTail(form, params);
      var after := PrintParams(form, tail) + s;
      CloseIsTag(form, "parameter");
      ProseNone(p, first.value, form.Close("parameter") + after);
      ElementPasses(p, form, "parameter", first.key, first.layout, first.value, after);
      ParamsPass(p, form, tail, s);
      NoneAppend(p, PrintElement(form, "parameter", first.key, first.layout, first.value), PrintParams(form, tail), s);
    }
  }

  lemma CloseIsTag(form: Form, word: string)
    ensures var close := form.Close(word); 2 <= |close| && close[0] == '<' && close[1] == '/'
    ensures var open := form.Open(word); open != "" && open[0] == '<'
  {
  }

  lemma {:induction false} ArgPasses(p: Pattern, param: Param, s: string)
    requires PlainHeads(p) && Begins(p, {'a'}) && Clear(p, param.value) && GoodParam(InToolCall, param)
    ensures NoneAt(p, PrintArg(param), s)
  {
    var gap := param.layout.gap;
    BeginsLess(p, {'a'}, {});
    PlainIsImmune(p, param.key);
    SpaceHasNoTag(gap);
    PlainIsImmune(p, gap);
    OneTagIsImmune(p, "<arg_key>", {'a'});
    OneTagIsImmune(p, "</arg_key>", {'a'});
    OneTagIsImmune(p, "<arg_value>", {'a'});
    OneTagIsImmune(p, "</arg_value>", {'a'});
    ImmuneAppend(p, gap, "<arg_value>");
    ProseNone(p, param.value, "</arg_value>" + s);
    PiecesPass(p, "</arg_key>", gap + "<arg_value>", param.value, "</arg_value>", s);
    ImmuneThen(p, param.key, "</arg_key>" + ((gap + "<arg_value>") + (param.value + "</arg_value>")), s);
    ImmuneThen(p, "<arg_key>",
               param.key + ("</arg_key>" + ((gap + "<arg_value>") + (param.value + "</arg_value>"))), s);
  }

  lemma SpaceHasNoTag(s: string)
    requires AllSpace(s)
    ensures '<' !in s
  {
  }

  lemma {:induction false} ArgsPassOver(p: Pattern, params: seq<Param>, s: string)
    requires PlainHeads(p) && Begins(p, {'a'}) && GoodParams(InToolCall, params)
    requires forall i :: 0 <= i < |params| ==> Clear(p, params[i].value)
    ensures NoneAt(p, PrintArgs(params), s)
  {
    if params != [] {
      GoodTail(InToolCall, params);
      ArgPasses(p, params[0], PrintArgs(params[1..]) + s);
      ArgsPassOver(p, params[1..], s);
      NoneAppend(p, PrintArg(params[0]), PrintArgs(params[1..]), s);
    }
  }
}

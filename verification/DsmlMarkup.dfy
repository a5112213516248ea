/**
 * The leaked tool-call markup of src/agent/dsml-salvage.ts: its tag patterns, the recovery of calls
 * from complete blocks, the stripping of stray tags and the streaming hold. Patterns are matched as
 * the regular expressions match, from a given position of the text onward.
 */
module DsmlMarkup {
  import opened Wrappers
  import opened Seqs
  import opened Text

  const FULL_BAR := '\U{FF5C}'
  const BARS := [FULL_BAR, '|']

  predicate IsWordChar(c: char) { 'a' <= c <= 'z' || 'A' <= c <= 'Z' || '0' <= c <= '9' || c == '_' }

  function Lower(c: char): char {
    if 'A' <= c <= 'Z' then c - 'A' + 'a' else c
  }

  // ---------------------------------------------------------------- tag heads

  /** Alternative literal heads; `fold` ignores ASCII case, `bounded` demands a word boundary after the head. */
  datatype Pattern = Pattern(heads: seq<string>, fold: bool, bounded: bool)

  predicate SameChar(p: Pattern, h: char, c: char) { h == if p.fold then Lower(c) else c }

  predicate HeadFits(p: Pattern, h: string, s: string) {
    && |h| <= |s|
    && (forall k :: 0 <= k < |h| ==> SameChar(p, h[k], s[k]))
    && (p.bounded && |h| < |s| ==> !IsWordChar(s[|h|]))
  }

  /** The length of the head that `s` begins with, if any. */
  function Hit(p: Pattern, s: string): (r: Option<nat>)
    ensures r.Some? <==> exists i :: 0 <= i < |p.heads| && HeadFits(p, p.heads[i], s)
    ensures r.Some? ==> exists i :: 0 <= i < |p.heads| && HeadFits(p, p.heads[i], s) && r.value == |p.heads[i]|
  {
    HitFrom(p, s, 0)
  }

  function HitFrom(p: Pattern, s: string, i: nat): (r: Option<nat>)
    requires i <= |p.heads|
    ensures r.Some? <==> exists k :: i <= k < |p.heads| && HeadFits(p, p.heads[k], s)
    ensures r.Some? ==> exists k :: i <= k < |p.heads| && HeadFits(p, p.heads[k], s) && r.value == |p.heads[k]|
    decreases |p.heads| - i
  {
    if i == |p.heads| then None
    else if HeadFits(p, p.heads[i], s) then Some(|p.heads[i]|)
    else HitFrom(p, s, i + 1)
  }

  /** The two dialects whose calls are `invoke` blocks with `parameter` blocks inside. */
  datatype Dialect = DSML | Bare

  function DsmlTag(open: string, first: char, second: char, word: string): string {
    open + ([first] + ("DSML" + ([second] + word)))
  }

  function DsmlTags(open: string, word: string): seq<string> {
    [DsmlTag(open, FULL_BAR, FULL_BAR, word), DsmlTag(open, FULL_BAR, '|', word),
     DsmlTag(open, '|', FULL_BAR, word), DsmlTag(open, '|', '|', word)]
  }

  function OpenTag(d: Dialect, word: string): Pattern {
    match d
    case DSML => Pattern(DsmlTags("<", word), false, true)
    case Bare => Pattern(["<" + word], false, true)
  }

  function CloseTag(d: Dialect, word: string): Pattern {
    match d
    case DSML => Pattern(DsmlTags("</", word + ">"), false, false)
    case Bare => Pattern(["</" + (word + ">")], false, false)
  }

  /** Tags that do not belong to a complete block. */
  const STRAY_DSML := Pattern(DsmlTags("<", "") + DsmlTags("</", ""), false, false)

  function StrayTag(word: string): Pattern { Pattern(["<" + word, "</" + word], true, true) }

  const TOOL_CALL_OPEN := Pattern(["<tool_call>"], false, false)
  const TOOL_CALL_CLOSE := Pattern(["</tool_call>"], false, false)
  const ARG_KEY_OPEN := Pattern(["<arg_key>"], false, false)
  const ARG_KEY_CLOSE := Pattern(["</arg_key>"], false, false)
  const ARG_VALUE_OPEN := Pattern(["<arg_value>"], false, false)
  const ARG_VALUE_CLOSE := Pattern(["</arg_value>"], false, false)

  /** Some position of `s` begins with a head of `p`. */
  predicate Occurs(p: Pattern, s: string) {
    exists i :: 0 <= i < |s| && Hit(p, s[i..]).Some?
  }

  // ---------------------------------------------------------------- matching

  datatype Cut = Cut(before: string, after: string)

  /** Everything up to the first `c`, which is dropped. */
  function Until(c: char, s: string): (r: Option<Cut>)
    ensures r.Some? ==> |r.value.before| + |r.value.after| < |s|
  {
    if s == "" then None
    else if s[0] == c then Some(Cut("", s[1..]))
    else match Until(c, s[1..])
      case None => None
      case Some(cut) => Some(Cut([s[0]] + cut.before, cut.after))
  }

  /** Everything up to the first head of `p`, which is dropped: a lazy `[\s\S]*?` before a literal. */
  function UntilTag(p: Pattern, s: string): (r: Option<Cut>)
    ensures r.Some? ==> |r.value.after| <= |s|
  {
    var hit := Hit(p, s);
    if hit.Some? then Some(Cut("", s[hit.value..]))
    else if s == "" then None
    else match UntilTag(p, s[1..])
      case None => None
      case Some(cut) => Some(Cut([s[0]] + cut.before, cut.after))
  }

  datatype Element = Element(name: string, body: string, rest: string)

  const NAME := "name=\""

  /** The attribute value, the rest of the tag and the block up to its closing tag. */
  function AfterName(d: Dialect, word: string, s: string): (r: Option<Element>)
    ensures r.Some? ==> |r.value.rest| <= |s|
  {
    match Until('"', s)
    case None => None
    case Some(name) =>
      if name.before == "" then None
      else match Until('>', name.after)
        case None => None
        case Some(tag) =>
          match UntilTag(CloseTag(d, word), tag.after)
          case None => None
          case Some(block) => Some(Element(name.before, block.before, block.after))
  }

  /** Lazy search for the name attribute inside the opening tag; the bare form wants a word boundary before it. */
  function SearchName(d: Dialect, word: string, s: string, afterWordChar: bool): (r: Option<Element>)
    ensures r.Some? ==> |r.value.rest| <= |s|
  {
    var here := if NAME <= s && (d.Bare? ==> !afterWordChar) then AfterName(d, word, s[|NAME|..]) else None;
    if here.Some? then here
    else if s == "" || s[0] == '>' then None
    else SearchName(d, word, s[1..], IsWordChar(s[0]))
  }

  /** A complete `invoke` or `parameter` block at the beginning of `s`. */
  function MatchElement(d: Dialect, word: string, s: string): (r: Option<Element>)
    ensures r.Some? ==> |r.value.rest| < |s| && Hit(OpenTag(d, word), s).Some?
  {
    match Hit(OpenTag(d, word), s)
    case None => None
    case Some(n) => SearchName(d, word, s[n..], true)
  }

  datatype Scan<T> = Scan(found: seq<T>, out: string)

  /** All blocks, left to right without overlap, and the text with each replaced by a space. */
  function ScanElements(d: Dialect, word: string, s: string): Scan<Element>
    decreases |s|
  {
    if s == "" then Scan([], "")
    else match MatchElement(d, word, s)
      case Some(e) =>
        var tail := ScanElements(d, word, e.rest);
        Scan([e] + tail.found, " " + tail.out)
      case None =>
        var tail := ScanElements(d, word, s[1..]);
        Scan(tail.found, [s[0]] + tail.out)
  }

  // ---------------------------------------------------------------- values and calls

  /** A parameter value: a string, or a text handed to JSON.parse. */
  datatype Value = Text(s: string) | Json(text: string)

  predicate IsDigit(c: char) { '0' <= c <= '9' }

  predicate LooksLikeJson(s: string) {
    && s != ""
    && (|| s[0] in {'{', '[', '"'}
        || IsDigit(s[0])
        || (s[0] == '-' && 1 < |s| && IsDigit(s[1]))
        || s == "true" || s == "false" || s == "null")
  }

  function Coerce(raw: string): Value {
    var trimmed := Trim(raw);
    if trimmed != "" && LooksLikeJson(trimmed) then Json(trimmed) else Text(trimmed)
  }

  datatype Call = Call(name: string, input: map<string, Value>)

  function ParamsFrom(input: map<string, Value>, found: seq<Element>): map<string, Value>
    decreases |found|
  {
    if found == [] then input
    else ParamsFrom(input[found[0].name := Coerce(found[0].body)], found[1..])
  }

  function Params(d: Dialect, body: string): map<string, Value> {
    ParamsFrom(map[], ScanElements(d, "parameter", body).found)
  }

  /** The loop that fills the input object from one match after another. */
  method CollectParams(d: Dialect, body: string) returns (input: map<string, Value>)
    ensures input == Params(d, body)
  {
    input := map[];
    var s := body;
    while s != ""
      invariant ParamsFrom(input, ScanElements(d, "parameter", s).found) == Params(d, body)
      decreases |s|
    {
      var block := MatchElement(d, "parameter", s);
      if block.Some? {
        ghost var found := ScanElements(d, "parameter", s).found;
        assert found[1..] == ScanElements(d, "parameter", block.value.rest).found;
        input := input[block.value.name := Coerce(block.value.body)];
        s := block.value.rest;
      } else {
        s := s[1..];
      }
    }
  }

  function CallOf(d: Dialect, e: Element): Call { Call(Trim(e.name), Params(d, e.body)) }

  function CallsOf(d: Dialect, found: seq<Element>): seq<Call> {
    if found == [] then [] else [CallOf(d, found[0])] + CallsOf(d, found[1..])
  }

  // ---------------------------------------------------------------- the tool_call form

  datatype Arg = Arg(key: string, value: string, rest: string)

  /** The key may run over closing tags that no value follows. */
  function SearchKey(s: string, key: string): (r: Option<Arg>)
    ensures r.Some? ==> |r.value.rest| <= |s|
    decreases |s|
  {
    var here :=
      if Hit(ARG_KEY_CLOSE, s).Some? then
        var t := TrimStart(s[|"</arg_key>"|..]);
        if Hit(ARG_VALUE_OPEN, t).Some? then UntilTag(ARG_VALUE_CLOSE, t[|"<arg_value>"|..]) else None
      else None;
    if here.Some? then Some(Arg(key, here.value.before, here.value.after))
    else if s == "" then None
    else SearchKey(s[1..], key + [s[0]])
  }

  function MatchArg(s: string): (r: Option<Arg>)
    ensures r.Some? ==> |r.value.rest| < |s|
  {
    if Hit(ARG_KEY_OPEN, s).Some? then SearchKey(s[|"<arg_key>"|..], "") else None
  }

  function ArgsFrom(input: map<string, Value>, s: string): map<string, Value>
    decreases |s|
  {
    if s == "" then input
    else match MatchArg(s)
      case Some(arg) => ArgsFrom(input[Trim(arg.key) := Coerce(arg.value)], arg.rest)
      case None => ArgsFrom(input, s[1..])
  }

  function BeforeTag(s: string): string {
    if s == "" || s[0] == '<' then "" else [s[0]] + BeforeTag(s[1..])
  }

  /** The name runs to the first tag, which must open an argument, or to the end. */
  function InnerCall(inner: string): Option<Call> {
    var segment := BeforeTag(inner);
    var name := Trim(segment);
    var rest := if |segment| <= |inner| then inner[|segment|..] else "";
    if name == "" || !(rest == "" || Hit(ARG_KEY_OPEN, rest).Some?) then None
    else Some(Call(name, ArgsFrom(map[], inner)))
  }

  function MatchToolCall(s: string): (r: Option<Cut>)
    ensures r.Some? ==> |r.value.after| < |s|
  {
    if Hit(TOOL_CALL_OPEN, s).Some? then UntilTag(TOOL_CALL_CLOSE, s[|"<tool_call>"|..]) else None
  }

  function ScanToolCalls(s: string): Scan<Call>
    decreases |s|
  {
    if s == "" then Scan([], "")
    else match MatchToolCall(s)
      case Some(block) =>
        var tail := ScanToolCalls(block.after);
        var call := InnerCall(block.before);
        Scan((if call.Some? then [call.value] else []) + tail.found, " " + tail.out)
      case None =>
        var tail := ScanToolCalls(s[1..]);
        Scan(tail.found, [s[0]] + tail.out)
  }

  // ---------------------------------------------------------------- stray tags and white space

  /** `[^>]{0,200}>` after a stray head. */
  function StrayEnd(s: string): (r: Option<string>)
    ensures r.Some? ==> |r.value| <= |s|
  {
    match Until('>', s)
    case Some(cut) => if |cut.before| <= 200 then Some(cut.after) else None
    case None => None
  }

  function StripStrays(p: Pattern, s: string): string
    requires "" !in p.heads
    decreases |s|
  {
    if s == "" then ""
    else
      var hit := Hit(p, s);
      var end := if hit.Some? then StrayEnd(s[hit.value..]) else None;
      if end.Some? then " " + StripStrays(p, end.value)
      else [s[0]] + StripStrays(p, s[1..])
  }

  predicate IsBlank(c: char) { c == ' ' || c == '\t' }

  predicate IsLineEnd(c: char) { c == '\n' || c == '\r' || c as int == 0x2028 || c as int == 0x2029 }

  function RunOfBlanks(s: string): (n: nat)
    ensures n <= |s|
  {
    if s != "" && IsBlank(s[0]) then 1 + RunOfBlanks(s[1..]) else 0
  }

  function RunOfNewlines(s: string): (n: nat)
    ensures n <= |s|
  {
    if s != "" && s[0] == '\n' then 1 + RunOfNewlines(s[1..]) else 0
  }

  function CollapseBlanks(s: string): string {
    if s == "" then ""
    else
      var n := RunOfBlanks(s);
      if 2 <= n then " " + CollapseBlanks(s[n..]) else [s[0]] + CollapseBlanks(s[1..])
  }

  function EmptyBlankLines(s: string, lineStart: bool): string
    decreases |s|
  {
    if s == "" then ""
    else
      var n := RunOfBlanks(s);
      if lineStart && 0 < n && (n == |s| || IsLineEnd(s[n])) then EmptyBlankLines(s[n..], false)
      else [s[0]] + EmptyBlankLines(s[1..], IsLineEnd(s[0]))
  }

  function CollapseNewlines(s: string): string {
    if s == "" then ""
    else
      var n := RunOfNewlines(s);
      if 3 <= n then "\n\n" + CollapseNewlines(s[n..]) else [s[0]] + CollapseNewlines(s[1..])
  }

  function CollapseWhitespace(s: string): string {
    Trim(CollapseNewlines(EmptyBlankLines(CollapseBlanks(s), true)))
  }

  // ---------------------------------------------------------------- detection, salvage, strip

  const DSML_MARKER := Pattern(DsmlTags("", ""), false, false)

  predicate HasDsml(s: string) { Occurs(DSML_MARKER, s) }

  predicate HasBare(s: string) { Occurs(StrayTag("invoke"), s) || Occurs(StrayTag("parameter"), s) }

  predicate HasToolCall(s: string) { Occurs(StrayTag("tool_call"), s) }

  predicate HasMarkup(s: string) { HasDsml(s) || HasBare(s) || HasToolCall(s) }

  datatype Salvage = Salvage(hadMarkup: bool, calls: seq<Call>, cleaned: string)

  /** Recovering the calls of one dialect, and stripping its stray tags. */
  function DsmlStage(hasDsml: bool, s: string): Scan<Call> {
    if !hasDsml then Scan([], s)
    else
      var scan := ScanElements(DSML, "invoke", s);
      Scan(CallsOf(DSML, scan.found), StripStrays(STRAY_DSML, scan.out))
  }

  function BareStage(hasBare: bool, s: string): Scan<Call> {
    if !hasBare then Scan([], s)
    else
      var scan := ScanElements(Bare, "invoke", s);
      Scan(CallsOf(Bare, scan.found),
           StripStrays(StrayTag("parameter"), StripStrays(StrayTag("invoke"), scan.out)))
  }

  function ToolCallStage(hasToolCall: bool, s: string): Scan<Call> {
    if !hasToolCall then Scan([], s)
    else
      var scan := ScanToolCalls(s);
      Scan(scan.found, StripStrays(StrayTag("tool_call"), scan.out))
  }

  function Then(first: Scan<Call>, second: Scan<Call>): Scan<Call> {
    Scan(first.found + second.found, second.out)
  }

  /** The three recoveries in a row, each on the text the one before left. */
  function Stages(hasDsml: bool, hasBare: bool, hasToolCall: bool, source: string): Scan<Call> {
    var one := Then(Scan([], source), DsmlStage(hasDsml, source));
    var two := Then(one, BareStage(hasBare, one.out));
    Then(two, ToolCallStage(hasToolCall, two.out))
  }

  function Salvaged(source: string): Salvage {
    if !HasMarkup(source) then Salvage(false, [], source)
    else
      var all := Stages(HasDsml(source), HasBare(source), HasToolCall(source), source);
      Salvage(true, all.found, CollapseWhitespace(all.out))
  }

  method SalvageDsmlToolCalls(source: string) returns (result: Salvage)
    ensures result == Salvaged(source)
  {
    var hasDsml, hasBare, hasToolCall := HasDsml(source), HasBare(source), HasToolCall(source);
    if !hasDsml && !hasBare && !hasToolCall {
      return Salvage(false, [], source);
    }
    var calls, cleaned := RunStages(hasDsml, hasBare, hasToolCall, source);
    result := Salvage(true, calls, CollapseWhitespace(cleaned));
  }

  method RunStages(hasDsml: bool, hasBare: bool, hasToolCall: bool, source: string)
    returns (calls: seq<Call>, cleaned: string)
    ensures Scan(calls, cleaned) == Stages(hasDsml, hasBare, hasToolCall, source)
  {
    calls, cleaned := RunDsmlStage(hasDsml, [], source);
    calls, cleaned := RunBareStage(hasBare, calls, cleaned);
    calls, cleaned := RunToolCallStage(hasToolCall, calls, cleaned);
  }

  method RunDsmlStage(hasDsml: bool, callsIn: seq<Call>, source: string) returns (calls: seq<Call>, cleaned: string)
    ensures Scan(calls, cleaned) == Then(Scan(callsIn, source), DsmlStage(hasDsml, source))
  {
    calls, cleaned := callsIn, source;
    if hasDsml {
      var scan := ScanElements(DSML, "invoke", cleaned);
      for i := 0 to |scan.found|
        invariant calls + CallsOf(DSML, scan.found[i..]) == callsIn + CallsOf(DSML, scan.found)
      {
        Assoc(calls, [CallOf(DSML, scan.found[i])], CallsOf(DSML, scan.found[i + 1..]));
        calls := calls + [CallOf(DSML, scan.found[i])];
      }
      cleaned := StripStrays(STRAY_DSML, scan.out);
    }
  }

  method RunBareStage(hasBare: bool, callsIn: seq<Call>, source: string) returns (calls: seq<Call>, cleaned: string)
    ensures Scan(calls, cleaned) == Then(Scan(callsIn, source), BareStage(hasBare, source))
  {
    calls, cleaned := callsIn, source;
    if hasBare {
      var scan := ScanElements(Bare, "invoke", cleaned);
      for i := 0 to |scan.found|
        invariant calls + CallsOf(Bare, scan.found[i..]) == callsIn + CallsOf(Bare, scan.found)
      {
        Assoc(calls, [CallOf(Bare, scan.found[i])], CallsOf(Bare, scan.found[i + 1..]));
        calls := calls + [CallOf(Bare, scan.found[i])];
      }
      cleaned := StripStrays(StrayTag("invoke"), scan.out);
      cleaned := StripStrays(StrayTag("parameter"), cleaned);
    }
  }

  method RunToolCallStage(hasToolCall: bool, callsIn: seq<Call>, source: string)
    returns (calls: seq<Call>, cleaned: string)
    ensures Scan(calls, cleaned) == Then(Scan(callsIn, source), ToolCallStage(hasToolCall, source))
  {
    calls, cleaned := callsIn, source;
    if hasToolCall {
      var scan := ScanToolCalls(cleaned);
      calls := calls + scan.found;
      cleaned := StripStrays(StrayTag("tool_call"), scan.out);
    }
  }

  function ReplaceFirstMarker(s: string): string {
    if s == "" then ""
    else if Hit(DSML_MARKER, s).Some? then " " + s[|"|DSML|"|..]
    else [s[0]] + ReplaceFirstMarker(s[1..])
  }

  /** `stripDsmlMarkup`: all markup removed without recovering calls. */
  function StripMarkup(source: string): string {
    if !HasMarkup(source) then source
    else
      var dsml := StripStrays(STRAY_DSML, ScanElements(DSML, "invoke", source).out);
      var bare := ScanElements(Bare, "invoke", dsml).out;
      var grok := ScanToolCalls(bare).out;
      var strays := StripStrays(StrayTag("tool_call"),
                                StripStrays(StrayTag("parameter"), StripStrays(StrayTag("invoke"), grok)));
      CollapseWhitespace(ReplaceFirstMarker(strays))
  }
}

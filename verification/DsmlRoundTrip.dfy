/** Salvaging a text that carries printed calls gives the calls back, and leaves the prose around them. */
module DsmlRoundTrip {
  import opened Seqs
  import opened DsmlMarkup
  import opened DsmlPatterns
  import opened DsmlStream
  import opened DsmlTagFacts
  import opened DsmlPrinter
  import opened DsmlBlocks

  /** Prose with printed calls in it. */
  datatype Doc = End(text: string) | Then(text: string, form: Form, call: Intent, rest: Doc)

  predicate GoodDoc(doc: Doc) {
    OpenerFree(doc.text) && (doc.Then? ==> Good(doc.form, doc.call) && GoodDoc(doc.rest))
  }

  /** A block, or the space that a recovery stage before `stage` has put in its place. */
  function Shown(form: Form, call: Intent, stage: nat): string {
    if form.Stage() < stage then " " else Print(form, call)
  }

  /** The text once the forms of the first `stage` recovery stages have been taken out. */
  function Render(doc: Doc, stage: nat): string {
    match doc
    case End(text) => text
    case Then(text, form, call, rest) =>
      text + (Shown(form, call, stage) + Render(rest, stage))
  }

  /** The calls printed in the forms of one stage, in text order. */
  function CallsAt(doc: Doc, stage: nat): seq<Call> {
    if doc.End? then []
    else (if doc.form.Stage() == stage then [CallFor(doc.call)] else []) + CallsAt(doc.rest, stage)
  }

  function AllCalls(doc: Doc): seq<Call> {
    if doc.End? then [] else [CallFor(doc.call)] + AllCalls(doc.rest)
  }

  lemma {:induction false} RenderBegins(doc: Doc, stage: nat)
    requires doc.Then?
    ensures Boundary(Shown(doc.form, doc.call, stage) + Render(doc.rest, stage))
  {
    CloseIsTag(doc.form, "invoke");
  }

  // ---------------------------------------------------------------- what a scanner passes over

  lemma SpaceIsImmune(p: Pattern)
    requires Begins(p, {})
    ensures Immune(p, " ")
  {
    PlainIsImmune(p, " ");
  }

  lemma TagBegins0(p: Pattern, chars: set<char>)
    requires IsTag(p, chars)
    ensures Begins(p, {})
  {
    BeginsLess(p, chars, {});
  }

  lemma {:induction false} ProsePasses(p: Pattern, chars: set<char>, doc: Doc, stage: nat)
    requires IsTag(p, chars) && GoodDoc(doc) && doc.Then?
    ensures NoneAt(p, doc.text, Shown(doc.form, doc.call, stage) + Render(doc.rest, stage))
  {
    OpenerFreeIsClearOf(p, chars, doc.text);
    RenderBegins(doc, stage);
    ProseNone(p, doc.text, Shown(doc.form, doc.call, stage) + Render(doc.rest, stage));
  }

  lemma {:induction false} EndPasses(p: Pattern, chars: set<char>, text: string)
    requires IsTag(p, chars) && OpenerFree(text)
    ensures NoneAt(p, text, "")
  {
    OpenerFreeIsClearOf(p, chars, text);
    ProseNone(p, text, "");
  }

  /** Once a stage is over, its tags are nowhere in the text. */
  lemma {:induction false} TagsAreGone(p: Pattern, doc: Doc, stage: nat)
    requires 1 <= stage && IsTag(p, Initials(stage)) && GoodDoc(doc)
    ensures NoneAt(p, Render(doc, stage), "")
    decreases doc
  {
    match doc
    case End(text) => EndPasses(p, Initials(stage), text);
    case Then(text, form, call, rest) =>
      var block := Shown(form, call, stage);
      var after := Render(rest, stage);
      TagsAreGone(p, rest, stage);
      assert after + "" == after && (block + after) + "" == block + after;
      BlockPasses(p, form, call, stage, after);
      NoneAppend(p, block, after, "");
      ProsePasses(p, Initials(stage), doc, stage);
      NoneAppend(p, text, block + after, "");
  }

  lemma {:induction false} BlockPasses(p: Pattern, form: Form, call: Intent, stage: nat, s: string)
    requires 1 <= stage && IsTag(p, Initials(stage)) && Good(form, call)
    ensures NoneAt(p, Shown(form, call, stage), s)
  {
    if form.Stage() < stage {
      TagBegins0(p, Initials(stage));
      SpaceIsImmune(p);
    } else {
      LaterBlockPasses(p, form, call, stage, s);
    }
  }

  lemma {:induction false} StraysAreGone(p: Pattern, doc: Doc, stage: nat)
    requires 1 <= stage && IsTag(p, Initials(stage)) && GoodDoc(doc)
    ensures "" !in p.heads
    ensures StripStrays(p, Render(doc, stage)) == Render(doc, stage)
  {
    TagsAreGone(p, doc, stage);
    assert Render(doc, stage) + "" == Render(doc, stage);
    StripPasses(p, Render(doc, stage), "");
  }

  // ---------------------------------------------------------------- the scan of a stage

  ghost predicate ReadsDialect(d: Dialect, stage: nat) {
    (d.DSML? && stage == 0) || (d.Bare? && stage == 1)
  }

  lemma OpenTagIsTag(d: Dialect, stage: nat)
    requires ReadsDialect(d, stage)
    ensures IsTag(OpenTag(d, "invoke"), Initials(stage + 1))
  {
    if d.DSML? {
      DsmlIsTag("invoke");
    } else {
      InvokeIsTag();
    }
  }

  lemma {:induction false} ScanOfBlock(d: Dialect, stage: nat, form: Form, call: Intent, s: string)
    requires ReadsDialect(d, stage) && Good(form, call)
    ensures var block := Shown(form, call, stage);
            var scan, tail := ScanElements(d, "invoke", block + s), ScanElements(d, "invoke", s);
            && CallsOf(d, scan.found)
               == (if form.Stage() == stage then [CallFor(call)] else []) + CallsOf(d, tail.found)
            && scan.out == (if form.Stage() <= stage then " " else block) + tail.out
  {
    var block := Shown(form, call, stage);
    if form.Stage() == stage {
      InvokeIsRead(form, call, s);
      var e := MatchElement(d, "invoke", block + s).value;
      assert block + s != "";
      assert ([e] + ScanElements(d, "invoke", s).found)[1..] == ScanElements(d, "invoke", s).found;
    } else {
      OpenTagIsTag(d, stage);
      BlockPasses(OpenTag(d, "invoke"), form, call, stage + 1, s);
      ScanPasses(d, "invoke", block, s);
    }
  }

  /** The scan of a dialect finds its calls in order and puts a space in place of each block. */
  lemma {:induction false} ScanReadsStage(d: Dialect, stage: nat, doc: Doc)
    requires ReadsDialect(d, stage) && GoodDoc(doc)
    ensures var scan := ScanElements(d, "invoke", Render(doc, stage));
            CallsOf(d, scan.found) == CallsAt(doc, stage) && scan.out == Render(doc, stage + 1)
    decreases doc
  {
    var p := OpenTag(d, "invoke");
    OpenTagIsTag(d, stage);
    match doc
    case End(text) =>
      EndPasses(p, Initials(stage + 1), text);
      assert text + "" == text;
      ScanPasses(d, "invoke", text, "");
    case Then(text, form, call, rest) =>
      var block := Shown(form, call, stage);
      ProsePasses(p, Initials(stage + 1), doc, stage);
      ScanPasses(d, "invoke", text, block + Render(rest, stage));
      ScanOfBlock(d, stage, form, call, Render(rest, stage));
      ScanReadsStage(d, stage, rest);
  }

  lemma {:induction false} ScanOfToolCall(form: Form, call: Intent, s: string)
    requires Good(form, call)
    ensures var block := Shown(form, call, 2);
            var scan, tail := ScanToolCalls(block + s), ScanToolCalls(s);
            && scan.found == (if form.Stage() == 2 then [CallFor(call)] else []) + tail.found
            && scan.out == " " + tail.out
  {
    var block := Shown(form, call, 2);
    if form.InToolCall? {
      ToolCallIsRead(call, s);
      assert block + s != "";
    } else {
      ToolCallIsTag();
      BlockPasses(TOOL_CALL_OPEN, form, call, 3, s);
      ToolScanPasses(block, s);
    }
  }

  lemma {:induction false} ScanReadsToolCalls(doc: Doc)
    requires GoodDoc(doc)
    ensures ScanToolCalls(Render(doc, 2)) == Scan(CallsAt(doc, 2), Render(doc, 3))
    decreases doc
  {
    ToolCallIsTag();
    match doc
    case End(text) =>
      EndPasses(TOOL_CALL_OPEN, Initials(3), text);
      assert text + "" == text;
      ToolScanPasses(text, "");
    case Then(text, form, call, rest) =>
      var block := Shown(form, call, 2);
      ProsePasses(TOOL_CALL_OPEN, Initials(3), doc, 2);
      ToolScanPasses(text, block + Render(rest, 2));
      ScanOfToolCall(form, call, Render(rest, 2));
      ScanReadsToolCalls(rest);
  }

  // ---------------------------------------------------------------- the test before a stage

  lemma OccursLater(p: Pattern, t: string, s: string)
    requires Occurs(p, s)
    ensures Occurs(p, t + s)
  {
    var i :| 0 <= i < |s| && Hit(p, s[i..]).Some?;
    assert (t + s)[|t| + i..] == s[i..];
    assert 0 <= |t| + i < |t + s| && Hit(p, (t + s)[|t| + i..]).Some?;
  }

  lemma OccursFirst(p: Pattern, h: string, s: string)
    requires h in p.heads && h != "" && HeadFits(p, h, h + s)
    ensures Occurs(p, h + s)
  {
    var i :| 0 <= i < |p.heads| && p.heads[i] == h;
    assert (h + s)[0..] == h + s;
    assert Hit(p, (h + s)[0..]).Some?;
  }

  /** The test that turns on the stage for a form. */
  predicate Detects(stage: nat, s: string) {
    if stage == 0 then HasDsml(s) else if stage == 1 then HasBare(s) else HasToolCall(s)
  }

  lemma DetectsLater(stage: nat, t: string, s: string)
    requires Detects(stage, s)
    ensures Detects(stage, t + s)
  {
    if stage == 0 {
      OccursLater(DSML_MARKER, t, s);
    } else if stage == 1 {
      if Occurs(StrayTag("invoke"), s) {
        OccursLater(StrayTag("invoke"), t, s);
      } else {
        OccursLater(StrayTag("parameter"), t, s);
      }
    } else {
      OccursLater(StrayTag("tool_call"), t, s);
    }
  }

  lemma DetectsDsml(form: Form, word: string, s: string)
    requires form.InDsml? && form.Valid()
    ensures HasDsml(form.Open(word) + s)
  {
    var h := DsmlTag("", form.first, form.second, "");
    DsmlTagIsListed("", form.first, form.second, "");
    assert form.Open(word) + s == "<" + (h + (word + s));
    OccursFirst(DSML_MARKER, h, word + s);
    OccursLater(DSML_MARKER, "<", h + (word + s));
  }

  lemma DetectsWord(word: string, s: string)
    requires IsWord(word) && (s == "" || !IsWordChar(s[0]))
    ensures Occurs(StrayTag(word), "<" + word + s)
  {
    var h := "<" + word;
    assert h == StrayTag(word).heads[0];
    OccursFirst(StrayTag(word), h, s);
  }

  lemma DetectsToolCall(call: Intent, s: string)
    ensures HasToolCall(Print(InToolCall, call) + s)
  {
    var rest := (Raw(call).name + PrintArgs(Raw(call).params)) + "</tool_call>";
    TheWords();
    Assoc("<tool_call>", rest, s);
    Assoc("<" + "tool_call", ">", rest + s);
    DetectsWord("tool_call", ">" + (rest + s));
  }

  lemma DetectsInvoke(form: Form, call: Intent, s: string)
    requires Good(form, call) && !form.InToolCall?
    ensures Detects(form.Stage(), Print(form, call) + s)
  {
    var rest := Attributes(call.layout, Raw(call).name) + (PrintParams(form, Raw(call).params) + form.Close("invoke"));
    Assoc(form.Open("invoke"), rest, s);
    if form.InDsml? {
      DetectsDsml(form, "invoke", rest + s);
    } else {
      TheWords();
      DetectsWord("invoke", rest + s);
    }
  }

  lemma DetectsOwnBlock(form: Form, call: Intent, s: string)
    requires Good(form, call)
    ensures Detects(form.Stage(), Print(form, call) + s)
  {
    if form.InToolCall? {
      DetectsToolCall(call, s);
    } else {
      DetectsInvoke(form, call, s);
    }
  }

  /** A stage that is not turned on has nothing to read. */
  lemma {:induction false} UndetectedMeansAbsent(doc: Doc, stage: nat)
    requires GoodDoc(doc) && stage <= 2
    requires !Detects(stage, Render(doc, 0))
    ensures CallsAt(doc, stage) == [] && Render(doc, stage) == Render(doc, stage + 1)
    decreases doc
  {
    if doc.Then? {
      var block, after := Print(doc.form, doc.call), Render(doc.rest, 0);
      if Detects(stage, block + after) {
        DetectsLater(stage, doc.text, block + after);
      }
      if Detects(stage, after) {
        DetectsLater(stage, block, after);
      }
      if doc.form.Stage() == stage {
        DetectsOwnBlock(doc.form, doc.call, after);
      }
      UndetectedMeansAbsent(doc.rest, stage);
    }
  }

  // ---------------------------------------------------------------- the three stages

  /** Leaving a stage out makes no difference. */
  ghost predicate Absent(doc: Doc, stage: nat) {
    CallsAt(doc, stage) == [] && Render(doc, stage) == Render(doc, stage + 1)
  }

  /** The text before and after a stage, and its calls. */
  ghost predicate IsStage(doc: Doc, stage: nat, before: string, calls: seq<Call>, after: string) {
    && GoodDoc(doc)
    && before == Render(doc, stage) && calls == CallsAt(doc, stage) && after == Render(doc, stage + 1)
  }

  lemma {:induction false} ScanOfStage(d: Dialect, doc: Doc, stage: nat, before: string, calls: seq<Call>,
                                       after: string)
    requires ReadsDialect(d, stage) && IsStage(doc, stage, before, calls, after)
    ensures var scan := ScanElements(d, "invoke", before); CallsOf(d, scan.found) == calls && scan.out == after
  {
    ScanReadsStage(d, stage, doc);
  }

  lemma {:induction false} DsmlStraysAreGone(doc: Doc, s: string)
    requires GoodDoc(doc) && s == Render(doc, 1)
    ensures "" !in STRAY_DSML.heads && StripStrays(STRAY_DSML, s) == s
  {
    StrayDsmlIsTag();
    StraysAreGone(STRAY_DSML, doc, 1);
  }

  lemma {:induction false} DsmlStageGives(detected: bool, before: string, calls: seq<Call>, after: string)
    requires detected ==> var scan := ScanElements(DSML, "invoke", before);
                          CallsOf(DSML, scan.found) == calls && scan.out == after
    requires detected ==> StripStrays(STRAY_DSML, after) == after
    requires !detected ==> calls == [] && before == after
    ensures DsmlStage(detected, before) == Scan(calls, after)
  {
  }

  lemma DsmlStageReads(detected: bool, doc: Doc, stage: nat, before: string, calls: seq<Call>, after: string)
    requires stage == 0 && IsStage(doc, stage, before, calls, after)
    requires detected || (calls == [] && before == after)
    ensures DsmlStage(detected, before) == Scan(calls, after)
  {
    if detected {
      ScanOfStage(DSML, doc, stage, before, calls, after);
      DsmlStraysAreGone(doc, after);
    }
    DsmlStageGives(detected, before, calls, after);
  }

  lemma {:induction false} BareStraysAreGone(doc: Doc, s: string)
    requires GoodDoc(doc) && s == Render(doc, 2)
    ensures StripStrays(StrayTag("invoke"), s) == s && StripStrays(StrayTag("parameter"), s) == s
  {
    InvokeIsTag();
    StraysAreGone(StrayTag("invoke"), doc, 2);
    ParameterIsTag();
    StraysAreGone(StrayTag("parameter"), doc, 2);
  }

  lemma {:induction false} BareStageGives(detected: bool, before: string, calls: seq<Call>, after: string)
    requires detected ==> var scan := ScanElements(Bare, "invoke", before);
                          CallsOf(Bare, scan.found) == calls && scan.out == after
    requires detected ==> StripStrays(StrayTag("invoke"), after) == after
                          && StripStrays(StrayTag("parameter"), after) == after
    requires !detected ==> calls == [] && before == after
    ensures BareStage(detected, before) == Scan(calls, after)
  {
  }

  lemma BareStageReads(detected: bool, doc: Doc, stage: nat, before: string, calls: seq<Call>, after: string)
    requires stage == 1 && IsStage(doc, stage, before, calls, after)
    requires detected || (calls == [] && before == after)
    ensures BareStage(detected, before) == Scan(calls, after)
  {
    if detected {
      ScanOfStage(Bare, doc, stage, before, calls, after);
      BareStraysAreGone(doc, after);
    }
    BareStageGives(detected, before, calls, after);
  }

  lemma {:induction false} ToolCallStraysAreGone(doc: Doc, s: string)
    requires GoodDoc(doc) && s == Render(doc, 3)
    ensures StripStrays(StrayTag("tool_call"), s) == s
  {
    ToolCallIsTag();
    StraysAreGone(StrayTag("tool_call"), doc, 3);
  }

  lemma ToolCallStageReads(detected: bool, doc: Doc, stage: nat, before: string, calls: seq<Call>, after: string)
    requires stage == 2 && IsStage(doc, stage, before, calls, after)
    requires detected || (calls == [] && before == after)
    ensures ToolCallStage(detected, before) == Scan(calls, after)
  {
    if detected {
      ScanReadsToolCalls(doc);
      ToolCallStraysAreGone(doc, after);
    }
  }

  lemma {:induction false} UndetectedStageIsAbsent(doc: Doc, stage: nat)
    requires GoodDoc(doc) && stage <= 2
    ensures Detects(stage, Render(doc, 0)) || Absent(doc, stage)
  {
    if !Detects(stage, Render(doc, 0)) {
      UndetectedMeansAbsent(doc, stage);
    }
  }

  /** A stage that its test leaves out has nothing to read. */
  ghost predicate OnWhenNeeded(stage: nat, source: string, before: string, calls: seq<Call>, after: string) {
    Detects(stage, source) || (calls == [] && before == after)
  }

  lemma {:induction false} StageIsOnWhenNeeded(doc: Doc, stage: nat, source: string, before: string,
                                               calls: seq<Call>, after: string)
    requires stage <= 2 && source == Render(doc, 0) && IsStage(doc, stage, before, calls, after)
    ensures OnWhenNeeded(stage, source, before, calls, after)
  {
    UndetectedStageIsAbsent(doc, stage);
  }

  /** Three stages in a row, from one text to the next. */
  lemma StagesAreRead(doc: Doc, s0: string, s1: string, s2: string, s3: string,
                      c0: seq<Call>, c1: seq<Call>, c2: seq<Call>)
    requires IsStage(doc, 0, s0, c0, s1) && OnWhenNeeded(0, s0, s0, c0, s1)
    requires IsStage(doc, 1, s1, c1, s2) && OnWhenNeeded(1, s0, s1, c1, s2)
    requires IsStage(doc, 2, s2, c2, s3) && OnWhenNeeded(2, s0, s2, c2, s3)
    ensures Stages(Detects(0, s0), Detects(1, s0), Detects(2, s0), s0) == Scan(c0 + c1 + c2, s3)
  {
    var hasDsml, hasBare, hasToolCall := Detects(0, s0), Detects(1, s0), Detects(2, s0);
    DsmlStageReads(hasDsml, doc, 0, s0, c0, s1);
    BareStageReads(hasBare, doc, 1, s1, c1, s2);
    ToolCallStageReads(hasToolCall, doc, 2, s2, c2, s3);
    StagesCompose(hasDsml, hasBare, hasToolCall, s0, Scan(c0, s1), Scan(c1, s2), Scan(c2, s3));
  }

  lemma SalvagedInStages(doc: Doc, s0: string, s1: string, s2: string, s3: string,
                         c0: seq<Call>, c1: seq<Call>, c2: seq<Call>)
    requires doc.Then? && IsStage(doc, 0, s0, c0, s1) && IsStage(doc, 1, s1, c1, s2) && IsStage(doc, 2, s2, c2, s3)
    ensures Salvaged(s0) == Salvage(true, c0 + c1 + c2, CollapseWhitespace(s3))
  {
    StageIsOnWhenNeeded(doc, 0, s0, s0, c0, s1);
    StageIsOnWhenNeeded(doc, 1, s0, s1, c1, s2);
    StageIsOnWhenNeeded(doc, 2, s0, s2, c2, s3);
    StagesAreRead(doc, s0, s1, s2, s3, c0, c1, c2);
    DocHasMarkup(doc);
    SalvagedByStages(s0, c0 + c1 + c2, s3);
  }

  lemma StagesCompose(hasDsml: bool, hasBare: bool, hasToolCall: bool, s: string,
                      one: Scan<Call>, two: Scan<Call>, three: Scan<Call>)
    requires DsmlStage(hasDsml, s) == one
    requires BareStage(hasBare, one.out) == two
    requires ToolCallStage(hasToolCall, two.out) == three
    ensures Stages(hasDsml, hasBare, hasToolCall, s) == Scan(one.found + two.found + three.found, three.out)
  {
    assert [] + one.found == one.found;
  }

  lemma {:induction false} DocHasMarkup(doc: Doc)
    requires GoodDoc(doc) && doc.Then?
    ensures HasMarkup(Render(doc, 0))
  {
    var block, after := Print(doc.form, doc.call), Render(doc.rest, 0);
    DetectsOwnBlock(doc.form, doc.call, after);
    DetectsLater(doc.form.Stage(), doc.text, block + after);
  }

  lemma SalvagedByStages(s: string, calls: seq<Call>, out: string)
    requires HasMarkup(s) && Stages(Detects(0, s), Detects(1, s), Detects(2, s), s) == Scan(calls, out)
    ensures Salvaged(s) == Salvage(true, calls, CollapseWhitespace(out))
  {
  }

  /** The calls in the order of their stages, and in text order within a stage. */
  function Recovered(doc: Doc): seq<Call> { CallsAt(doc, 0) + CallsAt(doc, 1) + CallsAt(doc, 2) }

  /** Every printed call comes back, form by form, and the prose is left with a space for each block. */
  lemma {:induction false} SalvageRoundTrip(doc: Doc)
    requires GoodDoc(doc) && doc.Then?
    ensures Salvaged(Render(doc, 0)) == Salvage(true, Recovered(doc), CollapseWhitespace(Render(doc, 3)))
  {
    SalvagedInStages(doc, Render(doc, 0), Render(doc, 1), Render(doc, 2), Render(doc, 3),
                     CallsAt(doc, 0), CallsAt(doc, 1), CallsAt(doc, 2));
  }

  /** Prose alone is left as it is, white space included. */
  lemma ProseIsUntouched(text: string)
    requires OpenerFree(text)
    ensures Salvaged(text) == Salvage(false, [], text)
  {
    OpenerFreeHasNoMarkup(text);
  }

  // ---------------------------------------------------------------- the order of the calls

  /** No block stands before a block of an earlier stage. */
  ghost predicate InStageOrder(doc: Doc) {
    doc.Then? ==> NoneBefore(doc.rest, doc.form.Stage()) && InStageOrder(doc.rest)
  }

  ghost predicate NoneBefore(doc: Doc, stage: nat) {
    doc.Then? ==> stage <= doc.form.Stage() && NoneBefore(doc.rest, stage)
  }

  lemma {:induction false} NoneBeforeIsEmpty(doc: Doc, stage: nat, k: nat)
    requires NoneBefore(doc, stage) && k < stage
    ensures CallsAt(doc, k) == []
  {
    if doc.Then? {
      NoneBeforeIsEmpty(doc.rest, stage, k);
    }
  }

  lemma {:induction false} SomeBefore(doc: Doc, stage: nat) returns (k: nat)
    requires !NoneBefore(doc, stage)
    ensures k < stage && CallsAt(doc, k) != []
  {
    if doc.form.Stage() < stage {
      k := doc.form.Stage();
    } else {
      k := SomeBefore(doc.rest, stage);
    }
  }

  ghost predicate Distinct(calls: seq<Call>) {
    forall i, j :: 0 <= i < j < |calls| ==> calls[i] != calls[j]
  }

  lemma {:induction false} CallsAtAreCalls(doc: Doc, stage: nat)
    ensures forall c :: c in CallsAt(doc, stage) ==> c in AllCalls(doc)
  {
    if doc.Then? {
      CallsAtAreCalls(doc.rest, stage);
    }
  }

  lemma {:induction false} StageOrderIsTextOrder(doc: Doc)
    requires InStageOrder(doc)
    ensures Recovered(doc) == AllCalls(doc)
  {
    if doc.Then? {
      RecoveredFrom(doc);
      StageOrderIsTextOrder(doc.rest);
    }
  }

  /** In one form, or in forms in the order of their stages, the same calls come back in the same order. */
  lemma {:induction false} SalvageInOrder(doc: Doc)
    requires GoodDoc(doc) && doc.Then? && InStageOrder(doc)
    ensures Salvaged(Render(doc, 0)) == Salvage(true, AllCalls(doc), CollapseWhitespace(Render(doc, 3)))
  {
    SalvageRoundTrip(doc);
    StageOrderIsTextOrder(doc);
  }

  /** Different calls are recovered in text order if and only if their forms stand in the order of the stages. */
  lemma {:induction false} TextOrderExactly(doc: Doc)
    requires Distinct(AllCalls(doc))
    ensures Recovered(doc) == AllCalls(doc) <==> InStageOrder(doc)
  {
    if InStageOrder(doc) {
      StageOrderIsTextOrder(doc);
    } else if NoneBefore(doc.rest, doc.form.Stage()) {
      var rest := doc.rest;
      assert AllCalls(doc)[1..] == AllCalls(rest);
      assert Distinct(AllCalls(rest));
      TextOrderExactly(rest);
      RecoveredFrom(doc);
      assert Recovered(doc)[1..] == Recovered(rest);
    } else {
      EarlierStageComesFirst(doc);
    }
  }

  lemma RecoveredFrom(doc: Doc)
    requires doc.Then? && NoneBefore(doc.rest, doc.form.Stage())
    ensures Recovered(doc) == [CallFor(doc.call)] + Recovered(doc.rest)
  {
    var k := doc.form.Stage();
    if 0 < k {
      NoneBeforeIsEmpty(doc.rest, k, 0);
    }
    if 1 < k {
      NoneBeforeIsEmpty(doc.rest, k, 1);
    }
  }

  lemma FirstOfThree<T>(a: seq<T>, b: seq<T>, c: seq<T>)
    requires a != [] || b != []
    ensures (a + b + c)[0] in (if a != [] then a else b)
  {
  }

  lemma {:induction false} CallsBefore(doc: Doc, k: nat)
    requires doc.Then? && doc.form.Stage() != k
    ensures CallsAt(doc, k) == CallsAt(doc.rest, k)
  {
  }

  lemma DifferentStart(c: Call, rest: seq<Call>, xs: seq<Call>)
    requires Distinct([c] + rest) && xs != [] && xs[0] in rest
    ensures xs != [c] + rest
  {
    var i :| 0 <= i < |rest| && rest[i] == xs[0];
    assert ([c] + rest)[i + 1] == rest[i] && ([c] + rest)[0] == c;
  }

  lemma {:induction false} EarlierStageComesFirst(doc: Doc)
    requires doc.Then? && Distinct(AllCalls(doc)) && !NoneBefore(doc.rest, doc.form.Stage())
    ensures Recovered(doc) != AllCalls(doc)
  {
    var j := SomeBefore(doc.rest, doc.form.Stage());
    CallsBefore(doc, j);
    FirstOfThree(CallsAt(doc, 0), CallsAt(doc, 1), CallsAt(doc, 2));
    var k := if CallsAt(doc, 0) != [] then 0 else 1;
    CallsBefore(doc, k);
    CallsAtAreCalls(doc.rest, k);
    DifferentStart(CallFor(doc.call), AllCalls(doc.rest), Recovered(doc));
  }
}

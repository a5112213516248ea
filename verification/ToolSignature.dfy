/** `toolCallSignature` of src/agent/tool-loop-guard.ts and what two equal signatures say. */
module ToolSignature {
  import opened StableStringify
  import opened CanonicalForm
  import opened JsonScan
  import opened Seqs

  datatype ToolCall = ToolCall(name: string, input: Json)

  /** A null input stands for the empty object. */
  function InputOf(tc: ToolCall): Json { if tc.input.Null? then Obj([]) else tc.input }

  function CallText(tc: ToolCall): string { tc.name + ":" + Stringify(InputOf(tc)) }

  function InsertText(t: string, sorted: seq<string>): seq<string> {
    if sorted == [] || Less(t, sorted[0]) then [t] + sorted
    else [sorted[0]] + InsertText(t, sorted[1..])
  }

  function SortTexts(ts: seq<string>): seq<string> {
    if ts == [] then [] else InsertText(ts[0], SortTexts(ts[1..]))
  }

  function Join(ts: seq<string>): string
    decreases |ts|, 0
  {
    if ts == [] then "" else ts[0] + AfterText(ts[1..])
  }

  function AfterText(ts: seq<string>): string
    decreases |ts|, 1
  {
    if ts == [] then "" else "|" + Join(ts)
  }

  function Texts(calls: seq<ToolCall>): seq<string> { Map(CallText, calls) }

  function Signature(calls: seq<ToolCall>): string { Join(SortTexts(Texts(calls))) }

  /** A call with the key order of its input forgotten; no input means the empty object. */
  function Meaning(tc: ToolCall): (string, Value) {
    match tc.input
    case Null => (tc.name, Denote(Obj([])))
    case input => (tc.name, Denote(input))
  }

  ghost predicate ValidCalls(calls: seq<ToolCall>) {
    forall tc :: tc in calls ==> Valid(tc.input)
  }

  /** A name with a colon has neither a bar nor a quote. */
  predicate Legible(name: string) { ':' !in name || ('|' !in name && '"' !in name) }

  // ---------------------------------------------------------------- sorting

  ghost predicate SortedTexts(ts: seq<string>) {
    forall i, j :: 0 <= i < j < |ts| ==> !Less(ts[j], ts[i])
  }

  lemma {:induction false} InsertTextPermutes(t: string, ts: seq<string>)
    ensures multiset(InsertText(t, ts)) == multiset{t} + multiset(ts)
  {
    if ts != [] && !Less(t, ts[0]) {
      InsertTextPermutes(t, ts[1..]);
      assert ts == [ts[0]] + ts[1..];
    }
  }

  lemma {:induction false} SortTextsPermutes(ts: seq<string>)
    ensures multiset(SortTexts(ts)) == multiset(ts)
  {
    if ts != [] {
      SortTextsPermutes(ts[1..]);
      InsertTextPermutes(ts[0], SortTexts(ts[1..]));
      assert ts == [ts[0]] + ts[1..];
    }
  }

  lemma {:induction false} NotLessTransitive(a: string, b: string, c: string)
    requires !Less(b, a) && !Less(c, b)
    ensures !Less(c, a)
  {
    LessTotal(a, b);
    LessTotal(b, c);
    LessTotal(a, c);
    if Less(a, b) && Less(b, c) {
      LessTransitive(a, b, c);
    }
  }

  lemma {:induction false} SortedTextsCons(t: string, ts: seq<string>)
    requires SortedTexts(ts) && (ts != [] ==> !Less(ts[0], t))
    ensures SortedTexts([t] + ts)
  {
    forall j | 0 <= j < |ts|
      ensures !Less(ts[j], t)
    {
      if j > 0 {
        NotLessTransitive(t, ts[0], ts[j]);
      }
    }
  }

  lemma {:induction false} InsertTextKeepsSorted(t: string, ts: seq<string>)
    requires SortedTexts(ts)
    ensures SortedTexts(InsertText(t, ts))
    ensures ts != [] ==> InsertText(t, ts)[0] == (if Less(t, ts[0]) then t else ts[0])
  {
    if ts != [] {
      LessTotal(t, ts[0]);
      if Less(t, ts[0]) {
        SortedTextsCons(t, ts);
      } else {
        InsertTextKeepsSorted(t, ts[1..]);
        SortedTextsCons(ts[0], InsertText(t, ts[1..]));
      }
    }
  }

  lemma {:induction false} SortTextsSorts(ts: seq<string>)
    ensures SortedTexts(SortTexts(ts))
  {
    if ts != [] {
      SortTextsSorts(ts[1..]);
      InsertTextKeepsSorted(ts[0], SortTexts(ts[1..]));
    }
  }

  lemma {:induction false} SortedHeadIsLeastText(xs: seq<string>, t: string)
    requires SortedTexts(xs) && xs != [] && t in xs
    ensures !Less(t, xs[0])
  {
    LessTotal(xs[0], xs[0]);
  }

  lemma TailMultiset(xs: seq<string>)
    requires xs != []
    ensures xs == [xs[0]] + xs[1..] && multiset(xs[1..]) == multiset(xs) - multiset{xs[0]}
  {
    assert xs == [xs[0]] + xs[1..];
  }

  /** A multiset of texts has one sorted arrangement. */
  lemma {:induction false} SortedIsUnique(xs: seq<string>, ys: seq<string>)
    requires SortedTexts(xs) && SortedTexts(ys) && multiset(xs) == multiset(ys)
    ensures xs == ys
  {
    SameLength(xs, ys);
    if xs != [] {
      assert xs[0] in multiset(xs) && ys[0] in multiset(ys);
      SortedHeadIsLeastText(xs, ys[0]);
      SortedHeadIsLeastText(ys, xs[0]);
      LessTotal(xs[0], ys[0]);
      TailMultiset(xs);
      TailMultiset(ys);
      SortedIsUnique(xs[1..], ys[1..]);
    }
  }

  lemma {:induction false} SortedAlike(xs: seq<string>, ys: seq<string>)
    ensures SortTexts(xs) == SortTexts(ys) <==> multiset(xs) == multiset(ys)
  {
    SortTextsPermutes(xs);
    SortTextsPermutes(ys);
    SortTextsSorts(xs);
    SortTextsSorts(ys);
    if multiset(xs) == multiset(ys) {
      SortedIsUnique(SortTexts(xs), SortTexts(ys));
    }
  }

  // ---------------------------------------------------------------- texts and meanings

  /** The longer of two names goes on with a colon where the shorter one ends. */
  lemma LongerName(m: string, n: string, x: string, y: string)
    requires m + (":" + x) == n + (":" + y) && |m| < |n|
    ensures n[|m|] == ':' && x == n[|m| + 1..] + (":" + y)
  {
    var s, t := m + (":" + x), n[|m| + 1..];
    assert s[|m|] == ':' && s[|m| + 1..] == x;
    assert (n + (":" + y))[|m|] == n[|m|] && (n + (":" + y))[|m| + 1..] == t + (":" + y);
  }

  lemma SameName(m: string, n: string, x: string, y: string)
    requires m + (":" + x) == n + (":" + y) && |m| == |n|
    ensures m == n && x == y
  {
    assert (m + (":" + x))[..|m|] == m && (n + (":" + y))[..|n|] == n;
    ReadPrefix(m, ":" + x, ":" + y);
    ReadPrefix(":", x, y);
  }

  lemma InputIsValid(a: ToolCall)
    requires Valid(a.input)
    ensures Valid(InputOf(a))
  {
  }

  /** Whatever the names: the text of a call tells its name and its input, up to the order of its keys. */
  lemma TextIsMeaning(a: ToolCall, b: ToolCall)
    requires Valid(a.input) && Valid(b.input)
    ensures CallText(a) == CallText(b) <==> Meaning(a) == Meaning(b)
  {
    var x, y := Stringify(InputOf(a)), Stringify(InputOf(b));
    InputIsValid(a);
    InputIsValid(b);
    StringifyIsCanonical(InputOf(a), InputOf(b));
    Assoc(a.name, ":", x);
    Assoc(b.name, ":", y);
    if CallText(a) == CallText(b) {
      if |a.name| < |b.name| {
        LongerName(a.name, b.name, x, y);
        NoValueAfterColon(InputOf(a), InputOf(b), b.name[|a.name| + 1..]);
      } else if |b.name| < |a.name| {
        LongerName(b.name, a.name, y, x);
        NoValueAfterColon(InputOf(b), InputOf(a), a.name[|b.name| + 1..]);
      } else {
        SameName(a.name, b.name, x, y);
      }
    }
  }

  /** What follows a text in a signature: nothing, or a bar and the next text. */
  predicate Followed(rest: string) { rest == "" || rest[0] == '|' }

  /** Up to a bar after it, a printed value has no colon without a bar or a quote before it. */
  lemma {:induction false} MarkBeforeColon(v: Json, x: string, k: nat)
    requires Valid(v) && Followed(x) && k < |Stringify(v) + x| && (Stringify(v) + x)[k] == ':'
    ensures var before := (Stringify(v) + x)[..k]; '"' in before || '|' in before
  {
    var text := Stringify(v);
    var s := text + x;
    ValueQuotesFirst(v);
    if k < |text| {
      assert text[k] == ':' && text[..k] == s[..k];
    } else {
      assert s[|text|] == x[0];
      assert s[..k][|text|] == s[|text|];
    }
  }

  lemma {:induction false} LegibleHasNoMark(v: Json, x: string, t: string, y: string)
    requires Valid(v) && Followed(x) && '|' !in t && '"' !in t
    ensures Stringify(v) + x != t + (":" + y)
  {
    var s := t + (":" + y);
    assert s[|t|] == ':' && s[..|t|] == t;
    if Stringify(v) + x == s {
      MarkBeforeColon(v, x, |t|);
    }
  }

  lemma LegibleNames(a: ToolCall, b: ToolCall, x: string, y: string)
    requires Legible(b.name) && Valid(a.input) && Followed(x)
    requires a.name + (":" + (Stringify(InputOf(a)) + x)) == b.name + (":" + y)
    ensures |b.name| <= |a.name|
  {
    if |a.name| < |b.name| {
      var t := b.name[|a.name| + 1..];
      LongerName(a.name, b.name, Stringify(InputOf(a)) + x, y);
      assert b.name[|a.name|] in b.name;
      InputIsValid(a);
      LegibleHasNoMark(InputOf(a), x, t, y);
    }
  }

  /** Mapping through a function that another one determines keeps equality of multisets. */
  lemma {:induction false} TransferMultiset<A(!new), B, C>(f: A -> B, g: A -> C, xs: seq<A>, ys: seq<A>)
    requires forall x, y :: x in xs && y in ys && f(x) == f(y) ==> g(x) == g(y)
    requires multiset(Map(f, xs)) == multiset(Map(f, ys))
    ensures multiset(Map(g, xs)) == multiset(Map(g, ys))
  {
    SameLength(Map(f, xs), Map(f, ys));
    if xs != [] {
      var j := FindMapped(f, xs[0], xs, ys);
      var rest := ys[..j] + ys[j + 1..];
      MapRemove(f, ys, j);
      MapRemove(g, ys, j);
      MapTail(f, xs);
      MapTail(g, xs);
      assert forall y :: y in rest ==> y in ys;
      assert multiset(Map(f, xs[1..])) == multiset(Map(f, xs)) - multiset{f(xs[0])};
      assert multiset(Map(f, rest)) == multiset(Map(f, ys)) - multiset{f(xs[0])};
      TransferMultiset(f, g, xs[1..], rest);
    }
  }

  lemma SameLength<B>(xs: seq<B>, ys: seq<B>)
    requires multiset(xs) == multiset(ys)
    ensures |xs| == |ys|
  {
    assert |xs| == |multiset(xs)| && |ys| == |multiset(ys)|;
  }

  lemma FindMapped<A, B>(f: A -> B, x: A, xs: seq<A>, ys: seq<A>) returns (j: nat)
    requires x in xs && multiset(Map(f, xs)) == multiset(Map(f, ys))
    ensures j < |ys| && f(ys[j]) == f(x)
  {
    var i :| 0 <= i < |xs| && xs[i] == x;
    assert Map(f, xs)[i] in multiset(Map(f, ys));
    j :| 0 <= j < |ys| && Map(f, ys)[j] == f(x);
  }

  lemma MapTail<A, B>(f: A -> B, xs: seq<A>)
    requires xs != []
    ensures multiset(Map(f, xs)) == multiset{f(xs[0])} + multiset(Map(f, xs[1..]))
  {
    assert Map(f, xs) == [f(xs[0])] + Map(f, xs[1..]);
  }

  lemma MapRemove<A, B>(f: A -> B, xs: seq<A>, k: nat)
    requires k < |xs|
    ensures multiset(Map(f, xs)) == multiset{f(xs[k])} + multiset(Map(f, xs[..k] + xs[k + 1..]))
  {
    var ys := Map(f, xs);
    assert ys == ys[..k] + ([ys[k]] + ys[k + 1..]);
    assert Map(f, xs[..k] + xs[k + 1..]) == ys[..k] + ys[k + 1..];
  }

  /** The text of a valid call with a legible name. */
  ghost predicate IsCallText(t: string) {
    exists tc: ToolCall :: t == CallText(tc) && Legible(tc.name) && Valid(tc.input)
  }

  ghost predicate Readable(ts: seq<string>) {
    forall i :: 0 <= i < |ts| ==> IsCallText(ts[i])
  }

  lemma {:induction false} CallTextFollowedBy(a: ToolCall, x: string)
    ensures CallText(a) + x == a.name + (":" + (Stringify(InputOf(a)) + x))
    ensures Stringify(InputOf(a)) + x == Print(Canon(InputOf(a)), x)
  {
    var text := Stringify(InputOf(a));
    StringifyIsPrintOfCanon(InputOf(a));
    PrintThen(Canon(InputOf(a)), x);
    Assoc(a.name, ":", text);
    Assoc(a.name, ":" + text, x);
    Assoc(":", text, x);
  }

  lemma ReadCallText(a: ToolCall, b: ToolCall, x: string, y: string)
    requires Legible(a.name) && Legible(b.name) && Valid(a.input) && Valid(b.input)
    requires Followed(x) && Followed(y) && CallText(a) + x == CallText(b) + y
    ensures CallText(a) == CallText(b) && x == y
  {
    CallTextFollowedBy(a, x);
    CallTextFollowedBy(b, y);
    LegibleNames(a, b, x, Stringify(InputOf(b)) + y);
    LegibleNames(b, a, y, Stringify(InputOf(a)) + x);
    SameName(a.name, b.name, Stringify(InputOf(a)) + x, Stringify(InputOf(b)) + y);
    InputIsValid(a);
    InputIsValid(b);
    CanonIsCanonical(InputOf(a));
    CanonIsCanonical(InputOf(b));
    ReadValue(Canon(InputOf(a)), Canon(InputOf(b)), x, y);
    StringifyIsPrintOfCanon(InputOf(a));
    StringifyIsPrintOfCanon(InputOf(b));
  }

  lemma ReadText(t: string, u: string, x: string, y: string)
    requires IsCallText(t) && IsCallText(u) && Followed(x) && Followed(y) && t + x == u + y
    ensures t == u && x == y && t != ""
  {
    var a: ToolCall :| t == CallText(a) && Legible(a.name) && Valid(a.input);
    var b: ToolCall :| u == CallText(b) && Legible(b.name) && Valid(b.input);
    ReadCallText(a, b, x, y);
  }

  /** The joined signature reads back as the list of its texts. */
  lemma {:induction false} ReadJoin(ts: seq<string>, us: seq<string>)
    requires Readable(ts) && Readable(us) && Join(ts) == Join(us)
    ensures ts == us
  {
    CallTextsAreNotEmpty(ts);
    CallTextsAreNotEmpty(us);
    if ts != [] {
      var t, u := ts[1..], us[1..];
      ReadText(ts[0], us[0], AfterText(t), AfterText(u));
      if t != [] {
        ReadPrefix("|", Join(t), Join(u));
        ReadJoin(t, u);
      }
      assert ts == [ts[0]] + t && us == [us[0]] + u;
    }
  }

  lemma {:induction false} CallTextsAreNotEmpty(ts: seq<string>)
    requires Readable(ts)
    ensures Join(ts) == "" <==> ts == []
  {
    if ts != [] {
      ReadText(ts[0], ts[0], "", "");
    }
  }

  // ---------------------------------------------------------------- theorems

  /** The same calls in any order, with their keys in any order, have the same signature. */
  lemma SignatureIgnoresOrder(calls: seq<ToolCall>, others: seq<ToolCall>)
    requires ValidCalls(calls) && ValidCalls(others)
    requires multiset(Map(Meaning, calls)) == multiset(Map(Meaning, others))
    ensures Signature(calls) == Signature(others)
  {
    forall a, b | a in calls && b in others && Meaning(a) == Meaning(b)
      ensures CallText(a) == CallText(b)
    {
      TextIsMeaning(a, b);
    }
    TransferMultiset(Meaning, CallText, calls, others);
    SortedAlike(Texts(calls), Texts(others));
  }

  lemma SortedTextsReadable(calls: seq<ToolCall>)
    requires ValidCalls(calls) && forall tc :: tc in calls ==> Legible(tc.name)
    ensures Readable(SortTexts(Texts(calls)))
  {
    var sorted := SortTexts(Texts(calls));
    SortTextsPermutes(Texts(calls));
    forall i | 0 <= i < |sorted|
      ensures IsCallText(sorted[i])
    {
      assert sorted[i] in multiset(Texts(calls));
      var k :| 0 <= k < |calls| && Texts(calls)[k] == sorted[i];
      assert calls[k] in calls;
    }
  }

  /**
   * With legible tool names a signature tells the calls exactly, up to the order of the calls and of
   * the keys in their inputs.
   */
  lemma SignatureTellsTheCalls(calls: seq<ToolCall>, others: seq<ToolCall>)
    requires ValidCalls(calls) && ValidCalls(others)
    requires forall tc :: tc in calls + others ==> Legible(tc.name)
    ensures Signature(calls) == Signature(others)
            <==> multiset(Map(Meaning, calls)) == multiset(Map(Meaning, others))
  {
    if Signature(calls) == Signature(others) {
      assert forall tc :: tc in calls ==> tc in calls + others;
      assert forall tc :: tc in others ==> tc in calls + others;
      SortedTextsReadable(calls);
      SortedTextsReadable(others);
      ReadJoin(SortTexts(Texts(calls)), SortTexts(Texts(others)));
      SortedAlike(Texts(calls), Texts(others));
      forall a, b | a in calls && b in others && CallText(a) == CallText(b)
        ensures Meaning(a) == Meaning(b)
      {
        TextIsMeaning(a, b);
      }
      TransferMultiset(CallText, Meaning, calls, others);
    }
    if multiset(Map(Meaning, calls)) == multiset(Map(Meaning, others)) {
      SignatureIgnoresOrder(calls, others);
    }
  }

  /** The signature of a single call tells it exactly, whatever its name. */
  lemma SingleCallIsTold(a: ToolCall, b: ToolCall)
    requires Valid(a.input) && Valid(b.input)
    ensures Signature([a]) == Signature([b]) <==> Meaning(a) == Meaning(b)
  {
    SingleSignature(a);
    SingleSignature(b);
    TextIsMeaning(a, b);
  }

  lemma SingleSignature(a: ToolCall)
    ensures Signature([a]) == CallText(a)
  {
    assert Texts([a]) == [CallText(a)] && [CallText(a)][1..] == [];
    assert SortTexts([CallText(a)]) == [CallText(a)];
    assert Join([CallText(a)]) == CallText(a) + "";
  }

  /** Without that restriction two calls together can pass for one. */
  lemma ColonInNameConfuses()
    ensures var one := [ToolCall("x:{}|y", Null)];
            var two := [ToolCall("x", Null), ToolCall("y", Null)];
            Signature(one) == Signature(two) && |one| != |two|
  {
    var one := [ToolCall("x:{}|y", Null)];
    var two := [ToolCall("x", Null), ToolCall("y", Null)];
    assert StringifyFields([]) == [] && SortByKey<string>([]) == [] && JoinFields([]) == "";
    assert Stringify(Obj([])) == "{}";
    assert CallText(one[0]) == "x:{}|y:{}";
    assert CallText(two[0]) == "x:{}";
    assert CallText(two[1]) == "y:{}";
    assert Texts(one) == ["x:{}|y:{}"] && Texts(two) == ["x:{}", "y:{}"];
    assert SortTexts(["y:{}"]) == ["y:{}"];
    assert SortTexts(["x:{}", "y:{}"]) == ["x:{}", "y:{}"];
    assert Join(["x:{}", "y:{}"]) == "x:{}" + ("|" + ("y:{}" + ""));
  }
}

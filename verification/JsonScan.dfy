/**
 * Reading a printed JSON value character by character, which tells quotes and nesting: the ground
 * for telling where the name of a call ends and its input begins.
 */
module JsonScan {
  import opened Seqs
  import opened StableStringify
  import opened CanonicalForm

  datatype Mode = Plain | Quoted | Escaped

  /** Inside or outside a string, and how many brackets are open; Bad where no JSON text goes on. */
  datatype Scan = Bad | At(mode: Mode, depth: nat)

  function Read(s: Scan, c: char): Scan {
    match s
    case Bad => Bad
    case At(Escaped, d) => At(Quoted, d)
    case At(Quoted, d) => if c == '"' then At(Plain, d) else if c == '\\' then At(Escaped, d) else s
    case At(Plain, d) =>
      if c == '"' then At(Quoted, d)
      else if c == '\\' then Bad
      else if c in {'{', '['} then At(Plain, d + 1)
      else if c in {'}', ']'} then (if d == 0 then Bad else At(Plain, d - 1))
      else s
  }

  function ReadAll(s: Scan, t: string): Scan
    decreases |t|
  {
    if t == "" then s else ReadAll(Read(s, t[0]), t[1..])
  }

  lemma {:induction false} ReadAppend(s: Scan, a: string, b: string)
    ensures ReadAll(s, a + b) == ReadAll(ReadAll(s, a), b)
    decreases |a|
  {
    if a == "" {
      assert a + b == b;
    } else {
      assert (a + b)[1..] == a[1..] + b;
      ReadAppend(Read(s, a[0]), a[1..], b);
    }
  }

  lemma {:induction false} BadStays(t: string)
    ensures ReadAll(Bad, t) == Bad
    decreases |t|
  {
    if t != "" {
      BadStays(t[1..]);
    }
  }

  lemma {:induction false} ReadOne(s: Scan, c: char)
    ensures ReadAll(s, [c]) == Read(s, c)
  {
    assert ReadAll(Read(s, c), [c][1..]) == Read(s, c);
  }

  /** Brackets that are already open do not matter to a text that closes what it opens. */
  lemma {:induction false} Deeper(m: Mode, d: nat, t: string)
    requires ReadAll(At(m, d), t) != Bad
    ensures var r := ReadAll(At(m, d), t);
            ReadAll(At(m, d + 1), t) == At(r.mode, r.depth + 1)
    decreases |t|
  {
    if t != "" {
      var next := Read(At(m, d), t[0]);
      if next == Bad {
        BadStays(t[1..]);
      } else {
        Deeper(next.mode, next.depth, t[1..]);
      }
    }
  }

  /** One of two readings is inside a string where the other is outside. */
  ghost predicate Opposite(p: Scan, q: Scan) {
    p == Bad || q == Bad || (p.mode.Plain? && q.mode.Quoted?) || (p.mode.Quoted? && q.mode.Plain?)
  }

  lemma {:induction false} OppositeStays(p: Scan, q: Scan, t: string)
    requires Opposite(p, q)
    ensures Opposite(ReadAll(p, t), ReadAll(q, t))
    decreases |t|
  {
    if t != "" {
      if Read(p, t[0]) == Bad || Read(q, t[0]) == Bad {
        BadStays(t[1..]);
      } else {
        OppositeStays(Read(p, t[0]), Read(q, t[0]), t[1..]);
      }
    }
  }

  // ---------------------------------------------------------------- printed values are balanced

  /** Read outside strings, the text ends outside strings, with the brackets that were open before. */
  ghost predicate Balanced(t: string) {
    forall d: nat :: ReadAll(At(Plain, d), t) == At(Plain, d)
  }

  predicate IsPlain(c: char) { c !in {'"', '\\', '{', '}', '[', ']'} }

  lemma {:induction false} PlainIsBalanced(t: string)
    requires forall i :: 0 <= i < |t| ==> IsPlain(t[i])
    ensures Balanced(t)
  {
    if t != "" {
      PlainIsBalanced(t[1..]);
    }
  }

  lemma BalancedAppend(a: string, b: string)
    requires Balanced(a) && Balanced(b)
    ensures Balanced(a + b)
  {
    forall d: nat
      ensures ReadAll(At(Plain, d), a + b) == At(Plain, d)
    {
      ReadAppend(At(Plain, d), a, b);
    }
  }

  lemma EscapedCharStaysQuoted(c: char, d: nat)
    ensures ReadAll(At(Quoted, d), EscapeChar(c)) == At(Quoted, d)
  {
    var t := EscapeChar(c);
    if |t| == 1 {
      ReadOne(At(Quoted, d), c);
    } else if |t| == 2 {
      ReadTwo(At(Quoted, d), t);
    } else {
      ReadTwo(At(Quoted, d), t[..2]);
      ReadAppend(At(Quoted, d), t[..2], t[2..|t|]);
      assert t == t[..2] + t[2..|t|];
      EscapeTailStaysQuoted(c, |t|, d);
    }
  }

  lemma {:induction false} ReadTwo(s: Scan, t: string)
    requires |t| == 2
    ensures ReadAll(s, t) == Read(Read(s, t[0]), t[1])
  {
    assert t[1..] == [t[1]];
    ReadOne(Read(s, t[0]), t[1]);
  }

  lemma HexIsPlain(k: nat)
    requires k < 16
    ensures HEX[k] != '"' && HEX[k] != '\\'
  {
  }

  /** Only the second character of an escape can be a quote or a backslash. */
  lemma EscapeTail(c: char, i: nat)
    requires 2 <= i < |EscapeChar(c)|
    ensures EscapeChar(c)[i] != '"' && EscapeChar(c)[i] != '\\'
  {
    var n := c as int;
    if n < 32 {
      HexIsPlain(n / 16);
      HexIsPlain(n % 16);
    }
  }

  lemma EscapeTailStaysQuoted(c: char, n: nat, d: nat)
    requires 2 <= n <= |EscapeChar(c)|
    ensures ReadAll(At(Quoted, d), EscapeChar(c)[2..n]) == At(Quoted, d)
  {
    var t := EscapeChar(c)[2..n];
    forall i | 0 <= i < |t|
      ensures t[i] != '"' && t[i] != '\\'
    {
      EscapeTail(c, i + 2);
    }
    LettersStayQuoted(t, d);
  }

  lemma {:induction false} LettersStayQuoted(t: string, d: nat)
    requires forall i :: 0 <= i < |t| ==> t[i] != '"' && t[i] != '\\'
    ensures ReadAll(At(Quoted, d), t) == At(Quoted, d)
  {
    if t != "" {
      LettersStayQuoted(t[1..], d);
    }
  }

  lemma {:induction false} EscapeStaysQuoted(s: string, d: nat)
    ensures ReadAll(At(Quoted, d), Escape(s)) == At(Quoted, d)
  {
    if s != "" {
      EscapedCharStaysQuoted(s[0], d);
      EscapeStaysQuoted(s[1..], d);
      ReadAppend(At(Quoted, d), EscapeChar(s[0]), Escape(s[1..]));
    }
  }

  lemma QuoteIsBalanced(s: string)
    ensures Balanced(Quote(s))
  {
    forall d: nat
      ensures ReadAll(At(Plain, d), Quote(s)) == At(Plain, d)
    {
      ReadAppend(At(Plain, d), "\"" + Escape(s), "\"");
      ReadAppend(At(Plain, d), "\"", Escape(s));
      ReadOne(At(Plain, d), '"');
      EscapeStaysQuoted(s, d);
      ReadOne(At(Quoted, d), '"');
    }
  }

  lemma {:induction false} ReadBracketed(open: char, body: string, close: char, d: nat)
    requires open in {'{', '['} && close in {'}', ']'}
    requires ReadAll(At(Plain, d + 1), body) == At(Plain, d + 1)
    ensures ReadAll(At(Plain, d), [open] + body + [close]) == At(Plain, d)
  {
    ReadAppend(At(Plain, d), [open] + body, [close]);
    ReadAppend(At(Plain, d), [open], body);
    ReadOne(At(Plain, d), open);
    ReadOne(At(Plain, d + 1), close);
  }

  lemma BracketsAreBalanced(open: char, body: string, close: char)
    requires open in {'{', '['} && close in {'}', ']'} && Balanced(body)
    ensures Balanced([open] + body + [close])
  {
    forall d: nat
      ensures ReadAll(At(Plain, d), [open] + body + [close]) == At(Plain, d)
    {
      ReadBracketed(open, body, close, d);
    }
  }

  lemma {:induction false} FieldsAreBalanced(fields: seq<Field<string>>)
    requires forall i :: 0 <= i < |fields| ==> Balanced(fields[i].value)
    ensures Balanced(JoinFields(fields))
    decreases |fields|
  {
    if fields == [] {
      PlainIsBalanced("");
    } else {
      var key, value := Quote(fields[0].key), fields[0].value;
      QuoteIsBalanced(fields[0].key);
      PlainIsBalanced(":");
      PlainIsBalanced(",");
      BalancedAppend(key, ":");
      BalancedAppend(key + ":", value);
      if |fields| > 1 {
        FieldsAreBalanced(fields[1..]);
        BalancedAppend(key + ":" + value, ",");
        BalancedAppend(key + ":" + value + ",", JoinFields(fields[1..]));
      }
    }
  }

  lemma {:induction false} ValueIsBalanced(v: Json)
    requires Valid(v)
    ensures Balanced(Stringify(v))
    decreases v, 1
  {
    match v
    case Null => PlainIsBalanced("null");
    case Bool(b) => PlainIsBalanced(if b then "true" else "false");
    case Number(text) =>
      forall i | 0 <= i < |text|
        ensures IsPlain(text[i])
      {
        assert text[i] in text;
      }
      PlainIsBalanced(text);
    case Str(s) => QuoteIsBalanced(s);
    case Arr(items) =>
      ItemsAreBalanced(items);
      BracketsAreBalanced('[', StringifyItems(items), ']');
    case Obj(fields) =>
      FieldValuesAreBalanced(fields);
      var printed := StringifyFields(fields);
      SortMembers(printed);
      FieldsAreBalanced(SortByKey(printed));
      BracketsAreBalanced('{', JoinFields(SortByKey(printed)), '}');
  }

  lemma {:induction false} ItemsAreBalanced(items: seq<Json>)
    requires forall i :: 0 <= i < |items| ==> Valid(items[i])
    ensures Balanced(StringifyItems(items))
    decreases items, 0
  {
    if items == [] {
      PlainIsBalanced("");
    } else {
      ValueIsBalanced(items[0]);
      if |items| > 1 {
        ItemsAreBalanced(items[1..]);
        PlainIsBalanced(",");
        BalancedAppend(Stringify(items[0]), ",");
        BalancedAppend(Stringify(items[0]) + ",", StringifyItems(items[1..]));
      }
    }
  }

  lemma {:induction false} FieldValuesAreBalanced(fields: seq<Field<Json>>)
    requires forall i :: 0 <= i < |fields| ==> Valid(fields[i].value)
    ensures forall f :: f in StringifyFields(fields) ==> Balanced(f.value)
    decreases fields, 0
  {
    if fields != [] {
      ValueIsBalanced(fields[0].value);
      FieldValuesAreBalanced(fields[1..]);
    }
  }

  // ---------------------------------------------------------------- no value ends in another after a colon

  /** A beginning of the text that is neither empty nor all of it is read to a string or an open bracket. */
  ghost predicate Enclosed(t: string) {
    forall n: nat :: 0 < n < |t| ==> EnclosedAt(t, n)
  }

  ghost predicate EnclosedAt(t: string, n: nat)
    requires n <= |t|
  {
    var r := ReadAll(At(Plain, 0), t[..n]);
    r != Bad && (r.mode.Plain? ==> 0 < r.depth)
  }

  lemma {:induction false} PrefixIsRead(s: Scan, t: string, n: nat)
    requires n <= |t| && ReadAll(s, t) != Bad
    ensures ReadAll(s, t[..n]) != Bad
  {
    ReadAppend(s, t[..n], t[n..]);
    assert t == t[..n] + t[n..];
    BadStays(t[n..]);
  }

  lemma BracketsEnclose(open: char, body: string, close: char)
    requires open in {'{', '['} && close in {'}', ']'} && Balanced(body)
    ensures Enclosed([open] + body + [close])
  {
    var t := [open] + body + [close];
    forall n: nat | 0 < n < |t|
      ensures EnclosedAt(t, n)
    {
      var head := body[..n - 1];
      assert t[..n] == [open] + head;
      ReadAppend(At(Plain, 0), [open], head);
      ReadOne(At(Plain, 0), open);
      PrefixIsRead(At(Plain, 0), body, n - 1);
      Deeper(Plain, 0, head);
    }
  }

  lemma {:induction false} EscapedPrefix(s: string, n: nat)
    requires n <= |Escape(s)|
    ensures ReadAll(At(Quoted, 0), Escape(s)[..n]) in {At(Quoted, 0), At(Escaped, 0)}
  {
    if s == "" || n == 0 {
      assert Escape(s)[..n] == "";
    } else {
      var first, rest := EscapeChar(s[0]), Escape(s[1..]);
      if n <= |first| {
        assert Escape(s)[..n] == first[..n];
        EscapedCharPrefix(s[0], n);
      } else {
        assert Escape(s)[..n] == first + rest[..n - |first|];
        ReadAppend(At(Quoted, 0), first, rest[..n - |first|]);
        EscapedCharStaysQuoted(s[0], 0);
        EscapedPrefix(s[1..], n - |first|);
      }
    }
  }

  lemma EscapedCharPrefix(c: char, n: nat)
    requires 0 < n <= |EscapeChar(c)|
    ensures ReadAll(At(Quoted, 0), EscapeChar(c)[..n]) in {At(Quoted, 0), At(Escaped, 0)}
  {
    var t := EscapeChar(c);
    if n == 1 {
      assert t[..1] == [t[0]];
      ReadOne(At(Quoted, 0), t[0]);
    } else {
      assert t[..n] == t[..2] + t[2..n];
      ReadTwo(At(Quoted, 0), t[..2]);
      ReadAppend(At(Quoted, 0), t[..2], t[2..n]);
      EscapeTailStaysQuoted(c, n, 0);
    }
  }

  lemma QuoteEncloses(s: string)
    ensures Enclosed(Quote(s))
  {
    var t := Quote(s);
    forall n: nat | 0 < n < |t|
      ensures EnclosedAt(t, n)
    {
      var head := Escape(s)[..n - 1];
      assert t[..n] == "\"" + head;
      ReadAppend(At(Plain, 0), "\"", head);
      ReadOne(At(Plain, 0), '"');
      EscapedPrefix(s, n - 1);
    }
  }

  lemma {:induction false} ValueEncloses(v: Json)
    requires Valid(v)
    ensures Enclosed(Stringify(v)) || ':' !in Stringify(v)
  {
    match v
    case Str(s) => QuoteEncloses(s);
    case Arr(items) =>
      ItemsAreBalanced(items);
      BracketsEnclose('[', StringifyItems(items), ']');
    case Obj(fields) =>
      FieldValuesAreBalanced(fields);
      SortMembers(StringifyFields(fields));
      FieldsAreBalanced(SortByKey(StringifyFields(fields)));
      BracketsEnclose('{', JoinFields(SortByKey(StringifyFields(fields))), '}');
    case _ =>
  }

  lemma ReadColon(s: Scan)
    ensures Read(s, ':') == Bad || !Read(s, ':').mode.Escaped?
  {
  }

  /** No printed value is a text, a colon and a printed value. */
  lemma {:induction false} NoValueAfterColon(v: Json, w: Json, x: string)
    requires Valid(v) && Valid(w)
    ensures Stringify(v) != x + (":" + Stringify(w))
  {
    var t, u := Stringify(v), Stringify(w);
    if t == x + (":" + u) {
      var head, start := x + ":", At(Plain, 0);
      assert t == head + u && t[..|head|] == head && t[|x|] == ':';
      ValueEncloses(v);
      ValueIsBalanced(v);
      ValueIsBalanced(w);
      ReadAppend(start, head, u);
      ReadAppend(start, x, ":");
      ReadOne(ReadAll(start, x), ':');
      ReadColon(ReadAll(start, x));
      ValueIsNotEmpty(w);
      assert EnclosedAt(t, |head|);
      var r := ReadAll(start, head);
      if r.mode.Quoted? {
        OppositeStays(r, start, u);
      }
    }
  }

  lemma {:induction false} ValueIsNotEmpty(v: Json)
    requires Valid(v)
    ensures Stringify(v) != ""
  {
  }

  // ---------------------------------------------------------------- a colon comes after a quote

  ghost predicate QuoteFirst(t: string) {
    forall i :: 0 <= i < |t| && t[i] == ':' ==> '"' in t[..i]
  }

  lemma QuoteFirstAppend(a: string, b: string)
    requires QuoteFirst(a) && QuoteFirst(b)
    ensures QuoteFirst(a + b)
  {
    forall i | 0 <= i < |a + b| && (a + b)[i] == ':'
      ensures '"' in (a + b)[..i]
    {
      if i < |a| {
        assert (a + b)[..i] == a[..i];
      } else {
        assert (a + b)[..i] == a + b[..i - |a|] && b[i - |a|] == ':';
      }
    }
  }

  lemma QuoteAtStart(t: string)
    requires t == "" || t[0] == '"'
    ensures QuoteFirst(t)
  {
    forall i | 0 <= i < |t| && t[i] == ':'
      ensures '"' in t[..i]
    {
      assert t[..i][0] == '"';
    }
  }

  lemma NoColon(t: string)
    requires ':' !in t
    ensures QuoteFirst(t)
  {
  }

  lemma Bracketed(open: char, body: string, close: char)
    requires open != ':' && close != ':' && QuoteFirst(body)
    ensures QuoteFirst([open] + body + [close])
  {
    NoColon([open]);
    NoColon([close]);
    QuoteFirstAppend([open], body);
    QuoteFirstAppend([open] + body, [close]);
  }

  /** A printed value has no colon without a quote before it. */
  lemma {:induction false} ValueQuotesFirst(v: Json)
    requires Valid(v)
    ensures QuoteFirst(Stringify(v))
    decreases v, 1
  {
    match v
    case Null => NoColon("null");
    case Bool(b) => NoColon(if b then "true" else "false");
    case Number(text) => NoColon(text);
    case Str(s) => QuoteAtStart(Quote(s));
    case Arr(items) =>
      ItemsQuoteFirst(items);
      Bracketed('[', StringifyItems(items), ']');
    case Obj(fields) =>
      var text := JoinFields(SortByKey(StringifyFields(fields)));
      QuoteAtStart(text);
      Bracketed('{', text, '}');
  }

  lemma {:induction false} ItemsQuoteFirst(items: seq<Json>)
    requires forall i :: 0 <= i < |items| ==> Valid(items[i])
    ensures QuoteFirst(StringifyItems(items))
    decreases items, 0
  {
    if items == [] {
      NoColon("");
    } else {
      ValueQuotesFirst(items[0]);
      if |items| > 1 {
        ItemsQuoteFirst(items[1..]);
        NoColon(",");
        QuoteFirstAppend(Stringify(items[0]), ",");
        QuoteFirstAppend(Stringify(items[0]) + ",", StringifyItems(items[1..]));
      }
    }
  }
}

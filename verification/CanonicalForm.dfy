/**
 * `stableStringify` is a canonical form: two JSON values print alike exactly when they are equal
 * up to the order of keys at every depth.
 */
module CanonicalForm {
  import opened Seqs
  import opened StableStringify

  // ---------------------------------------------------------------- sorted trees

  ghost predicate Sorted<T>(fields: seq<Field<T>>) {
    forall i, j :: 0 <= i < j < |fields| ==> Less(fields[i].key, fields[j].key)
  }

  /** Keys strictly increase at every depth. */
  ghost predicate Canonical(v: Json) {
    match v
    case Arr(items) => forall i :: 0 <= i < |items| ==> Canonical(items[i])
    case Obj(fields) => Sorted(fields) && forall i :: 0 <= i < |fields| ==> Canonical(fields[i].value)
    case _ => true
  }

  /** The value with its keys sorted at every depth. */
  ghost function Canon(v: Json): Json
    decreases v, 1
  {
    match v
    case Arr(items) => Arr(CanonItems(items))
    case Obj(fields) => Obj(SortByKey(CanonFields(fields)))
    case _ => v
  }

  ghost function CanonItems(items: seq<Json>): (r: seq<Json>)
    ensures |r| == |items| && forall i :: 0 <= i < |items| ==> r[i] == Canon(items[i])
    decreases items, 0
  {
    if items == [] then [] else [Canon(items[0])] + CanonItems(items[1..])
  }

  ghost function CanonFields(fields: seq<Field<Json>>): (r: seq<Field<Json>>)
    ensures |r| == |fields|
    ensures forall i :: 0 <= i < |fields| ==> r[i] == Field(fields[i].key, Canon(fields[i].value))
    decreases fields, 0
  {
    if fields == [] then [] else [Field(fields[0].key, Canon(fields[0].value))] + CanonFields(fields[1..])
  }

  ghost function Keys<T>(fields: seq<Field<T>>): set<string> {
    set i | 0 <= i < |fields| :: fields[i].key
  }

  lemma KeysOfParts<T>(fields: seq<Field<T>>)
    requires fields != []
    ensures Keys(fields) == {fields[0].key} + Keys(fields[1..])
  {
    forall k | k in Keys(fields)
      ensures k == fields[0].key || k in Keys(fields[1..])
    {
      var i :| 0 <= i < |fields| && fields[i].key == k;
      assert i == 0 || fields[1..][i - 1].key == k;
    }
    forall k | k in Keys(fields[1..])
      ensures k in Keys(fields)
    {
      var i :| 0 <= i < |fields[1..]| && fields[1..][i].key == k;
      assert fields[i + 1].key == k;
    }
  }

  lemma {:induction false} InsertKeys<T>(f: Field<T>, fs: seq<Field<T>>)
    ensures Keys(Insert(f, fs)) == {f.key} + Keys(fs)
  {
    var r := Insert(f, fs);
    KeysOfParts(r);
    if fs == [] || Less(f.key, fs[0].key) {
      assert r[1..] == fs;
    } else {
      InsertKeys(f, fs[1..]);
      KeysOfParts(fs);
      assert r[1..] == Insert(f, fs[1..]);
    }
  }

  lemma {:induction false} SortKeys<T>(fs: seq<Field<T>>)
    ensures Keys(SortByKey(fs)) == Keys(fs)
  {
    if fs != [] {
      SortKeys(fs[1..]);
      InsertKeys(fs[0], SortByKey(fs[1..]));
      KeysOfParts(fs);
    }
  }

  lemma {:induction false} InsertMembers<T>(f: Field<T>, fs: seq<Field<T>>)
    ensures forall i :: 0 <= i < |Insert(f, fs)| ==> Insert(f, fs)[i] == f || Insert(f, fs)[i] in fs
  {
    if fs != [] && !Less(f.key, fs[0].key) {
      InsertMembers(f, fs[1..]);
    }
  }

  lemma {:induction false} SortMembers<T>(fs: seq<Field<T>>)
    ensures forall i :: 0 <= i < |SortByKey(fs)| ==> SortByKey(fs)[i] in fs
  {
    if fs != [] {
      SortMembers(fs[1..]);
      InsertMembers(fs[0], SortByKey(fs[1..]));
    }
  }

  lemma {:induction false} SortedHeadIsLeast<T>(fs: seq<Field<T>>, key: string)
    requires Sorted(fs) && fs != [] && key in Keys(fs[1..])
    ensures Less(fs[0].key, key)
  {
    var i :| 0 <= i < |fs[1..]| && fs[1..][i].key == key;
    assert fs[i + 1].key == key;
  }

  lemma SortedCons<T>(f: Field<T>, fs: seq<Field<T>>)
    requires Sorted(fs) && forall k :: k in Keys(fs) ==> Less(f.key, k)
    ensures Sorted([f] + fs)
  {
    forall i | 0 <= i < |fs|
      ensures Less(f.key, fs[i].key)
    {
      assert fs[i].key in Keys(fs);
    }
  }

  lemma {:induction false} InsertKeepsSorted<T>(f: Field<T>, fs: seq<Field<T>>)
    requires Sorted(fs) && f.key !in Keys(fs)
    ensures Sorted(Insert(f, fs))
  {
    if fs != [] {
      var head, tail := fs[0], fs[1..];
      KeysOfParts(fs);
      LessTotal(f.key, head.key);
      forall k | k in Keys(tail)
        ensures Less(head.key, k)
      {
        SortedHeadIsLeast(fs, k);
      }
      if Less(f.key, head.key) {
        forall k | k in Keys(tail)
          ensures Less(f.key, k)
        {
          LessTransitive(f.key, head.key, k);
        }
        SortedCons(f, fs);
      } else {
        InsertKeepsSorted(f, tail);
        InsertKeys(f, tail);
        SortedCons(head, Insert(f, tail));
      }
    }
  }

  lemma FirstKeyIsFresh<T>(fs: seq<Field<T>>)
    requires DistinctKeys(fs) && fs != []
    ensures fs[0].key !in Keys(fs[1..])
  {
  }

  lemma {:induction false} SortSorts<T>(fs: seq<Field<T>>)
    requires DistinctKeys(fs)
    ensures Sorted(SortByKey(fs))
  {
    if fs != [] {
      SortSorts(fs[1..]);
      SortKeys(fs[1..]);
      FirstKeyIsFresh(fs);
      InsertKeepsSorted(fs[0], SortByKey(fs[1..]));
    }
  }

  lemma {:induction false} CanonIsCanonical(v: Json)
    requires Valid(v)
    ensures Canonical(Canon(v)) && Valid(Canon(v))
  {
    match v
    case Arr(items) =>
      forall i | 0 <= i < |items|
        ensures Canonical(Canon(items[i])) && Valid(Canon(items[i]))
      {
        CanonIsCanonical(items[i]);
      }
    case Obj(fields) =>
      var fs := CanonFields(fields);
      forall i | 0 <= i < |fields|
        ensures Canonical(fs[i].value) && Valid(fs[i].value)
      {
        CanonIsCanonical(fields[i].value);
      }
      SortSorts(fs);
      SortMembers(fs);
      SortedIsDistinct(SortByKey(fs));
    case _ =>
  }

  lemma SortedIsDistinct<T>(fs: seq<Field<T>>)
    requires Sorted(fs)
    ensures DistinctKeys(fs)
  {
    forall i, j | 0 <= i < j < |fs|
      ensures fs[i].key != fs[j].key
    {
      LessTotal(fs[i].key, fs[j].key);
    }
  }

  // ---------------------------------------------------------------- sorting keeps the denotation

  lemma {:induction false} DenoteFieldsKeys(fs: seq<Field<Json>>)
    ensures DenoteFields(fs).Keys == Keys(fs)
  {
    if fs != [] {
      DenoteFieldsKeys(fs[1..]);
      KeysOfParts(fs);
    }
  }

  lemma {:induction false} DenoteInsert(f: Field<Json>, fs: seq<Field<Json>>)
    requires f.key !in Keys(fs)
    ensures DenoteFields(Insert(f, fs)) == DenoteFields(fs)[f.key := Denote(f.value)]
  {
    if fs == [] || Less(f.key, fs[0].key) {
      assert ([f] + fs)[1..] == fs;
    } else {
      KeysOfParts(fs);
      DenoteInsert(f, fs[1..]);
      assert ([fs[0]] + Insert(f, fs[1..]))[1..] == Insert(f, fs[1..]);
      assert fs[0].key in Keys(fs);
    }
  }

  lemma {:induction false} DenoteSort(fs: seq<Field<Json>>)
    requires DistinctKeys(fs)
    ensures DenoteFields(SortByKey(fs)) == DenoteFields(fs)
  {
    if fs != [] {
      DenoteSort(fs[1..]);
      SortKeys(fs[1..]);
      FirstKeyIsFresh(fs);
      DenoteInsert(fs[0], SortByKey(fs[1..]));
    }
  }

  lemma {:induction false} DenoteCanon(v: Json)
    requires Valid(v)
    ensures Denote(Canon(v)) == Denote(v)
    decreases v, 1
  {
    match v
    case Arr(items) => DenoteCanonItems(items);
    case Obj(fields) =>
      DenoteCanonFields(fields);
      DenoteSort(CanonFields(fields));
    case _ =>
  }

  lemma {:induction false} DenoteCanonItems(items: seq<Json>)
    requires forall i :: 0 <= i < |items| ==> Valid(items[i])
    ensures DenoteItems(CanonItems(items)) == DenoteItems(items)
    decreases items, 0
  {
    if items != [] {
      DenoteCanon(items[0]);
      DenoteCanonItems(items[1..]);
    }
  }

  lemma {:induction false} DenoteCanonFields(fields: seq<Field<Json>>)
    requires forall i :: 0 <= i < |fields| ==> Valid(fields[i].value)
    ensures DenoteFields(CanonFields(fields)) == DenoteFields(fields)
    decreases fields, 0
  {
    if fields != [] {
      DenoteCanon(fields[0].value);
      DenoteCanonFields(fields[1..]);
      assert CanonFields(fields)[1..] == CanonFields(fields[1..]);
    }
  }

  /** A denotation has only one sorted representative. */
  lemma {:induction false} CanonicalIsUnique(a: Json, b: Json)
    requires Canonical(a) && Canonical(b) && Denote(a) == Denote(b)
    ensures a == b
    decreases a, 1
  {
    match a
    case Arr(items) => CanonicalItemsUnique(items, b.items);
    case Obj(fields) => CanonicalFieldsUnique(fields, b.fields);
    case _ =>
  }

  lemma {:induction false} CanonicalItemsUnique(xs: seq<Json>, ys: seq<Json>)
    requires forall i :: 0 <= i < |xs| ==> Canonical(xs[i])
    requires forall i :: 0 <= i < |ys| ==> Canonical(ys[i])
    requires DenoteItems(xs) == DenoteItems(ys)
    ensures xs == ys
    decreases xs, 0
  {
    if xs != [] && ys != [] {
      var dx, dy := DenoteItems(xs), DenoteItems(ys);
      assert dx[0] == Denote(xs[0]) && dy[0] == Denote(ys[0]);
      assert dx[1..] == DenoteItems(xs[1..]) && dy[1..] == DenoteItems(ys[1..]);
      CanonicalIsUnique(xs[0], ys[0]);
      CanonicalItemsUnique(xs[1..], ys[1..]);
    }
  }

  lemma {:induction false} CanonicalFieldsUnique(xs: seq<Field<Json>>, ys: seq<Field<Json>>)
    requires Sorted(xs) && forall i :: 0 <= i < |xs| ==> Canonical(xs[i].value)
    requires Sorted(ys) && forall i :: 0 <= i < |ys| ==> Canonical(ys[i].value)
    requires DenoteFields(xs) == DenoteFields(ys)
    ensures xs == ys
    decreases xs, 0
  {
    DenoteFieldsKeys(xs);
    DenoteFieldsKeys(ys);
    if xs != [] && ys != [] {
      SameFirstKey(xs, ys);
      RestOfFields(xs);
      RestOfFields(ys);
      CanonicalIsUnique(xs[0].value, ys[0].value);
      CanonicalFieldsUnique(xs[1..], ys[1..]);
    } else if xs != [] {
      KeysOfParts(xs);
    } else if ys != [] {
      KeysOfParts(ys);
    }
  }

  lemma SameFirstKey(xs: seq<Field<Json>>, ys: seq<Field<Json>>)
    requires xs != [] && ys != [] && Sorted(xs) && Sorted(ys) && Keys(xs) == Keys(ys)
    ensures xs[0].key == ys[0].key
  {
    var a, b := xs[0].key, ys[0].key;
    KeysOfParts(xs);
    KeysOfParts(ys);
    LessTotal(a, b);
    if a != b {
      SortedHeadIsLeast(xs, b);
      SortedHeadIsLeast(ys, a);
    }
  }

  /** The tail of a sorted list denotes the map without the first key. */
  lemma {:induction false} RestOfFields(fs: seq<Field<Json>>)
    requires fs != [] && Sorted(fs)
    ensures DenoteFields(fs[1..]) == DenoteFields(fs) - {fs[0].key}
    ensures DenoteFields(fs)[fs[0].key] == Denote(fs[0].value)
  {
    SortedIsDistinct(fs);
    FirstKeyIsFresh(fs);
    DenoteFieldsKeys(fs[1..]);
    RemoveAdded(DenoteFields(fs[1..]), fs[0].key, Denote(fs[0].value));
  }

  lemma RemoveAdded<K, V>(m: map<K, V>, k: K, v: V)
    requires k !in m
    ensures m[k := v] - {k} == m
  {
  }

  // ---------------------------------------------------------------- printing a sorted tree

  /**
   * The text of a value followed by `rest`. Fields are printed in the order they stand, unlike
   * `Stringify`, which sorts them first.
   */
  ghost function Print(v: Json, rest: string): string
    decreases v, 2
  {
    match v
    case Null => "null" + rest
    case Bool(b) => if b then "true" + rest else "false" + rest
    case Number(text) => text + rest
    case Str(s) => PrintString(s, rest)
    case Arr(items) => "[" + PrintItems(items, rest)
    case Obj(fields) => "{" + PrintFields(fields, rest)
  }

  ghost function PrintString(s: string, rest: string): string { "\"" + PrintEscaped(s, rest) }

  ghost function PrintEscaped(s: string, rest: string): string {
    if s == "" then "\"" + rest else EscapeChar(s[0]) + PrintEscaped(s[1..], rest)
  }

  ghost function PrintItems(items: seq<Json>, rest: string): string
    decreases items, 0
  {
    if items == [] then "]" + rest else Print(items[0], AfterItem(items[1..], rest))
  }

  ghost function AfterItem(items: seq<Json>, rest: string): string
    decreases items, 1
  {
    if items == [] then "]" + rest else "," + PrintItems(items, rest)
  }

  ghost function PrintFields(fields: seq<Field<Json>>, rest: string): string
    decreases fields, 0
  {
    if fields == [] then "}" + rest
    else PrintString(fields[0].key, ":" + Print(fields[0].value, AfterField(fields[1..], rest)))
  }

  ghost function AfterField(fields: seq<Field<Json>>, rest: string): string
    decreases fields, 1
  {
    if fields == [] then "}" + rest else "," + PrintFields(fields, rest)
  }

  lemma {:induction false} EscapedIsEscape(s: string, rest: string)
    ensures PrintEscaped(s, rest) == Escape(s) + ("\"" + rest)
  {
    if s == "" {
      assert "" + ("\"" + rest) == "\"" + rest;
    } else {
      EscapedIsEscape(s[1..], rest);
      Assoc(EscapeChar(s[0]), Escape(s[1..]), "\"" + rest);
    }
  }

  lemma StringIsQuote(s: string, rest: string)
    ensures PrintString(s, rest) == Quote(s) + rest
  {
    EscapedIsEscape(s, rest);
    Assoc("\"", Escape(s), "\"" + rest);
    Assoc("\"" + Escape(s), "\"", rest);
  }

  lemma {:induction false} PrintAppends(v: Json, x: string, y: string)
    ensures Print(v, x + y) == Print(v, x) + y
    decreases v, 2
  {
    match v
    case Null => Assoc("null", x, y);
    case Bool(b) => Assoc(if b then "true" else "false", x, y);
    case Number(text) => Assoc(text, x, y);
    case Str(s) =>
      StringIsQuote(s, x);
      StringIsQuote(s, x + y);
      Assoc(Quote(s), x, y);
    case Arr(items) =>
      ItemsAppend(items, x, y);
      Assoc("[", PrintItems(items, x), y);
    case Obj(fields) =>
      FieldsAppend(fields, x, y);
      Assoc("{", PrintFields(fields, x), y);
  }

  lemma {:induction false} ItemsAppend(items: seq<Json>, x: string, y: string)
    ensures PrintItems(items, x + y) == PrintItems(items, x) + y
    ensures AfterItem(items, x + y) == AfterItem(items, x) + y
    decreases items, 1
  {
    if items == [] {
      Assoc("]", x, y);
    } else {
      ItemsAppend(items[1..], x, y);
      PrintAppends(items[0], AfterItem(items[1..], x), y);
      Assoc(",", PrintItems(items, x), y);
    }
  }

  lemma {:induction false} FieldsAppend(fields: seq<Field<Json>>, x: string, y: string)
    ensures PrintFields(fields, x + y) == PrintFields(fields, x) + y
    ensures AfterField(fields, x + y) == AfterField(fields, x) + y
    decreases fields, 1
  {
    if fields == [] {
      Assoc("}", x, y);
    } else {
      var key, value := fields[0].key, fields[0].value;
      FieldsAppend(fields[1..], x, y);
      var tail := AfterField(fields[1..], x);
      PrintAppends(value, tail, y);
      Assoc(":", Print(value, tail), y);
      StringIsQuote(key, ":" + Print(value, tail));
      StringIsQuote(key, (":" + Print(value, tail)) + y);
      Assoc(Quote(key), ":" + Print(value, tail), y);
      Assoc(",", PrintFields(fields, x), y);
    }
  }

  lemma {:induction false} PrintThen(v: Json, rest: string)
    ensures Print(v, rest) == Print(v, "") + rest
  {
    PrintAppends(v, "", rest);
    assert "" + rest == rest;
  }

  lemma {:induction false} StringifyIsPrintOfCanon(v: Json)
    ensures Stringify(v) == Print(Canon(v), "")
    decreases v, 1
  {
    match v
    case Str(s) => StringIsQuote(s, "");
    case Arr(items) =>
      StringifyItemsIsPrint(items);
      Assoc("[", StringifyItems(items), "]");
    case Obj(fields) =>
      StringifyFieldsIsPrint(fields);
      SortCommutes(CanonFields(fields));
      JoinIsPrint(SortByKey(CanonFields(fields)));
      Assoc("{", JoinFields(SortByKey(StringifyFields(fields))), "}");
    case _ =>
  }

  lemma {:induction false} StringifyItemsIsPrint(items: seq<Json>)
    ensures StringifyItems(items) + "]" == PrintItems(CanonItems(items), "")
    decreases items, 0
  {
    if items != [] {
      var head, tail := CanonItems(items)[0], CanonItems(items)[1..];
      StringifyIsPrintOfCanon(items[0]);
      StringifyItemsIsPrint(items[1..]);
      assert tail == CanonItems(items[1..]);
      PrintThen(head, AfterItem(tail, ""));
      if |items| > 1 {
        Assoc(Stringify(items[0]) + ",", StringifyItems(items[1..]), "]");
        Assoc(Stringify(items[0]), ",", PrintItems(tail, ""));
      }
    }
  }

  ghost function PrintValues(fields: seq<Field<Json>>): (r: seq<Field<string>>)
    ensures |r| == |fields|
  {
    if fields == [] then []
    else [Field(fields[0].key, Print(fields[0].value, ""))] + PrintValues(fields[1..])
  }

  lemma {:induction false} StringifyFieldsIsPrint(fields: seq<Field<Json>>)
    ensures StringifyFields(fields) == PrintValues(CanonFields(fields))
    decreases fields, 0
  {
    if fields != [] {
      StringifyIsPrintOfCanon(fields[0].value);
      StringifyFieldsIsPrint(fields[1..]);
      assert CanonFields(fields)[1..] == CanonFields(fields[1..]);
    }
  }

  lemma {:induction false} InsertCommutes(f: Field<Json>, fs: seq<Field<Json>>)
    ensures PrintValues(Insert(f, fs)) == Insert(Field(f.key, Print(f.value, "")), PrintValues(fs))
  {
    if fs == [] || Less(f.key, fs[0].key) {
      assert ([f] + fs)[1..] == fs;
    } else {
      InsertCommutes(f, fs[1..]);
      assert ([fs[0]] + Insert(f, fs[1..]))[1..] == Insert(f, fs[1..]);
      assert PrintValues(fs)[1..] == PrintValues(fs[1..]);
    }
  }

  lemma {:induction false} SortCommutes(fs: seq<Field<Json>>)
    ensures PrintValues(SortByKey(fs)) == SortByKey(PrintValues(fs))
  {
    if fs != [] {
      SortCommutes(fs[1..]);
      InsertCommutes(fs[0], SortByKey(fs[1..]));
      assert PrintValues(fs)[1..] == PrintValues(fs[1..]);
    }
  }

  lemma {:induction false} JoinIsPrint(fields: seq<Field<Json>>)
    ensures JoinFields(PrintValues(fields)) + "}" == PrintFields(fields, "")
  {
    if fields != [] {
      var text := Print(fields[0].value, "");
      var head := Quote(fields[0].key) + ":" + text;
      var after := AfterField(fields[1..], "");
      JoinIsPrint(fields[1..]);
      var texts := PrintValues(fields);
      assert texts[1..] == PrintValues(fields[1..]);
      PrintThen(fields[0].value, after);
      StringIsQuote(fields[0].key, ":" + (text + after));
      Assoc(":", text, after);
      Assoc(Quote(fields[0].key), ":" + text, after);
      Assoc(Quote(fields[0].key), ":", text);
      if |fields| > 1 {
        Assoc(head + ",", JoinFields(texts[1..]), "}");
        Assoc(head, ",", JoinFields(texts[1..]) + "}");
      }
    }
  }

  // ---------------------------------------------------------------- unique readability

  /** What can follow a printed value: the end, or one of the separators and closers. */
  ghost predicate Delimited(rest: string) {
    rest == "" || rest[0] in {',', ']', '}', '|'}
  }

  lemma ReadPrefix(s: string, x: string, y: string)
    requires s + x == s + y
    ensures x == y
  {
    assert (s + x)[|s|..] == x && (s + y)[|s|..] == y;
  }

  lemma HexDigitsDiffer(i: nat, j: nat)
    requires i < 16 && j < 16 && HEX[i] == HEX[j]
    ensures i == j
  {
  }

  /** No escape is a prefix of another one. */
  lemma ReadEscape(c: char, d: char, x: string, y: string)
    requires EscapeChar(c) + x == EscapeChar(d) + y
    ensures c == d && x == y
  {
    var s, t := EscapeChar(c) + x, EscapeChar(d) + y;
    assert s[0] == t[0];
    if s[0] == '\\' {
      assert s[1] == t[1];
      if s[1] == 'u' {
        assert s[4] == t[4] && s[5] == t[5];
        HexDigitsDiffer(c as int / 16, d as int / 16);
        HexDigitsDiffer(c as int % 16, d as int % 16);
      }
    }
    ReadPrefix(EscapeChar(c), x, y);
  }

  lemma {:induction false} EscapedOpens(s: string, rest: string)
    ensures PrintEscaped(s, rest) != "" && (PrintEscaped(s, rest)[0] == '"' <==> s == "")
  {
    if s != "" {
      assert PrintEscaped(s, rest)[0] == EscapeChar(s[0])[0];
    }
  }

  lemma {:induction false} ReadEscaped(s: string, t: string, x: string, y: string)
    requires PrintEscaped(s, x) == PrintEscaped(t, y)
    ensures s == t && x == y
  {
    EscapedOpens(s, x);
    EscapedOpens(t, y);
    if s == "" {
      ReadPrefix("\"", x, y);
    } else {
      ReadEscape(s[0], t[0], PrintEscaped(s[1..], x), PrintEscaped(t[1..], y));
      ReadEscaped(s[1..], t[1..], x, y);
      assert s == [s[0]] + s[1..] && t == [t[0]] + t[1..];
    }
  }

  lemma ReadString(s: string, t: string, x: string, y: string)
    requires PrintString(s, x) == PrintString(t, y)
    ensures s == t && x == y
  {
    ReadPrefix("\"", PrintEscaped(s, x), PrintEscaped(t, y));
    ReadEscaped(s, t, x, y);
  }

  ghost function NumberSpan(s: string): nat {
    if s == "" || !IsNumberChar(s[0]) then 0 else 1 + NumberSpan(s[1..])
  }

  /** A numeral ends where its characters end. */
  lemma {:induction false} NumeralSpan(text: string, rest: string)
    requires (forall c :: c in text ==> IsNumberChar(c)) && Delimited(rest)
    ensures NumberSpan(text + rest) == |text|
  {
    if text == "" {
      assert text + rest == rest;
    } else {
      assert (text + rest)[1..] == text[1..] + rest;
      NumeralSpan(text[1..], rest);
    }
  }

  lemma ReadNumber(s: string, t: string, x: string, y: string)
    requires Valid(Number(s)) && Valid(Number(t)) && Delimited(x) && Delimited(y)
    requires s + x == t + y
    ensures s == t && x == y
  {
    NumeralSpan(s, x);
    NumeralSpan(t, y);
    assert (s + x)[..|s|] == s && (t + y)[..|t|] == t;
    ReadPrefix(s, x, y);
  }

  /** The first character tells the kind of value. */
  ghost predicate Opens(v: Json, c: char) {
    match v
    case Null => c == 'n'
    case Bool(b) => c == if b then 't' else 'f'
    case Number(_) => c == '-' || '0' <= c <= '9'
    case Str(_) => c == '"'
    case Arr(_) => c == '['
    case Obj(_) => c == '{'
  }

  lemma {:induction false} PrintOpens(v: Json, rest: string)
    requires Valid(v)
    ensures Print(v, rest) != "" && Opens(v, Print(v, rest)[0])
  {
  }

  /** Unique readability: a text has at most one reading as a printed value followed by a delimiter. */
  lemma {:induction false} ReadValue(a: Json, b: Json, x: string, y: string)
    requires Valid(a) && Valid(b) && Delimited(x) && Delimited(y)
    requires Print(a, x) == Print(b, y)
    ensures a == b && x == y
    decreases a, 1
  {
    PrintOpens(a, x);
    PrintOpens(b, y);
    match a
    case Null => ReadPrefix("null", x, y);
    case Bool(v) => ReadPrefix(if v then "true" else "false", x, y);
    case Number(text) => ReadNumber(text, b.text, x, y);
    case Str(s) => ReadString(s, b.s, x, y);
    case Arr(items) =>
      ReadPrefix("[", PrintItems(items, x), PrintItems(b.items, y));
      ReadItems(items, b.items, x, y);
    case Obj(fields) =>
      ReadPrefix("{", PrintFields(fields, x), PrintFields(b.fields, y));
      ReadFields(fields, b.fields, x, y);
  }

  lemma {:induction false} ItemsOpen(items: seq<Json>, rest: string)
    requires forall i :: 0 <= i < |items| ==> Valid(items[i])
    ensures PrintItems(items, rest) != "" && (PrintItems(items, rest)[0] == ']' <==> items == [])
  {
    if items != [] {
      PrintOpens(items[0], AfterItem(items[1..], rest));
    }
  }

  lemma {:induction false} ReadItems(xs: seq<Json>, ys: seq<Json>, x: string, y: string)
    requires forall i :: 0 <= i < |xs| ==> Valid(xs[i])
    requires forall i :: 0 <= i < |ys| ==> Valid(ys[i])
    requires PrintItems(xs, x) == PrintItems(ys, y)
    ensures xs == ys && x == y
    decreases xs, 0
  {
    ItemsOpen(xs, x);
    ItemsOpen(ys, y);
    if xs == [] {
      ReadPrefix("]", x, y);
    } else {
      var r, s := AfterItem(xs[1..], x), AfterItem(ys[1..], y);
      ReadValue(xs[0], ys[0], r, s);
      assert r[0] == s[0];
      if xs[1..] == [] {
        ReadPrefix("]", x, y);
      } else {
        ReadPrefix(",", PrintItems(xs[1..], x), PrintItems(ys[1..], y));
        ReadItems(xs[1..], ys[1..], x, y);
      }
      assert xs == [xs[0]] + xs[1..] && ys == [ys[0]] + ys[1..];
    }
  }

  lemma {:induction false} ReadFields(xs: seq<Field<Json>>, ys: seq<Field<Json>>, x: string, y: string)
    requires forall i :: 0 <= i < |xs| ==> Valid(xs[i].value)
    requires forall i :: 0 <= i < |ys| ==> Valid(ys[i].value)
    requires PrintFields(xs, x) == PrintFields(ys, y)
    ensures xs == ys && x == y
    decreases xs, 0
  {
    assert PrintFields(xs, x)[0] == PrintFields(ys, y)[0];
    if xs == [] {
      ReadPrefix("}", x, y);
    } else {
      var r, s := AfterField(xs[1..], x), AfterField(ys[1..], y);
      ReadString(xs[0].key, ys[0].key, ":" + Print(xs[0].value, r), ":" + Print(ys[0].value, s));
      ReadPrefix(":", Print(xs[0].value, r), Print(ys[0].value, s));
      ReadValue(xs[0].value, ys[0].value, r, s);
      assert r[0] == s[0];
      if xs[1..] == [] {
        ReadPrefix("}", x, y);
      } else {
        ReadPrefix(",", PrintFields(xs[1..], x), PrintFields(ys[1..], y));
        ReadFields(xs[1..], ys[1..], x, y);
      }
      assert xs == [xs[0]] + xs[1..] && ys == [ys[0]] + ys[1..];
    }
  }

  /**
   * `stableStringify` is a canonical form: two JSON values have the same text exactly when they
   * differ in nothing but the order of keys, at any depth.
   */
  lemma {:induction false} StringifyIsCanonical(a: Json, b: Json)
    requires Valid(a) && Valid(b)
    ensures Stringify(a) == Stringify(b) <==> Denote(a) == Denote(b)
  {
    StringifyIsPrintOfCanon(a);
    StringifyIsPrintOfCanon(b);
    CanonIsCanonical(a);
    CanonIsCanonical(b);
    DenoteCanon(a);
    DenoteCanon(b);
    if Stringify(a) == Stringify(b) {
      ReadValue(Canon(a), Canon(b), "", "");
    }
    if Denote(a) == Denote(b) {
      CanonicalIsUnique(Canon(a), Canon(b));
    }
  }
}

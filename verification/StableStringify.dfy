/**
 * The canonical stringifier of src/agent/tool-loop-guard.ts on JSON values. An object is the list
 * of its fields in insertion order; a number is represented by the text JSON.stringify gives it.
 */
module StableStringify {
  datatype Field<T> = Field(key: string, value: T)

  datatype Json =
    | Null
    | Bool(b: bool)
    | Number(text: string)
    | Str(s: string)
    | Arr(items: seq<Json>)
    | Obj(fields: seq<Field<Json>>)

  predicate IsNumberChar(c: char) { '0' <= c <= '9' || c in {'-', '+', '.', 'e', 'E'} }

  /** Number texts are numerals and the keys of an object are distinct, at every depth. */
  predicate Valid(v: Json) {
    match v
    case Number(text) =>
      text != "" && (text[0] == '-' || '0' <= text[0] <= '9') && forall c :: c in text ==> IsNumberChar(c)
    case Arr(items) => forall i :: 0 <= i < |items| ==> Valid(items[i])
    case Obj(fields) =>
      && DistinctKeys(fields)
      && forall i :: 0 <= i < |fields| ==> Valid(fields[i].value)
    case _ => true
  }

  predicate DistinctKeys<T>(fields: seq<Field<T>>) {
    forall i, j :: 0 <= i < j < |fields| ==> fields[i].key != fields[j].key
  }

  // ---------------------------------------------------------------- key order

  /** The order of `Array.prototype.sort` on strings. */
  predicate Less(a: string, b: string) {
    if b == "" then false
    else if a == "" then true
    else a[0] < b[0] || (a[0] == b[0] && Less(a[1..], b[1..]))
  }

  lemma {:induction false} LessTransitive(a: string, b: string, c: string)
    requires Less(a, b) && Less(b, c)
    ensures Less(a, c)
  {
    if a != "" && a[0] == b[0] == c[0] {
      LessTransitive(a[1..], b[1..], c[1..]);
    }
  }

  lemma {:induction false} LessTotal(a: string, b: string)
    ensures Less(a, b) || a == b || Less(b, a)
    ensures !(Less(a, b) && Less(b, a)) && !Less(a, a)
  {
    if a != "" && b != "" && a[0] == b[0] {
      LessTotal(a[1..], b[1..]);
    }
    if a != "" {
      LessTotal(a[1..], a[1..]);
    }
  }

  // ---------------------------------------------------------------- the stringifier

  const HEX := "0123456789abcdef"

  /** JSON.stringify of one character of a well-formed string. */
  function EscapeChar(c: char): (r: string)
    ensures r != "" && r[0] != '"'
  {
    var n := c as int;
    if c == '"' then "\\\""
    else if c == '\\' then "\\\\"
    else if n == 8 then "\\b"
    else if n == 9 then "\\t"
    else if n == 10 then "\\n"
    else if n == 12 then "\\f"
    else if n == 13 then "\\r"
    else if n < 32 then "\\u00" + [HEX[n / 16], HEX[n % 16]]
    else [c]
  }

  function Escape(s: string): string {
    if s == "" then "" else EscapeChar(s[0]) + Escape(s[1..])
  }

  function Quote(s: string): string { "\"" + Escape(s) + "\"" }

  function Insert<T>(field: Field<T>, sorted: seq<Field<T>>): seq<Field<T>> {
    if sorted == [] || Less(field.key, sorted[0].key) then [field] + sorted
    else [sorted[0]] + Insert(field, sorted[1..])
  }

  function SortByKey<T>(fields: seq<Field<T>>): seq<Field<T>> {
    if fields == [] then [] else Insert(fields[0], SortByKey(fields[1..]))
  }

  function JoinFields(fields: seq<Field<string>>): string {
    if fields == [] then ""
    else
      var head := Quote(fields[0].key) + ":" + fields[0].value;
      if |fields| == 1 then head else head + "," + JoinFields(fields[1..])
  }

  function Stringify(v: Json): string
    decreases v, 1
  {
    match v
    case Null => "null"
    case Bool(b) => if b then "true" else "false"
    case Number(text) => text
    case Str(s) => Quote(s)
    case Arr(items) => "[" + StringifyItems(items) + "]"
    case Obj(fields) => "{" + JoinFields(SortByKey(StringifyFields(fields))) + "}"
  }

  function StringifyItems(items: seq<Json>): string
    decreases items, 0
  {
    if items == [] then ""
    else if |items| == 1 then Stringify(items[0])
    else Stringify(items[0]) + "," + StringifyItems(items[1..])
  }

  function StringifyFields(fields: seq<Field<Json>>): seq<Field<string>>
    decreases fields, 0
  {
    if fields == [] then []
    else [Field(fields[0].key, Stringify(fields[0].value))] + StringifyFields(fields[1..])
  }

  // ---------------------------------------------------------------- what a JSON value denotes

  /** A JSON value with the key order forgotten. */
  datatype Value =
    | VNull
    | VBool(b: bool)
    | VNumber(text: string)
    | VStr(s: string)
    | VArr(items: seq<Value>)
    | VObj(fields: map<string, Value>)

  function Denote(v: Json): Value
    decreases v, 1
  {
    match v
    case Null => VNull
    case Bool(b) => VBool(b)
    case Number(text) => VNumber(text)
    case Str(s) => VStr(s)
    case Arr(items) => VArr(DenoteItems(items))
    case Obj(fields) => VObj(DenoteFields(fields))
  }

  function DenoteItems(items: seq<Json>): seq<Value>
    decreases items, 0
  {
    if items == [] then [] else [Denote(items[0])] + DenoteItems(items[1..])
  }

  function DenoteFields(fields: seq<Field<Json>>): map<string, Value>
    decreases fields, 0
  {
    if fields == [] then map[] else DenoteFields(fields[1..])[fields[0].key := Denote(fields[0].value)]
  }
}

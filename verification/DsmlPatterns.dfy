/** How the scanners of DsmlMarkup pass over text in which their tag heads do not begin. */
module DsmlPatterns {
  import opened Wrappers
  import opened Seqs
  import opened DsmlMarkup

  /** No position of `t` begins a head of `p`, given that `s` follows `t`. */
  ghost predicate NoneAt(p: Pattern, t: string, s: string) {
    t == "" || (Hit(p, t + s).None? && NoneAt(p, t[1..], s))
  }

  /** Whatever follows. */
  ghost predicate Immune(p: Pattern, t: string) {
    forall s :: NoneAt(p, t, s)
  }

  lemma {:induction false} NoneAppend(p: Pattern, a: string, b: string, s: string)
    requires NoneAt(p, a, b + s) && NoneAt(p, b, s)
    ensures NoneAt(p, a + b, s)
  {
    if a == "" {
      assert a + b == b;
    } else {
      NoneAppend(p, a[1..], b, s);
      assert (a + b)[1..] == a[1..] + b;
      Assoc(a, b, s);
    }
  }

  lemma ImmuneAppend(p: Pattern, a: string, b: string)
    requires Immune(p, a) && Immune(p, b)
    ensures Immune(p, a + b)
  {
    forall s
      ensures NoneAt(p, a + b, s)
    {
      NoneAppend(p, a, b, s);
    }
  }

  // ---------------------------------------------------------------- scanners pass over

  lemma DropFirst(t: string, s: string)
    requires t != ""
    ensures (t + s)[1..] == t[1..] + s && (t + s)[0] == t[0] && t == [t[0]] + t[1..]
  {
  }

  lemma ConsAppend(c: char, t: string, s: string)
    ensures [c] + (t + s) == ([c] + t) + s
  {
  }

  lemma {:induction false} ScanPasses(d: Dialect, word: string, t: string, s: string)
    requires NoneAt(OpenTag(d, word), t, s)
    ensures var tail := ScanElements(d, word, s);
            ScanElements(d, word, t + s) == Scan(tail.found, t + tail.out)
  {
    if t == "" {
      assert t + s == s && t + ScanElements(d, word, s).out == ScanElements(d, word, s).out;
    } else {
      DropFirst(t, s);
      ScanPasses(d, word, t[1..], s);
      ConsAppend(t[0], t[1..], ScanElements(d, word, s).out);
    }
  }

  lemma {:induction false} ToolScanPasses(t: string, s: string)
    requires NoneAt(TOOL_CALL_OPEN, t, s)
    ensures var tail := ScanToolCalls(s);
            ScanToolCalls(t + s) == Scan(tail.found, t + tail.out)
  {
    if t == "" {
      assert t + s == s && t + ScanToolCalls(s).out == ScanToolCalls(s).out;
    } else {
      DropFirst(t, s);
      ToolScanPasses(t[1..], s);
      ConsAppend(t[0], t[1..], ScanToolCalls(s).out);
    }
  }

  lemma {:induction false} StripPasses(p: Pattern, t: string, s: string)
    requires "" !in p.heads && NoneAt(p, t, s)
    ensures StripStrays(p, t + s) == t + StripStrays(p, s)
  {
    if t == "" {
      assert t + s == s && t + StripStrays(p, s) == StripStrays(p, s);
    } else {
      DropFirst(t, s);
      StripPasses(p, t[1..], s);
      ConsAppend(t[0], t[1..], StripStrays(p, s));
    }
  }

  lemma {:induction false} UntilTagPasses(p: Pattern, t: string, s: string)
    requires NoneAt(p, t, s) && UntilTag(p, s).Some?
    ensures var cut := UntilTag(p, s).value;
            UntilTag(p, t + s) == Some(Cut(t + cut.before, cut.after))
  {
    if t == "" {
      assert t + s == s && t + UntilTag(p, s).value.before == UntilTag(p, s).value.before;
    } else {
      DropFirst(t, s);
      UntilTagPasses(p, t[1..], s);
      ConsAppend(t[0], t[1..], UntilTag(p, s).value.before);
    }
  }

  lemma {:induction false} ArgsPass(input: map<string, Value>, t: string, s: string)
    requires NoneAt(ARG_KEY_OPEN, t, s)
    ensures ArgsFrom(input, t + s) == ArgsFrom(input, s)
  {
    if t == "" {
      assert t + s == s;
    } else {
      DropFirst(t, s);
      ArgsPass(input, t[1..], s);
    }
  }

  lemma {:induction false} KeyPasses(t: string, s: string, key: string)
    requires NoneAt(ARG_KEY_CLOSE, t, s)
    ensures SearchKey(t + s, key) == SearchKey(s, key + t)
  {
    if t == "" {
      assert t + s == s && key + t == key;
    } else {
      DropFirst(t, s);
      KeyPasses(t[1..], s, key + [t[0]]);
      Assoc(key, [t[0]], t[1..]);
    }
  }

  lemma {:induction false} UntilPasses(c: char, t: string, s: string)
    requires c !in t
    ensures Until(c, t + ([c] + s)) == Some(Cut(t, s))
  {
    if t == "" {
      assert t + ([c] + s) == [c] + s && ([c] + s)[1..] == s;
    } else {
      DropFirst(t, [c] + s);
      UntilPasses(c, t[1..], s);
    }
  }

  // ---------------------------------------------------------------- what is immune

  /** Every head begins `<c` or `</c` with a character c that is neither a slash nor in `chars`. */
  ghost predicate Begins(p: Pattern, chars: set<char>) {
    forall h :: h in p.heads ==> HeadBegins(p, h, chars)
  }

  ghost predicate HeadBegins(p: Pattern, h: string, chars: set<char>) {
    && 2 <= |h| && h[0] == '<'
    && if h[1] == '/' then 3 <= |h| && Avoids(p, h[2], chars) else Avoids(p, h[1], chars)
  }

  ghost predicate Avoids(p: Pattern, c: char, chars: set<char>) {
    c != '/' && forall x :: x in chars ==> !SameChar(p, c, x)
  }

  /** Every `<` of `t` is followed within `t`, after an optional slash, by a character of `chars`. */
  ghost predicate TagsBegin(t: string, chars: set<char>) {
    forall i :: 0 <= i < |t| && t[i] == '<' ==> TagBegins(t, i, chars)
  }

  ghost predicate TagBegins(t: string, i: nat, chars: set<char>) {
    && i + 1 < |t|
    && if t[i + 1] == '/' then i + 2 < |t| && t[i + 2] in chars else t[i + 1] in chars
  }

  lemma TagsBeginTail(t: string, chars: set<char>)
    requires t != "" && TagsBegin(t, chars)
    ensures TagsBegin(t[1..], chars)
  {
    forall i | 0 <= i < |t[1..]| && t[1..][i] == '<'
      ensures TagBegins(t[1..], i, chars)
    {
      assert TagBegins(t, i + 1, chars);
    }
  }

  lemma LowerKeepsOthers(p: Pattern, c: char)
    ensures SameChar(p, '<', c) <==> c == '<'
    ensures SameChar(p, '/', c) <==> c == '/'
    ensures SameChar(p, ' ', c) <==> c == ' '
  {
  }

  lemma NoHeadFits(p: Pattern, h: string, t: string, s: string, chars: set<char>)
    requires HeadBegins(p, h, chars) && TagsBegin(t, chars) && t != ""
    ensures !HeadFits(p, h, t + s)
  {
    var u := t + s;
    if t[0] == '<' {
      assert TagBegins(t, 0, chars);
      assert u[1] == t[1] && (t[1] == '/' ==> u[2] == t[2]);
      LowerKeepsOthers(p, u[1]);
    }
    LowerKeepsOthers(p, u[0]);
  }

  lemma NoHit(p: Pattern, t: string, s: string, chars: set<char>)
    requires Begins(p, chars) && TagsBegin(t, chars) && t != ""
    ensures Hit(p, t + s).None?
  {
    forall k | 0 <= k < |p.heads|
      ensures !HeadFits(p, p.heads[k], t + s)
    {
      assert HeadBegins(p, p.heads[k], chars);
      NoHeadFits(p, p.heads[k], t, s, chars);
    }
  }

  lemma {:induction false} OtherTagsNone(p: Pattern, t: string, s: string, chars: set<char>)
    requires Begins(p, chars) && TagsBegin(t, chars)
    ensures NoneAt(p, t, s)
  {
    if t != "" {
      NoHit(p, t, s, chars);
      TagsBeginTail(t, chars);
      OtherTagsNone(p, t[1..], s, chars);
    }
  }

  /** Text whose tags begin differently is immune; in particular text without any tag. */
  lemma OtherTagsImmune(p: Pattern, t: string, chars: set<char>)
    requires Begins(p, chars) && TagsBegin(t, chars)
    ensures Immune(p, t)
  {
    forall s
      ensures NoneAt(p, t, s)
    {
      OtherTagsNone(p, t, s, chars);
    }
  }

  /** Prose is followed by the end, a space or a tag. */
  ghost predicate Boundary(s: string) { s == "" || s[0] == ' ' || s[0] == '<' }

  /** A head contains neither a space nor, after its first character, a `<`. */
  ghost predicate PlainHeads(p: Pattern) {
    forall h :: h in p.heads ==> h != "" && PlainHead(h)
  }

  ghost predicate PlainHead(h: string) {
    forall i :: 1 <= i < |h| ==> h[i] != ' ' && h[i] != '<'
  }

  lemma {:induction false} ProseNone(p: Pattern, t: string, s: string)
    requires PlainHeads(p) && !Occurs(p.(bounded := false), t) && Boundary(s)
    ensures NoneAt(p, t, s)
  {
    if t != "" {
      var q, u := p.(bounded := false), t + s;
      assert t[0..] == t && Hit(q, t[0..]).None?;
      forall k | 0 <= k < |p.heads|
        ensures !HeadFits(p, p.heads[k], u)
      {
        ProseNoHead(p, p.heads[k], t, s);
        assert !HeadFits(q, q.heads[k], t);
      }
      ProseTail(q, t);
      ProseNone(p, t[1..], s);
    }
  }

  lemma ProseNoHead(p: Pattern, h: string, t: string, s: string)
    requires PlainHead(h) && h != "" && t != "" && Boundary(s)
    ensures HeadFits(p, h, t + s) ==> HeadFits(p.(bounded := false), h, t)
  {
    var u := t + s;
    if |t| < |h| <= |u| && SameChar(p, h[|t|], u[|t|]) {
      assert u[|t|] == s[0];
      LowerKeepsOthers(p, s[0]);
    }
  }

  lemma ProseTail(q: Pattern, t: string)
    requires t != "" && !Occurs(q, t)
    ensures !Occurs(q, t[1..])
  {
    forall i | 0 <= i < |t[1..]|
      ensures Hit(q, t[1..][i..]).None?
    {
      assert t[1..][i..] == t[i + 1..];
      assert Hit(q, t[i + 1..]).None?;
    }
  }
}

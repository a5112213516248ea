/** Small helpers shared by the models of the individual source files. */
module Wrappers {
  /** A value the source may leave `null` or `undefined`. */
  datatype Option<+T> = None | Some(value: T)
}

/** The array combinators (`filter`, `map`, `reduce`) that the source applies to lists. */
module Seqs {
  function Filter<T>(keep: T -> bool, xs: seq<T>): (r: seq<T>)
    ensures |r| <= |xs|
  {
    if xs == [] then []
    else if keep(xs[0]) then [xs[0]] + Filter(keep, xs[1..])
    else Filter(keep, xs[1..])
  }

  lemma {:induction false} FilterMembers<T(!new)>(keep: T -> bool, xs: seq<T>)
    ensures forall x :: x in Filter(keep, xs) <==> x in xs && keep(x)
  {
    if xs != [] {
      FilterMembers(keep, xs[1..]);
      assert forall x :: x in xs <==> x == xs[0] || x in xs[1..];
    }
  }

  function Map<T, U>(f: T -> U, xs: seq<T>): (r: seq<U>)
    ensures |r| == |xs|
    ensures forall i :: 0 <= i < |xs| ==> r[i] == f(xs[i])
  {
    seq(|xs|, i requires 0 <= i < |xs| => f(xs[i]))
  }

  function Sum<T>(f: T -> int, xs: seq<T>): int {
    if xs == [] then 0 else f(xs[0]) + Sum(f, xs[1..])
  }

  lemma Assoc<T>(a: seq<T>, b: seq<T>, c: seq<T>)
    ensures a + (b + c) == (a + b) + c
  {
  }

  lemma {:induction false} FilterAppend<T>(keep: T -> bool, xs: seq<T>, ys: seq<T>)
    ensures Filter(keep, xs + ys) == Filter(keep, xs) + Filter(keep, ys)
  {
    if xs == [] {
      assert xs + ys == ys;
    } else {
      var x, tail := xs[0], xs[1..];
      assert xs + ys == [x] + (tail + ys);
      FilterAppend(keep, tail, ys);
      FilterCons(keep, x, tail + ys);
      FilterCons(keep, x, tail);
      assert [x] + tail == xs;
    }
  }

  lemma {:induction false} FilterCons<T>(keep: T -> bool, x: T, xs: seq<T>)
    ensures Filter(keep, [x] + xs) == (if keep(x) then [x] else []) + Filter(keep, xs)
  {
    assert ([x] + xs)[1..] == xs;
  }

  /** Two filters in a row are one filter by both tests. */
  lemma {:induction false} FilterFilter<T(!new)>(p: T -> bool, q: T -> bool, both: T -> bool, xs: seq<T>)
    requires forall x :: x in xs ==> both(x) == (p(x) && q(x))
    ensures Filter(p, Filter(q, xs)) == Filter(both, xs)
  {
    if xs != [] {
      FilterFilter(p, q, both, xs[1..]);
    }
  }

  lemma {:induction false} FilterKeepsLast<T>(keep: T -> bool, xs: seq<T>)
    requires xs != [] && keep(xs[|xs| - 1])
    ensures var r := Filter(keep, xs); r != [] && r[|r| - 1] == xs[|xs| - 1]
  {
    if |xs| > 1 {
      FilterKeepsLast(keep, xs[1..]);
    }
  }

  lemma {:induction false} FilterAll<T(!new)>(keep: T -> bool, xs: seq<T>)
    requires forall x :: x in xs ==> keep(x)
    ensures Filter(keep, xs) == xs
  {
    if xs != [] {
      FilterAll(keep, xs[1..]);
    }
  }

  lemma {:induction false} FilterNone<T>(keep: T -> bool, xs: seq<T>)
    requires forall i :: 0 <= i < |xs| ==> !keep(xs[i])
    ensures Filter(keep, xs) == []
  {
    if xs != [] {
      FilterNone(keep, xs[1..]);
    }
  }

  /** Two tests that agree on every element select the same elements. */
  lemma {:induction false} FilterCongruence<T(!new)>(p: T -> bool, q: T -> bool, xs: seq<T>)
    requires forall x :: x in xs ==> p(x) == q(x)
    ensures Filter(p, xs) == Filter(q, xs)
  {
    if xs != [] {
      FilterCongruence(p, q, xs[1..]);
    }
  }

  /** A weaker test keeps at least as many elements. */
  lemma {:induction false} FilterMonotone<T(!new)>(p: T -> bool, q: T -> bool, xs: seq<T>)
    requires forall x :: x in xs && p(x) ==> q(x)
    ensures |Filter(p, xs)| <= |Filter(q, xs)|
  {
    if xs != [] {
      FilterMonotone(p, q, xs[1..]);
    }
  }

  lemma {:induction false} SumAppend<T>(f: T -> int, xs: seq<T>, ys: seq<T>)
    ensures Sum(f, xs + ys) == Sum(f, xs) + Sum(f, ys)
  {
    if xs == [] {
      assert xs + ys == ys;
    } else {
      SumAppend(f, xs[1..], ys);
      assert (xs + ys)[1..] == xs[1..] + ys;
    }
  }

  /** Bounds on every term bound the sum. */
  lemma {:induction false} SumBounds<T>(f: T -> int, xs: seq<T>, low: int, high: int)
    requires forall x :: x in xs ==> low <= f(x) <= high
    ensures |xs| * low <= Sum(f, xs) <= |xs| * high
  {
    if xs != [] {
      SumBounds(f, xs[1..], low, high);
      var n := |xs| - 1;
      assert (n + 1) * low == n * low + low && (n + 1) * high == n * high + high;
    }
  }

  /** Dropping elements cannot raise a sum of non-negative terms. */
  lemma {:induction false} SumOfFewer<T(!new)>(f: T -> int, p: T -> bool, q: T -> bool, xs: seq<T>)
    requires forall x :: x in xs ==> 0 <= f(x)
    requires forall x :: x in xs && p(x) ==> q(x)
    ensures Sum(f, Filter(p, xs)) <= Sum(f, Filter(q, xs))
  {
    if xs != [] {
      SumOfFewer(f, p, q, xs[1..]);
    }
  }
}

/** JavaScript's string trimming. */
module Text {
  /** The white space and line terminators of `trim` and of `\s`. */
  predicate IsSpace(c: char) {
    var n := c as int;
    || 0x9 <= n <= 0xD || n == 0x20 || n == 0xA0 || n == 0x1680 || 0x2000 <= n <= 0x200A
    || n == 0x2028 || n == 0x2029 || n == 0x202F || n == 0x205F || n == 0x3000 || n == 0xFEFF
  }

  function TrimStart(s: string): (r: string)
    ensures |r| <= |s|
  {
    if s != "" && IsSpace(s[0]) then TrimStart(s[1..]) else s
  }

  function TrimEnd(s: string): string {
    if s != "" && IsSpace(s[|s| - 1]) then TrimEnd(s[..|s| - 1]) else s
  }

  function Trim(s: string): string { TrimEnd(TrimStart(s)) }

  /** The text that a list of chunks adds up to. */
  function Concat(chunks: seq<string>): string {
    if chunks == [] then "" else Concat(chunks[..|chunks| - 1]) + chunks[|chunks| - 1]
  }

  lemma ConcatOneMore(chunks: seq<string>, i: nat)
    requires i < |chunks|
    ensures Concat(chunks[..i + 1]) == Concat(chunks[..i]) + chunks[i]
  {
    assert chunks[..i + 1][..i] == chunks[..i];
  }
}

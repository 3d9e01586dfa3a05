/**
 * Array.prototype.filter over immutable sequences, and the facts about it
 * that the list mutators and the derived views rely on.
 */
module Seqs {

  /** The elements of `s` that satisfy `p`, in their original order. */
  function Filter<T(!new)>(s: seq<T>, p: T -> bool): (r: seq<T>)
    ensures |r| <= |s|
    ensures forall x :: x in r <==> x in s && p(x)
  {
    if s == [] then []
    else
      assert s == [s[0]] + s[1..];
      (if p(s[0]) then [s[0]] else []) + Filter(s[1..], p)
  }

  /** Filtering distributes over concatenation: the kept elements of a prefix
      come before the kept elements of the rest, so order is preserved. */
  lemma {:induction false} FilterConcat<T(!new)>(a: seq<T>, b: seq<T>, p: T -> bool)
    ensures Filter(a + b, p) == Filter(a, p) + Filter(b, p)
  {
    if a == [] {
      assert a + b == b;
    } else {
      assert (a + b)[1..] == a[1..] + b;
      FilterConcat(a[1..], b, p);
    }
  }

  /** Filtering keeps a sequence whose every element passes. */
  lemma {:induction false} FilterAll<T(!new)>(s: seq<T>, p: T -> bool)
    requires forall x :: x in s ==> p(x)
    ensures Filter(s, p) == s
  {
    if s != [] {
      assert s[0] in s;
      assert forall x :: x in s[1..] ==> x in s;
      FilterAll(s[1..], p);
    }
  }

  /** Filtering drops a sequence whose every element fails. */
  lemma FilterNone<T(!new)>(s: seq<T>, p: T -> bool)
    requires forall x :: x in s ==> !p(x)
    ensures Filter(s, p) == []
  {
  }

  /** Filtering around one element: what comes before it, the element if it
      passes, and what comes after it. */
  lemma FilterAround<T(!new)>(a: seq<T>, x: T, b: seq<T>, p: T -> bool)
    ensures Filter(a + [x] + b, p) == Filter(a, p) + (if p(x) then [x] else []) + Filter(b, p)
  {
    var mid := if p(x) then [x] else [];
    assert [x][1..] == [];
    assert Filter([x], p) == mid + Filter([], p);
    assert Filter([x], p) == mid;
    FilterConcat(a, [x], p);
    FilterConcat(a + [x], b, p);
  }

  /** When only the element at `i` may pass, the filter keeps at most it. */
  lemma FilterOnlyAt<T(!new)>(s: seq<T>, p: T -> bool, i: nat)
    requires i < |s|
    requires forall j :: 0 <= j < |s| && j != i ==> !p(s[j])
    ensures Filter(s, p) == if p(s[i]) then [s[i]] else []
  {
    var before, after := s[..i], s[i + 1..];
    assert s == before + [s[i]] + after;
    forall x | x in after ensures !p(x) {
      var k :| 0 <= k < |after| && after[k] == x;
      assert s[i + 1 + k] == x;
    }
    FilterNone(before, p);
    FilterNone(after, p);
    FilterAround(before, s[i], after, p);
  }

  /** When every element but the one at `i` passes, the filter drops
      exactly that one and keeps the rest in order. */
  lemma FilterAllButAt<T(!new)>(s: seq<T>, p: T -> bool, i: nat)
    requires i < |s| && !p(s[i])
    requires forall j :: 0 <= j < |s| && j != i ==> p(s[j])
    ensures Filter(s, p) == s[..i] + s[i + 1..]
  {
    var a, b := s[..i], s[i + 1..];
    assert forall j :: 0 <= j < |a| ==> p(a[j]);
    FilterAllAt(a, p);
    assert forall j :: 0 <= j < |b| ==> p(b[j]) by {
      forall j | 0 <= j < |b| ensures p(b[j]) {
        assert b[j] == s[i + 1 + j];
      }
    }
    FilterAllAt(b, p);
    SplitAt(s, i);
    FilterDrops(a, s[i], b, p);
  }

  /** A sequence is its prefix, the element at `i` and its suffix. */
  lemma SplitAt<T>(s: seq<T>, i: nat)
    requires i < |s|
    ensures s == s[..i] + [s[i]] + s[i + 1..]
  {
  }

  /** A failing element between two runs that the filter keeps whole is the
      only thing dropped. */
  lemma FilterDrops<T(!new)>(a: seq<T>, x: T, b: seq<T>, p: T -> bool)
    requires !p(x) && Filter(a, p) == a && Filter(b, p) == b
    ensures Filter(a + [x] + b, p) == a + b
  {
    FilterAround(a, x, b, p);
    assert a + [] == a;
  }

  /** Index form of FilterAll. */
  lemma {:induction false} FilterAllAt<T(!new)>(s: seq<T>, p: T -> bool)
    requires forall j :: 0 <= j < |s| ==> p(s[j])
    ensures Filter(s, p) == s
  {
    if s != [] {
      FilterAllAt(s[1..], p);
    }
  }

  /** A predicate and its negation split a sequence: the two filtered lengths
      add up to the whole length. */
  lemma {:induction false} FilterComplement<T(!new)>(s: seq<T>, p: T -> bool, q: T -> bool)
    requires forall x :: q(x) == !p(x)
    ensures |Filter(s, p)| + |Filter(s, q)| == |s|
  {
    if s != [] {
      FilterComplement(s[1..], p, q);
    }
  }
}

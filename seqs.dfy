/** Array operations of JavaScript used by the source: `filter`, `some` and `slice(0, n)`. */
module Seqs {

  /** `s.filter(p)`. */
  function Filter<T>(s: seq<T>, p: T -> bool): (r: seq<T>)
    ensures |r| <= |s|
    ensures forall x :: x in r ==> x in s && p(x)
    ensures forall x :: x in s && p(x) ==> x in r
  {
    if s == [] then [] else (if p(s[0]) then [s[0]] else []) + Filter(s[1..], p)
  }

  /** `filter` distributes over concatenation, so it keeps the input's relative order. */
  lemma {:induction false} FilterAppend<T>(s: seq<T>, t: seq<T>, p: T -> bool)
    ensures Filter(s + t, p) == Filter(s, p) + Filter(t, p)
  {
    if s == [] {
      assert s + t == t;
    } else {
      assert (s + t)[1..] == s[1..] + t;
      FilterAppend(s[1..], t, p);
    }
  }

  lemma FilterSingle<T>(x: T, p: T -> bool)
    ensures Filter([x], p) == if p(x) then [x] else []
  {
    assert [x][1..] == [];
  }

  lemma FilterCons<T>(s: seq<T>, p: T -> bool)
    requires s != []
    ensures Filter(s, p) == Filter([s[0]], p) + Filter(s[1..], p)
  {
    assert [s[0]] + s[1..] == s;
    FilterAppend([s[0]], s[1..], p);
  }

  lemma {:induction false} FilterMultiset<T>(s: seq<T>, p: T -> bool)
    ensures multiset(Filter(s, p)) <= multiset(s)
  {
    if s != [] {
      FilterMultiset(s[1..], p);
      assert s == [s[0]] + s[1..];
    }
  }

  /** Filtering by a predicate and by its negation splits the sequence: the two lengths add up. */
  lemma {:induction false} FilterSplit<T>(s: seq<T>, p: T -> bool, q: T -> bool)
    requires forall x :: q(x) == !p(x)
    ensures |Filter(s, p)| + |Filter(s, q)| == |s|
  {
    if s != [] {
      FilterSplit(s[1..], p, q);
    }
  }

  /** `s.some(p)`. */
  predicate Any<T>(s: seq<T>, p: T -> bool) {
    s != [] && (p(s[0]) || Any(s[1..], p))
  }

  lemma {:induction false} AnyIff<T>(s: seq<T>, p: T -> bool)
    ensures Any(s, p) <==> exists i :: 0 <= i < |s| && p(s[i])
  {
    if s != [] {
      AnyIff(s[1..], p);
      if i :| 0 <= i < |s| && p(s[i]) {
        if i > 0 {
          assert s[1..][i - 1] == s[i];
        }
      }
    }
  }

  /** The end index that `slice(0, n)` uses on an array of length `len`: negative `n` counts from the end. */
  function SliceEnd(len: nat, n: int): (e: nat)
    ensures e <= len
    ensures n >= 0 ==> e == if n < len then n else len
    ensures n < 0 ==> e == if len + n > 0 then len + n else 0
  {
    if n < 0 then (if len + n > 0 then len + n else 0) else if n < len then n else len
  }

  /** `s.slice(0, n)`. */
  function SliceTo<T>(s: seq<T>, n: int): (r: seq<T>)
    ensures |r| == SliceEnd(|s|, n)
    ensures r == s[..|r|]
  {
    s[..SliceEnd(|s|, n)]
  }
}

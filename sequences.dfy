/** `Array.prototype.filter`, and the two-way split that `partition` makes with it. */
module Sequences {

  /** `s.filter(p)`: the elements that satisfy `p`, in their order. */
  function Filter<T>(s: seq<T>, p: T -> bool): (r: seq<T>)
    ensures |r| <= |s|
    ensures forall k :: 0 <= k < |r| ==> r[k] in s && p(r[k])
    ensures forall k :: 0 <= k < |s| && p(s[k]) ==> s[k] in r
    decreases |s|
  {
    if |s| == 0 then []
    else if p(s[|s| - 1]) then Filter(s[..|s| - 1], p) + [s[|s| - 1]]
    else Filter(s[..|s| - 1], p)
  }

  /** Filtering keeps order: the kept elements of a concatenation are those of the first part
      followed by those of the second, and a single element is kept exactly when it satisfies
      `p`. */
  lemma {:induction false} FilterAppend<T>(a: seq<T>, b: seq<T>, p: T -> bool)
    ensures Filter(a + b, p) == Filter(a, p) + Filter(b, p)
    ensures forall x :: Filter([x], p) == if p(x) then [x] else []
    decreases |b|
  {
    if |b| == 0 {
      assert a + b == a;
    } else {
      var init, last := b[..|b| - 1], b[|b| - 1];
      var kept := if p(last) then [last] else [];
      assert a + b == (a + init) + [last];
      assert b == init + [last];
      calc {
        Filter(a + b, p);
        { FilterSnoc(a + init, last, p); }
        Filter(a + init, p) + kept;
        { FilterAppend(a, init, p); }
        (Filter(a, p) + Filter(init, p)) + kept;
        Filter(a, p) + (Filter(init, p) + kept);
        { FilterSnoc(init, last, p); }
        Filter(a, p) + Filter(b, p);
      }
    }
    forall x ensures Filter([x], p) == if p(x) then [x] else [] {
      FilterOne(x, p);
    }
  }

  /** Filtering a sequence with one more element at the end. */
  lemma FilterSnoc<T>(s: seq<T>, x: T, p: T -> bool)
    ensures Filter(s + [x], p) == Filter(s, p) + if p(x) then [x] else []
  {
    assert (s + [x])[..|s + [x]| - 1] == s;
  }

  lemma FilterOne<T>(x: T, p: T -> bool)
    ensures Filter([x], p) == if p(x) then [x] else []
  {
    assert [x][..0] == [];
  }

  /** The elements kept by `p` and those kept by its negation together are exactly the
      elements of `s`, each as often as in `s`. */
  lemma {:induction false} FilterPartition<T>(s: seq<T>, p: T -> bool)
    ensures multiset(Filter(s, p)) + multiset(Filter(s, x => !p(x))) == multiset(s)
    decreases |s|
  {
    if |s| > 0 {
      var init, last := s[..|s| - 1], s[|s| - 1];
      FilterPartition(init, p);
      assert s == init + [last];
      FilterSnoc(init, last, p);
      FilterSnoc(init, last, x => !p(x));
    }
  }

  /** `partition(s, p)`: the elements that satisfy `p` and those that do not, each in order. */
  function Partition<T>(s: seq<T>, p: T -> bool): (parts: (seq<T>, seq<T>))
    ensures parts.0 == Filter(s, p)
    ensures forall k :: 0 <= k < |parts.1| ==> parts.1[k] in s && !p(parts.1[k])
    ensures forall k :: 0 <= k < |s| && !p(s[k]) ==> s[k] in parts.1
    ensures multiset(parts.0) + multiset(parts.1) == multiset(s)
  {
    FilterPartition(s, p);
    (Filter(s, p), Filter(s, x => !p(x)))
  }

  /** An element of `s` that satisfies `p` survives the filter. */
  lemma InFilter<T>(x: T, s: seq<T>, p: T -> bool)
    requires x in s && p(x)
    ensures x in Filter(s, p)
  {
    var k :| 0 <= k < |s| && s[k] == x;
  }

  /** `s.map(f)`. */
  function Map<A, B>(s: seq<A>, f: A -> B): (r: seq<B>)
    ensures |r| == |s|
  {
    if |s| == 0 then [] else [f(s[0])] + Map(s[1..], f)
  }

  /** The k-th result belongs to the k-th element. */
  lemma {:induction false} MapAt<A, B>(s: seq<A>, f: A -> B)
    ensures forall k :: 0 <= k < |s| ==> Map(s, f)[k] == f(s[k])
    decreases |s|
  {
    if |s| > 0 {
      MapAt(s[1..], f);
      forall k | 0 < k < |s| ensures Map(s, f)[k] == f(s[k]) {
        assert s[1..][k - 1] == s[k];
      }
    }
  }
}

/** The array combinators the pages use on their state: `filter`, a summing
    `reduce`, and the duplicate-free property of tag lists. */
module Seqs {

  /** `s.filter(p)`: the elements satisfying `p`, in their original order. */
  function Filter<T>(p: T -> bool, s: seq<T>): (r: seq<T>)
    ensures |r| <= |s|
    ensures forall i :: 0 <= i < |r| ==> p(r[i])
    ensures forall i :: 0 <= i < |r| ==> r[i] in s
    ensures forall i :: 0 <= i < |s| && p(s[i]) ==> s[i] in r
    decreases |s|
  {
    if s == [] then []
    else
      assert s == [s[0]] + s[1..];
      if p(s[0]) then [s[0]] + Filter(p, s[1..])
      else Filter(p, s[1..])
  }

  /** Filtering a concatenation filters each part and keeps their order. */
  lemma {:induction false} FilterConcat<T>(p: T -> bool, a: seq<T>, b: seq<T>)
    ensures Filter(p, a + b) == Filter(p, a) + Filter(p, b)
    decreases |a|
  {
    if a == [] {
      assert a + b == b;
    } else {
      assert (a + b)[0] == a[0] && (a + b)[1..] == a[1..] + b;
      FilterConcat(p, a[1..], b);
    }
  }

  /** Filtering keeps a list whole exactly when every element passes. */
  lemma {:induction false} FilterAll<T>(p: T -> bool, s: seq<T>)
    requires forall i :: 0 <= i < |s| ==> p(s[i])
    ensures Filter(p, s) == s
    decreases |s|
  {
    if s != [] {
      FilterAll(p, s[1..]);
    }
  }

  /** Filtering empties a list exactly when no element passes. */
  lemma {:induction false} FilterNone<T>(p: T -> bool, s: seq<T>)
    requires forall i :: 0 <= i < |s| ==> !p(s[i])
    ensures Filter(p, s) == []
    decreases |s|
  {
    if s != [] {
      FilterNone(p, s[1..]);
    }
  }

  /** Filters by two predicates that never hold together split the filter by
      their disjunction: the parts add up to it, element for element. */
  lemma {:induction false} FilterDisjointUnion<T>(p: T -> bool, q: T -> bool, pq: T -> bool, s: seq<T>)
    requires forall x :: pq(x) == (p(x) || q(x))
    requires forall x :: !(p(x) && q(x))
    ensures multiset(Filter(p, s)) + multiset(Filter(q, s)) == multiset(Filter(pq, s))
    ensures |Filter(p, s)| + |Filter(q, s)| == |Filter(pq, s)|
    decreases |s|
  {
    if s != [] {
      FilterDisjointUnion(p, q, pq, s[1..]);
    }
  }

  /** A first element that passes stays first. */
  lemma FilterFirst<T>(p: T -> bool, s: seq<T>)
    requires s != [] && p(s[0])
    ensures Filter(p, s) != [] && Filter(p, s)[0] == s[0]
  {
  }

  /** A last element that passes stays last. */
  lemma FilterLast<T>(p: T -> bool, s: seq<T>)
    requires s != [] && p(s[|s| - 1])
    ensures Filter(p, s) != [] && Filter(p, s)[|Filter(p, s)| - 1] == s[|s| - 1]
  {
    var n := |s|;
    assert s == s[..n - 1] + [s[n - 1]];
    FilterConcat(p, s[..n - 1], [s[n - 1]]);
    assert Filter(p, [s[n - 1]]) == [s[n - 1]];
  }

  /** A weaker predicate never keeps fewer elements. */
  lemma {:induction false} FilterWeaker<T>(p: T -> bool, q: T -> bool, s: seq<T>)
    requires forall x :: p(x) ==> q(x)
    ensures |Filter(p, s)| <= |Filter(q, s)|
    decreases |s|
  {
    if s != [] {
      FilterWeaker(p, q, s[1..]);
    }
  }

  function IsNot<T(==)>(x: T): T -> bool {
    (y: T) => y != x
  }

  /** `s.filter(y => y !== x)`: every occurrence of `x` taken out. */
  function Remove<T(==)>(s: seq<T>, x: T): (r: seq<T>)
    ensures forall i :: 0 <= i < |r| ==> r[i] != x && r[i] in s
    ensures forall i :: 0 <= i < |s| && s[i] != x ==> s[i] in r
  {
    Filter(IsNot(x), s)
  }

  /** Removing keeps a list duplicate-free and keeps the other elements in
      order: it works part by part on a concatenation, and leaves a list
      without `x` as it is. */
  lemma RemoveLaws<T>(a: seq<T>, b: seq<T>, x: T)
    ensures NoDup(a) ==> NoDup(Remove(a, x))
    ensures Remove(a + b, x) == Remove(a, x) + Remove(b, x)
    ensures x !in a ==> Remove(a, x) == a
  {
    if NoDup(a) {
      FilterNoDup(IsNot(x), a);
    }
    FilterConcat(IsNot(x), a, b);
    if x !in a {
      FilterAll(IsNot(x), a);
    }
  }

  /** Removing an element just appended gives back the list it was appended
      to, when the list did not hold it before. */
  lemma RemoveAppended<T>(s: seq<T>, x: T)
    requires x !in s
    ensures Remove(s + [x], x) == s
  {
    RemoveLaws(s, [x], x);
  }

  /** `s.reduce((sum, x) => sum + f(x), 0)`. */
  function Sum<T>(f: T -> int, s: seq<T>): int
    decreases |s|
  {
    if s == [] then 0 else f(s[0]) + Sum(f, s[1..])
  }

  /** The sum over a concatenation is the sum of the sums. */
  lemma {:induction false} SumConcat<T>(f: T -> int, a: seq<T>, b: seq<T>)
    ensures Sum(f, a + b) == Sum(f, a) + Sum(f, b)
    decreases |a|
  {
    if a == [] {
      assert a + b == b;
    } else {
      assert (a + b)[0] == a[0] && (a + b)[1..] == a[1..] + b;
      SumConcat(f, a[1..], b);
    }
  }

  /** No value occurs twice. */
  predicate NoDup<T(==)>(s: seq<T>) {
    forall i, j :: 0 <= i < j < |s| ==> s[i] != s[j]
  }

  /** Appending an absent value keeps a list duplicate-free. */
  lemma AppendNoDup<T>(s: seq<T>, x: T)
    requires NoDup(s) && x !in s
    ensures NoDup(s + [x])
  {
  }

  /** Filtering a duplicate-free list keeps it duplicate-free. */
  lemma {:induction false} FilterNoDup<T>(p: T -> bool, s: seq<T>)
    requires NoDup(s)
    ensures NoDup(Filter(p, s))
    decreases |s|
  {
    if s != [] {
      assert NoDup(s[1..]);
      FilterNoDup(p, s[1..]);
      assert s[0] !in s[1..];
    }
  }
}

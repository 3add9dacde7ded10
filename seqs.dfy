/** `Array.prototype.filter` and the order-preserving subsequence relation it produces. */
module Seqs {

  /** `s.filter(p)` */
  function Filter<T(!new)>(p: T -> bool, s: seq<T>): (r: seq<T>)
    ensures |r| <= |s|
    ensures forall x :: x in r <==> x in s && p(x)
  {
    if s == [] then [] else (if p(s[0]) then [s[0]] else []) + Filter(p, s[1..])
  }

  /** `a` is `b` with some elements left out and the rest kept in order. */
  predicate IsSubsequence<T(==)>(a: seq<T>, b: seq<T>) {
    if a == [] then true
    else if b == [] then false
    else if a[0] == b[0] then IsSubsequence(a[1..], b[1..])
    else IsSubsequence(a, b[1..])
  }

  lemma {:induction false} FilterIsSubsequence<T(!new)>(p: T -> bool, s: seq<T>)
    ensures IsSubsequence(Filter(p, s), s)
  {
    if s != [] {
      FilterIsSubsequence(p, s[1..]);
      if p(s[0]) {
        assert Filter(p, s)[1..] == Filter(p, s[1..]);
      } else {
        assert Filter(p, s) == Filter(p, s[1..]);
        SubsequenceDropHead(Filter(p, s), s);
      }
    }
  }

  /** If `a` is a subsequence of `b[1..]` it is one of `b`. */
  lemma {:induction false} SubsequenceDropHead<T(!new)>(a: seq<T>, b: seq<T>)
    requires b != [] && IsSubsequence(a, b[1..])
    ensures IsSubsequence(a, b)
    decreases |a| + |b|
  {
    if a != [] && a[0] == b[0] {
      SubsequenceTail(a, b[1..]);
    }
  }

  /** Dropping the first element of a subsequence keeps it a subsequence. */
  lemma {:induction false} SubsequenceTail<T(!new)>(a: seq<T>, b: seq<T>)
    requires a != [] && IsSubsequence(a, b)
    ensures IsSubsequence(a[1..], b)
    decreases |a| + |b|
  {
    if b != [] {
      if a[0] == b[0] {
        SubsequenceDropHead(a[1..], b);
      } else {
        SubsequenceTail(a, b[1..]);
        SubsequenceDropHead(a[1..], b);
      }
    }
  }

  /** Filtering twice with two predicates does not depend on their order. */
  lemma {:induction false} FilterCommutes<T(!new)>(p: T -> bool, q: T -> bool, s: seq<T>)
    ensures Filter(q, Filter(p, s)) == Filter(p, Filter(q, s))
  {
    if s != [] {
      FilterCommutes(p, q, s[1..]);
      FilterAppend(q, if p(s[0]) then [s[0]] else [], Filter(p, s[1..]));
      FilterAppend(p, if q(s[0]) then [s[0]] else [], Filter(q, s[1..]));
    }
  }

  lemma {:induction false} FilterAppend<T(!new)>(p: T -> bool, a: seq<T>, b: seq<T>)
    ensures Filter(p, a + b) == Filter(p, a) + Filter(p, b)
  {
    if a != [] {
      FilterAppend(p, a[1..], b);
      assert (a + b)[1..] == a[1..] + b;
    } else {
      assert a + b == b;
    }
  }

  /** A filter whose predicate holds of every element keeps the whole sequence. */
  lemma {:induction false} FilterKeepsAll<T(!new)>(p: T -> bool, s: seq<T>)
    requires forall x :: x in s ==> p(x)
    ensures Filter(p, s) == s
  {
    if s != [] {
      FilterKeepsAll(p, s[1..]);
    }
  }
  /** Two predicates that agree on every element of `s` filter it alike. */
  lemma {:induction false} FilterSamePredicate<T(!new)>(p: T -> bool, q: T -> bool, s: seq<T>)
    requires forall x :: x in s ==> p(x) == q(x)
    ensures Filter(p, s) == Filter(q, s)
  {
    if s != [] {
      FilterSamePredicate(p, q, s[1..]);
    }
  }

  /** Filtering by `p` and then by `q` is filtering by their conjunction `r`. */
  lemma {:induction false} FilterBoth<T(!new)>(p: T -> bool, q: T -> bool, r: T -> bool, s: seq<T>)
    requires forall x :: x in s ==> r(x) == (p(x) && q(x))
    ensures Filter(q, Filter(p, s)) == Filter(r, s)
  {
    if s != [] {
      FilterBoth(p, q, r, s[1..]);
      FilterAppend(q, if p(s[0]) then [s[0]] else [], Filter(p, s[1..]));
    }
  }
  /** A filter whose predicate holds of no element keeps nothing. */
  lemma {:induction false} FilterDropsAll<T(!new)>(p: T -> bool, s: seq<T>)
    requires forall x :: x in s ==> !p(x)
    ensures Filter(p, s) == []
  {
    if s != [] {
      FilterDropsAll(p, s[1..]);
    }
  }
}

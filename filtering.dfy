/**
 * A query with `filter` clauses keeps, in table order, the rows every clause accepts. `Keep` is
 * that selection over a sequence, and `Subseq` says one selection lies inside another.
 */
module Filtering {

  /** The rows of `s` that satisfy `p`, in their original order. */
  function Keep<T(!new)>(s: seq<T>, p: T -> bool): (r: seq<T>)
    ensures |r| <= |s|
    ensures forall x :: x in r <==> x in s && p(x)
    ensures r == [] <==> forall i :: 0 <= i < |s| ==> !p(s[i])
  {
    if s == [] then [] else (if p(s[0]) then [s[0]] else []) + Keep(s[1..], p)
  }

  /** `a` is `b` with some elements left out and the rest in the same order. */
  predicate Subseq<T(==, !new)>(a: seq<T>, b: seq<T>)
    decreases |b|
  {
    if a == [] then true
    else if b == [] then false
    else (a[0] == b[0] && Subseq(a[1..], b[1..])) || Subseq(a, b[1..])
  }

  /** A weaker test keeps at least the rows a stronger one keeps, in the same order. */
  lemma {:induction false} KeepMonotone<T(!new)>(s: seq<T>, p: T -> bool, q: T -> bool)
    requires forall x :: x in s && p(x) ==> q(x)
    ensures Subseq(Keep(s, p), Keep(s, q))
  {
    if s != [] {
      KeepMonotone(s[1..], p, q);
      var a, b := Keep(s[1..], p), Keep(s[1..], q);
      if p(s[0]) {
        assert Keep(s, p) == [s[0]] + a && Keep(s, q) == [s[0]] + b;
        assert ([s[0]] + a)[1..] == a && ([s[0]] + b)[1..] == b;
      } else if q(s[0]) {
        assert Keep(s, p) == a && Keep(s, q) == [s[0]] + b;
        assert ([s[0]] + b)[1..] == b;
        SubseqCons(a, b, s[0]);
      } else {
        assert Keep(s, p) == a && Keep(s, q) == b;
      }
    }
  }

  /** Putting one more element in front keeps a subsequence a subsequence. */
  lemma SubseqCons<T(!new)>(a: seq<T>, b: seq<T>, x: T)
    requires Subseq(a, b)
    ensures Subseq(a, [x] + b)
  {
    assert ([x] + b)[1..] == b;
  }

  /** Every sequence is a subsequence of itself. */
  lemma {:induction false} SubseqRefl<T(!new)>(s: seq<T>)
    ensures Subseq(s, s)
  {
    if s != [] {
      SubseqRefl(s[1..]);
    }
  }

  /** A selection keeps the table's order. */
  lemma {:induction false} KeepIsSubseq<T(!new)>(s: seq<T>, p: T -> bool)
    ensures Subseq(Keep(s, p), s)
  {
    if s != [] {
      KeepIsSubseq(s[1..], p);
      var a := Keep(s[1..], p);
      if p(s[0]) {
        assert Keep(s, p) == [s[0]] + a;
        assert ([s[0]] + a)[1..] == a;
      } else {
        assert Keep(s, p) == a;
        SubseqCons(a, s[1..], s[0]);
        assert [s[0]] + s[1..] == s;
      }
    }
  }

  /** A test every row passes keeps the whole table. */
  lemma {:induction false} KeepAll<T(!new)>(s: seq<T>, p: T -> bool)
    requires forall x :: x in s ==> p(x)
    ensures Keep(s, p) == s
  {
    if s != [] {
      KeepAll(s[1..], p);
      assert [s[0]] + s[1..] == s;
    }
  }

  /** Two tests that agree on every row keep the same rows. */
  lemma {:induction false} KeepSame<T(!new)>(s: seq<T>, p: T -> bool, q: T -> bool)
    requires forall x :: x in s ==> p(x) == q(x)
    ensures Keep(s, p) == Keep(s, q)
  {
    if s != [] {
      KeepSame(s[1..], p, q);
    }
  }

  /** A subsequence of `b` holds only elements of `b`. */
  lemma {:induction false} SubseqMembers<T(!new)>(a: seq<T>, b: seq<T>)
    requires Subseq(a, b)
    ensures forall x :: x in a ==> x in b
  {
    if a != [] && b != [] {
      if a[0] == b[0] && Subseq(a[1..], b[1..]) {
        SubseqMembers(a[1..], b[1..]);
        assert a == [a[0]] + a[1..];
      } else {
        SubseqMembers(a, b[1..]);
      }
    }
  }
}

/** Order-preserving filtering of sequences: the shape of every Python list
    comprehension `[x for x in s if p(x)]` and ORM `.filter(...)` the core
    uses, with the facts the filters rely on proved once. */
module Seqs {

  /** The elements of `s` that satisfy `p`, in their original order. */
  function Keep<T>(s: seq<T>, p: T -> bool): (r: seq<T>)
    ensures |r| <= |s|
  {
    if s == [] then [] else (if p(s[0]) then [s[0]] else []) + Keep(s[1..], p)
  }

  /** `a` is `b` with some elements deleted and the rest in the same order. */
  predicate IsSubsequence<T(==)>(a: seq<T>, b: seq<T>)
  {
    if a == [] then true
    else if b == [] then false
    else if a[0] == b[0] then IsSubsequence(a[1..], b[1..])
    else IsSubsequence(a, b[1..])
  }

  lemma {:induction false} SubsequenceCons<T>(x: T, a: seq<T>, b: seq<T>)
    requires IsSubsequence(a, b)
    ensures IsSubsequence(a, [x] + b)
    ensures IsSubsequence([x] + a, [x] + b)
  {
    assert ([x] + b)[1..] == b;
    assert ([x] + a)[1..] == a;
    if a != [] && a[0] == x {
      SubsequenceDropHead(a, b);
    }
  }

  lemma {:induction false} SubsequenceDropHead<T>(a: seq<T>, b: seq<T>)
    requires a != [] && IsSubsequence(a, b)
    ensures IsSubsequence(a[1..], b)
    decreases |b|, 1
  {
    if b == [] {
    } else if a[0] == b[0] {
      SubsequenceTail(a[1..], b);
    } else {
      SubsequenceDropHead(a, b[1..]);
      SubsequenceTail(a[1..], b);
    }
  }

  lemma {:induction false} SubsequenceTail<T>(a: seq<T>, b: seq<T>)
    requires b != [] && IsSubsequence(a, b[1..])
    ensures IsSubsequence(a, b)
    decreases |b|, 0
  {
    if a != [] && a[0] == b[0] {
      SubsequenceDropHead(a, b[1..]);
    }
  }

  lemma {:induction false} KeepIsSubsequence<T>(s: seq<T>, p: T -> bool)
    ensures IsSubsequence(Keep(s, p), s)
    decreases |s|
  {
    if s != [] {
      var rest := Keep(s[1..], p);
      KeepIsSubsequence(s[1..], p);
      SubsequenceCons(s[0], rest, s[1..]);
      assert s == [s[0]] + s[1..];
      if p(s[0]) {
        assert Keep(s, p) == [s[0]] + rest;
      } else {
        assert Keep(s, p) == rest;
      }
    }
  }

  /** Soundness: every kept element comes from `s` and satisfies `p`. */
  lemma {:induction false} KeepSound<T>(s: seq<T>, p: T -> bool, x: T)
    requires x in Keep(s, p)
    ensures x in s && p(x)
    decreases |s|
  {
    var rest := Keep(s[1..], p);
    if p(s[0]) {
      assert Keep(s, p) == [s[0]] + rest;
    } else {
      assert Keep(s, p) == rest;
    }
    if x != s[0] || !p(s[0]) {
      KeepSound(s[1..], p, x);
    }
  }

  /** Completeness: every element of `s` that satisfies `p` is kept. */
  lemma {:induction false} KeepComplete<T>(s: seq<T>, p: T -> bool, x: T)
    requires x in s && p(x)
    ensures x in Keep(s, p)
    decreases |s|
  {
    if x != s[0] {
      KeepComplete(s[1..], p, x);
    }
  }

  /** Membership in the kept list, both ways at once. */
  lemma KeepMembership<T>(s: seq<T>, p: T -> bool)
    ensures forall x :: x in Keep(s, p) <==> x in s && p(x)
  {
    forall x | x in Keep(s, p) ensures x in s && p(x) {
      KeepSound(s, p, x);
    }
    forall x | x in s && p(x) ensures x in Keep(s, p) {
      KeepComplete(s, p, x);
    }
  }

  /** When every element satisfies `p`, nothing is dropped. */
  lemma {:induction false} KeepAll<T>(s: seq<T>, p: T -> bool)
    requires forall i :: 0 <= i < |s| ==> p(s[i])
    ensures Keep(s, p) == s
    decreases |s|
  {
    if s != [] {
      KeepAll(s[1..], p);
      assert s == [s[0]] + s[1..];
    }
  }

  lemma {:induction false} KeepIdempotent<T>(s: seq<T>, p: T -> bool)
    ensures Keep(Keep(s, p), p) == Keep(s, p)
  {
    var r := Keep(s, p);
    forall i | 0 <= i < |r| ensures p(r[i]) {
      KeepSound(s, p, r[i]);
    }
    KeepAll(r, p);
  }

  lemma {:induction false} KeepConcat<T>(a: seq<T>, b: seq<T>, p: T -> bool)
    ensures Keep(a + b, p) == Keep(a, p) + Keep(b, p)
    decreases |a|
  {
    if a == [] {
      assert a + b == b;
    } else {
      var ab := a + b;
      assert ab[0] == a[0] && ab[1..] == a[1..] + b;
      KeepConcat(a[1..], b, p);
      var head := if p(a[0]) then [a[0]] else [];
      assert Keep(ab, p) == head + Keep(a[1..] + b, p);
      assert Keep(a, p) == head + Keep(a[1..], p);
    }
  }

  /** Two successive filters are one filter by the conjunction. */
  lemma {:induction false} KeepKeep<T>(s: seq<T>, p: T -> bool, q: T -> bool, both: T -> bool)
    requires forall x :: both(x) == (p(x) && q(x))
    ensures Keep(Keep(s, p), q) == Keep(s, both)
    decreases |s|
  {
    if s != [] {
      var x, rest := s[0], s[1..];
      KeepKeep(rest, p, q, both);
      assert both(x) == (p(x) && q(x));
      if p(x) {
        assert Keep(s, p) == [x] + Keep(rest, p);
        assert Keep(s, p)[1..] == Keep(rest, p);
      } else {
        assert Keep(s, p) == Keep(rest, p);
      }
    }
  }

  /** Filtering by `p` and by its negation splits `s` into two parts that
      together hold exactly the elements of `s`. */
  lemma {:induction false} KeepPartition<T>(s: seq<T>, p: T -> bool, notP: T -> bool)
    requires forall x :: notP(x) == !p(x)
    ensures multiset(Keep(s, p)) + multiset(Keep(s, notP)) == multiset(s)
    decreases |s|
  {
    if s != [] {
      KeepPartition(s[1..], p, notP);
      assert s == [s[0]] + s[1..];
    }
  }

  /** Each element occurs in `Keep(s, p)` exactly as often as in `s` when
      it satisfies `p`, and not at all otherwise: duplicates are kept. */
  lemma {:induction false} KeepCount<T>(s: seq<T>, p: T -> bool, x: T)
    ensures multiset(Keep(s, p))[x] == if p(x) then multiset(s)[x] else 0
    decreases |s|
  {
    if s != [] {
      KeepCount(s[1..], p, x);
      assert s == [s[0]] + s[1..];
      assert Keep(s, p) == (if p(s[0]) then [s[0]] else []) + Keep(s[1..], p);
    }
  }
}

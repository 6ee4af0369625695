/** Finite sums of reals over sequences, and over the part of a sequence that lies in a set. */
module Sums {
  import opened Seqs

  ghost function Sum<T>(s: seq<T>, f: T -> real): real {
    if s == [] then 0.0 else Sum(s[..|s| - 1], f) + f(s[|s| - 1])
  }

  // The functions that the lemmas sum are named, so that every caller means the same one.

  /** A product, named so that a proof can treat it as a whole. */
  ghost function Times(a: real, b: real): real {
    a * b
  }

  ghost function Only<T(!new)>(S: set<T>, f: T -> real): T -> real {
    x => if x in S then f(x) else 0.0
  }

  ghost function Row<T, U>(h: (T, U) -> real, x: T): U -> real {
    y => h(x, y)
  }

  ghost function Column<T, U>(h: (T, U) -> real, y: U): T -> real {
    x => h(x, y)
  }

  ghost function RowSums<T, U>(t: seq<U>, h: (T, U) -> real): T -> real {
    x => Sum(t, Row(h, x))
  }

  ghost function ColumnSums<T, U>(s: seq<T>, h: (T, U) -> real): U -> real {
    y => Sum(s, Column(h, y))
  }

  /** f where the key is k, nothing elsewhere. */
  ghost function AtKey<T, K(!new)>(key: T -> K, f: T -> real, k: K): T -> real {
    x => if key(x) == k then f(x) else 0.0
  }

  ghost function KeySums<T, K(!new)>(s: seq<T>, key: T -> K, f: T -> real): K -> real {
    k => Sum(s, AtKey(key, f, k))
  }

  /** The sum over the entries of s that lie in S. */
  ghost function SumIn<T(!new)>(s: seq<T>, S: set<T>, f: T -> real): real {
    Sum(s, Only(S, f))
  }

  lemma SumStep<T>(s: seq<T>, i: nat, f: T -> real)
    requires i < |s|
    ensures Sum(s[..i + 1], f) == Sum(s[..i], f) + f(s[i])
  {
    assert s[..i + 1][..i] == s[..i];
  }

  lemma SumOne<T>(a: T, f: T -> real)
    ensures Sum([a], f) == f(a)
  {
    assert [a][..0] == [];
  }

  lemma SumThree<T>(a: T, b: T, c: T, f: T -> real)
    ensures Sum([a, b, c], f) == f(a) + f(b) + f(c)
  {
    SumOne(a, f);
    assert [a, b, c][..2] == [a, b] && [a, b][..1] == [a];
    assert Sum([a, b], f) == f(a) + f(b);
  }

  lemma SumFive<T>(a: T, b: T, c: T, d: T, e: T, f: T -> real)
    ensures Sum([a, b, c, d, e], f) == f(a) + f(b) + f(c) + f(d) + f(e)
  {
    SumThree(a, b, c, f);
    assert [a, b, c, d, e][..4] == [a, b, c, d] && [a, b, c, d][..3] == [a, b, c];
    assert Sum([a, b, c, d], f) == f(a) + f(b) + f(c) + f(d);
  }

  lemma {:induction false} SumSame<T>(s: seq<T>, f: T -> real, g: T -> real)
    requires forall x :: x in s ==> f(x) == g(x)
    ensures Sum(s, f) == Sum(s, g)
  {
    if s != [] {
      SumSame(s[..|s| - 1], f, g);
    }
  }

  lemma {:induction false} SumLess<T>(s: seq<T>, f: T -> real, g: T -> real)
    requires forall x :: x in s ==> f(x) <= g(x)
    ensures Sum(s, f) <= Sum(s, g)
  {
    if s != [] {
      SumLess(s[..|s| - 1], f, g);
    }
  }

  lemma {:induction false} SumZero<T>(s: seq<T>, f: T -> real)
    requires forall x :: x in s ==> f(x) == 0.0
    ensures Sum(s, f) == 0.0
  {
    if s != [] {
      SumZero(s[..|s| - 1], f);
    }
  }

  lemma {:induction false} SumNonNegative<T>(s: seq<T>, f: T -> real)
    requires forall x :: x in s ==> 0.0 <= f(x)
    ensures 0.0 <= Sum(s, f)
  {
    if s != [] {
      SumNonNegative(s[..|s| - 1], f);
    }
  }

  lemma {:induction false} SumPlus<T>(s: seq<T>, f: T -> real, g: T -> real, h: T -> real)
    requires forall x :: x in s ==> h(x) == f(x) + g(x)
    ensures Sum(s, h) == Sum(s, f) + Sum(s, g)
  {
    if s != [] {
      SumPlus(s[..|s| - 1], f, g, h);
    }
  }

  lemma {:induction false} SumTimes<T>(s: seq<T>, k: real, f: T -> real, h: T -> real)
    requires forall x :: x in s ==> h(x) == Times(f(x), k)
    ensures Sum(s, h) == Times(Sum(s, f), k)
  {
    if s != [] {
      SumTimes(s[..|s| - 1], k, f, h);
    }
  }

  lemma TimesZero(k: real)
    ensures Times(0.0, k) == 0.0
  {
  }

  lemma ZeroTimes(k: real)
    ensures Times(k, 0.0) == 0.0
  {
  }

  lemma OneTimes(x: real)
    ensures Times(1.0, x) == x && Times(0.0, x) == 0.0
  {
  }

  lemma Inverse(t: real)
    requires t != 0.0
    ensures Times(t, 1.0 / t) == 1.0
  {
  }

  /** The sign of a product. */
  lemma Sign(a: real, b: real)
    requires 0.0 <= b
    ensures 0.0 <= a ==> 0.0 <= Times(a, b)
    ensures a == 0.0 || b == 0.0 ==> Times(a, b) == 0.0
    ensures 0.0 < a && 0.0 < b ==> 0.0 < Times(a, b)
  {
  }

  /** A sum without negative terms is positive exactly when some term is. */
  lemma {:induction false} SumPositive<T>(s: seq<T>, f: T -> real)
    requires forall x :: x in s ==> 0.0 <= f(x)
    ensures 0.0 < Sum(s, f) <==> exists x :: x in s && 0.0 < f(x)
  {
    if s != [] {
      var r, z := s[..|s| - 1], s[|s| - 1];
      SumPositive(r, f);
      SumNonNegative(r, f);
      assert s == r + [z];
    }
  }

  /** Summing rows first or columns first gives the same. */
  lemma {:induction false} SumSwap<T, U>(s: seq<T>, t: seq<U>, h: (T, U) -> real)
    ensures Sum(s, RowSums(t, h)) == Sum(t, ColumnSums(s, h))
  {
    if s == [] {
      SumZero(t, ColumnSums(s, h));
    } else {
      var r, z := s[..|s| - 1], s[|s| - 1];
      SumSwap(r, t, h);
      SumPlus(t, ColumnSums(r, h), Row(h, z), ColumnSums(s, h));
    }
  }

  /** A sum with one nonzero term. */
  lemma {:induction false} SumPoint<T>(s: seq<T>, x: T, f: T -> real)
    requires NoDup(s) && x in s
    requires forall y :: y in s && y != x ==> f(y) == 0.0
    ensures Sum(s, f) == f(x)
  {
    var r, z := s[..|s| - 1], s[|s| - 1];
    assert forall y :: y in r ==> y != z;
    if z == x {
      SumZero(r, f);
    } else {
      SumPoint(r, x, f);
    }
  }

  /** One term is no more than the whole when none is negative. */
  lemma {:induction false} TermLess<T>(s: seq<T>, x: T, f: T -> real)
    requires x in s && forall y :: y in s ==> 0.0 <= f(y)
    ensures f(x) <= Sum(s, f)
  {
    var r, z := s[..|s| - 1], s[|s| - 1];
    if x in r {
      TermLess(r, x, f);
    } else {
      SumNonNegative(r, f);
    }
  }

  /** The sum over a part p of s, when the rest of s adds nothing. */
  lemma {:induction false} SumPart<T(!new)>(s: seq<T>, p: seq<T>, f: T -> real, g: T -> real)
    requires NoDup(s) && NoDup(p) && forall x :: x in p ==> x in s
    requires forall x :: x in s ==> g(x) == if x in p then f(x) else 0.0
    ensures Sum(s, g) == Sum(p, f)
  {
    if p == [] {
      SumZero(s, g);
    } else {
      var r, z := p[..|p| - 1], p[|p| - 1];
      assert forall y :: y in r ==> y != z;
      assert forall y :: y in p <==> y in r || y == z;
      SumPart(s, r, f, Only(SetOf(r), f));
      SumPoint(s, z, Only({z}, f));
      SumPlus(s, Only(SetOf(r), f), Only({z}, f), g);
    }
  }

  /** Adding one element to the part summed. */
  lemma SumInAdd<T(!new)>(s: seq<T>, S: set<T>, x: T, f: T -> real)
    requires NoDup(s) && x in s && x !in S
    ensures SumIn(s, S + {x}, f) == SumIn(s, S, f) + f(x)
  {
    SumPoint(s, x, Only({x}, f));
    SumPlus(s, Only(S, f), Only({x}, f), Only(S + {x}, f));
  }

  lemma SumInUnion<T(!new)>(s: seq<T>, S: set<T>, S': set<T>, f: T -> real)
    requires S !! S'
    ensures SumIn(s, S + S', f) == SumIn(s, S, f) + SumIn(s, S', f)
  {
    SumPlus(s, Only(S, f), Only(S', f), Only(S + S', f));
  }

  /** Sorting the terms by a key and summing per key. */
  lemma SumByKey<T, K(!new)>(s: seq<T>, ks: seq<K>, key: T -> K, f: T -> real)
    requires NoDup(ks) && forall x :: x in s ==> key(x) in ks
    ensures Sum(ks, KeySums(s, key, f)) == Sum(s, f)
  {
    var h := (k: K, x: T) => if key(x) == k then f(x) else 0.0;
    SumSwap(ks, s, h);
    forall x | x in s
      ensures ColumnSums(ks, h)(x) == f(x)
    {
      SumPoint(ks, key(x), Column(h, x));
    }
    SumSame(s, ColumnSums(ks, h), f);
    forall k | k in ks
      ensures RowSums(s, h)(k) == KeySums(s, key, f)(k)
    {
      SumSame(s, Row(h, k), AtKey(key, f, k));
    }
    SumSame(ks, RowSums(s, h), KeySums(s, key, f));
  }
}

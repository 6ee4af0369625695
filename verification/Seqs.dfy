/** Sequences without repeats, and their parts. */
module Seqs {

  ghost predicate NoDup<T>(s: seq<T>) {
    forall i, j :: 0 <= i < j < |s| ==> s[i] != s[j]
  }

  function SetOf<T>(s: seq<T>): (r: set<T>) {
    set x | x in s
  }

  /** The entries of s that lie in S, in their order. */
  function Kept<T(==, !new)>(s: seq<T>, S: set<T>): (r: seq<T>)
    ensures forall x :: x in r <==> x in s && x in S
    ensures NoDup(s) ==> NoDup(r)
  {
    if s == [] then []
    else
      var r := Kept(s[..|s| - 1], S);
      if s[|s| - 1] in S then r + [s[|s| - 1]] else r
  }

  lemma SetOfStep<T>(s: seq<T>, j: nat)
    requires j < |s|
    ensures SetOf(s[..j + 1]) == SetOf(s[..j]) + {s[j]}
    ensures NoDup(s) ==> s[j] !in SetOf(s[..j])
  {
    assert s[..j + 1] == s[..j] + [s[j]];
  }

  lemma SetOfPlus<T>(a: seq<T>, b: seq<T>)
    ensures SetOf(a + b) == SetOf(a) + SetOf(b)
    ensures NoDup(a) && NoDup(b) && SetOf(a) !! SetOf(b) ==> NoDup(a + b)
  {
    forall x | x in SetOf(a) + SetOf(b)
      ensures x in a + b
    {
    }
    if NoDup(a) && NoDup(b) && SetOf(a) !! SetOf(b) {
      forall i, j | 0 <= i < j < |a + b|
        ensures (a + b)[i] != (a + b)[j]
      {
        if i < |a| <= j {
          assert a[i] in SetOf(a) && b[j - |a|] in SetOf(b);
        }
      }
    }
  }

  /** Keeping goes entry by entry and keeps the order: with what it does to one entry this says all of it. */
  lemma {:induction false} KeptPlus<T(!new)>(a: seq<T>, b: seq<T>, S: set<T>)
    ensures Kept(a + b, S) == Kept(a, S) + Kept(b, S)
  {
    if b == [] {
      assert a + b == a;
    } else {
      assert (a + b)[..|a + b| - 1] == a + b[..|b| - 1];
      KeptPlus(a, b[..|b| - 1], S);
    }
  }

  lemma KeptOne<T(!new)>(x: T, S: set<T>)
    ensures Kept([x], S) == if x in S then [x] else []
    ensures Kept([], S) == []
  {
    assert [x][..0] == [];
  }

  lemma {:induction false} KeptAll<T(!new)>(s: seq<T>, S: set<T>)
    requires forall x :: x in s ==> x in S
    ensures Kept(s, S) == s
  {
    if s != [] {
      var r := s[..|s| - 1];
      KeptAll(r, S);
      assert s == r + [s[|s| - 1]];
    }
  }

  lemma {:induction false} KeptTwice<T(!new)>(s: seq<T>, S: set<T>, S': set<T>)
    requires forall x :: x in s && x in S' ==> x in S
    ensures Kept(Kept(s, S), S') == Kept(s, S')
  {
    if s != [] {
      var r, z := s[..|s| - 1], s[|s| - 1];
      KeptTwice(r, S, S');
      if z in S {
        var k := Kept(r, S) + [z];
        assert k[..|k| - 1] == Kept(r, S);
      }
    }
  }
}

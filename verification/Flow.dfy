/** Values that flow along weighted arrows: each node keeps its own and takes a share of the others'. */
module Flow {
  import opened Seqs
  import opened Sums

  /** The share that n takes of each node's value. */
  ghost function Taken<N>(c: (N, N) -> real, T: N -> real, n: N): N -> real {
    m => Times(c(n, m), T(m))
  }

  /** T(n) is b(n) plus the share c(n, m) of every T(m). */
  ghost predicate Solves<N(!new)>(ns: seq<N>, b: N -> real, c: (N, N) -> real, T: N -> real) {
    forall n :: n in ns ==> T(n) == b(n) + Sum(ns, Taken(c, T, n))
  }

  /** How much of m is handed out altogether. */
  ghost function Inflow<N>(ns: seq<N>, c: (N, N) -> real, m: N): real {
    Sum(ns, Column(c, m))
  }

  /** What is left of each value when all shares of it are handed out. */
  ghost function Left<N>(ns: seq<N>, c: (N, N) -> real, T: N -> real): N -> real {
    m => Times(1.0 - Inflow(ns, c, m), T(m))
  }

  /** What is not handed out adds up to what was put in. */
  lemma Balance<N(!new)>(ns: seq<N>, b: N -> real, c: (N, N) -> real, T: N -> real)
    requires Solves(ns, b, c, T)
    ensures Sum(ns, Left(ns, c, T)) == Sum(ns, b)
  {
    var share := (n: N, m: N) => Times(c(n, m), T(m));
    forall n | n in ns
      ensures T(n) == b(n) + RowSums(ns, share)(n)
    {
      SumSame(ns, Row(share, n), Taken(c, T, n));
    }
    forall m | m in ns
      ensures T(m) == Left(ns, c, T)(m) + ColumnSums(ns, share)(m)
    {
      SumTimes(ns, T(m), Column(c, m), Column(share, m));
      Split(Inflow(ns, c, m), T(m));
    }
    hide Solves, Inflow, Sum, Times;
    SumPlus(ns, b, RowSums(ns, share), T);
    SumSwap(ns, ns, share);
    SumPlus(ns, Left(ns, c, T), ColumnSums(ns, share), T);
  }

  lemma Split(i: real, t: real)
    ensures t == Times(1.0 - i, t) + Times(i, t)
  {
  }

  /** When nothing is handed out more than once, and r not at all, r gets no more than was put in. */
  lemma Bounded<N(!new)>(ns: seq<N>, b: N -> real, c: (N, N) -> real, T: N -> real, r: N)
    requires Solves(ns, b, c, T) && r in ns
    requires forall m :: m in ns ==> 0.0 <= T(m) && Inflow(ns, c, m) <= 1.0
    requires Inflow(ns, c, r) == 0.0
    ensures T(r) <= Sum(ns, b)
  {
    Balance(ns, b, c, T);
    var left := Left(ns, c, T);
    hide Inflow, Solves, Sum;
    forall m | m in ns
      ensures 0.0 <= left(m)
    {
      Sign(1.0 - Inflow(ns, c, m), T(m));
    }
    TermLess(ns, r, left);
    assert left(r) == T(r);
  }

  /** A part that takes nothing from outside itself is a flow of its own. */
  lemma Part<N(!new)>(ns: seq<N>, b: N -> real, c: (N, N) -> real, T: N -> real, p: seq<N>)
    requires Solves(ns, b, c, T) && NoDup(ns) && NoDup(p)
    requires forall n :: n in p ==> n in ns
    requires forall n, m :: n in p && m in ns && m !in p ==> c(n, m) == 0.0
    ensures Solves(p, b, c, T)
  {
    forall n | n in p
      ensures T(n) == b(n) + Sum(p, Taken(c, T, n))
    {
      SumPart(ns, p, Taken(c, T, n), Taken(c, T, n));
    }
  }

  /** A part hands out no more than the whole. */
  lemma PartInflow<N(!new)>(ns: seq<N>, c: (N, N) -> real, p: seq<N>, m: N)
    requires NoDup(ns) && NoDup(p)
    requires forall n :: n in p ==> n in ns
    requires forall n :: n in ns ==> 0.0 <= c(n, m)
    ensures Inflow(p, c, m) <= Inflow(ns, c, m)
  {
    SumPart(ns, p, Column(c, m), Only(SetOf(p), Column(c, m)));
    SumLess(ns, Only(SetOf(p), Column(c, m)), Column(c, m));
  }
}

/** Totals are never negative, and never more than the self time of the functions they come from. */
module Bounds {
  import opened Paths
  import opened Seqs
  import opened Sums
  import opened Flow
  import opened Components

  ghost predicate NonNegative(n: Net) {
    (forall u, v :: 0.0 <= n.Ratio(u, v)) && (forall f :: 0.0 <= n.Self(f))
  }

  lemma {:induction false} TotalNonNegative(n: Net, C: Comp)
    requires NonNegative(n)
    ensures 0.0 <= Total(n, C)
    decreases Height(n, C)
  {
    forall m | m in n.functions && n.CompOf(m) == C
      ensures 0.0 <= Subtotal(n, C, m)
    {
      SubtotalNonNegative(n, C, m);
    }
    SumNonNegative(n.functions, m => if n.CompOf(m) == C then Subtotal(n, C, m) else 0.0);
  }

  lemma {:induction false} SubtotalNonNegative(n: Net, C: Comp, m: Id)
    requires NonNegative(n)
    ensures 0.0 <= Subtotal(n, C, m)
    decreases Height(n, C), 0
  {
    forall v | v in n.Out(m) && n.CompOf(v) != C && Height(n, n.CompOf(v)) < Height(n, C)
      ensures 0.0 <= Times(n.Ratio(m, v), Total(n, n.CompOf(v)))
    {
      TotalNonNegative(n, n.CompOf(v));
      Sign(n.Ratio(m, v), Total(n, n.CompOf(v)));
    }
    SumNonNegative(n.Out(m), v =>
      if n.CompOf(v) != C && Height(n, n.CompOf(v)) < Height(n, C) then Times(n.Ratio(m, v), Total(n, n.CompOf(v))) else 0.0);
  }

  /** The components of the functions reached from r. */
  ghost function Below(n: Net, r: Comp): set<Comp> {
    set f | f in Reached(n, r) :: n.CompOf(f)
  }

  /** Calls do not leave what is reached from r, and only calls within r's own component lead into r. */
  lemma BelowClosed(n: Net, r: Comp, u: Id, v: Id)
    requires n.Sound() && Edge(n.calls, u, v) && n.CompOf(u) in Below(n, r)
    ensures n.CompOf(v) in Below(n, r)
    ensures u in Reached(n, r)
    ensures n.CompOf(v) == r ==> n.CompOf(u) == r
  {
    hide Reach, Below, Reached, ReachedFrom, Edge;
    EdgeEnds(n, u, v);
    MembersReached(n, r, u);
    ReachedStep(n, r, u, v);
  }

  lemma EdgeEnds(n: Net, u: Id, v: Id)
    requires n.Sound() && Edge(n.calls, u, v)
    ensures u in n.functions && v in n.functions && u in n.calls && v in n.calls
  {
    assert u in SetOf(n.functions) && v in SetOf(n.functions);
  }

  lemma ReachedStep(n: Net, r: Comp, u: Id, v: Id)
    requires n.Sound() && Edge(n.calls, u, v) && u in Reached(n, r) && u in n.calls && v in n.functions && v in n.calls
    ensures n.CompOf(v) in Below(n, r)
    ensures n.CompOf(v) == r ==> n.CompOf(u) == r
  {
    hide Reach, Edge;
    var h :| h in n.functions && n.CompOf(h) == r && Reach(n.calls, h, u);
    ReachStep(n.calls, h, u, v);
    assert ReachedFrom(n, r, v) && v in Reached(n, r);
    if n.CompOf(v) == r {
      IsKey(n, h);
      SameComp(n, v, h);
      ReachTrans(n.calls, v, h, u);
      ReachEdge(n.calls, u, v);
      MutualSameComp(n, u, v);
    }
  }

  lemma IsKey(n: Net, h: Id)
    requires n.Sound() && h in n.functions
    ensures h in n.calls
  {
    assert h in SetOf(n.functions);
  }

  /** Nothing flows from C to D unless some call leads there. */
  lemma NoShare(n: Net, C: Comp, D: Comp)
    requires n.Sound()
    requires forall u, v :: Edge(n.calls, u, v) && n.CompOf(u) == C ==> n.CompOf(v) != D || C == D
    ensures Shares(n)(C, D) == 0.0
  {
    forall m | m in n.functions
      ensures AtKey(Key(n), Share(n, D), C)(m) == 0.0
    {
      if n.CompOf(m) == C {
        assert forall v :: v in n.Out(m) ==> Edge(n.calls, m, v);
        SumZero(n.Out(m), AtKey(Key(n), Across(n, m), D));
      }
    }
    SumZero(n.functions, AtKey(Key(n), Share(n, D), C));
  }

  lemma ShareNonNegative(n: Net, D: Comp, m: Id)
    requires NonNegative(n)
    ensures 0.0 <= Share(n, D)(m)
  {
    SumNonNegative(n.Out(m), AtKey(Key(n), Across(n, m), D));
  }

  lemma SharesNonNegative(n: Net, C: Comp, D: Comp)
    requires NonNegative(n)
    ensures 0.0 <= Shares(n)(C, D)
  {
    forall m
      ensures 0.0 <= Share(n, D)(m)
    {
      ShareNonNegative(n, D, m);
    }
    SumNonNegative(n.functions, AtKey(Key(n), Share(n, D), C));
  }

  /** The self time of the components below r is that of the functions reached from r. */
  lemma OwnBelow(n: Net, r: Comp, p: seq<Comp>)
    requires n.Sound() && NoDup(p) && SetOf(p) == Below(n, r)
    ensures Sum(p, Own(n)) == SumIn(n.functions, Reached(n, r), Selfs(n))
  {
    var fs := Kept(n.functions, Reached(n, r));
    assert forall f :: f in fs ==> Key(n)(f) in Below(n, r);
    assert forall C :: C in p <==> C in SetOf(p);
    SumByKey(fs, p, Key(n), Selfs(n));
    forall C | C in p
      ensures Own(n)(C) == KeySums(fs, Key(n), Selfs(n))(C)
    {
      forall f | f in n.functions && f !in fs
        ensures AtKey(Key(n), Selfs(n), C)(f) == 0.0
      {
        if n.CompOf(f) == C {
          MembersReached(n, r, f);
        }
      }
      SumPart(n.functions, fs, AtKey(Key(n), Selfs(n), C), AtKey(Key(n), Selfs(n), C));
    }
    SumSame(p, Own(n), KeySums(fs, Key(n), Selfs(n)));
    SumPart(n.functions, fs, Selfs(n), Only(Reached(n, r), Selfs(n)));
  }

  lemma MembersReached(n: Net, r: Comp, u: Id)
    requires n.Sound() && u in n.functions && n.CompOf(u) in Below(n, r)
    ensures u in Reached(n, r)
  {
    var f :| f in Reached(n, r) && n.CompOf(f) == n.CompOf(u);
    var h :| h in n.functions && n.CompOf(h) == r && Reach(n.calls, h, f);
    SameComp(n, f, u);
    ReachTrans(n.calls, h, f, u);
  }

  /** A total never exceeds the self time of the functions reached from the component. */
  lemma TotalBounded(n: Net, r: Comp)
    requires n.Sound() && Normalised(n) && NonNegative(n) && r in Comps(n)
    ensures 0.0 <= Total(n, r) <= SumIn(n.functions, Reached(n, r), Selfs(n)) <= Sum(n.functions, Selfs(n))
  {
    var p := Kept(Comps(n), Below(n, r));
    PartOfFlow(n, r, p);
    PartInflows(n, r, p);
    forall C
      ensures 0.0 <= Totals(n)(C)
    {
      TotalNonNegative(n, C);
    }
    Bounded(p, Own(n), Shares(n), Totals(n), r);
    OwnBelow(n, r, p);
    SumLess(n.functions, Only(Reached(n, r), Selfs(n)), Selfs(n));
  }

  lemma BelowParts(n: Net, r: Comp, p: seq<Comp>)
    requires n.Sound() && r in Comps(n) && p == Kept(Comps(n), Below(n, r))
    ensures NoDup(p) && SetOf(p) == Below(n, r) && r in p
  {
    forall C | C in Below(n, r)
      ensures C in Comps(n)
    {
      var f :| f in Reached(n, r) && n.CompOf(f) == C;
      CompIn(n, f);
    }
    var h :| h in n.functions && n.CompOf(h) == r;
    ReachRefl(n.calls, h);
    assert ReachedFrom(n, r, h);
    assert h in Reached(n, r);
  }

  lemma PartOfFlow(n: Net, r: Comp, p: seq<Comp>)
    requires n.Sound() && r in Comps(n) && p == Kept(Comps(n), Below(n, r))
    ensures NoDup(p) && SetOf(p) == Below(n, r) && r in p
    ensures Solves(p, Own(n), Shares(n), Totals(n))
  {
    BelowParts(n, r, p);
    TotalsFlow(n);
    forall C, D | C in p && D in Comps(n) && D !in p
      ensures Shares(n)(C, D) == 0.0
    {
      forall u, v | Edge(n.calls, u, v) && n.CompOf(u) == C
        ensures n.CompOf(v) != D
      {
        BelowClosed(n, r, u, v);
      }
      NoShare(n, C, D);
    }
    hide Solves, Shares, Own, Totals;
    Part(Comps(n), Own(n), Shares(n), Totals(n), p);
  }

  lemma PartInflows(n: Net, r: Comp, p: seq<Comp>)
    requires n.Sound() && Normalised(n) && NonNegative(n) && r in Comps(n) && p == Kept(Comps(n), Below(n, r))
    ensures Inflow(p, Shares(n), r) == 0.0
    ensures forall D :: D in p ==> Inflow(p, Shares(n), D) <= 1.0
  {
    forall C | C in p
      ensures Column(Shares(n), r)(C) == 0.0
    {
      forall u, v | Edge(n.calls, u, v) && n.CompOf(u) == C
        ensures n.CompOf(v) != r || C == r
      {
        BelowClosed(n, r, u, v);
      }
      NoShare(n, C, r);
    }
    SumZero(p, Column(Shares(n), r));
    forall D | D in p
      ensures Inflow(p, Shares(n), D) <= 1.0
    {
      forall C
        ensures 0.0 <= Shares(n)(C, D)
      {
        SharesNonNegative(n, C, D);
      }
      PartInflow(Comps(n), Shares(n), p, D);
      InflowIsInto(n, D);
    }
  }
}

/** Which components have any time at all, read off the self times and the ratios before anything is integrated. */
module Supply {
  import opened Paths
  import opened Seqs
  import opened Sums
  import opened Components
  import opened Bounds

  /** m has self time, or calls with a positive ratio into another component that draws time. */
  ghost predicate Supplied(n: Net, C: Comp, m: Id)
    decreases Height(n, C), 0
  {
    0.0 < n.Self(m) ||
    exists v :: v in n.Out(m) && n.CompOf(v) != C && Height(n, n.CompOf(v)) < Height(n, C) && 0.0 < n.Ratio(m, v) &&
                Draws(n, n.CompOf(v))
  }

  /** Some function that C reaches along such calls has self time. */
  ghost predicate Draws(n: Net, C: Comp)
    decreases Height(n, C), 1
  {
    exists m :: m in n.functions && n.CompOf(m) == C && Supplied(n, C, m)
  }

  /** The guard on heights always holds. */
  lemma SuppliedIs(n: Net, m: Id)
    requires n.Sound() && m in n.calls
    ensures Supplied(n, n.CompOf(m), m) <==>
      (0.0 < n.Self(m) ||
       exists v :: v in n.Out(m) && n.CompOf(v) != n.CompOf(m) && 0.0 < n.Ratio(m, v) && Draws(n, n.CompOf(v)))
  {
    hide Net.Sound, Draws;
    forall v | v in n.Out(m) && n.CompOf(v) != n.CompOf(m)
      ensures Height(n, n.CompOf(v)) < Height(n, n.CompOf(m))
    {
      Lower(n, m, v);
    }
  }

  /** From C, over k calls with positive ratios from one component into another, f's component is reached. */
  ghost predicate Feeds(n: Net, C: Comp, k: nat, f: Id)
    decreases k
  {
    if k == 0 then n.CompOf(f) == C
    else exists u, v :: FirstCall(n, C, u, v) && Feeds(n, n.CompOf(v), k - 1, f)
  }

  ghost predicate FirstCall(n: Net, C: Comp, u: Id, v: Id) {
    u in n.functions && n.CompOf(u) == C && v in n.Out(u) && n.CompOf(v) != C && 0.0 < n.Ratio(u, v)
  }

  ghost predicate FeedsTime(n: Net, C: Comp, k: nat, f: Id) {
    f in n.functions && 0.0 < n.Self(f) && Feeds(n, C, k, f)
  }

  lemma HasCalls(n: Net, m: Id)
    requires n.Sound() && m in n.functions
    ensures m in n.calls
  {
    assert m in SetOf(n.functions);
  }

  lemma {:induction false} DrawsFed(n: Net, C: Comp) returns (k: nat, f: Id)
    requires n.Sound() && Draws(n, C)
    ensures FeedsTime(n, C, k, f)
    decreases Height(n, C)
  {
    hide Net.Sound, Supplied;
    var m :| m in n.functions && n.CompOf(m) == C && Supplied(n, C, m);
    HasCalls(n, m);
    SuppliedIs(n, m);
    if 0.0 < n.Self(m) {
      k, f := 0, m;
    } else {
      var v :| v in n.Out(m) && n.CompOf(v) != C && 0.0 < n.Ratio(m, v) && Draws(n, n.CompOf(v));
      Lower(n, m, v);
      k, f := DrawsFed(n, n.CompOf(v));
      assert FirstCall(n, C, m, v);
      k := k + 1;
    }
  }

  lemma {:induction false} FedDraws(n: Net, C: Comp, k: nat, f: Id)
    requires n.Sound() && FeedsTime(n, C, k, f)
    ensures Draws(n, C)
    decreases k
  {
    hide Net.Sound, Supplied;
    if k == 0 {
      HasCalls(n, f);
      SuppliedIs(n, f);
    } else {
      var u, v :| FirstCall(n, C, u, v) && Feeds(n, n.CompOf(v), k - 1, f);
      FedDraws(n, n.CompOf(v), k - 1, f);
      HasCalls(n, u);
      SuppliedIs(n, u);
    }
  }

  /** A component draws time exactly when a chain of such calls leads from it to a function with self time. */
  lemma DrawsIff(n: Net, C: Comp)
    requires n.Sound()
    ensures Draws(n, C) <==> exists k, f :: FeedsTime(n, C, k, f)
  {
    hide Net.Sound, Draws;
    if Draws(n, C) {
      var k, f := DrawsFed(n, C);
    }
    if k, f :| FeedsTime(n, C, k, f) {
      FedDraws(n, C, k, f);
    }
  }

  /** What v's component adds to m's subtotal. */
  ghost function Term(n: Net, C: Comp, m: Id): Id -> real {
    v =>
      if n.CompOf(v) != C && Height(n, n.CompOf(v)) < Height(n, C) then Times(n.Ratio(m, v), Total(n, n.CompOf(v))) else 0.0
  }

  lemma {:induction false} SubtotalPositive(n: Net, C: Comp, m: Id)
    requires NonNegative(n)
    ensures 0.0 < Subtotal(n, C, m) <==> Supplied(n, C, m)
    decreases Height(n, C), 0
  {
    hide Height, Times;
    var term := Term(n, C, m);
    forall v
      ensures 0.0 <= term(v)
      ensures 0.0 < term(v) <==>
        n.CompOf(v) != C && Height(n, n.CompOf(v)) < Height(n, C) && 0.0 < n.Ratio(m, v) && Draws(n, n.CompOf(v))
    {
      if n.CompOf(v) != C && Height(n, n.CompOf(v)) < Height(n, C) {
        TotalPositive(n, n.CompOf(v));
        TotalNonNegative(n, n.CompOf(v));
        Sign(n.Ratio(m, v), Total(n, n.CompOf(v)));
      }
    }
    SubtotalSplit(n, C, m);
    SumPositive(n.Out(m), term);
    SumNonNegative(n.Out(m), term);
  }

  lemma SubtotalSplit(n: Net, C: Comp, m: Id)
    ensures Subtotal(n, C, m) == n.Self(m) + Sum(n.Out(m), Term(n, C, m))
  {
    SumSame(n.Out(m), Term(n, C, m), v =>
      if n.CompOf(v) != C && Height(n, n.CompOf(v)) < Height(n, C) then Times(n.Ratio(m, v), Total(n, n.CompOf(v))) else 0.0);
  }

  /** A component's total is positive exactly when it draws time. */
  lemma {:induction false} TotalPositive(n: Net, C: Comp)
    requires NonNegative(n)
    ensures 0.0 < Total(n, C) <==> Draws(n, C)
    decreases Height(n, C), 1
  {
    hide Supplied, Subtotal;
    forall m
      ensures 0.0 <= Subtotals(n)(m)
      ensures n.CompOf(m) == C ==> (0.0 < Subtotals(n)(m) <==> Supplied(n, C, m))
    {
      SubtotalNonNegative(n, n.CompOf(m), m);
      if n.CompOf(m) == C {
        SubtotalPositive(n, C, m);
      }
    }
    TotalIs(n, C);
    SumPositive(n.functions, Only(InComp(n, C), Subtotals(n)));
  }
}

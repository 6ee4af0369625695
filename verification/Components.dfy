/** The components of a profile, and the total that each of them is due. */
module Components {
  import opened Paths
  import opened Seqs
  import opened Sums
  import opened Flow

  /** A component: a function without a cycle, or a cycle. */
  datatype Comp = Fn(f: Id) | Cyc(c: nat)

  /** What integration reads of a profile. */
  datatype Net = Net(functions: seq<Id>, calls: Calls, cycle: map<Id, nat>,
                     ratio: map<Arrow, real>, self: map<Id, real>)
  {
    function CompOf(f: Id): Comp {
      if f in cycle then Cyc(cycle[f]) else Fn(f)
    }

    function Out(f: Id): seq<Id> {
      if f in calls then calls[f] else []
    }

    function Ratio(u: Id, v: Id): real {
      if (u, v) in ratio then ratio[(u, v)] else 0.0
    }

    function Self(f: Id): real {
      if f in self then self[f] else 0.0
    }

    /** The functions and calls form a graph, and the cycles are its larger components. */
    ghost predicate Sound() {
      && NoDup(functions) && calls.Keys == SetOf(functions) && Closed(calls)
      && (forall f :: f in calls ==> NoDup(calls[f]))
      && cycle.Keys <= calls.Keys
      && (forall x, z :: x in calls && z in calls ==> (CompOf(x) == CompOf(z) <==> x == z || Mutual(calls, x, z)))
    }
  }

  /** The functions reached from the component C. */
  ghost function Reached(n: Net, C: Comp): set<Id> {
    set f | f in n.functions && ReachedFrom(n, C, f)
  }

  ghost predicate ReachedFrom(n: Net, C: Comp, f: Id) {
    exists h :: h in n.functions && n.CompOf(h) == C && Reach(n.calls, h, f)
  }

  ghost function Height(n: Net, C: Comp): nat {
    |Reached(n, C)|
  }

  lemma SubsetSize<T>(a: set<T>, b: set<T>)
    requires a < b
    ensures |a| < |b|
  {
    assert a + (b - a) == b;
    assert b - a != {};
    assert |b| == |a| + |b - a|;
  }

  lemma SameComp(n: Net, x: Id, z: Id)
    requires n.Sound() && x in n.calls && z in n.calls && n.CompOf(x) == n.CompOf(z)
    ensures Reach(n.calls, x, z) && Reach(n.calls, z, x)
  {
    if x == z {
      ReachRefl(n.calls, x);
    }
  }

  lemma MutualSameComp(n: Net, x: Id, z: Id)
    requires n.Sound() && Mutual(n.calls, x, z) && x in n.calls && z in n.calls
    ensures n.CompOf(x) == n.CompOf(z)
  {
  }

  /** A function reached from some member is reached from every member. */
  lemma ReachedIff(n: Net, x: Id, f: Id)
    requires n.Sound() && x in n.calls && f in n.calls
    ensures ReachedFrom(n, n.CompOf(x), f) <==> Reach(n.calls, x, f)
  {
    if ReachedFrom(n, n.CompOf(x), f) {
      var h :| h in n.functions && n.CompOf(h) == n.CompOf(x) && Reach(n.calls, h, f);
      SameComp(n, x, h);
      ReachTrans(n.calls, x, h, f);
    }
    if Reach(n.calls, x, f) {
      assert x in n.functions;
    }
  }

  /** A call that leaves its component leads lower: the components form no cycle among themselves. */
  lemma Lower(n: Net, u: Id, v: Id)
    requires n.Sound() && Edge(n.calls, u, v) && n.CompOf(u) != n.CompOf(v)
    ensures Height(n, n.CompOf(v)) < Height(n, n.CompOf(u))
  {
    var A, B := Reached(n, n.CompOf(v)), Reached(n, n.CompOf(u));
    ReachEdge(n.calls, u, v);
    ReachRefl(n.calls, u);
    forall f | f in A
      ensures f in B
    {
      ReachedIff(n, v, f);
      ReachTrans(n.calls, u, v, f);
      ReachedIff(n, u, f);
    }
    ReachedIff(n, u, u);
    ReachedIff(n, v, u);
    assert u in B && u !in A;
    SubsetSize(A, B);
  }

  /** The self time of member m and its share of the components it calls. */
  ghost function Subtotal(n: Net, C: Comp, m: Id): real
    decreases Height(n, C), 0
  {
    n.Self(m) + Sum(n.Out(m), v =>
      if n.CompOf(v) != C && Height(n, n.CompOf(v)) < Height(n, C) then Times(n.Ratio(m, v), Total(n, n.CompOf(v))) else 0.0)
  }

  /** The total due to C: the subtotals of its members. */
  ghost function Total(n: Net, C: Comp): real
    decreases Height(n, C), 1
  {
    Sum(n.functions, m => if n.CompOf(m) == C then Subtotal(n, C, m) else 0.0)
  }

  /** The share m takes of the value T gives the component that v is in, if v is in another. */
  ghost function Outward(n: Net, T: Comp -> real, m: Id): Id -> real {
    v => if n.CompOf(v) != n.CompOf(m) then Times(n.Ratio(m, v), T(n.CompOf(v))) else 0.0
  }

  ghost function Totals(n: Net): Comp -> real {
    C => Total(n, C)
  }

  ghost function InComp(n: Net, C: Comp): set<Id> {
    set f | f in n.functions && n.CompOf(f) == C
  }

  /** The guard on heights in Subtotal always holds. */
  lemma SubtotalIs(n: Net, m: Id)
    requires n.Sound() && m in n.calls
    ensures Subtotal(n, n.CompOf(m), m) == n.Self(m) + Sum(n.Out(m), Outward(n, Totals(n), m))
  {
    var C := n.CompOf(m);
    forall v | v in n.Out(m) && n.CompOf(v) != C
      ensures Height(n, n.CompOf(v)) < Height(n, C)
    {
      Lower(n, m, v);
    }
    SumSame(n.Out(m),
      v => if n.CompOf(v) != C && Height(n, n.CompOf(v)) < Height(n, C) then Times(n.Ratio(m, v), Total(n, n.CompOf(v))) else 0.0,
      Outward(n, Totals(n), m));
  }

  ghost function Subtotals(n: Net): Id -> real {
    m => Subtotal(n, n.CompOf(m), m)
  }

  lemma TotalIs(n: Net, C: Comp)
    ensures Total(n, C) == SumIn(n.functions, InComp(n, C), Subtotals(n))
  {
    SumSame(n.functions, m => if n.CompOf(m) == C then Subtotal(n, C, m) else 0.0, Only(InComp(n, C), Subtotals(n)));
  }

  /** What a function without a cycle is due: its self time and its share of every function it calls. */
  lemma TotalOfFunction(n: Net, f: Id)
    requires n.Sound() && f in n.calls && f !in n.cycle
    ensures Total(n, Fn(f)) == n.Self(f) + Sum(n.Out(f), Outward(n, Totals(n), f))
  {
    SumPoint(n.functions, f, m => if n.CompOf(m) == Fn(f) then Subtotal(n, Fn(f), m) else 0.0);
    SubtotalIs(n, f);
  }

  /** The components that occur, each once. */
  ghost function CompsOf(n: Net, fs: seq<Id>): (ks: seq<Comp>)
    ensures NoDup(ks)
    ensures forall C :: C in ks <==> exists f :: f in fs && n.CompOf(f) == C
  {
    if fs == [] then []
    else
      var ks := CompsOf(n, fs[..|fs| - 1]);
      var C := n.CompOf(fs[|fs| - 1]);
      if C in ks then ks else ks + [C]
  }

  ghost function Comps(n: Net): seq<Comp> {
    CompsOf(n, n.functions)
  }

  lemma CompIn(n: Net, f: Id)
    ensures f in n.functions ==> n.CompOf(f) in Comps(n)
  {
  }

  ghost function Key(n: Net): Id -> Comp {
    f => n.CompOf(f)
  }

  ghost function Selfs(n: Net): Id -> real {
    f => n.Self(f)
  }

  /** The self time of the members of each component. */
  ghost function Own(n: Net): Comp -> real {
    KeySums(n.functions, Key(n), Selfs(n))
  }

  /** The ratio with which m calls v, if v is in another component. */
  ghost function Across(n: Net, m: Id): Id -> real {
    v => if n.CompOf(v) != n.CompOf(m) then n.Ratio(m, v) else 0.0
  }

  /** The ratio with which m calls into D from outside. */
  ghost function Share(n: Net, D: Comp): Id -> real {
    m => Sum(n.Out(m), AtKey(Key(n), Across(n, m), D))
  }

  /** The ratio with which C calls into D. */
  ghost function Shares(n: Net): (Comp, Comp) -> real {
    (C, D) => Sum(n.functions, AtKey(Key(n), Share(n, D), C))
  }

  /** The ratios of all calls into D from outside. */
  ghost function Into(n: Net, D: Comp): real {
    Sum(n.functions, Share(n, D))
  }

  /** m's share of each component's value. */
  ghost function Portion(n: Net, T: Comp -> real, m: Id): Comp -> real {
    D => Times(Share(n, D)(m), T(D))
  }

  /** What m takes from other components, sorted by the component it comes from. */
  lemma OutwardByComp(n: Net, T: Comp -> real, m: Id)
    requires n.Sound() && m in n.calls
    ensures Sum(n.Out(m), Outward(n, T, m)) == Sum(Comps(n), Portion(n, T, m))
  {
    var C, ks := n.CompOf(m), Comps(n);
    forall v | v in n.Out(m)
      ensures Key(n)(v) in ks
    {
      assert v in n.calls && v in n.functions;
      CompIn(n, v);
    }
    hide Sum, Reach, Comps, Times;
    SumByKey(n.Out(m), ks, Key(n), Outward(n, T, m));
    forall D | D in ks
      ensures KeySums(n.Out(m), Key(n), Outward(n, T, m))(D) == Portion(n, T, m)(D)
    {
      TimesZero(T(D));
      SumTimes(n.Out(m), T(D), AtKey(Key(n), Across(n, m), D), AtKey(Key(n), Outward(n, T, m), D));
    }
    SumSame(ks, KeySums(n.Out(m), Key(n), Outward(n, T, m)), Portion(n, T, m));
  }

  /** T gives every component the self time of its members and their shares of other components. */
  ghost predicate Integrates(n: Net, T: Comp -> real, sub: Id -> real) {
    && (forall m :: m in n.functions ==> sub(m) == n.Self(m) + Sum(n.Out(m), Outward(n, T, m)))
    && (forall C :: T(C) == SumIn(n.functions, InComp(n, C), sub))
  }

  /** What the members of C take of each component's value. */
  ghost function Portions(n: Net, T: Comp -> real, C: Comp): (Id, Comp) -> real {
    (m, D) => if n.CompOf(m) == C then Portion(n, T, m)(D) else 0.0
  }

  lemma PortionsColumn(n: Net, T: Comp -> real, C: Comp, D: Comp)
    ensures Sum(n.functions, Column(Portions(n, T, C), D)) == Taken(Shares(n), T, C)(D)
  {
    hide Sum, Share, Times;
    TimesZero(T(D));
    forall m
      ensures Column(Portions(n, T, C), D)(m) == Times(AtKey(Key(n), Share(n, D), C)(m), T(D))
    {
      assert Key(n)(m) == n.CompOf(m);
      assert Portion(n, T, m)(D) == Times(Share(n, D)(m), T(D));
    }
    SumTimes(n.functions, T(D), AtKey(Key(n), Share(n, D), C), Column(Portions(n, T, C), D));
  }

  lemma PortionsRow(n: Net, T: Comp -> real, C: Comp, m: Id)
    requires n.Sound() && m in n.calls
    ensures Sum(Comps(n), Row(Portions(n, T, C), m)) ==
            if n.CompOf(m) == C then Sum(n.Out(m), Outward(n, T, m)) else 0.0
  {
    hide Sum, Times, Comps, Share;
    if n.CompOf(m) == C {
      OutwardByComp(n, T, m);
      SumSame(Comps(n), Portion(n, T, m), Row(Portions(n, T, C), m));
    } else {
      SumZero(Comps(n), Row(Portions(n, T, C), m));
    }
  }

  lemma ByComp(n: Net, T: Comp -> real, sub: Id -> real, C: Comp)
    requires n.Sound() && Integrates(n, T, sub)
    ensures T(C) == Own(n)(C) + Sum(Comps(n), Taken(Shares(n), T, C))
  {
    var ks := Comps(n);
    var own := AtKey(Key(n), Selfs(n), C);
    var given := Portions(n, T, C);
    hide Sum, Reach, Comps, Portions, Outward;
    forall m | m in n.functions
      ensures Only(InComp(n, C), sub)(m) == own(m) + RowSums(ks, given)(m)
    {
      PortionsRow(n, T, C, m);
    }
    SumPlus(n.functions, own, RowSums(ks, given), Only(InComp(n, C), sub));
    SumSwap(n.functions, ks, given);
    forall D | D in ks
      ensures ColumnSums(n.functions, given)(D) == Taken(Shares(n), T, C)(D)
    {
      PortionsColumn(n, T, C, D);
    }
    SumSame(ks, ColumnSums(n.functions, given), Taken(Shares(n), T, C));
  }

  lemma TotalsIntegrate(n: Net)
    requires n.Sound()
    ensures Integrates(n, Totals(n), Subtotals(n))
  {
    forall m | m in n.functions
      ensures Subtotals(n)(m) == n.Self(m) + Sum(n.Out(m), Outward(n, Totals(n), m))
    {
      SubtotalIs(n, m);
    }
    forall C
      ensures Totals(n)(C) == SumIn(n.functions, InComp(n, C), Subtotals(n))
    {
      TotalIs(n, C);
    }
  }

  /** The totals are a flow over the components. */
  lemma TotalsFlow(n: Net)
    requires n.Sound()
    ensures Solves(Comps(n), Own(n), Shares(n), Totals(n))
  {
    TotalsIntegrate(n);
    forall C | C in Comps(n)
      ensures Totals(n)(C) == Own(n)(C) + Sum(Comps(n), Taken(Shares(n), Totals(n), C))
    {
      ByComp(n, Totals(n), Subtotals(n), C);
    }
  }

  lemma InflowIsInto(n: Net, D: Comp)
    requires n.Sound()
    ensures Inflow(Comps(n), Shares(n), D) == Into(n, D)
  {
    var ks := Comps(n);
    forall m | m in n.functions
      ensures Key(n)(m) in ks
    {
      CompIn(n, m);
    }
    hide Sum, Reach, Share, Comps;
    SumByKey(n.functions, ks, Key(n), Share(n, D));
    SumSame(ks, Column(Shares(n), D), KeySums(n.functions, Key(n), Share(n, D)));
  }

  lemma OwnAll(n: Net)
    ensures Sum(Comps(n), Own(n)) == Sum(n.functions, Selfs(n))
  {
    forall m | m in n.functions
      ensures Key(n)(m) in Comps(n)
    {
      CompIn(n, m);
    }
    SumByKey(n.functions, Comps(n), Key(n), Selfs(n));
  }

  /** The component has a caller outside itself. */
  ghost predicate Called(n: Net, D: Comp) {
    exists u, v :: Edge(n.calls, u, v) && n.CompOf(v) == D && n.CompOf(u) != D
  }

  /** Every component called from outside hands out exactly all of its total. */
  ghost predicate Normalised(n: Net) {
    && (forall u, v :: 0.0 <= n.Ratio(u, v))
    && (forall D :: Into(n, D) == if Called(n, D) then 1.0 else 0.0)
  }

  /** The totals of the components that nobody calls from outside. */
  ghost function RootTotals(n: Net): Comp -> real {
    D => if Called(n, D) then 0.0 else Total(n, D)
  }

  /** The totals of the components that nobody calls from outside add up to all the self time. */
  lemma Conservation(n: Net)
    requires n.Sound() && Normalised(n)
    ensures Sum(Comps(n), RootTotals(n)) == Sum(n.functions, Selfs(n))
  {
    hide Sum, Total, Inflow, Shares, Own, Solves, Called, Comps, Into, Net.Sound, Left, RootTotals;
    var ks := Comps(n);
    TotalsFlow(n);
    Balance(ks, Own(n), Shares(n), Totals(n));
    forall D | D in ks
      ensures Left(ks, Shares(n), Totals(n))(D) == RootTotals(n)(D)
    {
      LeftIsRoot(n, D);
    }
    SumSame(ks, Left(ks, Shares(n), Totals(n)), RootTotals(n));
    OwnAll(n);
  }

  lemma LeftIsRoot(n: Net, D: Comp)
    requires n.Sound() && Normalised(n)
    ensures Left(Comps(n), Shares(n), Totals(n))(D) == RootTotals(n)(D)
  {
    hide Sum, Total, Inflow, Shares, Called, Comps, Into, Net.Sound, Times;
    InflowIsInto(n, D);
    OneTimes(Total(n, D));
    assert Into(n, D) == if Called(n, D) then 1.0 else 0.0;
  }
}

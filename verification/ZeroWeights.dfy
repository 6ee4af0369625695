/** What becomes of conservation when calls may weigh nothing, and a ratio of nothing to nothing counts as one. */
module ZeroWeights {
  import opened Paths
  import opened Seqs
  import opened Sums
  import opened Flow
  import opened Components
  import opened Bounds
  import opened Supply
  import opened CallRatios
  import opened Normalisation

  /** What a component hands out beyond its total. */
  ghost function Surplus(n: Net): Comp -> real {
    D => if Called(n, D) then Times(Into(n, D) - 1.0, Total(n, D)) else 0.0
  }

  lemma SurplusIs(n: Net, D: Comp)
    requires n.Sound()
    ensures RootTotals(n)(D) == Left(Comps(n), Shares(n), Totals(n))(D) + Surplus(n)(D)
  {
    hide Sum, Into, Inflow, Called, Total, Net.Sound, Comps, Shares, Times;
    InflowKnown(n, D);
    Opposite(Inflow(Comps(n), Shares(n), D), Total(n, D));
  }

  lemma InflowKnown(n: Net, D: Comp)
    requires n.Sound()
    ensures Inflow(Comps(n), Shares(n), D) == Into(n, D)
    ensures !Called(n, D) ==> Into(n, D) == 0.0
  {
    hide Sum, Into, Inflow, Called, Total, Net.Sound, Comps, Shares;
    InflowIsInto(n, D);
    if !Called(n, D) {
      IntoUncalled(n, D);
    }
  }

  lemma Opposite(i: real, t: real)
    ensures Times(1.0 - i, t) + Times(i - 1.0, t) == 0.0
    ensures i == 0.0 ==> Times(1.0 - i, t) == t
  {
  }

  /** Whatever the ratios are, the totals nobody calls for make up all the self time and every surplus. */
  lemma Accounting(n: Net)
    requires n.Sound()
    ensures Sum(Comps(n), RootTotals(n)) == Sum(n.functions, Selfs(n)) + Sum(Comps(n), Surplus(n))
  {
    hide Sum, Solves, Own, Surplus, RootTotals, Left, Shares, Comps, Total;
    TotalsFlow(n);
    Balance(Comps(n), Own(n), Shares(n), Totals(n));
    OwnAll(n);
    forall D | D in Comps(n)
      ensures RootTotals(n)(D) == Left(Comps(n), Shares(n), Totals(n))(D) + Surplus(n)(D)
    {
      SurplusIs(n, D);
    }
    SumPlus(Comps(n), Left(Comps(n), Shares(n), Totals(n)), Surplus(n), RootTotals(n));
  }

  /** m's call to v enters D, and has a weight. */
  ghost function Crossing(n: Net, w: Weights, D: Comp, m: Id): Id -> real {
    v => if n.CompOf(v) == D && n.CompOf(m) != D && (m, v) in w then 1.0 else 0.0
  }

  ghost function CrossingsFrom(n: Net, w: Weights, D: Comp): Id -> real {
    m => Sum(n.Out(m), Crossing(n, w, D, m))
  }

  /** How many calls that have a weight enter D. */
  ghost function Crossings(n: Net, w: Weights, D: Comp): real {
    Sum(n.functions, CrossingsFrom(n, w, D))
  }

  lemma RatedAt(n: Net, w: Weights, u: Id, v: Id)
    requires Weighable(n, w) && Edge(n.calls, u, v) && u != v
    ensures n.Ratio(u, v) == RatioOf(n, w, u, v)
  {
    hide RatioOf;
  }

  /** A call without a weight gets no ratio; one with a weight gets its part, or all of a whole that is nothing. */
  lemma RatioEntering(n: Net, w: Weights, u: Id, v: Id)
    requires Weighable(n, w) && Edge(n.calls, u, v) && n.CompOf(u) != n.CompOf(v)
    ensures EnterTotal(n, w, n.CompOf(v)) == 0.0 ==> n.Ratio(u, v) == if (u, v) in w then 1.0 else 0.0
    ensures EnterTotal(n, w, n.CompOf(v)) != 0.0 ==>
      n.Ratio(u, v) == Times(Weight(w, u, v), 1.0 / EnterTotal(n, w, n.CompOf(v)))
  {
    hide Weighable, EnterTotal, FunctionTotal, Times, Ratio;
    EnterTerm(n, w, u, v);
    RatedAt(n, w, u, v);
    if v !in n.cycle {
      ArrivingIsEntering(n, w, v);
    }
    var t := EnterTotal(n, w, n.CompOf(v));
    PartOrOne(Weight(w, u, v), t);
    if t != 0.0 {
      TimesZero(1.0 / t);
    }
  }

  lemma ShareEntering(n: Net, w: Weights, D: Comp, m: Id)
    requires Weighable(n, w)
    ensures EnterTotal(n, w, D) == 0.0 ==> Share(n, D)(m) == CrossingsFrom(n, w, D)(m)
    ensures EnterTotal(n, w, D) != 0.0 ==>
      Share(n, D)(m) == Times(EnteringFrom(n, w, D)(m), 1.0 / EnterTotal(n, w, D))
  {
    hide Weighable, Sum, Times, EnterTotal;
    var t := EnterTotal(n, w, D);
    forall v | v in n.Out(m)
      ensures t == 0.0 ==> AtKey(Key(n), Across(n, m), D)(v) == Crossing(n, w, D, m)(v)
      ensures t != 0.0 ==> AtKey(Key(n), Across(n, m), D)(v) == Times(Entering(n, w, D, m)(v), 1.0 / t)
    {
      assert Edge(n.calls, m, v);
      if n.CompOf(v) == D && n.CompOf(m) != D {
        RatioEntering(n, w, m, v);
      } else if t != 0.0 {
        TimesZero(1.0 / t);
      }
    }
    if t == 0.0 {
      SumSame(n.Out(m), AtKey(Key(n), Across(n, m), D), Crossing(n, w, D, m));
    } else {
      SumTimes(n.Out(m), 1.0 / t, Entering(n, w, D, m), AtKey(Key(n), Across(n, m), D));
    }
  }

  /** A component is handed out once if any weight enters it, and else once for every call with a weight. */
  lemma IntoIs(n: Net, w: Weights, D: Comp)
    requires Weighable(n, w)
    ensures Into(n, D) == if EnterTotal(n, w, D) == 0.0 then Crossings(n, w, D) else 1.0
  {
    hide Weighable, Sum, Times, Share, EnteringFrom, CrossingsFrom;
    var t := EnterTotal(n, w, D);
    var k := if t == 0.0 then 0.0 else 1.0 / t;
    forall m
      ensures t == 0.0 ==> Share(n, D)(m) == CrossingsFrom(n, w, D)(m)
      ensures t != 0.0 ==> Share(n, D)(m) == Times(EnteringFrom(n, w, D)(m), k)
    {
      ShareEntering(n, w, D, m);
    }
    if t == 0.0 {
      SumSame(n.functions, Share(n, D), CrossingsFrom(n, w, D));
    } else {
      SumTimes(n.functions, k, EnteringFrom(n, w, D), Share(n, D));
      Inverse(t);
    }
  }

  /** Some call with a weight enters D. */
  ghost predicate Crossed(n: Net, w: Weights, D: Comp) {
    exists u, v :: Edge(n.calls, u, v) && n.CompOf(v) == D && n.CompOf(u) != D && (u, v) in w
  }

  lemma CrossingsAtLeast(n: Net, w: Weights, D: Comp)
    requires n.calls.Keys == SetOf(n.functions) && Crossed(n, w, D)
    ensures 1.0 <= Crossings(n, w, D)
  {
    var u, v :| Edge(n.calls, u, v) && n.CompOf(v) == D && n.CompOf(u) != D && (u, v) in w;
    forall m
      ensures 0.0 <= CrossingsFrom(n, w, D)(m)
    {
      SumNonNegative(n.Out(m), Crossing(n, w, D, m));
    }
    TermLess(n.Out(u), v, Crossing(n, w, D, u));
    assert u in SetOf(n.functions);
    TermLess(n.functions, u, CrossingsFrom(n, w, D));
  }

  lemma CrossingsNone(n: Net, w: Weights, D: Comp)
    requires !Crossed(n, w, D)
    ensures Crossings(n, w, D) == 0.0 && EnterTotal(n, w, D) == 0.0
  {
    forall m
      ensures CrossingsFrom(n, w, D)(m) == 0.0 && EnteringFrom(n, w, D)(m) == 0.0
    {
      assert forall v :: v in n.Out(m) ==> Edge(n.calls, m, v);
      SumZero(n.Out(m), Crossing(n, w, D, m));
      SumZero(n.Out(m), Entering(n, w, D, m));
    }
    SumZero(n.functions, CrossingsFrom(n, w, D));
    SumZero(n.functions, EnteringFrom(n, w, D));
  }

  lemma RatiosNonNegative(n: Net, w: Weights)
    requires Weighable(n, w)
    ensures forall u, v :: 0.0 <= n.Ratio(u, v)
  {
  }

  /** Two or more calls with a weight enter D, and all these weights are zero. */
  ghost predicate EnteredByNothing(n: Net, w: Weights, D: Comp) {
    EnterTotal(n, w, D) == 0.0 && Crossings(n, w, D) > 1.0
  }

  /** D is called from outside, but by no call that has a weight. */
  ghost predicate EnteredUnweighed(n: Net, w: Weights, D: Comp) {
    Called(n, D) && !Crossed(n, w, D)
  }

  /** What is handed out again. */
  ghost function Extra(n: Net, w: Weights): Comp -> real {
    D => if EnteredByNothing(n, w, D) then Times(Crossings(n, w, D) - 1.0, Total(n, D)) else 0.0
  }

  /** What is handed out to nobody although it is called. */
  ghost function Lost(n: Net, w: Weights): Comp -> real {
    D => if EnteredUnweighed(n, w, D) then Total(n, D) else 0.0
  }

  lemma SurplusParts(n: Net, w: Weights, D: Comp)
    requires n.Sound() && Weighable(n, w)
    ensures Surplus(n)(D) + Lost(n, w)(D) == Extra(n, w)(D)
  {
    hide Weighable, EnterTotal, Crossings, Into, Total, Net.Sound;
    IntoIs(n, w, D);
    SoundKeys(n);
    if Crossed(n, w, D) {
      CrossingsAtLeast(n, w, D);
    } else {
      CrossingsNone(n, w, D);
    }
  }

  lemma SoundKeys(n: Net)
    requires n.Sound()
    ensures n.calls.Keys == SetOf(n.functions)
  {
  }

  /** With weights that are not negative, where there are any, the totals nobody calls for and what is lost are all
      the self time and what is handed out again. */
  lemma AccountingWeighed(n: Net, w: Weights)
    requires n.Sound() && Weighable(n, w)
    ensures Sum(Comps(n), RootTotals(n)) + Sum(Comps(n), Lost(n, w)) ==
            Sum(n.functions, Selfs(n)) + Sum(Comps(n), Extra(n, w))
  {
    hide Sum, Net.Sound, Weighable, Surplus, Comps, RootTotals, Extra, Lost;
    Accounting(n);
    forall D
      ensures Extra(n, w)(D) == Surplus(n)(D) + Lost(n, w)(D)
    {
      SurplusParts(n, w, D);
    }
    SumPlus(Comps(n), Surplus(n), Lost(n, w), Extra(n, w));
  }

  /** Time that is handed out again: D draws time, and two or more calls of weight zero enter it, and no others with a weight. */
  ghost predicate CountedAgain(n: Net, w: Weights, D: Comp) {
    D in Comps(n) && EnteredByNothing(n, w, D) && Draws(n, D)
  }

  /** Time that is lost: D is called by calls without a weight only, and D draws time. */
  ghost predicate LeftOut(n: Net, w: Weights, D: Comp) {
    D in Comps(n) && EnteredUnweighed(n, w, D) && Draws(n, D)
  }

  lemma PartsSign(n: Net, w: Weights, D: Comp)
    requires NonNegative(n)
    ensures 0.0 <= Extra(n, w)(D) && (0.0 < Extra(n, w)(D) <==> EnteredByNothing(n, w, D) && Draws(n, D))
    ensures 0.0 <= Lost(n, w)(D) && (0.0 < Lost(n, w)(D) <==> EnteredUnweighed(n, w, D) && Draws(n, D))
  {
    hide EnterTotal, Crossings, Total, Called, Crossed, Times, NonNegative, Draws;
    TotalNonNegative(n, D);
    TotalPositive(n, D);
    Sign(Crossings(n, w, D) - 1.0, Total(n, D));
  }

  lemma PartsSum(n: Net, w: Weights)
    requires NonNegative(n)
    ensures 0.0 <= Sum(Comps(n), Extra(n, w)) && (0.0 < Sum(Comps(n), Extra(n, w)) <==> exists D :: CountedAgain(n, w, D))
    ensures 0.0 <= Sum(Comps(n), Lost(n, w)) && (0.0 < Sum(Comps(n), Lost(n, w)) <==> exists D :: LeftOut(n, w, D))
  {
    hide Sum, EnteredByNothing, EnteredUnweighed, Extra, Lost, Comps, NonNegative, Draws;
    forall D
      ensures 0.0 <= Extra(n, w)(D) && (D in Comps(n) && 0.0 < Extra(n, w)(D) <==> CountedAgain(n, w, D))
      ensures 0.0 <= Lost(n, w)(D) && (D in Comps(n) && 0.0 < Lost(n, w)(D) <==> LeftOut(n, w, D))
    {
      PartsSign(n, w, D);
    }
    SumPositive(Comps(n), Extra(n, w));
    SumPositive(Comps(n), Lost(n, w));
    SumNonNegative(Comps(n), Extra(n, w));
    SumNonNegative(Comps(n), Lost(n, w));
  }

  /**
    * With weights that are not negative, where there are any, and such self times: if nothing is lost, the totals
    * nobody calls for make up at least the self time, and exactly that if and only if nothing is counted again. If
    * nothing is counted again they make up at most the self time, and exactly that if and only if nothing is lost.
    */
  lemma ConservedIff(n: Net, w: Weights)
    requires n.Sound() && Weighable(n, w) && forall f :: 0.0 <= n.Self(f)
    ensures (forall D :: !LeftOut(n, w, D)) ==>
      Sum(n.functions, Selfs(n)) <= Sum(Comps(n), RootTotals(n)) &&
      (Sum(Comps(n), RootTotals(n)) == Sum(n.functions, Selfs(n)) <==> forall D :: !CountedAgain(n, w, D))
    ensures (forall D :: !CountedAgain(n, w, D)) ==>
      Sum(Comps(n), RootTotals(n)) <= Sum(n.functions, Selfs(n)) &&
      (Sum(Comps(n), RootTotals(n)) == Sum(n.functions, Selfs(n)) <==> forall D :: !LeftOut(n, w, D))
  {
    hide Sum, Net.Sound, Weighable, CountedAgain, LeftOut, Comps, RootTotals, Extra, Lost;
    RatiosNonNegative(n, w);
    AccountingWeighed(n, w);
    PartsSum(n, w);
  }
}

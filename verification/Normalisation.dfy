/** With positive weights the call ratios hand out every total exactly once, and are never clamped. */
module Normalisation {
  import opened Paths
  import opened Seqs
  import opened Sums
  import opened Components
  import opened CallRatios

  /** Every call between two functions has a positive weight. */
  ghost predicate Positive(n: Net, w: Weights) {
    forall u, v :: Edge(n.calls, u, v) && u != v ==> (u, v) in w && 0.0 < w[(u, v)]
  }

  /** The ratios are those that call_ratios assigns. */
  ghost predicate Rated(n: Net, w: Weights) {
    && (forall u, v :: (u, v) in n.ratio <==> Edge(n.calls, u, v) && u != v)
    && (forall u, v :: (u, v) in n.ratio ==> n.ratio[(u, v)] == RatioOf(n, w, u, v))
  }

  /** No call has a negative weight, and the ratios are those assigned; calls may have no weight at all. */
  ghost predicate Weighable(n: Net, w: Weights) {
    && n.calls.Keys == SetOf(n.functions) && Closed(n.calls)
    && (forall f :: f in n.calls ==> NoDup(n.calls[f]))
    && (forall u, v :: Edge(n.calls, u, v) && u != v ==> 0.0 <= Weight(w, u, v))
    && Rated(n, w)
  }

  ghost predicate Weighed(n: Net, w: Weights) {
    && n.calls.Keys == SetOf(n.functions) && Closed(n.calls)
    && (forall f :: f in n.calls ==> NoDup(n.calls[f]))
    && Positive(n, w) && Rated(n, w)
  }

  /** For a function without a cycle, what arrives and what enters are the same. */
  lemma ArrivingIsEntering(n: Net, w: Weights, v: Id)
    requires v !in n.cycle
    ensures FunctionTotal(n, w, v) == EnterTotal(n, w, Fn(v))
  {
    forall u | u in n.functions
      ensures ArrivingFrom(n, w, v)(u) == EnteringFrom(n, w, Fn(v))(u)
    {
      SumSame(n.Out(u), Arriving(w, v, u), Entering(n, w, Fn(v), u));
    }
    SumSame(n.functions, ArrivingFrom(n, w, v), EnteringFrom(n, w, Fn(v)));
  }

  /** No call into D weighs more than all of them together. */
  lemma EnterTerm(n: Net, w: Weights, u: Id, v: Id)
    requires Weighable(n, w) && Edge(n.calls, u, v) && n.CompOf(u) != n.CompOf(v)
    ensures 0.0 <= Weight(w, u, v) <= EnterTotal(n, w, n.CompOf(v))
  {
    hide Rated, Weight;
    var D := n.CompOf(v);
    forall m
      ensures 0.0 <= EnteringFrom(n, w, D)(m)
      ensures forall x :: x in n.Out(m) ==> 0.0 <= Entering(n, w, D, m)(x)
    {
      forall x | x in n.Out(m)
        ensures 0.0 <= Entering(n, w, D, m)(x)
      {
        assert Edge(n.calls, m, x);
      }
      SumNonNegative(n.Out(m), Entering(n, w, D, m));
    }
    TermLess(n.Out(u), v, Entering(n, w, D, u));
    assert u in SetOf(n.functions);
    TermLess(n.functions, u, EnteringFrom(n, w, D));
  }

  lemma ArriveTerm(n: Net, w: Weights, u: Id, v: Id)
    requires Weighable(n, w) && Edge(n.calls, u, v) && u != v
    ensures 0.0 <= Weight(w, u, v) <= FunctionTotal(n, w, v)
  {
    hide Rated, Weight;
    forall m
      ensures 0.0 <= ArrivingFrom(n, w, v)(m)
      ensures forall x :: x in n.Out(m) ==> 0.0 <= Arriving(w, v, m)(x)
    {
      forall x | x in n.Out(m)
        ensures 0.0 <= Arriving(w, v, m)(x)
      {
        assert Edge(n.calls, m, x);
      }
      SumNonNegative(n.Out(m), Arriving(w, v, m));
    }
    TermLess(n.Out(u), v, Arriving(w, v, u));
    assert u in SetOf(n.functions);
    TermLess(n.functions, u, ArrivingFrom(n, w, v));
  }

  lemma WeighedWeighable(n: Net, w: Weights)
    requires Weighed(n, w)
    ensures Weighable(n, w)
    ensures forall u, v :: Edge(n.calls, u, v) && u != v ==> (u, v) in w && 0.0 < Weight(w, u, v)
  {
    hide Rated;
  }

  lemma EnterPositive(n: Net, w: Weights, u: Id, v: Id)
    requires Weighed(n, w) && Edge(n.calls, u, v) && n.CompOf(u) != n.CompOf(v)
    ensures 0.0 < Weight(w, u, v) <= EnterTotal(n, w, n.CompOf(v)) && (u, v) in w
  {
    hide Weighed, Weighable, EnterTotal, Weight;
    WeighedWeighable(n, w);
    EnterTerm(n, w, u, v);
  }

  lemma ArrivePositive(n: Net, w: Weights, u: Id, v: Id)
    requires Weighed(n, w) && Edge(n.calls, u, v) && u != v
    ensures 0.0 < Weight(w, u, v) <= FunctionTotal(n, w, v) && (u, v) in w
  {
    hide Weighed, Weighable, FunctionTotal, Weight;
    WeighedWeighable(n, w);
    ArriveTerm(n, w, u, v);
  }

  lemma Quotient(a: real, b: real)
    requires 0.0 < a <= b
    ensures 0.0 < a / b <= 1.0 && Ratio(a, b) == a / b
  {
  }

  /** The ratio of a call between components is its exact part of all the weight entering the callee's. */
  lemma RatioAcross(n: Net, w: Weights, u: Id, v: Id)
    requires Weighed(n, w) && Edge(n.calls, u, v) && n.CompOf(u) != n.CompOf(v)
    ensures 0.0 < Weight(w, u, v) <= EnterTotal(n, w, n.CompOf(v))
    ensures n.Ratio(u, v) == Weight(w, u, v) / EnterTotal(n, w, n.CompOf(v))
    ensures 0.0 < n.Ratio(u, v) <= 1.0
  {
    EnterPositive(n, w, u, v);
    Quotient(Weight(w, u, v), EnterTotal(n, w, n.CompOf(v)));
    if v !in n.cycle {
      ArrivingIsEntering(n, w, v);
    }
  }

  /** The ratio of a call inside a cycle is its exact part of all the weight arriving at the callee. */
  lemma RatioInside(n: Net, w: Weights, u: Id, v: Id)
    requires Weighed(n, w) && Edge(n.calls, u, v) && u != v && n.CompOf(u) == n.CompOf(v)
    ensures 0.0 < Weight(w, u, v) <= FunctionTotal(n, w, v)
    ensures n.Ratio(u, v) == Weight(w, u, v) / FunctionTotal(n, w, v)
    ensures 0.0 < n.Ratio(u, v) <= 1.0
  {
    ArrivePositive(n, w, u, v);
    Quotient(Weight(w, u, v), FunctionTotal(n, w, v));
  }

  lemma RatioPositive(n: Net, w: Weights, u: Id, v: Id)
    requires Weighed(n, w)
    ensures 0.0 <= n.Ratio(u, v) <= 1.0
    ensures Edge(n.calls, u, v) && u != v ==> 0.0 < n.Ratio(u, v)
  {
    if (u, v) in n.ratio {
      if n.CompOf(u) == n.CompOf(v) {
        RatioInside(n, w, u, v);
      } else {
        RatioAcross(n, w, u, v);
      }
    }
  }

  lemma Divided(a: real, t: real)
    requires t != 0.0
    ensures a / t == Times(a, 1.0 / t)
  {
  }

  /** What m's calls take of D is the weight they bring, divided by all that enters D. */
  lemma ShareIs(n: Net, w: Weights, D: Comp, m: Id)
    requires Weighed(n, w) && EnterTotal(n, w, D) != 0.0
    ensures Share(n, D)(m) == Times(EnteringFrom(n, w, D)(m), 1.0 / EnterTotal(n, w, D))
  {
    var t := EnterTotal(n, w, D);
    forall v | v in n.Out(m)
      ensures AtKey(Key(n), Across(n, m), D)(v) == Times(Entering(n, w, D, m)(v), 1.0 / t)
    {
      assert Edge(n.calls, m, v);
      if n.CompOf(v) == D && n.CompOf(m) != D {
        RatioAcross(n, w, m, v);
        Divided(Weight(w, m, v), t);
      } else {
        TimesZero(1.0 / t);
      }
    }
    hide Sum, Times, EnterTotal, Weighed;
    SumTimes(n.Out(m), 1.0 / t, Entering(n, w, D, m), AtKey(Key(n), Across(n, m), D));
  }

  lemma IntoCalled(n: Net, w: Weights, D: Comp)
    requires Weighed(n, w) && Called(n, D)
    ensures Into(n, D) == 1.0
  {
    var u, v :| Edge(n.calls, u, v) && n.CompOf(v) == D && n.CompOf(u) != D;
    EnterPositive(n, w, u, v);
    var t := EnterTotal(n, w, D);
    Inverse(t);
    var k := 1.0 / t;
    hide Weighed, Sum, Times, Share, EnteringFrom, Weight, Called;
    forall m
      ensures Share(n, D)(m) == Times(EnteringFrom(n, w, D)(m), k)
    {
      ShareIs(n, w, D, m);
    }
    SumTimes(n.functions, k, EnteringFrom(n, w, D), Share(n, D));
  }

  lemma IntoUncalled(n: Net, D: Comp)
    requires !Called(n, D)
    ensures Into(n, D) == 0.0
  {
    forall m | m in n.functions
      ensures Share(n, D)(m) == 0.0
    {
      forall v | v in n.Out(m)
        ensures AtKey(Key(n), Across(n, m), D)(v) == 0.0
      {
        assert Edge(n.calls, m, v);
      }
      SumZero(n.Out(m), AtKey(Key(n), Across(n, m), D));
    }
    SumZero(n.functions, Share(n, D));
  }

  /** The ratios of outside calls into a called component add up to one. */
  lemma RatiosNormalised(n: Net, w: Weights)
    requires Weighed(n, w)
    ensures Normalised(n)
  {
    forall u, v
      ensures 0.0 <= n.Ratio(u, v)
    {
      RatioPositive(n, w, u, v);
    }
    forall D
      ensures Into(n, D) == if Called(n, D) then 1.0 else 0.0
    {
      if Called(n, D) {
        IntoCalled(n, w, D);
      } else {
        IntoUncalled(n, D);
      }
    }
  }

  /** The ratio of u's call to v, if u is another member of v's component. */
  ghost function Inside(n: Net, v: Id): Id -> real {
    u => if v in n.Out(u) && u != v && n.CompOf(u) == n.CompOf(v) then n.Ratio(u, v) else 0.0
  }

  /** The ratios of the calls inside a cycle into one member add up to at most one. */
  lemma InsideAtMostOne(n: Net, w: Weights, v: Id)
    requires Weighed(n, w) && NoDup(n.functions)
    ensures Sum(n.functions, Inside(n, v)) <= 1.0
  {
    var t := FunctionTotal(n, w, v);
    hide Weighed, Sum, Times, Inside, ArrivingFrom;
    forall u | u in n.functions
      ensures t != 0.0 ==> Inside(n, v)(u) <= Times(ArrivingFrom(n, w, v)(u), 1.0 / t)
      ensures t == 0.0 ==> Inside(n, v)(u) == 0.0
    {
      InsideTerm(n, w, v, u);
    }
    if t == 0.0 {
      SumZero(n.functions, Inside(n, v));
    } else {
      Inverse(t);
      var k := 1.0 / t;
      var scaled := u => Times(ArrivingFrom(n, w, v)(u), k);
      SumTimes(n.functions, k, ArrivingFrom(n, w, v), scaled);
      SumLess(n.functions, Inside(n, v), scaled);
    }
  }

  lemma InsideTerm(n: Net, w: Weights, v: Id, u: Id)
    requires Weighed(n, w) && u in n.functions
    ensures var t := FunctionTotal(n, w, v);
            && (t != 0.0 ==> Inside(n, v)(u) <= Times(ArrivingFrom(n, w, v)(u), 1.0 / t))
            && (t == 0.0 ==> Inside(n, v)(u) == 0.0)
  {
    var t := FunctionTotal(n, w, v);
    assert u in SetOf(n.functions);
    if v in n.Out(u) && u != v {
      ArrivePositive(n, w, u, v);
      SumPoint(n.Out(u), v, Arriving(w, v, u));
      Quotient(Weight(w, u, v), t);
      Divided(Weight(w, u, v), t);
      if n.CompOf(u) == n.CompOf(v) {
        RatioInside(n, w, u, v);
      }
    } else {
      SumZero(n.Out(u), Arriving(w, v, u));
      if t != 0.0 {
        TimesZero(1.0 / t);
      }
    }
  }
}

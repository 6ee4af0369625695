/** Profile.call_ratios: each call gets the part of its callee's incoming weight that it brings. */
module CallRatios {
  import opened Paths
  import opened Seqs
  import opened Sums
  import opened Components
  import opened Profiles

  type Weights = map<(Id, Id), real>

  /** The source's ratio: a zero denominator gives one, and the quotient is kept between zero and one. */
  function Ratio(numerator: real, denominator: real): real {
    if denominator == 0.0 then 1.0
    else
      var r := numerator / denominator;
      if r < 0.0 then 0.0 else if r > 1.0 then 1.0 else r
  }

  /** A part of a whole that is not negative is never cut off, and all of it when the whole is nothing. */
  lemma PartOrOne(a: real, t: real)
    requires 0.0 <= a <= t
    ensures Ratio(a, t) == if t == 0.0 then 1.0 else Times(a, 1.0 / t)
    ensures 0.0 < a ==> 0.0 < Ratio(a, t)
  {
    if t != 0.0 {
      assert 0.0 <= a / t <= 1.0;
    }
  }

  function Weight(w: Weights, u: Id, v: Id): real {
    if (u, v) in w then w[(u, v)] else 0.0
  }

  /** The weight of u's calls to v, unless u is v. */
  ghost function Arriving(w: Weights, v: Id, u: Id): Id -> real {
    x => if x == v && u != v then Weight(w, u, x) else 0.0
  }

  ghost function ArrivingFrom(n: Net, w: Weights, v: Id): Id -> real {
    u => Sum(n.Out(u), Arriving(w, v, u))
  }

  /** The weight of all calls to v from other functions. */
  ghost function FunctionTotal(n: Net, w: Weights, v: Id): real {
    Sum(n.functions, ArrivingFrom(n, w, v))
  }

  /** The weight of u's calls into D, unless u is in D. */
  ghost function Entering(n: Net, w: Weights, D: Comp, u: Id): Id -> real {
    x => if n.CompOf(x) == D && n.CompOf(u) != D then Weight(w, u, x) else 0.0
  }

  ghost function EnteringFrom(n: Net, w: Weights, D: Comp): Id -> real {
    u => Sum(n.Out(u), Entering(n, w, D, u))
  }

  /** The weight of all calls into D from outside. */
  ghost function EnterTotal(n: Net, w: Weights, D: Comp): real {
    Sum(n.functions, EnteringFrom(n, w, D))
  }

  /** Calls into a cycle are scaled by the cycle's total, all others by the callee's. */
  ghost function RatioOf(n: Net, w: Weights, u: Id, v: Id): real {
    if (u, v) !in w then 0.0
    else if v in n.cycle && n.CompOf(u) != n.CompOf(v) then Ratio(w[(u, v)], EnterTotal(n, w, n.CompOf(v)))
    else Ratio(w[(u, v)], FunctionTotal(n, w, v))
  }

  /** The ratios do not depend on ratios already assigned. */
  lemma RatioOfSame(n: Net, n': Net, w: Weights, u: Id, v: Id)
    requires n.functions == n'.functions && n.calls == n'.calls && n.cycle == n'.cycle
    ensures RatioOf(n, w, u, v) == RatioOf(n', w, u, v)
  {
    var D := n.CompOf(v);
    forall m | m in n.functions
      ensures ArrivingFrom(n, w, v)(m) == ArrivingFrom(n', w, v)(m)
      ensures EnteringFrom(n, w, D)(m) == EnteringFrom(n', w, D)(m)
    {
      SumSame(n.Out(m), Entering(n, w, D, m), Entering(n', w, D, m));
    }
    SumSame(n.functions, ArrivingFrom(n, w, v), ArrivingFrom(n', w, v));
    SumSame(n.functions, EnteringFrom(n, w, D), EnteringFrom(n', w, D));
  }

  /** The weight of u's call to v, if u is another function and calls v. */
  ghost function Bringing(n: Net, w: Weights, v: Id): Id -> real {
    u => if u != v && v in n.Out(u) then Weight(w, u, v) else 0.0
  }

  lemma FunctionTotalIs(n: Net, w: Weights, v: Id)
    requires forall f :: f in n.functions ==> NoDup(n.Out(f))
    ensures FunctionTotal(n, w, v) == Sum(n.functions, Bringing(n, w, v))
  {
    forall u | u in n.functions
      ensures ArrivingFrom(n, w, v)(u) == Bringing(n, w, v)(u)
    {
      if v in n.Out(u) {
        SumPoint(n.Out(u), v, Arriving(w, v, u));
      } else {
        SumZero(n.Out(u), Arriving(w, v, u));
      }
    }
    SumSame(n.functions, ArrivingFrom(n, w, v), Bringing(n, w, v));
  }

  /**
    * What a call's ratio is, whatever the weights: nothing without a weight; else its part of the weight of all calls of
    * its callee by others or, from outside into a cycle, of all calls into that, kept between zero and one; and one
    * where that whole is nothing.
    */
  lemma RatioMeans(n: Net, w: Weights, u: Id, v: Id)
    requires forall f :: f in n.functions ==> NoDup(n.Out(f))
    ensures (u, v) !in w ==> RatioOf(n, w, u, v) == 0.0
    ensures
      var whole :=
        if v in n.cycle && !(u in n.cycle && n.cycle[u] == n.cycle[v]) then EnterTotal(n, w, Cyc(n.cycle[v]))
        else Sum(n.functions, Bringing(n, w, v));
      (u, v) in w ==> (
        if whole == 0.0 then RatioOf(n, w, u, v) == 1.0
        else if w[(u, v)] / whole < 0.0 then RatioOf(n, w, u, v) == 0.0
        else if w[(u, v)] / whole > 1.0 then RatioOf(n, w, u, v) == 1.0
        else RatioOf(n, w, u, v) * whole == w[(u, v)])
  {
    hide FunctionTotal, EnterTotal;
    FunctionTotalIs(n, w, v);
  }

  lemma RatioRange(n: Net, w: Weights, u: Id, v: Id)
    ensures 0.0 <= RatioOf(n, w, u, v) <= 1.0
  {
  }

  ghost function NetOf(p: Profile): Net
    reads p`functions, p`calls, p`cycle, p`callRatio, p`selfTime
  {
    Net(p.functions, p.calls, p.cycle, p.callRatio, p.selfTime)
  }

  /** The weight arriving at v from the first i functions and the first j calls of f. */
  ghost function WeightArrived(n: Net, w: Weights, i: nat, f: Id, j: nat, v: Id): real
    requires i <= |n.functions| && j <= |n.Out(f)|
  {
    Sum(n.functions[..i], ArrivingFrom(n, w, v)) + Sum(n.Out(f)[..j], Arriving(w, v, f))
  }

  ghost function WeightEntered(n: Net, w: Weights, i: nat, f: Id, j: nat, D: Comp): real
    requires i <= |n.functions| && j <= |n.Out(f)|
  {
    Sum(n.functions[..i], EnteringFrom(n, w, D)) + Sum(n.Out(f)[..j], Entering(n, w, D, f))
  }

  ghost predicate Counted(n: Net, w: Weights, i: nat, f: Id, j: nat, functionTotals: map<Id, real>, cycleTotals: map<nat, real>)
    requires i <= |n.functions| && j <= |n.Out(f)|
  {
    && (forall v :: v in functionTotals ==> functionTotals[v] == WeightArrived(n, w, i, f, j, v))
    && (forall c :: c in cycleTotals ==> cycleTotals[c] == WeightEntered(n, w, i, f, j, Cyc(c)))
  }

  lemma CallStep(n: Net, w: Weights, i: nat, f: Id, j: nat, v: Id, D: Comp)
    requires i <= |n.functions| && j < |n.Out(f)|
    ensures WeightArrived(n, w, i, f, j + 1, v) == WeightArrived(n, w, i, f, j, v) + Arriving(w, v, f)(n.Out(f)[j])
    ensures WeightEntered(n, w, i, f, j + 1, D) == WeightEntered(n, w, i, f, j, D) + Entering(n, w, D, f)(n.Out(f)[j])
  {
    SumStep(n.Out(f), j, Arriving(w, v, f));
    SumStep(n.Out(f), j, Entering(n, w, D, f));
  }

  lemma FunctionStep(n: Net, w: Weights, i: nat, g: Id, v: Id, D: Comp)
    requires i < |n.functions|
    ensures var f := n.functions[i]; WeightArrived(n, w, i + 1, g, 0, v) == WeightArrived(n, w, i, f, |n.Out(f)|, v)
    ensures var f := n.functions[i]; WeightEntered(n, w, i + 1, g, 0, D) == WeightEntered(n, w, i, f, |n.Out(f)|, D)
  {
    var f := n.functions[i];
    assert n.Out(f)[..|n.Out(f)|] == n.Out(f);
    SumStep(n.functions, i, ArrivingFrom(n, w, v));
    SumStep(n.functions, i, EnteringFrom(n, w, D));
  }

  /** Counting one more call. */
  lemma CountCall(n: Net, w: Weights, i: nat, f: Id, j: nat, functionTotals: map<Id, real>, cycleTotals: map<nat, real>,
                  functionTotals': map<Id, real>, cycleTotals': map<nat, real>)
    requires i <= |n.functions| && j < |n.Out(f)|
    requires Counted(n, w, i, f, j, functionTotals, cycleTotals)
    requires var v := n.Out(f)[j];
             && v in functionTotals && (v in n.cycle ==> n.cycle[v] in cycleTotals)
             && functionTotals' == (if v != f && (f, v) in w then functionTotals[v := functionTotals[v] + w[(f, v)]]
                                    else functionTotals)
             && cycleTotals' == (if v != f && (f, v) in w && v in n.cycle && n.CompOf(f) != n.CompOf(v) then
                                   cycleTotals[n.cycle[v] := cycleTotals[n.cycle[v]] + w[(f, v)]]
                                 else cycleTotals)
    ensures Counted(n, w, i, f, j + 1, functionTotals', cycleTotals')
  {
    hide Sum, WeightArrived, WeightEntered;
    forall v | v in functionTotals'
      ensures functionTotals'[v] == WeightArrived(n, w, i, f, j + 1, v)
    {
      CallStep(n, w, i, f, j, v, Cyc(0));
    }
    forall c | c in cycleTotals'
      ensures cycleTotals'[c] == WeightEntered(n, w, i, f, j + 1, Cyc(c))
    {
      CallStep(n, w, i, f, j, f, Cyc(c));
    }
  }

  /** Going on to the next function. */
  lemma CountFunction(n: Net, w: Weights, i: nat, g: Id, functionTotals: map<Id, real>, cycleTotals: map<nat, real>)
    requires i < |n.functions|
    requires var f := n.functions[i]; Counted(n, w, i, f, |n.Out(f)|, functionTotals, cycleTotals)
    ensures Counted(n, w, i + 1, g, 0, functionTotals, cycleTotals)
  {
    hide Sum, WeightArrived, WeightEntered;
    forall v | v in functionTotals
      ensures functionTotals[v] == WeightArrived(n, w, i + 1, g, 0, v)
    {
      FunctionStep(n, w, i, g, v, Cyc(0));
    }
    forall c | c in cycleTotals
      ensures cycleTotals[c] == WeightEntered(n, w, i + 1, g, 0, Cyc(c))
    {
      FunctionStep(n, w, i, g, g, Cyc(c));
    }
  }

  lemma CountStart(n: Net, w: Weights, g: Id, functionTotals: map<Id, real>, cycleTotals: map<nat, real>)
    requires forall v :: v in functionTotals ==> functionTotals[v] == 0.0
    requires forall c :: c in cycleTotals ==> cycleTotals[c] == 0.0
    ensures Counted(n, w, 0, g, 0, functionTotals, cycleTotals)
  {
  }

  lemma CountSame(n: Net, w: Weights, i: nat, g: Id, f: Id, functionTotals: map<Id, real>, cycleTotals: map<nat, real>)
    requires i <= |n.functions| && Counted(n, w, i, g, 0, functionTotals, cycleTotals)
    ensures Counted(n, w, i, f, 0, functionTotals, cycleTotals)
  {
  }

  lemma CountEnd(n: Net, w: Weights, g: Id, functionTotals: map<Id, real>, cycleTotals: map<nat, real>)
    requires Counted(n, w, |n.functions|, g, 0, functionTotals, cycleTotals)
    ensures forall v :: v in functionTotals ==> functionTotals[v] == FunctionTotal(n, w, v)
    ensures forall c :: c in cycleTotals ==> cycleTotals[c] == EnterTotal(n, w, Cyc(c))
  {
    assert n.functions[..|n.functions|] == n.functions;
  }

  /** The calls of f, added to the totals of their callees and of the cycles they enter. */
  method AggregateCalls(ghost n: Net, w: Weights, ghost i: nat, f: Id, callees: seq<Id>, cycle: map<Id, nat>,
                        functionTotals0: map<Id, real>, cycleTotals0: map<nat, real>)
    returns (functionTotals: map<Id, real>, cycleTotals: map<nat, real>)
    requires i <= |n.functions| && callees == n.Out(f) && cycle == n.cycle
    requires forall v :: v in callees ==> v in functionTotals0 && (v in cycle ==> cycle[v] in cycleTotals0)
    requires Counted(n, w, i, f, 0, functionTotals0, cycleTotals0)
    ensures functionTotals.Keys == functionTotals0.Keys && cycleTotals.Keys == cycleTotals0.Keys
    ensures Counted(n, w, i, f, |callees|, functionTotals, cycleTotals)
  {
    functionTotals, cycleTotals := functionTotals0, cycleTotals0;
    hide Counted;
    for j := 0 to |callees|
      invariant functionTotals.Keys == functionTotals0.Keys && cycleTotals.Keys == cycleTotals0.Keys
      invariant Counted(n, w, i, f, j, functionTotals, cycleTotals)
    {
      var v := callees[j];
      ghost var functionTotals1, cycleTotals1 := functionTotals, cycleTotals;
      if v != f && (f, v) in w {
        functionTotals := functionTotals[v := functionTotals[v] + w[(f, v)]];
        if v in cycle && !(f in cycle && cycle[f] == cycle[v]) {
          cycleTotals := cycleTotals[cycle[v] := cycleTotals[cycle[v]] + w[(f, v)]];
        }
      }
      CountCall(n, w, i, f, j, functionTotals1, cycleTotals1, functionTotals, cycleTotals);
    }
  }

  /** Calls lead to functions, and cycles are on the profile's list. */
  ghost predicate Known(n: Net, cycles: seq<nat>) {
    && n.calls.Keys == SetOf(n.functions)
    && (forall f, v :: Edge(n.calls, f, v) ==> v in n.functions && (v in n.cycle ==> n.cycle[v] in cycles))
  }

  lemma ShapedKnown(n: Net, cycles: seq<nat>)
    requires n.calls.Keys == SetOf(n.functions) && Closed(n.calls) && n.cycle.Values <= SetOf(cycles)
    ensures Known(n, cycles)
  {
    forall f, v | Edge(n.calls, f, v)
      ensures v in n.functions && (v in n.cycle ==> n.cycle[v] in cycles)
    {
      assert v in SetOf(n.functions);
      assert v in n.cycle ==> n.cycle[v] in n.cycle.Values;
    }
  }

  lemma KnownCallees(n: Net, cycles: seq<nat>, f: Id)
    requires Known(n, cycles) && f in n.functions
    ensures f in n.calls && n.Out(f) == n.calls[f]
    ensures forall v :: v in n.Out(f) ==> v in SetOf(n.functions) && (v in n.cycle ==> n.cycle[v] in SetOf(cycles))
  {
    assert f in SetOf(n.functions);
    assert forall v :: v in n.Out(f) ==> Edge(n.calls, f, v);
  }

  /** Pass 1: the weight arriving at every function and entering every cycle. */
  method Aggregate(n: Net, w: Weights, cycles: seq<nat>) returns (functionTotals: map<Id, real>, cycleTotals: map<nat, real>)
    requires Known(n, cycles)
    ensures functionTotals.Keys == SetOf(n.functions)
    ensures forall v :: v in functionTotals ==> functionTotals[v] == FunctionTotal(n, w, v)
    ensures cycleTotals.Keys == SetOf(cycles)
    ensures forall c :: c in cycleTotals ==> cycleTotals[c] == EnterTotal(n, w, Cyc(c))
  {
    hide Counted, FunctionTotal, EnterTotal, Known;
    cycleTotals := map c | c in cycles :: 0.0;
    functionTotals := map f | f in n.functions :: 0.0;
    ghost var none := Id("");
    CountStart(n, w, none, functionTotals, cycleTotals);
    for i := 0 to |n.functions|
      invariant functionTotals.Keys == SetOf(n.functions) && cycleTotals.Keys == SetOf(cycles)
      invariant Counted(n, w, i, none, 0, functionTotals, cycleTotals)
    {
      var f := n.functions[i];
      KnownCallees(n, cycles, f);
      CountSame(n, w, i, none, f, functionTotals, cycleTotals);
      functionTotals, cycleTotals := AggregateCalls(n, w, i, f, n.calls[f], n.cycle, functionTotals, cycleTotals);
      CountFunction(n, w, i, none, functionTotals, cycleTotals);
    }
    CountEnd(n, w, none, functionTotals, cycleTotals);
  }

  /** The first i functions and the first j calls of f have their ratios. */
  ghost predicate Assigned(n: Net, w: Weights, i: nat, f: Id, j: nat, ratio: map<(Id, Id), real>)
    requires i <= |n.functions| && j <= |n.Out(f)|
  {
    && (forall u, v :: (u, v) in ratio <==>
          Edge(n.calls, u, v) && u != v && (u in n.functions[..i] || (u == f && v in n.Out(f)[..j])))
    && (forall u, v :: (u, v) in ratio ==> ratio[(u, v)] == RatioOf(n, w, u, v))
  }

  lemma AssignCall(n: Net, w: Weights, i: nat, f: Id, j: nat, ratio: map<(Id, Id), real>, ratio': map<(Id, Id), real>)
    requires i <= |n.functions| && j < |n.Out(f)| && Assigned(n, w, i, f, j, ratio)
    requires var v := n.Out(f)[j]; ratio' == if v != f then ratio[(f, v) := RatioOf(n, w, f, v)] else ratio
    ensures Assigned(n, w, i, f, j + 1, ratio')
  {
    hide RatioOf;
    assert n.Out(f)[..j + 1] == n.Out(f)[..j] + [n.Out(f)[j]];
  }

  lemma AssignFunction(n: Net, w: Weights, i: nat, g: Id, ratio: map<(Id, Id), real>)
    requires i < |n.functions| && var f := n.functions[i]; Assigned(n, w, i, f, |n.Out(f)|, ratio)
    ensures Assigned(n, w, i + 1, g, 0, ratio)
  {
    hide RatioOf;
    var f := n.functions[i];
    assert n.functions[..i + 1] == n.functions[..i] + [f];
    assert n.Out(f)[..|n.Out(f)|] == n.Out(f);
  }

  lemma AssignSame(n: Net, w: Weights, i: nat, g: Id, f: Id, ratio: map<(Id, Id), real>)
    requires i <= |n.functions| && Assigned(n, w, i, g, 0, ratio)
    ensures Assigned(n, w, i, f, 0, ratio)
  {
    hide RatioOf;
  }

  lemma AssignStart(n: Net, w: Weights, g: Id)
    ensures Assigned(n, w, 0, g, 0, map[])
  {
  }

  lemma AssignEnd(n: Net, w: Weights, cycles: seq<nat>, g: Id, ratio: map<(Id, Id), real>)
    requires Known(n, cycles) && Assigned(n, w, |n.functions|, g, 0, ratio)
    ensures forall u, v :: (u, v) in ratio <==> Edge(n.calls, u, v) && u != v
    ensures forall u, v :: (u, v) in ratio ==> ratio[(u, v)] == RatioOf(n, w, u, v)
  {
    hide RatioOf;
    assert n.functions[..|n.functions|] == n.functions;
  }

  method AssignCalls(ghost n: Net, w: Weights, ghost i: nat, f: Id, callees: seq<Id>, cycle: map<Id, nat>,
                     functionTotals: map<Id, real>, cycleTotals: map<nat, real>, ratio0: map<(Id, Id), real>)
    returns (ratio: map<(Id, Id), real>)
    requires i <= |n.functions| && callees == n.Out(f) && cycle == n.cycle
    requires forall v :: v in callees ==> v in functionTotals && (v in cycle ==> cycle[v] in cycleTotals)
    requires forall v :: v in functionTotals ==> functionTotals[v] == FunctionTotal(n, w, v)
    requires forall c :: c in cycleTotals ==> cycleTotals[c] == EnterTotal(n, w, Cyc(c))
    requires Assigned(n, w, i, f, 0, ratio0)
    ensures Assigned(n, w, i, f, |callees|, ratio)
  {
    ratio := ratio0;
    hide Assigned, FunctionTotal, EnterTotal;
    for j := 0 to |callees|
      invariant Assigned(n, w, i, f, j, ratio)
    {
      var v := callees[j];
      ghost var ratio1 := ratio;
      if v != f {
        if (f, v) in w {
          var total := functionTotals[v];
          if v in cycle && !(f in cycle && cycle[f] == cycle[v]) {
            total := cycleTotals[cycle[v]];
          }
          ratio := ratio[(f, v) := Ratio(w[(f, v)], total)];
        } else {
          ratio := ratio[(f, v) := 0.0];
        }
      }
      AssignCall(n, w, i, f, j, ratio1, ratio);
    }
  }

  /** Pass 2: the ratio of every call but a self-call. */
  method Assign(n: Net, w: Weights, cycles: seq<nat>, functionTotals: map<Id, real>, cycleTotals: map<nat, real>)
    returns (ratio: map<(Id, Id), real>)
    requires Known(n, cycles)
    requires functionTotals.Keys == SetOf(n.functions) && cycleTotals.Keys == SetOf(cycles)
    requires forall v :: v in functionTotals ==> functionTotals[v] == FunctionTotal(n, w, v)
    requires forall c :: c in cycleTotals ==> cycleTotals[c] == EnterTotal(n, w, Cyc(c))
    ensures forall u, v :: (u, v) in ratio <==> Edge(n.calls, u, v) && u != v
    ensures forall u, v :: (u, v) in ratio ==> ratio[(u, v)] == RatioOf(n, w, u, v)
  {
    hide Assigned, FunctionTotal, EnterTotal, Known, RatioOf;
    ratio := map[];
    ghost var none := Id("");
    AssignStart(n, w, none);
    for i := 0 to |n.functions|
      invariant Assigned(n, w, i, none, 0, ratio)
    {
      var f := n.functions[i];
      KnownCallees(n, cycles, f);
      AssignSame(n, w, i, none, f, ratio);
      ratio := AssignCalls(n, w, i, f, n.calls[f], n.cycle, functionTotals, cycleTotals, ratio);
      AssignFunction(n, w, i, none, ratio);
    }
    AssignEnd(n, w, cycles, none, ratio);
  }

  /** Every call but a self-call gets its ratio. */
  method CallRatios(p: Profile)
    requires p.Shaped() && Closed(p.calls) && p.cycle.Values <= SetOf(p.cycles) && p.callRatio == map[]
    modifies p`callRatio
    ensures forall u, v :: (u, v) in p.callRatio <==> Edge(p.calls, u, v) && u != v
    ensures forall u, v :: (u, v) in p.callRatio ==> p.callRatio[(u, v)] == RatioOf(old(NetOf(p)), p.callWeight, u, v)
  {
    var n := Net(p.functions, p.calls, p.cycle, p.callRatio, p.selfTime);
    ShapedKnown(n, p.cycles);
    hide FunctionTotal, EnterTotal, RatioOf, Known;
    var functionTotals, cycleTotals := Aggregate(n, p.callWeight, p.cycles);
    p.callRatio := Assign(n, p.callWeight, p.cycles, functionTotals, cycleTotals);
  }
}

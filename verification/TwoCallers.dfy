/** Inputs on which the callers of a function together get more time than there is, and less. */
module TwoCallers {
  import opened Paths
  import opened Seqs
  import opened Sums
  import opened Components
  import opened Supply
  import opened CallRatios
  import opened Normalisation
  import opened ZeroWeights

  const FIRST := Id("first")
  const SECOND := Id("second")
  const CALLEE := Id("callee")

  /** Two functions call a third, which has all the time, and both calls have this ratio. */
  ghost function Pair(r: real): Net {
    Net([FIRST, SECOND, CALLEE], map[FIRST := [CALLEE], SECOND := [CALLEE], CALLEE := []], map[],
        map[(FIRST, CALLEE) := r, (SECOND, CALLEE) := r], map[FIRST := 0.0, SECOND := 0.0, CALLEE := 1.0])
  }

  /** Both calls weigh nothing. */
  ghost function ZeroEach(): Weights {
    map[(FIRST, CALLEE) := 0.0, (SECOND, CALLEE) := 0.0]
  }

  ghost predicate NothingWeighs(w: Weights) {
    forall a :: a in w ==> w[a] == 0.0
  }

  lemma PairGraph(r: real)
    ensures
      var n := Pair(r);
      NoDup(n.functions) && n.calls.Keys == SetOf(n.functions) == {FIRST, SECOND, CALLEE} && Closed(n.calls) &&
      n.cycle == map[] && forall f :: f in n.calls ==> NoDup(n.calls[f])
  {
    assert SetOf(Pair(r).functions) == {FIRST, SECOND, CALLEE};
  }

  lemma PairEdges(r: real, u: Id, v: Id)
    ensures Edge(Pair(r).calls, u, v) <==> (u == FIRST || u == SECOND) && v == CALLEE
    ensures Edge(Pair(r).calls, u, v) ==> (u, v) in Pair(r).ratio && Pair(r).ratio[(u, v)] == r
    ensures (u, v) in Pair(r).ratio ==> Edge(Pair(r).calls, u, v)
  {
  }

  lemma PairSelf(r: real)
    ensures
      var n := Pair(r);
      n.functions == [FIRST, SECOND, CALLEE] && n.Self(FIRST) == 0.0 && n.Self(SECOND) == 0.0 && n.Self(CALLEE) == 1.0 &&
      (forall f :: 0.0 <= n.Self(f)) && n.Out(FIRST) == [CALLEE] && n.Out(SECOND) == [CALLEE] && n.Out(CALLEE) == []
  {
  }

  lemma NoWayBack(r: real, x: Id, z: Id)
    requires x != z && z != CALLEE
    ensures !Reach(Pair(r).calls, x, z)
  {
    hide Reach, Pair;
    if Reach(Pair(r).calls, x, z) {
      forall u, v | Edge(Pair(r).calls, u, v)
        ensures v == CALLEE
      {
        PairEdges(r, u, v);
      }
      ReachClosed(Pair(r).calls, {x, CALLEE}, x, z);
    }
  }

  lemma PairSound(r: real)
    ensures Pair(r).Sound()
  {
    hide Reach, Pair;
    PairGraph(r);
    var n := Pair(r);
    forall x, z | x in n.calls && z in n.calls && x != z
      ensures !Mutual(n.calls, x, z)
    {
      if z != CALLEE {
        NoWayBack(r, x, z);
      } else {
        NoWayBack(r, z, x);
      }
    }
  }

  lemma NothingArrives(r: real, w: Weights)
    requires NothingWeighs(w)
    ensures FunctionTotal(Pair(r), w, CALLEE) == 0.0 && EnterTotal(Pair(r), w, Fn(CALLEE)) == 0.0
  {
    hide Pair;
    var n := Pair(r);
    forall m
      ensures ArrivingFrom(n, w, CALLEE)(m) == 0.0
    {
      SumZero(n.Out(m), Arriving(w, CALLEE, m));
    }
    SumZero(n.functions, ArrivingFrom(n, w, CALLEE));
    PairGraph(r);
    ArrivingIsEntering(n, w, CALLEE);
  }

  /** The ratios of the code: one for calls of weight zero, none for calls without a weight. */
  lemma PairWeighable(r: real, w: Weights)
    requires (w == ZeroEach() && r == 1.0) || (w == map[] && r == 0.0)
    ensures Weighable(Pair(r), w)
  {
    hide Pair, FunctionTotal, EnterTotal, NoDup, Closed;
    PairGraph(r);
    NothingArrives(r, w);
    forall u, v
      ensures Edge(Pair(r).calls, u, v) ==> v == CALLEE && RatioOf(Pair(r), w, u, v) == r && (u, v) in Pair(r).ratio
      ensures Edge(Pair(r).calls, u, v) ==> Pair(r).ratio[(u, v)] == r && u != v
      ensures (u, v) in Pair(r).ratio ==> Edge(Pair(r).calls, u, v)
    {
      PairEdges(r, u, v);
    }
  }

  lemma ZeroEachCrossings()
    ensures Crossings(Pair(1.0), ZeroEach(), Fn(CALLEE)) == 2.0
  {
    var n, w, D := Pair(1.0), ZeroEach(), Fn(CALLEE);
    SumOne(CALLEE, Crossing(n, w, D, FIRST));
    SumOne(CALLEE, Crossing(n, w, D, SECOND));
    SumThree(FIRST, SECOND, CALLEE, CrossingsFrom(n, w, D));
  }

  lemma CalleeDraws(r: real)
    ensures Called(Pair(r), Fn(CALLEE)) && Draws(Pair(r), Fn(CALLEE)) && Fn(CALLEE) in Comps(Pair(r))
  {
    hide Pair, Supplied, Net.Sound;
    var n := Pair(r);
    PairGraph(r);
    PairSelf(r);
    PairSound(r);
    PairEdges(r, FIRST, CALLEE);
    SuppliedIs(n, CALLEE);
    CompIn(n, CALLEE);
    assert n.CompOf(FIRST) != Fn(CALLEE);
  }

  lemma PairTime(r: real)
    ensures Sum(Pair(r).functions, Selfs(Pair(r))) == 1.0
  {
    hide Pair, Sum;
    PairSelf(r);
    SumThree(FIRST, SECOND, CALLEE, Selfs(Pair(r)));
  }

  /** Nothing without a weight is handed out again. */
  lemma UnweighedOnce(n: Net, D: Comp)
    ensures !CountedAgain(n, map[], D)
  {
    CrossingsNone(n, map[], D);
  }

  /** When every call between two functions has a weight nothing is lost. */
  lemma WeighedNotLost(n: Net, w: Weights, D: Comp)
    requires forall u, v :: Edge(n.calls, u, v) && u != v ==> (u, v) in w
    ensures !LeftOut(n, w, D)
  {
    if Called(n, D) {
      var u, v :| Edge(n.calls, u, v) && n.CompOf(v) == D && n.CompOf(u) != D;
      assert Crossed(n, w, D);
    }
  }

  /** When the calls weigh nothing the callers together get more time than there is. */
  lemma CallersGetMore()
    ensures
      var n := Pair(1.0);
      n.Sound() && Weighable(n, ZeroEach()) && Sum(n.functions, Selfs(n)) == 1.0 && 1.0 < Sum(Comps(n), RootTotals(n))
  {
    hide Pair, Net.Sound, Weighable, EnterTotal, Crossings, RootTotals, Comps, Draws, Called, LeftOut;
    var n, w := Pair(1.0), ZeroEach();
    PairSound(1.0);
    PairWeighable(1.0, w);
    PairSelf(1.0);
    NothingArrives(1.0, w);
    ZeroEachCrossings();
    CalleeDraws(1.0);
    PairTime(1.0);
    forall D
      ensures !LeftOut(n, w, D)
    {
      forall u, v | Edge(n.calls, u, v)
        ensures (u, v) in w
      {
        PairEdges(1.0, u, v);
      }
      WeighedNotLost(n, w, D);
    }
    assert CountedAgain(n, w, Fn(CALLEE));
    ConservedIff(n, w);
  }

  /** When the calls have no weight at all the callers together get less. */
  lemma CallersGetLess()
    ensures
      var n := Pair(0.0);
      n.Sound() && Weighable(n, map[]) && Sum(n.functions, Selfs(n)) == 1.0 && Sum(Comps(n), RootTotals(n)) < 1.0
  {
    hide Pair, Net.Sound, Weighable, RootTotals, Comps, Draws, Called, CountedAgain;
    var n := Pair(0.0);
    PairSound(0.0);
    PairWeighable(0.0, map[]);
    PairSelf(0.0);
    CalleeDraws(0.0);
    PairTime(0.0);
    forall D
      ensures !CountedAgain(n, map[], D)
    {
      UnweighedOnce(n, D);
    }
    assert LeftOut(n, map[], Fn(CALLEE));
    ConservedIff(n, map[]);
  }
}

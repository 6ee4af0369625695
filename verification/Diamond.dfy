/** An input on which integration stops: calls without weight inside a cycle double an entry's time. */
module Diamond {
  import opened Paths
  import opened Seqs
  import opened Sums
  import opened Components
  import opened Bounds
  import opened CallRatios
  import opened Normalisation
  import opened ZeroWeights
  import opened Ranks
  import opened Rings
  import opened Entries
  import opened ZeroRatios
  import opened Books
  import opened Integrate
  import opened Perf

  const ROOT := Id("main")
  const ENTRY := Id("entry")
  const LEFT := Id("left-hand")
  const RIGHT := Id("right-hand")
  const FAR := Id("far")

  /** The members of the cycle. */
  ghost function Loop(): set<Id> {
    {ENTRY, LEFT, RIGHT, FAR}
  }

  ghost function All(): set<Id> {
    {ROOT, ENTRY, LEFT, RIGHT, FAR}
  }

  /** The root calls two members of a cycle. From one of them the other is reached by two calls without weight. */
  ghost function DiamondWeights(): Weights {
    map[(ROOT, ENTRY) := 1.0, (ROOT, FAR) := 1.0, (ENTRY, LEFT) := 1.0, (ENTRY, RIGHT) := 1.0,
        (LEFT, FAR) := 0.0, (RIGHT, FAR) := 0.0, (FAR, ENTRY) := 1.0]
  }

  ghost function DiamondCalls(): Calls {
    map[ROOT := [ENTRY, FAR], ENTRY := [LEFT, RIGHT], LEFT := [FAR], RIGHT := [FAR], FAR := [ENTRY]]
  }

  ghost function Unrated(): Net {
    Net([ROOT, ENTRY, LEFT, RIGHT, FAR], DiamondCalls(), map[ENTRY := 0, LEFT := 0, RIGHT := 0, FAR := 0], map[],
        map[ROOT := 0.0, ENTRY := 0.0, LEFT := 0.0, RIGHT := 0.0, FAR := 1.0])
  }

  /** With the ratios the weights give. */
  ghost function Diamond(): Net {
    Unrated().(ratio := map a | a in DiamondWeights() :: RatioOf(Unrated(), DiamondWeights(), a.0, a.1))
  }

  lemma CallsGraph()
    ensures DiamondCalls().Keys == All() && Closed(DiamondCalls())
    ensures forall f :: f in DiamondCalls() ==> NoDup(DiamondCalls()[f])
  {
  }

  lemma FunctionsListed()
    ensures NoDup([ROOT, ENTRY, LEFT, RIGHT, FAR])
    ensures SetOf([ROOT, ENTRY, LEFT, RIGHT, FAR]) == All()
  {
  }

  lemma UnratedCycle()
    ensures Unrated().cycle.Keys == Loop() && forall f :: f in Unrated().cycle ==> Unrated().cycle[f] == 0
  {
    hide DiamondCalls;
  }

  lemma DiamondGraph()
    ensures
      var n := Diamond();
      NoDup(n.functions) && n.calls.Keys == SetOf(n.functions) == All() && Closed(n.calls) &&
      n.cycle.Keys == Loop() && (forall f :: f in n.cycle ==> n.cycle[f] == 0) &&
      forall f :: f in n.calls ==> NoDup(n.calls[f])
  {
    hide Diamond, DiamondCalls, Unrated, NoDup, Closed, SetOf;
    DiamondParts();
    UnratedCycle();
    CallsGraph();
    FunctionsListed();
  }

  lemma CallsAre(u: Id, v: Id)
    ensures Edge(DiamondCalls(), u, v) <==> (u, v) in DiamondWeights()
  {
  }

  lemma WeightsAre(u: Id, v: Id)
    requires (u, v) in DiamondWeights()
    ensures u != v && v != ROOT && 0.0 <= DiamondWeights()[(u, v)]
    ensures v == FAR && u != ROOT ==> u == LEFT || u == RIGHT
  {
  }

  lemma DiamondEdges(u: Id, v: Id)
    ensures Edge(Diamond().calls, u, v) <==> (u, v) in DiamondWeights()
    ensures Edge(Diamond().calls, u, v) ==> u != v && v != ROOT && 0.0 <= DiamondWeights()[(u, v)]
    ensures Edge(Diamond().calls, u, v) && v == FAR && u != ROOT ==> u == LEFT || u == RIGHT
  {
    hide Diamond, DiamondWeights, DiamondCalls, Unrated;
    DiamondParts();
    CallsAre(u, v);
    if (u, v) in DiamondWeights() {
      WeightsAre(u, v);
    }
  }

  /** Every member reaches the entry and is reached from it. */
  lemma DiamondLoop(m: Id)
    requires m in Loop()
    ensures Reach(Diamond().calls, ENTRY, m) && Reach(Diamond().calls, m, ENTRY)
  {
    hide Reach, RatioOf;
    var calls := Diamond().calls;
    ReachRefl(calls, ENTRY);
    ReachEdge(calls, ENTRY, LEFT);
    ReachEdge(calls, ENTRY, RIGHT);
    ReachEdge(calls, FAR, ENTRY);
    ReachStep(calls, ENTRY, LEFT, FAR);
    ReachEdge(calls, LEFT, FAR);
    ReachEdge(calls, RIGHT, FAR);
    ReachTrans(calls, LEFT, FAR, ENTRY);
    ReachTrans(calls, RIGHT, FAR, ENTRY);
  }

  lemma NoWayToRoot(m: Id)
    requires m in Loop()
    ensures !Reach(Diamond().calls, m, ROOT)
  {
    hide Reach, Diamond;
    DiamondGraph();
    if Reach(Diamond().calls, m, ROOT) {
      forall u, v | Edge(Diamond().calls, u, v)
        ensures v != ROOT
      {
        DiamondEdges(u, v);
      }
      ReachClosed(Diamond().calls, Loop(), m, ROOT);
    }
  }

  lemma DiamondComps()
    ensures Diamond().CompOf(ROOT) == Fn(ROOT)
    ensures forall m :: m in Loop() ==> Diamond().CompOf(m) == Cyc(0)
    ensures InComp(Diamond(), Cyc(0)) == Loop()
  {
    hide Diamond, NoDup, Closed, SetOf;
    DiamondGraph();
    DiamondFunctions();
  }

  lemma RootAlone(m: Id)
    requires m in Loop()
    ensures Diamond().CompOf(m) != Diamond().CompOf(ROOT)
    ensures !Mutual(Diamond().calls, m, ROOT) && !Mutual(Diamond().calls, ROOT, m)
  {
    hide Reach, Diamond, Net.CompOf;
    DiamondComps();
    NoWayToRoot(m);
  }

  lemma MembersMutual(x: Id, z: Id)
    requires x in Loop() && z in Loop()
    ensures Mutual(Diamond().calls, x, z) && Diamond().CompOf(x) == Diamond().CompOf(z)
  {
    hide Reach, Diamond, Net.CompOf;
    DiamondComps();
    DiamondLoop(x);
    DiamondLoop(z);
    ReachTrans(Diamond().calls, x, ENTRY, z);
    ReachTrans(Diamond().calls, z, ENTRY, x);
  }

  lemma SameIffMutual(x: Id, z: Id)
    requires x in All() && z in All() && x != z
    ensures Diamond().CompOf(x) == Diamond().CompOf(z) <==> Mutual(Diamond().calls, x, z)
  {
    hide Mutual, Diamond, Net.CompOf;
    if x == ROOT {
      RootAlone(z);
    } else if z == ROOT {
      RootAlone(x);
    } else {
      MembersMutual(x, z);
    }
  }

  lemma DiamondComponents()
    ensures forall x, z :: x in Diamond().calls && z in Diamond().calls ==>
              (Diamond().CompOf(x) == Diamond().CompOf(z) <==> x == z || Mutual(Diamond().calls, x, z))
  {
    hide Mutual, Diamond, NoDup, Closed, SetOf, Net.CompOf, All, Loop;
    DiamondGraph();
    forall x, z | x in Diamond().calls && z in Diamond().calls && x != z
      ensures Diamond().CompOf(x) == Diamond().CompOf(z) <==> Mutual(Diamond().calls, x, z)
    {
      SameIffMutual(x, z);
    }
  }

  lemma DiamondSound()
    ensures Diamond().Sound()
  {
    hide Mutual, Diamond, NoDup, Closed, SetOf, Net.CompOf, All, Loop;
    DiamondGraph();
    DiamondComponents();
  }

  lemma DiamondWeighed()
    ensures Weighable(Diamond(), DiamondWeights())
  {
    hide Diamond, DiamondWeights, RatioOf, NoDup, Closed;
    var n, w := Diamond(), DiamondWeights();
    DiamondGraph();
    DiamondParts();
    forall u, v
      ensures Edge(n.calls, u, v) <==> (u, v) in w
      ensures Edge(n.calls, u, v) ==> u != v && 0.0 <= w[(u, v)]
      ensures RatioOf(Unrated(), w, u, v) == RatioOf(n, w, u, v)
    {
      DiamondEdges(u, v);
      RatioOfSame(Unrated(), n, w, u, v);
    }
  }

  lemma DiamondParts()
    ensures
      var n, w := Diamond(), DiamondWeights();
      n.functions == Unrated().functions && n.calls == DiamondCalls() == Unrated().calls && n.cycle == Unrated().cycle &&
      n.ratio.Keys == w.Keys && (forall a :: a in n.ratio ==> n.ratio[a] == RatioOf(Unrated(), w, a.0, a.1)) &&
      n.functions == [ROOT, ENTRY, LEFT, RIGHT, FAR] && n.self == Unrated().self
  {
    hide RatioOf, DiamondWeights, DiamondCalls;
  }

  lemma UnratedSelf()
    ensures
      var t := Unrated().self;
      t.Keys == All() && t[FAR] == 1.0 && t[ENTRY] == 0.0 && t[LEFT] == 0.0 && t[RIGHT] == 0.0 &&
      t[ROOT] == 0.0
  {
    hide DiamondCalls;
  }

  lemma DiamondSelf()
    ensures
      var n := Diamond();
      n.Self(FAR) == 1.0 && n.Self(ENTRY) == 0.0 && n.Self(LEFT) == 0.0 && n.Self(RIGHT) == 0.0 && n.Self(ROOT) == 0.0 &&
      (forall f :: 0.0 <= n.Self(f)) && n.self.Keys == All()
  {
    hide Diamond, DiamondWeights, DiamondCalls, Unrated;
    DiamondParts();
    UnratedSelf();
  }

  /** The calls without weight get no ratio, since the root's call weighs something; the entry gets some. */
  lemma DiamondRatios()
    ensures Diamond().Ratio(LEFT, FAR) == 0.0 && Diamond().Ratio(RIGHT, FAR) == 0.0
    ensures 0.0 < EntryRatio(Diamond(), 0, ENTRY) && (forall u, v :: 0.0 <= Diamond().Ratio(u, v))
  {
    hide Diamond, Net.Sound, Weighable, FunctionTotal, EnterTotal, RatioOf, EntryRatio;
    DiamondWeighed();
    RatiosNonNegative(Diamond(), DiamondWeights());
    FarWeight();
    InsideRatio(LEFT);
    InsideRatio(RIGHT);
    EntryRated();
  }

  lemma FarWeight()
    ensures 1.0 <= FunctionTotal(Diamond(), DiamondWeights(), FAR)
  {
    hide Diamond, Weighable, FunctionTotal;
    DiamondWeighed();
    DiamondEdges(ROOT, FAR);
    ArriveTerm(Diamond(), DiamondWeights(), ROOT, FAR);
  }

  lemma InsideRatio(u: Id)
    requires u == LEFT || u == RIGHT
    ensures Diamond().Ratio(u, FAR) == 0.0
  {
    hide Diamond, FunctionTotal, EnterTotal;
    var n, w := Diamond(), DiamondWeights();
    DiamondParts();
    DiamondComps();
    FarWeight();
    RatioOfSame(Unrated(), n, w, u, FAR);
    PartOrOne(0.0, FunctionTotal(n, w, FAR));
    TimesZero(1.0 / FunctionTotal(n, w, FAR));
  }

  lemma EntryRated()
    ensures 0.0 < EntryRatio(Diamond(), 0, ENTRY)
  {
    hide Diamond, Weighable, EnterTotal, FunctionTotal, EntryRatio;
    var n, w := Diamond(), DiamondWeights();
    DiamondComps();
    DiamondWeighed();
    DiamondEdges(ROOT, ENTRY);
    RootRated();
    RatiosNonNegative(n, w);
    DiamondGraph();
    EntryRatioTerm(n, 0, ROOT, ENTRY);
  }

  lemma RootRated()
    ensures 0.0 < Diamond().Ratio(ROOT, ENTRY)
  {
    hide Diamond, Weighable, EnterTotal, FunctionTotal;
    var n, w := Diamond(), DiamondWeights();
    DiamondParts();
    DiamondComps();
    DiamondGraph();
    DiamondWeighed();
    DiamondEdges(ROOT, ENTRY);
    EnterTerm(n, w, ROOT, ENTRY);
    RatioOfSame(Unrated(), n, w, ROOT, ENTRY);
    PartOrOne(1.0, EnterTotal(n, w, Cyc(0)));
  }

  /** No call from outside has more ratio than all of them together. */
  lemma EntryRatioTerm(n: Net, c: nat, u: Id, e: Id)
    requires Edge(n.calls, u, e) && n.CompOf(u) != Cyc(c) && n.calls.Keys == SetOf(n.functions)
    requires forall x, y :: 0.0 <= n.Ratio(x, y)
    ensures n.Ratio(u, e) <= EntryRatio(n, c, e)
  {
    forall m
      ensures 0.0 <= OutsideFrom(n, c, e)(m)
    {
      SumNonNegative(n.Out(m), OutsideTerm(n, c, e, m));
    }
    TermLess(n.Out(u), e, OutsideTerm(n, c, e, u));
    assert u in SetOf(n.functions);
    TermLess(n.functions, u, OutsideFrom(n, c, e));
  }

  lemma DiamondNonNegative()
    ensures NonNegative(Diamond())
  {
    hide Diamond;
    DiamondSelf();
    DiamondRatios();
  }

  lemma NextDoor(calls: Calls, C: set<Id>, s: Id, ranks: RankMap, v: Id)
    requires Ranked(calls, C, s, ranks) && s in C && v in C && Edge(calls, s, v)
    ensures v in ranks && ranks[v] <= 1
  {
    hide Edge;
    assert Walk(calls, C, 0, s, s);
    assert Walk(calls, C, 1, s, v);
    assert IsDistance(calls, C, s, v, ranks[v]);
  }

  lemma OneStep(calls: Calls, C: set<Id>, s: Id, v: Id)
    requires Walk(calls, C, 1, s, v)
    ensures Edge(calls, s, v)
  {
    hide Edge;
    var m :| Walk(calls, C, 0, s, m) && Edge(calls, m, v);
  }

  lemma NotNextDoor(calls: Calls, C: set<Id>, s: Id, ranks: RankMap, v: Id)
    requires Ranked(calls, C, s, ranks) && v in ranks && v != s && !Edge(calls, s, v)
    ensures 2 <= ranks[v]
  {
    hide Edge, ReachIn;
    var k := ranks[v];
    assert IsDistance(calls, C, s, v, k);
    if k == 1 {
      OneStep(calls, C, s, v);
    }
  }

  lemma DiamondRises()
    ensures
      var r := RingAt(Diamond(), 0, ENTRY);
      Rises(r, LEFT, FAR) && Rises(r, RIGHT, FAR) && r.members == Loop() && r.net == Diamond()
  {
    hide Diamond, Net.Sound, NonNegative, Ranked;
    var n := Diamond();
    DiamondSound();
    DiamondComps();
    DiamondNonNegative();
    RingAtEntered(n, 0, ENTRY);
    DistancesExist(n.calls, InComp(n, Cyc(0)), ENTRY);
    var ranks := DistancesFrom(n.calls, InComp(n, Cyc(0)), ENTRY);
    DiamondEdges(ENTRY, LEFT);
    DiamondEdges(ENTRY, RIGHT);
    DiamondEdges(ENTRY, FAR);
    NextDoor(n.calls, InComp(n, Cyc(0)), ENTRY, ranks, LEFT);
    NextDoor(n.calls, InComp(n, Cyc(0)), ENTRY, ranks, RIGHT);
    NotNextDoor(n.calls, InComp(n, Cyc(0)), ENTRY, ranks, FAR);
    DiamondEdges(LEFT, FAR);
    DiamondEdges(RIGHT, FAR);
  }

  lemma FarArrival()
    ensures Arrival(RingAt(Diamond(), 0, ENTRY), FAR) == 0.0
  {
    hide Diamond, RingAt, Rises;
    var r := RingAt(Diamond(), 0, ENTRY);
    DiamondRises();
    DiamondRatios();
    forall u
      ensures RiseRatio(r, FAR)(u) == 0.0
    {
      if Rises(r, u, FAR) {
        RisesInner(u);
      }
    }
    SumZero(r.net.functions, RiseRatio(r, FAR));
  }

  lemma FarRisers()
    ensures 2.0 <= Risers(RingAt(Diamond(), 0, ENTRY), FAR)
  {
    hide Diamond, RingAt, Rises, Sum;
    var r := RingAt(Diamond(), 0, ENTRY);
    DiamondParts();
    DiamondRises();
    SumFive(ROOT, ENTRY, LEFT, RIGHT, FAR, Riser(r, FAR));
  }

  /** Two calls rise to the far member, and nothing arrives with them. */
  lemma FarDoubled()
    ensures Doubled(RingAt(Diamond(), 0, ENTRY), ENTRY, FAR)
  {
    hide Diamond, RingAt, Rises, Arrival, Risers;
    DiamondRises();
    FarArrival();
    FarRisers();
  }

  lemma RisesInner(u: Id)
    requires Rises(RingAt(Diamond(), 0, ENTRY), u, FAR)
    ensures u == LEFT || u == RIGHT
  {
    hide Diamond;
    DiamondComps();
    DiamondEdges(u, FAR);
  }

  lemma DiamondSubtotal(m: Id)
    requires m in Loop()
    ensures Subtotals(Diamond())(m) == Diamond().Self(m)
  {
    hide Diamond, Net.Sound, Net.CompOf, Net.Self, Sum, Subtotal, Total, NoDup, Closed;
    var n := Diamond();
    DiamondSound();
    DiamondGraph();
    forall v | v in n.Out(m)
      ensures Outward(n, Totals(n), m)(v) == 0.0
    {
      StaysInside(m, v);
    }
    SumZero(n.Out(m), Outward(n, Totals(n), m));
    SubtotalIs(n, m);
  }

  lemma StaysInside(m: Id, v: Id)
    requires m in Loop() && v in Diamond().Out(m)
    ensures Diamond().CompOf(v) == Diamond().CompOf(m)
  {
    hide Diamond, Net.CompOf;
    DiamondGraph();
    DiamondComps();
    DiamondEdges(m, v);
  }

  lemma DiamondTime()
    ensures var t := Only(InComp(Diamond(), Cyc(0)), Subtotals(Diamond()));
      t(FAR) == 1.0 && t(ROOT) == 0.0 && t(ENTRY) == 0.0 && t(LEFT) == 0.0 && t(RIGHT) == 0.0
    ensures Subtotals(Diamond())(FAR) == 1.0
  {
    hide Diamond, InComp, Subtotal, NoDup, Closed;
    DiamondSelf();
    DiamondComps();
    DiamondSubtotal(ENTRY);
    DiamondSubtotal(LEFT);
    DiamondSubtotal(RIGHT);
    DiamondSubtotal(FAR);
  }

  lemma DiamondTotal()
    ensures Total(Diamond(), Cyc(0)) == 1.0
  {
    hide Diamond, InComp, Subtotals, Sum, Net.Self, Total, Only;
    DiamondFunctions();
    DiamondTime();
    TotalIs(Diamond(), Cyc(0));
    SumFive(ROOT, ENTRY, LEFT, RIGHT, FAR, Only(InComp(Diamond(), Cyc(0)), Subtotals(Diamond())));
  }

  lemma DiamondFunctions()
    ensures Diamond().functions == [ROOT, ENTRY, LEFT, RIGHT, FAR]
  {
    hide RatioOf;
  }

  lemma FarExcess()
    ensures EntryRatio(Diamond(), 0, ENTRY) <= ExcessAt(Diamond(), 0, ENTRY)
  {
    hide Diamond, RingAt, Doubled, Risers, EntryRatio, Subtotal, PartialsAt, NonNegative, Net.Sound, Members, Entered,
         NoneNegative, InComp, Sum, Times, Rises, Net.Self, Excess;
    var n, r, T := Diamond(), RingAt(Diamond(), 0, ENTRY), PartialsAt(Diamond(), 0, ENTRY);
    DiamondSound();
    DiamondNonNegative();
    DiamondComps();
    DiamondParts();
    DiamondRises();
    FarTwice();
    forall v
      ensures 0.0 <= Excess(r, ENTRY, T)(v)
    {
      PartialsNonNegative(n, 0, ENTRY, v);
      ExcessSign(r, ENTRY, T, v);
    }
    RingAtEntered(n, 0, ENTRY);
    EnteredMembers(r, ENTRY);
    TermLess(Members(r), FAR, Excess(r, ENTRY, T));
  }

  lemma FarTwice()
    ensures EntryRatio(Diamond(), 0, ENTRY) <= Excess(RingAt(Diamond(), 0, ENTRY), ENTRY, PartialsAt(Diamond(), 0, ENTRY))(FAR)
  {
    hide Diamond, RingAt, Doubled, Risers, EntryRatio, Subtotals, PartialsAt, NonNegative, Net.Self, Times;
    DiamondNonNegative();
    FarDoubled();
    FarRisers();
    DiamondTime();
    PartialsNonNegative(Diamond(), 0, ENTRY, FAR);
    AtLeastTwice(Risers(RingAt(Diamond(), 0, ENTRY), FAR), EntryRatio(Diamond(), 0, ENTRY), PartialsAt(Diamond(), 0, ENTRY)(FAR));
  }

  lemma AtLeastTwice(k: real, rho: real, t: real)
    requires 2.0 <= k && 0.0 <= t && Times(rho, 1.0) <= t
    ensures rho <= Times(k - 1.0, t)
  {
    assert 0.0 <= (k - 2.0) * t;
  }

  lemma EntryCalled()
    ensures ENTRY in EntrySet(Diamond(), 0)
  {
    hide Diamond;
    DiamondGraph();
    DiamondComps();
    DiamondFunctions();
    DiamondEdges(ROOT, ENTRY);
    assert ROOT in Diamond().functions && ENTRY in Diamond().Out(ROOT);
  }

  lemma DiamondReady()
    ensures Ready(Diamond())
  {
    hide Diamond, Net.Sound, NonNegative, RatioOf, NoDup, Closed;
    DiamondSound();
    DiamondSelf();
    DiamondGraph();
    DiamondWeighed();
    RatedReady(Diamond(), DiamondWeights());
  }

  /**
    * The entry's partial time is at least twice its part of the cycle's total, which is something, and the check of
    * the code fails: an input of integration on which it stops.
    */
  lemma DiamondFails()
    ensures
      var n := Diamond();
      Ready(n) && Weighable(n, DiamondWeights()) && ENTRY in EntrySet(n, 0) &&
      0.0 < Times(EntryRatio(n, 0, ENTRY), Total(n, Cyc(0))) &&
      2.0 * Times(EntryRatio(n, 0, ENTRY), Total(n, Cyc(0))) <= PartialsAt(n, 0, ENTRY)(ENTRY) &&
      !EntryPasses(n, 0, ENTRY) && SomeCheckFails(n)
  {
    hide Diamond, EntryRatio, ExcessAt, Total, NonNegative, Net.Sound, Weighable, EntryPasses, Ready, EntrySet, PartialsAt;
    var n := Diamond();
    DiamondReady();
    DiamondSound();
    DiamondNonNegative();
    DiamondWeighed();
    DiamondComps();
    DiamondTotal();
    DiamondRatios();
    FarExcess();
    EntryCalled();
    EntryExceeds(n, 0, ENTRY);
    EntryPassesIff(n, 0, ENTRY);
    FailsHere(n, 0);
  }
}

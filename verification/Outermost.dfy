/** What the outer ends of the sampled chains say about the call graph: where all time comes together. */
module Outermost {
  import opened Paths
  import opened Seqs
  import opened Sums
  import opened Components
  import opened Samples

  /** The calls are the adjacent places of the chains. */
  ghost predicate Adjacent(calls: Calls, events: seq<Chain>) {
    forall u, v :: Edge(calls, u, v) <==>
      exists i, k :: 0 <= i < |events| && 0 <= k < |events[i]| - 1 && events[i][k + 1] == u && events[i][k] == v
  }

  lemma AdjacentSame(calls: Calls, calls': Calls, events: seq<Chain>)
    requires Adjacent(calls, events) && forall u, v :: Edge(calls', u, v) <==> Edge(calls, u, v)
    ensures Adjacent(calls', events)
  {
    hide Edge;
  }

  /** main stands at the outer end of every chain that is not empty, and nowhere else. */
  ghost predicate AtOuterEnd(events: seq<Chain>, main: Id) {
    forall i, k :: 0 <= i < |events| && 0 <= k < |events[i]| ==> (events[i][k] == main <==> k == |events[i]| - 1)
  }

  /** f stands at outer ends only. */
  ghost predicate OnlyOuter(events: seq<Chain>, f: Id) {
    forall i, k :: 0 <= i < |events| && 0 <= k < |events[i]| && events[i][k] == f ==> k == |events[i]| - 1
  }

  /** A function seen at outer ends only is called by nobody. */
  lemma OuterUncalled(calls: Calls, events: seq<Chain>, f: Id)
    requires Adjacent(calls, events)
    requires OnlyOuter(events, f)
    ensures forall u :: !Edge(calls, u, f)
  {
  }

  /** Somewhere between a place in D and an outer place that is not, D is called. */
  lemma {:induction false} Climb(n: Net, events: seq<Chain>, i: nat, k: nat, D: Comp)
    requires Adjacent(n.calls, events) && i < |events| && k < |events[i]|
    requires n.CompOf(events[i][k]) == D && n.CompOf(events[i][|events[i]| - 1]) != D
    ensures Called(n, D)
    decreases |events[i]| - k
  {
    var e := events[i];
    assert events[i][k] == e[k];
    if n.CompOf(e[k + 1]) == D {
      Climb(n, events, i, k + 1, D);
    } else {
      assert Edge(n.calls, e[k + 1], e[k]);
    }
  }

  /** A function nobody calls is alone in its component, and nobody calls that. */
  lemma AloneInComp(n: Net, main: Id)
    requires n.Sound() && main in n.functions && forall u :: !Edge(n.calls, u, main)
    ensures forall f :: f in n.functions && n.CompOf(f) == n.CompOf(main) ==> f == main
    ensures !Called(n, n.CompOf(main))
  {
    hide Reach;
    forall f | f in n.calls && n.CompOf(f) == n.CompOf(main)
      ensures f == main
    {
      assert main in SetOf(n.functions);
      if f != main {
        SameComp(n, f, main);
        NobodyReaches(n.calls, f, main);
      }
    }
    forall f | f in n.functions
      ensures f in n.calls
    {
      assert f in SetOf(n.functions);
    }
  }

  lemma NobodyReaches(calls: Calls, f: Id, main: Id)
    requires Reach(calls, f, main) && forall u :: !Edge(calls, u, main)
    ensures f == main
  {
    var k: nat :| Walk(calls, calls.Keys, k, f, main);
  }

  /** When all chains end with main, and main stands nowhere else, it has all there is. */
  lemma MainHasAll(n: Net, events: seq<Chain>, main: Id)
    requires n.Sound() && Adjacent(n.calls, events) && AtOuterEnd(events, main)
    requires forall f :: f in n.functions <==> Occurs(events, f)
    requires main in n.functions
    ensures Sum(Comps(n), RootTotals(n)) == Total(n, n.CompOf(main))
  {
    hide Adjacent, Net.Sound, Sum, Total;
    UncalledMain(n, events, main);
    AloneInComp(n, main);
    CompIn(n, main);
    var C := n.CompOf(main);
    forall D | D in Comps(n) && D != C
      ensures RootTotals(n)(D) == 0.0
    {
      var f :| f in n.functions && n.CompOf(f) == D;
      var i :| 0 <= i < |events| && f in events[i];
      var k :| 0 <= k < |events[i]| && events[i][k] == f;
      assert events[i][|events[i]| - 1] == main;
      Climb(n, events, i, k, D);
    }
    SumPoint(Comps(n), C, RootTotals(n));
  }

  lemma UncalledMain(n: Net, events: seq<Chain>, main: Id)
    requires Adjacent(n.calls, events) && AtOuterEnd(events, main)
    ensures forall u :: !Edge(n.calls, u, main)
  {
    OuterUncalled(n.calls, events, main);
  }
}

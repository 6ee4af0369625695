/** Profile._call_ratios_cycle: the ratios of the calls that lead away from the entry, summed per callee. */
module CycleCalls {
  import opened Paths
  import opened Seqs
  import opened Sums
  import opened Components
  import opened CallRatios
  import opened Ranks
  import opened Rings

  ghost function Top(ranks: RankMap): (t: nat)
    ensures forall v :: v in ranks ==> ranks[v] <= t
  {
    if ranks == map[] then 0
    else
      var v :| v in ranks;
      var t := Top(ranks - {v});
      assert forall x :: x in ranks ==> x == v || (x in ranks - {v} && (ranks - {v})[x] == ranks[x]);
      if t < ranks[v] then ranks[v] else t
  }

  /** The members of cycle c, ranked from one of them. */
  ghost function RingOf(n: Net, c: nat, ranks: RankMap): Ring {
    Ring(n, InComp(n, Cyc(c)), ranks, Top(ranks))
  }

  lemma BetweenMembers(n: Net, C: Comp, a: Id, m: Id, b: Id)
    requires n.Sound() && Reach(n.calls, a, m) && m in n.calls && Edge(n.calls, m, b)
    requires a in InComp(n, C) && b in InComp(n, C)
    ensures m in InComp(n, C)
  {
    hide Reach;
    SameComp(n, a, b);
    ReachEdge(n.calls, m, b);
    ReachTrans(n.calls, m, b, a);
    MutualSameComp(n, a, m);
    assert m in SetOf(n.functions);
  }

  /** Walks between members of a cycle stay inside it. */
  lemma StaysInCycle(n: Net, C: Comp, k: nat, a: Id, b: Id)
    requires n.Sound() && Walk(n.calls, n.calls.Keys, k, a, b)
    requires a in InComp(n, C) && b in InComp(n, C)
    ensures Walk(n.calls, InComp(n, C), k, a, b)
  {
    forall u, v | Edge(n.calls, u, v) && v in InComp(n, C) && Reach(n.calls, a, u)
      ensures u in InComp(n, C)
    {
      BetweenMembers(n, C, a, u, v);
    }
    hide InComp, Reach;
    WalkInside(n.calls, InComp(n, C), k, a, b);
  }

  lemma AllRanked(n: Net, c: nat, s: Id, ranks: RankMap)
    requires n.Sound() && s in InComp(n, Cyc(c)) && Ranked(n.calls, InComp(n, Cyc(c)), s, ranks)
    ensures ranks.Keys == InComp(n, Cyc(c))
  {
    var C := InComp(n, Cyc(c));
    forall v | v in C
      ensures v in ranks
    {
      SameComp(n, s, v);
      var k: nat :| Walk(n.calls, n.calls.Keys, k, s, v);
      StaysInCycle(n, Cyc(c), k, s, v);
    }
    forall v | v in ranks
      ensures v in C
    {
      assert Walk(n.calls, C, ranks[v], s, v);
    }
  }

  lemma NearerCaller(calls: Calls, C: set<Id>, s: Id, ranks: RankMap, v: Id) returns (m: Id)
    requires Ranked(calls, C, s, ranks) && v in ranks && v != s
    ensures m in ranks && m in C && v in C && Edge(calls, m, v) && ranks[m] < ranks[v]
  {
    var k := ranks[v];
    assert Walk(calls, C, k, s, v);
    m :| Walk(calls, C, k - 1, s, m) && Edge(calls, m, v);
    assert IsDistance(calls, C, s, m, ranks[m]);
  }

  /** With the ranks of a cycle from s, s enters and every other member has a nearer caller. */
  lemma RingEntered(n: Net, c: nat, s: Id, ranks: RankMap)
    requires n.Sound() && s in InComp(n, Cyc(c)) && Ranked(n.calls, InComp(n, Cyc(c)), s, ranks)
    ensures Entered(RingOf(n, c, ranks), s)
  {
    var r, C := RingOf(n, c, ranks), InComp(n, Cyc(c));
    AllRanked(n, c, s, ranks);
    assert ranks[s] == 0 by {
      assert Walk(n.calls, C, 0, s, s);
    }
    forall v {:trigger HasRiser(r, v)} | v in C && v != s
      ensures HasRiser(r, v)
    {
      var m := NearerCaller(n.calls, C, s, ranks, v);
      assert Rises(r, m, v);
    }
    hide Ranked, Reach;
  }

  function Get(m: map<Id, real>, v: Id): real {
    if v in m then m[v] else 0.0
  }

  /** What a visit adds: for every function newly visited, the ratios of its rising calls. */
  ghost predicate Added(r: Ring, visited0: set<Id>, visited: set<Id>, sums0: map<Id, real>, sums: map<Id, real>) {
    && visited0 <= visited
    && sums0.Keys <= sums.Keys
    && (forall v :: Get(sums, v) == Get(sums0, v) + SumIn(r.net.functions, visited - visited0, RiseRatio(r, v)))
    && (forall u, v :: u in visited - visited0 && Rises(r, u, v) ==> v in visited && v in sums)
  }

  /** What has been added while the first i calls of f have been followed. */
  ghost predicate Adding(r: Ring, f: Id, i: nat, visited0: set<Id>, visited: set<Id>, sums0: map<Id, real>, sums: map<Id, real>)
    requires i <= |r.net.Out(f)|
  {
    && f !in visited0 && visited0 + {f} <= visited
    && sums0.Keys <= sums.Keys
    && (forall v :: Get(sums, v) == Get(sums0, v) + SumIn(r.net.functions, visited - visited0 - {f}, RiseRatio(r, v))
                                    + Followed(r, f, i, v))
    && (forall u, v :: u in visited - visited0 - {f} && Rises(r, u, v) ==> v in visited && v in sums)
    && (forall k :: 0 <= k < i && Rises(r, f, r.net.Out(f)[k]) ==> r.net.Out(f)[k] in visited && r.net.Out(f)[k] in sums)
  }

  ghost function Followed(r: Ring, f: Id, i: nat, v: Id): real
    requires i <= |r.net.Out(f)|
  {
    if Rises(r, f, v) && v in r.net.Out(f)[..i] then r.net.Ratio(f, v) else 0.0
  }

  lemma StartAdding(r: Ring, f: Id, visited0: set<Id>, sums0: map<Id, real>)
    requires f !in visited0
    ensures Adding(r, f, 0, visited0, visited0 + {f}, sums0, sums0)
  {
    forall v
      ensures SumIn(r.net.functions, visited0 + {f} - visited0 - {f}, RiseRatio(r, v)) == 0.0
    {
      SumZero(r.net.functions, Only(visited0 + {f} - visited0 - {f}, RiseRatio(r, v)));
    }
  }

  lemma SkipCall(r: Ring, f: Id, i: nat, visited0: set<Id>, visited: set<Id>, sums0: map<Id, real>, sums: map<Id, real>)
    requires i < |r.net.Out(f)| && Adding(r, f, i, visited0, visited, sums0, sums)
    requires !Rises(r, f, r.net.Out(f)[i])
    ensures Adding(r, f, i + 1, visited0, visited, sums0, sums)
  {
    hide Sum;
    var out := r.net.Out(f);
    assert out[..i + 1] == out[..i] + [out[i]];
  }

  lemma RiseCall(r: Ring, f: Id, i: nat, visited0: set<Id>, visited: set<Id>, sums0: map<Id, real>, sums: map<Id, real>,
                 sums1: map<Id, real>, visited': set<Id>, sums': map<Id, real>)
    requires i < |r.net.Out(f)| && NoDup(r.net.Out(f)) && Adding(r, f, i, visited0, visited, sums0, sums)
    requires var v := r.net.Out(f)[i];
             && Rises(r, f, v) && v in visited'
             && sums1 == sums[v := Get(sums, v) + r.net.Ratio(f, v)]
    requires Added(r, visited, visited', sums1, sums')
    ensures Adding(r, f, i + 1, visited0, visited', sums0, sums')
  {
    hide Sum, SumIn, Rises, RiseRatio, Get;
    var out := r.net.Out(f);
    var w := out[i];
    assert out[..i + 1] == out[..i] + [w];
    forall v
      ensures Get(sums', v) == Get(sums0, v) + SumIn(r.net.functions, visited' - visited0 - {f}, RiseRatio(r, v))
                                    + Followed(r, f, i + 1, v)
    {
      RiseCallAt(r, f, i, visited0, visited, sums0, sums, sums1, visited', sums', v);
    }
  }

  lemma RiseCallAt(r: Ring, f: Id, i: nat, visited0: set<Id>, visited: set<Id>, sums0: map<Id, real>, sums: map<Id, real>,
                   sums1: map<Id, real>, visited': set<Id>, sums': map<Id, real>, v: Id)
    requires i < |r.net.Out(f)| && NoDup(r.net.Out(f)) && Adding(r, f, i, visited0, visited, sums0, sums)
    requires var w := r.net.Out(f)[i];
             && Rises(r, f, w) && w in visited'
             && sums1 == sums[w := Get(sums, w) + r.net.Ratio(f, w)]
    requires Added(r, visited, visited', sums1, sums')
    ensures Get(sums', v) == Get(sums0, v) + SumIn(r.net.functions, visited' - visited0 - {f}, RiseRatio(r, v))
                             + Followed(r, f, i + 1, v)
  {
    hide Sum, SumIn, Rises, RiseRatio;
    var out := r.net.Out(f);
    var w := out[i];
    assert out[..i + 1] == out[..i] + [w];
    assert visited' - visited0 - {f} == (visited - visited0 - {f}) + (visited' - visited);
    SumInUnion(r.net.functions, visited - visited0 - {f}, visited' - visited, RiseRatio(r, v));
  }

  lemma FinishAdding(r: Ring, s: Id, f: Id, visited0: set<Id>, visited: set<Id>, sums0: map<Id, real>, sums: map<Id, real>)
    requires Entered(r, s) && f in r.members && Adding(r, f, |r.net.Out(f)|, visited0, visited, sums0, sums)
    ensures Added(r, visited0, visited, sums0, sums)
  {
    var out := r.net.Out(f);
    assert out[..|out|] == out;
    assert visited - visited0 == (visited - visited0 - {f}) + {f};
    assert f in SetOf(r.net.functions);
    forall v
      ensures Get(sums, v) == Get(sums0, v) + SumIn(r.net.functions, visited - visited0, RiseRatio(r, v))
    {
      SumInAdd(r.net.functions, visited - visited0 - {f}, f, RiseRatio(r, v));
    }
  }

  /** Calls lead to functions, and calls between functions of one component have a ratio. */
  ghost predicate Usable(n: Net) {
    && n.calls.Keys == SetOf(n.functions)
    && (forall u, v :: Edge(n.calls, u, v) ==> v in n.functions)
    && (forall u, v :: Edge(n.calls, u, v) && u != v ==> (u, v) in n.ratio)
  }

  /** Whether a call rises can be read off the cycle and the ranks. */
  lemma ReadCall(n: Net, c: nat, s: Id, ranks: RankMap, f: Id, i: nat)
    requires Usable(n) && Entered(RingOf(n, c, ranks), s) && f in InComp(n, Cyc(c)) && f in n.calls && i < |n.calls[f]|
    ensures n.Out(f) == n.calls[f] && f in ranks
    ensures var v := n.calls[f][i];
            && (v != f && n.CompOf(v) == Cyc(c) ==>
                  v in ranks && v in InComp(n, Cyc(c)) && (f, v) in n.ratio && n.Ratio(f, v) == n.ratio[(f, v)])
            && (Rises(RingOf(n, c, ranks), f, v) <==> v != f && n.CompOf(v) == Cyc(c) && ranks[v] > ranks[f])
            && (Rises(RingOf(n, c, ranks), f, v) ==> Depth(RingOf(n, c, ranks), v) < Depth(RingOf(n, c, ranks), f))
  {
    assert Edge(n.calls, f, n.calls[f][i]);
  }

  lemma ReadFunction(n: Net, c: nat, s: Id, ranks: RankMap, f: Id)
    requires Usable(n) && Entered(RingOf(n, c, ranks), s) && f in InComp(n, Cyc(c))
    ensures f in n.calls && n.Out(f) == n.calls[f] && NoDup(n.Out(f))
  {
    assert f in SetOf(n.functions);
  }

  /** Visits f unless it is visited, adds up the ratios of its rising calls, and goes on to where they lead. */
  method CallRatiosCycle(n: Net, c: nat, f: Id, ranks: RankMap, sums0: map<Id, real>, visited0: set<Id>,
                         ghost s: Id)
    returns (sums: map<Id, real>, visited: set<Id>)
    requires Usable(n) && Entered(RingOf(n, c, ranks), s) && f in InComp(n, Cyc(c))
    ensures Added(RingOf(n, c, ranks), visited0, visited, sums0, sums) && f in visited
    decreases Depth(RingOf(n, c, ranks), f)
  {
    hide Adding, Usable, Entered, Rises, InComp, Depth, Top;
    sums, visited := sums0, visited0;
    ghost var r := RingOf(n, c, ranks);
    if f !in visited {
      StartAdding(r, f, visited0, sums0);
      visited := visited + {f};
      ReadFunction(n, c, s, ranks, f);
      var callees := n.calls[f];
      hide Added, RingOf;
      for i := 0 to |callees|
        invariant Adding(r, f, i, visited0, visited, sums0, sums)
      {
        var v := callees[i];
        ReadCall(n, c, s, ranks, f, i);
        if v != f && n.CompOf(v) == Cyc(c) && ranks[v] > ranks[f] {
          ghost var sums1, visited1 := sums, visited;
          sums := sums[v := Get(sums, v) + n.ratio[(f, v)]];
          ghost var sums2 := sums;
          sums, visited := CallRatiosCycle(n, c, v, ranks, sums, visited, s);
          RiseCall(r, f, i, visited0, visited1, sums0, sums1, sums2, visited, sums);
        } else {
          SkipCall(r, f, i, visited0, visited, sums0, sums);
        }
      }
      FinishAdding(r, s, f, visited0, visited, sums0, sums);
      AddingVisited(r, f, |callees|, visited0, visited, sums0, sums);
    } else {
      NothingAdded(r, visited, sums);
    }
  }

  lemma AddingVisited(r: Ring, f: Id, i: nat, visited0: set<Id>, visited: set<Id>, sums0: map<Id, real>, sums: map<Id, real>)
    requires i <= |r.net.Out(f)| && Adding(r, f, i, visited0, visited, sums0, sums)
    ensures f in visited
  {
  }

  lemma NothingAdded(r: Ring, visited: set<Id>, sums: map<Id, real>)
    ensures Added(r, visited, visited, sums, sums)
  {
    forall v
      ensures SumIn(r.net.functions, visited - visited, RiseRatio(r, v)) == 0.0
    {
      SumZero(r.net.functions, Only(visited - visited, RiseRatio(r, v)));
    }
  }

  /** What is closed under rising calls and holds the entry holds every member. */
  lemma {:induction false} AllVisited(r: Ring, s: Id, visited: set<Id>, v: Id)
    requires Entered(r, s) && s in visited && v in r.members
    requires forall u, x :: u in visited && Rises(r, u, x) ==> x in visited
    ensures v in visited
    decreases r.ranks[v]
  {
    if v != s {
      assert HasRiser(r, v);
      var u :| Rises(r, u, v);
      AllVisited(r, s, visited, u);
    }
  }

  /** Started at the entry with nothing visited, the sums are the arrivals of all members. */
  lemma SumsAreArrivals(r: Ring, s: Id, visited: set<Id>, sums: map<Id, real>)
    requires Entered(r, s) && s in visited && Added(r, {}, visited, map[], sums)
    ensures forall v :: Get(sums, v) == Arrival(r, v)
    ensures forall u, v :: Rises(r, u, v) ==> v in sums && sums[v] == Arrival(r, v)
  {
    assert visited - {} == visited;
    forall v | v in r.members
      ensures v in visited
    {
      AllVisited(r, s, visited, v);
    }
    forall v
      ensures Get(sums, v) == Arrival(r, v)
    {
      SumSame(r.net.functions, Only(visited, RiseRatio(r, v)), RiseRatio(r, v));
    }
  }
}

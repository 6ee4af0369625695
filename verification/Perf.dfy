/** PerfParser.parse: from the sampled call chains to the total time of every function. */
module Perf {
  import opened Paths
  import opened Seqs
  import opened Sums
  import opened Components
  import opened Bounds
  import FC = FindCycles
  import opened TarjanSpec
  import opened CallRatios
  import opened Normalisation
  import opened ZeroWeights
  import opened CycleCalls
  import opened Entries
  import opened Books
  import opened Integrate
  import opened Results
  import opened Profiles
  import opened Samples
  import opened Ledger
  import opened Outermost

  /** Profile.ratio: each function's part of all samples. Calls carry no sample counts of this kind. */
  method TimeRatio(p: Profile)
    requires p.samples.Keys == SetOf(p.functions) && p.selfTime == map[] && p.profileSelf == map[]
    modifies p`selfTime, p`profileSelf
    ensures p.selfTime.Keys == SetOf(p.functions)
    ensures forall f :: f in p.selfTime ==> p.selfTime[f] == Ratio(p.samples[f] as real, p.profileSamples as real)
    ensures p.profileSelf == map[() := 1.0]
  {
    assert p.functions[..|p.functions|] == p.functions;
    for i := 0 to |p.functions|
      invariant p.selfTime.Keys == SetOf(p.functions[..i])
      invariant forall f :: f in p.selfTime ==> f in p.samples && p.selfTime[f] == Ratio(p.samples[f] as real, p.profileSamples as real)
    {
      var f := p.functions[i];
      assert f in SetOf(p.functions);
      SetOfStep(p.functions, i);
      p.selfTime := p.selfTime[f := Ratio(p.samples[f] as real, p.profileSamples as real)];
    }
    p.profileSelf := map[() := 1.0];
  }

  /** The cycles found are the larger components. */
  lemma CyclesAreComponents(n: Net, members: seq<set<Id>>)
    requires NoDup(n.functions) && n.calls.Keys == SetOf(n.functions) && Closed(n.calls)
    requires forall f :: f in n.calls ==> NoDup(n.calls[f])
    requires FC.CyclesFound(n.calls, n.cycle, members)
    ensures n.Sound()
    ensures forall f :: f in n.cycle ==> n.cycle[f] < |members| && members[n.cycle[f]] == InComp(n, Cyc(n.cycle[f]))
  {
    hide Reach, HasPartner;
    forall x, z | x in n.calls && z in n.calls
      ensures n.CompOf(x) == n.CompOf(z) <==> x == z || Mutual(n.calls, x, z)
    {
      assert x != z ==> (Mutual(n.calls, x, z) <==> FC.Together(n.cycle, x, z));
    }
    forall f | f in n.cycle
      ensures members[n.cycle[f]] == InComp(n, Cyc(n.cycle[f]))
    {
      forall m
        ensures m in members[n.cycle[f]] <==> m in InComp(n, Cyc(n.cycle[f]))
      {
        assert m in n.cycle ==> m in SetOf(n.functions);
      }
    }
  }

  /** Whatever the weights, the ratios they get make a profile that can be integrated. */
  lemma RatedReady(n: Net, w: Weights)
    requires n.Sound() && Rated(n, w) && n.self.Keys == SetOf(n.functions)
    requires forall f :: f in n.self ==> 0.0 <= n.self[f]
    ensures Ready(n)
  {
    hide RatioOf;
    forall u, v
      ensures 0.0 <= n.Ratio(u, v)
    {
      if (u, v) in n.ratio {
        RatioRange(n, w, u, v);
      }
    }
    forall u, v | Edge(n.calls, u, v)
      ensures v in n.functions
    {
      assert v in SetOf(n.functions);
    }
  }

  /** Positive weights make one that is normalised, and passes every check. */
  lemma WeighedReady(n: Net, w: Weights)
    requires n.Sound() && Weighed(n, w) && n.self.Keys == SetOf(n.functions)
    requires forall f :: f in n.self ==> 0.0 <= n.self[f]
    ensures Ready(n) && Normalised(n) && Lively(n)
  {
    hide RatioOf;
    RatiosNormalised(n, w);
    RatedReady(n, w);
    forall u, v
      ensures Edge(n.calls, u, v) && u != v ==> 0.0 < n.Ratio(u, v)
    {
      RatioPositive(n, w, u, v);
    }
  }

  lemma TotalsBounded(n: Net, b: Book, f: Id)
    requires Ready(n) && Normalised(n) && Lively(n) && AllSettled(n, b, |n.functions|) && f in n.functions
    ensures f in b.total && 0.0 <= b.total[f] <= Sum(n.functions, Selfs(n))
    ensures f !in n.cycle ==> b.total[f] == Total(n, Fn(f))
    ensures f in n.cycle ==> n.cycle[f] in b.cycle && b.total[f] == MemberTotal(n, n.cycle[f], f) <= b.cycle[n.cycle[f]]
  {
    hide Sum, SumIn, OutCalls, InCalls, Normalised, Net.Sound, Usable, Total, MemberTotal, Comps, Reached;
    var C := n.CompOf(f);
    CompIn(n, f);
    TotalBounded(n, C);
    var i :| 0 <= i < |n.functions| && n.functions[i] == f;
    assert Done(b, n.CompOf(n.functions[i]));
    assert Settled(n, b, C);
    if f in n.cycle {
      assert MemberSettled(n, b, n.cycle[f], f);
      MemberBounded(n, n.cycle[f], f);
    }
  }

  /** Validation drops nothing when every call leads to a function. */
  lemma NothingDropped(functions: seq<Id>, calls: Calls, kept: Calls)
    requires calls.Keys == kept.Keys == SetOf(functions) && Closed(calls)
    requires forall f :: f in functions ==> kept[f] == Kept(calls[f], SetOf(functions))
    ensures FC.SameEdges(calls, kept)
  {
    forall u, v
      ensures Edge(kept, u, v) <==> Edge(calls, u, v)
    {
      assert u in calls ==> u in SetOf(functions);
    }
  }

  /** The self times are the exact parts of all samples. */
  lemma TimeRatios(events: seq<Chain>, samples: map<Id, nat>, selfTime: map<Id, real>, functions: seq<Id>)
    requires NoDup(functions) && selfTime.Keys == samples.Keys == SetOf(functions)
    requires forall f :: f in SetOf(functions) <==> Occurs(events, f)
    requires forall f :: f in samples ==> samples[f] == Running(events, f)
    requires forall f :: f in selfTime ==> selfTime[f] == Ratio(samples[f] as real, SampleCount(events) as real)
    ensures forall f :: f in selfTime ==> 0.0 <= selfTime[f] <= 1.0
    ensures 0 < SampleCount(events) ==> forall f :: f in selfTime ==> selfTime[f] == Running(events, f) as real / SampleCount(events) as real
  {
    forall f | f in selfTime
      ensures 0.0 <= selfTime[f] <= 1.0
      ensures 0 < SampleCount(events) ==> selfTime[f] == Running(events, f) as real / SampleCount(events) as real
    {
      SampleBounds(events, f);
      if 0 < SampleCount(events) {
        PartOf(Running(events, f), SampleCount(events));
      }
    }
  }

  lemma PartOf(a: nat, b: nat)
    requires a <= b && 0 < b
    ensures 0.0 <= a as real / b as real <= 1.0
    ensures Ratio(a as real, b as real) == a as real / b as real
  {
  }

  /** All self times together are the whole profile. */
  lemma SelfTimesSum(n: Net, events: seq<Chain>)
    requires NoDup(n.functions) && n.self.Keys == SetOf(n.functions) && 0 < SampleCount(events)
    requires forall f :: f in SetOf(n.functions) <==> Occurs(events, f)
    requires forall f :: f in n.self ==> n.self[f] == Running(events, f) as real / SampleCount(events) as real
    ensures Sum(n.functions, Selfs(n)) == 1.0
  {
    var t := SampleCount(events) as real;
    forall f | Occurs(events, f)
      ensures f in n.functions
    {
      assert f in SetOf(n.functions);
    }
    RunningSum(events, n.functions);
    forall f | f in n.functions
      ensures Selfs(n)(f) == Times(RunningIn(events)(f), 1.0 / t)
    {
      assert f in SetOf(n.functions);
      Divided(RunningIn(events)(f), t);
    }
    SumTimes(n.functions, 1.0 / t, RunningIn(events), Selfs(n));
    Inverse(t);
  }

  /** The profile holds the samples, and nothing derived from them. */
  ghost predicate Loaded(p: Profile, events: seq<Chain>)
    reads p
  {
    && Tallied(p, events)
    && p.cycle == map[] && p.cycleFunctions == [] && p.callRatio == map[] && p.selfTime == map[] && p.profileSelf == map[]
    && p.totalTime == map[] && p.callTime == map[] && p.cycleTime == map[] && p.profileTotal == map[]
  }

  method Load(events: seq<Chain>) returns (p: Profile)
    ensures fresh(p) && Loaded(p, events)
  {
    hide Tallied;
    p := new Profile();
    NothingTallied(p);
    for i := 0 to |events|
      invariant fresh(p) && Loaded(p, events[..i])
    {
      assert events[..i + 1] == events[..i] + [events[i]];
      ParseEvent(p, events[i], events[..i]);
    }
    assert events[..|events|] == events;
  }

  lemma NothingTallied(p: Profile)
    requires p.functions == [] && p.calls == map[] && p.samples == map[] && p.totalSamples == map[]
    requires p.profileSamples == 0 && p.callWeight == map[]
    ensures Tallied(p, [])
  {
  }

  /** Every call has been seen, between functions that have been seen. */
  ghost predicate Sampled(functions: seq<Id>, calls: Calls, w: Weights, samples: map<Id, nat>, taken: nat, events: seq<Chain>) {
    && NoDup(functions) && calls.Keys == SetOf(functions) && Closed(calls)
    && (forall f :: f in calls ==> NoDup(calls[f]))
    && (forall u, v :: Edge(calls, u, v) ==> (u, v) in w && 0.0 < w[(u, v)])
    && samples.Keys == SetOf(functions) && taken == SampleCount(events)
    && (forall f :: f in samples ==> samples[f] == Running(events, f))
    && (forall f :: f in SetOf(functions) <==> Occurs(events, f))
  }

  lemma TalliedSampled(p: Profile, events: seq<Chain>)
    requires Tallied(p, events)
    ensures Sampled(p.functions, p.calls, p.callWeight, p.samples, p.profileSamples, events)
  {
    hide Calling, Occurs, SampleCount, Running, OnStack;
    forall u, v | Edge(p.calls, u, v)
      ensures (u, v) in p.callWeight && 0.0 < p.callWeight[(u, v)] && v in p.calls
    {
      assert p.callWeight[(u, v)] == Weighing(p.callWeight, u, v);
      CallingOccur(events, u, v);
      assert v in SetOf(p.functions);
    }
    forall a, b | a in p.calls && b in p.calls[a]
      ensures b in p.calls
    {
      assert Edge(p.calls, a, b);
    }
    assert forall f :: f in p.samples ==> p.samples[f] == Count(p.samples, f);
  }

  lemma SampledKept(functions: seq<Id>, calls: Calls, kept: Calls, w: Weights, samples: map<Id, nat>, taken: nat, events: seq<Chain>)
    requires Sampled(functions, calls, w, samples, taken, events) && kept.Keys == SetOf(functions) && Closed(kept)
    requires forall f :: f in kept ==> NoDup(kept[f])
    requires forall f :: f in functions ==> kept[f] == Kept(calls[f], SetOf(functions))
    ensures Sampled(functions, kept, w, samples, taken, events)
  {
    hide Occurs, SampleCount, Running;
    NothingDropped(functions, calls, kept);
  }

  /** Everything integration needs, whatever the weights, from the cycles found and the ratios assigned. */
  lemma AssembleAny(n: Net, w: Weights, members: seq<set<Id>>)
    requires NoDup(n.functions) && n.calls.Keys == SetOf(n.functions) && Closed(n.calls)
    requires (forall f :: f in n.calls ==> NoDup(n.calls[f])) && FC.CyclesFound(n.calls, n.cycle, members)
    requires n.self.Keys == SetOf(n.functions) && forall f :: f in n.self ==> 0.0 <= n.self[f]
    requires forall u, v :: (u, v) in n.ratio <==> Edge(n.calls, u, v) && u != v
    requires var n0 := Net(n.functions, n.calls, n.cycle, map[], n.self);
             forall u, v :: (u, v) in n.ratio ==> n.ratio[(u, v)] == RatioOf(n0, w, u, v)
    ensures Books.Ready(n) && Rated(n, w)
    ensures forall f :: f in n.cycle ==> n.cycle[f] < |members| && members[n.cycle[f]] == InComp(n, Cyc(n.cycle[f]))
  {
    hide FC.CyclesFound, Ratio, RatioOf, Sum, Books.Ready, InComp, Net.Sound;
    var n0 := Net(n.functions, n.calls, n.cycle, map[], n.self);
    CyclesAreComponents(n, members);
    forall u, v | (u, v) in n.ratio
      ensures n.ratio[(u, v)] == RatioOf(n, w, u, v)
    {
      RatioOfSame(n0, n, w, u, v);
    }
    RatedReady(n, w);
  }

  /** The samples make the ratios positive and the self times the parts of a whole. */
  lemma Assemble(n: Net, w: Weights, samples: map<Id, nat>, taken: nat, events: seq<Chain>)
    requires Sampled(n.functions, n.calls, w, samples, taken, events) && Books.Ready(n) && Rated(n, w)
    requires forall f :: f in n.self ==> n.self[f] == Ratio(samples[f] as real, taken as real)
    ensures Normalised(n) && Lively(n) && Weighed(n, w)
    ensures 0 < taken ==> Sum(n.functions, Selfs(n)) == 1.0
  {
    hide Occurs, SampleCount, Running, Ratio, RatioOf, Sum, Normalised, Lively;
    TimeRatios(events, samples, n.self, n.functions);
    WeighedReady(n, w);
    if 0 < taken {
      SelfTimesSum(n, events);
    }
  }

  lemma LoadedTallied(p: Profile, events: seq<Chain>)
    requires Loaded(p, events)
    ensures Tallied(p, events) && p.Shaped()
  {
  }

  /** The profile holds counters, and nothing derived from them. */
  ghost predicate Underived(p: Profile)
    reads p
  {
    && p.Shaped() && p.samples.Keys == SetOf(p.functions)
    && p.cycle == map[] && p.cycleFunctions == [] && p.callRatio == map[] && p.selfTime == map[] && p.profileSelf == map[]
    && p.totalTime == map[] && p.callTime == map[] && p.cycleTime == map[] && p.profileTotal == map[]
  }

  /** The derived data up to integration, for any samples and any weights: cycles, self times and call ratios. */
  method Derive(p: Profile)
    requires Underived(p)
    modifies p`calls, p`cycle, p`cycleFunctions, p`cycles, p`selfTime, p`profileSelf, p`callRatio
    ensures Describes(NetOf(p), p) && Rated(NetOf(p), p.callWeight)
    ensures p.Shaped() && Closed(p.calls)
    ensures forall f :: f in p.functions ==> p.calls[f] == Kept(old(p.calls)[f], SetOf(p.functions))
    ensures forall f :: f in p.functions ==> (f in p.cycle <==> HasPartner(p.calls, f))
    ensures p.selfTime.Keys == SetOf(p.functions) && p.profileSelf == map[() := 1.0]
    ensures forall f :: f in p.selfTime ==> p.selfTime[f] == Ratio(p.samples[f] as real, p.profileSamples as real)
    ensures forall u, v :: (u, v) in p.callRatio ==> 0.0 <= p.callRatio[(u, v)] <= 1.0
  {
    hide FC.CyclesFound, RatioOf, Ratio, Books.Ready, InComp, NoDup, HasPartner;
    p.Validate();
    FC.FindCycles(p);
    CyclesHold(p.functions, p.calls, p.cycle, p.cycleFunctions);
    TimeRatio(p);
    CallRatios.CallRatios(p);
    RatiosBelowOne(p.samples, p.profileSamples, p.selfTime);
    AssembleAny(NetOf(p), p.callWeight, p.cycleFunctions);
    ghost var n0 := Net(p.functions, p.calls, p.cycle, map[], p.selfTime);
    forall u, v | (u, v) in p.callRatio
      ensures 0.0 <= p.callRatio[(u, v)] <= 1.0
    {
      RatioRange(n0, p.callWeight, u, v);
    }
  }

  lemma CyclesHold(functions: seq<Id>, calls: Calls, cycle: map<Id, nat>, members: seq<set<Id>>)
    requires FC.CyclesFound(calls, cycle, members) && calls.Keys == SetOf(functions)
    ensures forall f :: f in functions ==> (f in cycle <==> HasPartner(calls, f))
  {
    hide Mutual;
    forall f | f in functions
      ensures f in cycle <==> HasPartner(calls, f)
    {
      assert f in SetOf(functions);
      assert HasPartner(calls, f) <==> f in cycle;
    }
  }

  lemma RatiosBelowOne(samples: map<Id, nat>, taken: nat, selfTime: map<Id, real>)
    requires selfTime.Keys == samples.Keys
    requires forall f :: f in selfTime ==> selfTime[f] == Ratio(samples[f] as real, taken as real)
    ensures forall f :: f in selfTime ==> 0.0 <= selfTime[f] <= 1.0
  {
  }

  /** The same for samples of the parser: the ratios are positive and normalised. */
  method Prepare(p: Profile, ghost events: seq<Chain>)
    requires Loaded(p, events)
    modifies p`calls, p`cycle, p`cycleFunctions, p`cycles, p`selfTime, p`profileSelf, p`callRatio
    ensures Describes(NetOf(p), p) && Normalised(NetOf(p)) && Lively(NetOf(p))
    ensures forall f :: f in SetOf(p.functions) <==> Occurs(events, f)
    ensures 0 < SampleCount(events) ==> Sum(p.functions, Selfs(NetOf(p))) == 1.0
    ensures p.profileSelf == map[() := 1.0]
    ensures forall u, v :: (u, v) in p.callRatio <==> Edge(p.calls, u, v) && u != v
    ensures forall u, v :: (u, v) in p.callRatio ==> 0.0 <= p.callRatio[(u, v)] <= 1.0
    ensures p.Shaped() && Closed(p.calls) && p.selfTime.Keys == SetOf(p.functions) == p.samples.Keys
    ensures forall f :: f in p.selfTime ==> p.selfTime[f] == Ratio(p.samples[f] as real, p.profileSamples as real)
    ensures forall f :: f in p.functions ==> (f in p.cycle <==> HasPartner(p.calls, f))
    ensures forall u, v :: Edge(p.calls, u, v) <==> Edge(old(p.calls), u, v)
    ensures Weighed(NetOf(p), p.callWeight)
  {
    hide HasPartner, Tallied, Occurs, SampleCount, Running, FC.CyclesFound, Sum, RatioOf, Ratio, Normalised, Lively, Books.Ready, Sampled,
         InComp, NoDup, Closed;
    LoadedTallied(p, events);
    TalliedSampled(p, events);
    SampledParts(p.functions, p.calls, p.callWeight, p.samples, p.profileSamples, events);
    ghost var calls0 := p.calls;
    Derive(p);
    ShapedParts(p);
    SampledKept(p.functions, calls0, p.calls, p.callWeight, p.samples, p.profileSamples, events);
    DescribesParts(NetOf(p), p);
    SameCalls(p.functions, calls0, p.calls, p.callWeight, p.samples, p.profileSamples, events);
    Assemble(NetOf(p), p.callWeight, p.samples, p.profileSamples, events);
  }

  lemma SameCalls(functions: seq<Id>, calls: Calls, kept: Calls, w: Weights, samples: map<Id, nat>, taken: nat, events: seq<Chain>)
    requires Sampled(functions, calls, w, samples, taken, events) && kept.Keys == SetOf(functions)
    requires forall f :: f in functions ==> kept[f] == Kept(calls[f], SetOf(functions))
    ensures forall u, v :: Edge(kept, u, v) <==> Edge(calls, u, v)
  {
    hide Occurs, SampleCount, Running;
    NothingDropped(functions, calls, kept);
  }

  lemma ShapedParts(p: Profile)
    requires p.Shaped()
    ensures p.calls.Keys == SetOf(p.functions) && forall f :: f in p.calls ==> NoDup(p.calls[f])
  {
  }

  /**
    * Integration of any profile, with calls of any weight or none. It comes to its end exactly when no check
    * fails; then every function has the total it is due. With weights that are not negative, where there are any, what
    * the components nobody calls from outside have, and what is lost, are all the self time and what is counted again.
    */
  method DeriveAndIntegrate(p: Profile) returns (ok: bool)
    requires Underived(p)
    modifies p`calls, p`cycle, p`cycleFunctions, p`cycles, p`selfTime, p`profileSelf, p`callRatio, p`totalTime, p`callTime,
             p`cycleTime, p`profileTotal
    ensures Describes(NetOf(p), p) && Rated(NetOf(p), p.callWeight)
    ensures ok <==> !SomeCheckFails(NetOf(p))
    ensures ok ==> AllSettled(NetOf(p), BookOf(p), |p.functions|) && p.totalTime.Keys == SetOf(p.functions)
    ensures ok ==> AddsUp(NetOf(p), BookOf(p))
    ensures Weighable(NetOf(p), p.callWeight) ==>
      RootSum(NetOf(p)) + Sum(Comps(NetOf(p)), Lost(NetOf(p), p.callWeight)) ==
      Sum(p.functions, Selfs(NetOf(p))) + Sum(Comps(NetOf(p)), Extra(NetOf(p), p.callWeight))
    ensures Weighable(NetOf(p), p.callWeight) && (forall D :: !LeftOut(NetOf(p), p.callWeight, D)) ==>
      (RootSum(NetOf(p)) == Sum(p.functions, Selfs(NetOf(p))) <==> forall D :: !CountedAgain(NetOf(p), p.callWeight, D))
    ensures Weighable(NetOf(p), p.callWeight) && (forall D :: !CountedAgain(NetOf(p), p.callWeight, D)) ==>
      (RootSum(NetOf(p)) == Sum(p.functions, Selfs(NetOf(p))) <==> forall D :: !LeftOut(NetOf(p), p.callWeight, D))
  {
    hide FC.CyclesFound, RatioOf, Ratio, InComp, NoDup, Sum, AllSettled, SomeCheckFails, CountedAgain, LeftOut, Kept, AddsUp,
         Weighable, Describes, Rated, RootTotals, Lost, Extra, Comps, Net.Sound, Profile.Shaped, Closed;
    Derive(p);
    ghost var n := NetOf(p);
    DescribesParts(n, p);
    ok := Integrate.Integrate(p);
    if ok {
      AllHaveTotals(n, BookOf(p));
      SettledAddsUp(n, BookOf(p));
    }
    if Weighable(n, p.callWeight) {
      AccountingWeighed(n, p.callWeight);
      ConservedIff(n, p.callWeight);
    }
  }

  lemma SampledParts(functions: seq<Id>, calls: Calls, w: Weights, samples: map<Id, nat>, taken: nat, events: seq<Chain>)
    requires Sampled(functions, calls, w, samples, taken, events)
    ensures samples.Keys == SetOf(functions) && taken == SampleCount(events)
    ensures forall f :: f in SetOf(functions) <==> Occurs(events, f)
  {
  }

  /** The totals of the components that nobody calls from outside. */
  ghost function RootSum(n: Net): real {
    Sum(Comps(n), RootTotals(n))
  }

  /** Both ways of finding totals start here: the samples counted, and the data derived from them up to call ratios. */
  method ParseSamples(events: seq<Chain>) returns (p: Profile)
    ensures fresh(p) && forall f :: f in SetOf(p.functions) <==> Occurs(events, f)
    ensures Adjacent(p.calls, events)
    ensures Describes(NetOf(p), p) && Normalised(NetOf(p)) && Lively(NetOf(p)) && Weighed(NetOf(p), p.callWeight)
    ensures 0 < SampleCount(events) ==> Sum(p.functions, Selfs(NetOf(p))) == 1.0
    ensures forall f :: f in p.functions ==> (f in p.cycle <==> HasPartner(p.calls, f))
    ensures forall u, v :: (u, v) in p.callRatio <==> Edge(p.calls, u, v) && u != v
    ensures forall u, v :: (u, v) in p.callRatio ==> 0.0 <= p.callRatio[(u, v)] <= 1.0
    ensures p.Shaped() && Closed(p.calls) && p.profileSelf == map[() := 1.0]
    ensures p.selfTime.Keys == p.samples.Keys == p.totalSamples.Keys == SetOf(p.functions)
    ensures forall f :: f in p.selfTime ==> p.selfTime[f] == Ratio(p.samples[f] as real, p.profileSamples as real)
    ensures p.profileSamples == SampleCount(events)
    ensures forall f :: f in p.samples ==> p.samples[f] == Running(events, f)
    ensures forall f :: f in p.totalSamples ==> p.totalSamples[f] == OnStack(events, f)
    ensures p.totalTime == map[] && p.callTime == map[] && p.cycleTime == map[] && p.profileTotal == map[]
  {
    hide HasPartner, Edge, Tallied, Loaded, Occurs, SampleCount, Running, OnStack, Sum, Normalised, Lively, Weighed,
         Books.Ready, Describes, Closed, NoDup, SetOf, Adjacent, Ratio, Profile.Shaped;
    p := Load(events);
    LoadedCounters(p, events);
    ghost var calls0 := p.calls;
    Prepare(p, events);
    AdjacentSame(calls0, p.calls, events);
  }

  /**
    * The whole way from samples to totals. Exactly the functions seen have a total, and it is the one they are
    * due, between zero and one; the components that nobody calls from outside divide exactly the whole profile
    * among them. A call leads from the outer of two adjacent places to the inner one. What is stored adds up: a
    * call has its ratio of its callee's time, a function its self time and the times of its calls, and the callers
    * of a function its total between them. A function that all samples end with has all time.
    */
  method ParsePerf(events: seq<Chain>) returns (p: Profile)
    ensures fresh(p) && forall f :: f in SetOf(p.functions) <==> Occurs(events, f)
    ensures Adjacent(p.calls, events)
    ensures forall f :: f in p.functions ==> (f in p.cycle <==> HasPartner(p.calls, f))
    ensures Describes(NetOf(p), p) && Normalised(NetOf(p)) && Weighed(NetOf(p), p.callWeight)
    ensures AllSettled(NetOf(p), BookOf(p), |p.functions|) && p.totalTime.Keys == SetOf(p.functions)
    ensures AddsUp(NetOf(p), BookOf(p)) && PaysAll(NetOf(p), BookOf(p))
    ensures 0 < SampleCount(events) ==> p.profileTotal == map[() := 1.0] && RootSum(NetOf(p)) == 1.0
    ensures 0 < SampleCount(events) ==> forall f :: f in p.totalTime ==> 0.0 <= p.totalTime[f] <= 1.0
    ensures forall f :: f in p.selfTime ==> (
      var taken := |set i: nat | i < |events| && events[i] != []|;
      0 < taken && p.selfTime[f] == |set i: nat | i < |events| && events[i] != [] && events[i][0] == f| as real / taken as real)
    ensures forall f :: OnlyOuter(events, f) ==> forall u :: !Edge(p.calls, u, f)
    ensures forall main :: main in p.functions && AtOuterEnd(events, main) ==> p.totalTime[main] == 1.0
  {
    hide HasPartner, Edge, Tallied, Loaded, Occurs, SampleCount, Running, Sum, Normalised, Lively, Weighed, Books.Ready, AllSettled,
         Describes, CyclePasses, AddsUp, PaysAll, AtOuterEnd, OnlyOuter, Closed, NoDup, SetOf, Adjacent;
    p := ParseSamples(events);
    ghost var n := NetOf(p);
    var ok := Integrate.Integrate(p);
    DescribesParts(n, p);
    NoCheckFails(n);
    AllHaveTotals(n, BookOf(p));
    SettledAddsUp(n, BookOf(p));
    SettledPaysAll(n, BookOf(p));
    ParsedBounds(n, BookOf(p), events);
    ParsedSelf(n.self, p.functions, p.samples, p.profileSamples, events);
    ParsedCalls(n, BookOf(p), events);
  }

  lemma ParsedBounds(n: Net, b: Book, events: seq<Chain>)
    requires Books.Ready(n) && Normalised(n) && Lively(n) && AllSettled(n, b, |n.functions|)
    requires b.total.Keys == SetOf(n.functions)
    requires 0 < SampleCount(events) ==> Sum(n.functions, Selfs(n)) == 1.0
    ensures 0 < SampleCount(events) ==> RootSum(n) == 1.0
    ensures 0 < SampleCount(events) ==> forall f :: f in b.total ==> 0.0 <= b.total[f] <= 1.0
  {
    hide SampleCount, Sum, Normalised, Lively, Books.Ready, AllSettled;
    if 0 < SampleCount(events) {
      ReadyConserves(n);
      forall f | f in b.total
        ensures 0.0 <= b.total[f] <= 1.0
      {
        TotalsBounded(n, b, f);
      }
    }
  }

  /** Self times are exact parts of the samples taken. */
  lemma ParsedSelf(selfTime: map<Id, real>, functions: seq<Id>, samples: map<Id, nat>, taken: nat, events: seq<Chain>)
    requires selfTime.Keys == SetOf(functions) == samples.Keys
    requires forall f :: f in SetOf(functions) <==> Occurs(events, f)
    requires forall f :: f in selfTime ==> selfTime[f] == Ratio(samples[f] as real, taken as real)
    requires taken == SampleCount(events) && forall f :: f in samples ==> samples[f] == Running(events, f)
    ensures forall f :: f in selfTime ==> (
      var all := |set i: nat | i < |events| && events[i] != []|;
      0 < all && selfTime[f] == |set i: nat | i < |events| && events[i] != [] && events[i][0] == f| as real / all as real)
  {
    hide Running, SampleCount, Ratio;
    forall f | f in selfTime
      ensures 0 < SampleCount(events)
      ensures selfTime[f] == Running(events, f) as real / SampleCount(events) as real
    {
      OccursCounted(events, f);
      SampleBounds(events, f);
      PartOf(Running(events, f), SampleCount(events));
    }
    SampleCountIs(events);
    forall f
      ensures Running(events, f) == |set i: nat | i < |events| && events[i] != [] && events[i][0] == f|
    {
      RunningIs(events, f);
    }
  }

  lemma OccursCounted(events: seq<Chain>, f: Id)
    requires Occurs(events, f)
    ensures 0 < SampleCount(events)
  {
    SampleCountIs(events);
    var i :| 0 <= i < |events| && f in events[i];
    assert (i as nat) in set i: nat | i < |events| && events[i] != [];
  }

  /** Functions at the outer end are called by nobody, and one at the outer end of all samples has all time. */
  lemma ParsedCalls(n: Net, b: Book, events: seq<Chain>)
    requires Books.Ready(n) && AllSettled(n, b, |n.functions|) && Adjacent(n.calls, events)
    requires forall f :: f in SetOf(n.functions) <==> Occurs(events, f)
    requires forall f :: f in n.functions ==> (f in n.cycle <==> HasPartner(n.calls, f))
    requires 0 < SampleCount(events) ==> RootSum(n) == 1.0
    ensures forall f :: OnlyOuter(events, f) ==> forall u :: !Edge(n.calls, u, f)
    ensures forall main :: main in n.functions && AtOuterEnd(events, main) ==> main in b.total && b.total[main] == 1.0
  {
    hide Books.Ready, AllSettled, Adjacent, Occurs, HasPartner, Edge, SampleCount, AtOuterEnd, OnlyOuter;
    forall f | OnlyOuter(events, f)
      ensures forall u :: !Edge(n.calls, u, f)
    {
      OuterUncalled(n.calls, events, f);
    }
    forall main | main in n.functions && AtOuterEnd(events, main)
      ensures main in b.total && b.total[main] == 1.0
    {
      ParsedMain(n, b, events, main);
    }
  }

  lemma ParsedMain(n: Net, b: Book, events: seq<Chain>, main: Id)
    requires Books.Ready(n) && AllSettled(n, b, |n.functions|) && Adjacent(n.calls, events)
    requires forall f :: f in SetOf(n.functions) <==> Occurs(events, f)
    requires main in n.cycle ==> HasPartner(n.calls, main)
    requires 0 < SampleCount(events) ==> RootSum(n) == 1.0
    requires main in n.functions && AtOuterEnd(events, main)
    ensures main in b.total && b.total[main] == 1.0
  {
    hide AllSettled, Adjacent, Occurs, Reach, Edge, SampleCount, AtOuterEnd, Total;
    assert forall f :: f in n.functions <==> f in SetOf(n.functions);
    OccursCounted(events, main);
    MainHasAll(n, events, main);
    UncalledMain(n, events, main);
    if g :| g != main && Mutual(n.calls, main, g) {
      NobodyReaches(n.calls, g, main);
    }
    Outgoing(n, b, main);
  }

  lemma LoadedCounters(p: Profile, events: seq<Chain>)
    requires Loaded(p, events)
    ensures p.totalSamples.Keys == p.samples.Keys == SetOf(p.functions) && p.profileSamples == SampleCount(events)
    ensures p.totalTime == map[] && p.callTime == map[] && p.cycleTime == map[] && p.profileTotal == map[]
    ensures forall f :: f in p.samples ==> p.samples[f] == Running(events, f)
    ensures forall f :: f in p.totalSamples ==> p.totalSamples[f] == OnStack(events, f)
    ensures Adjacent(p.calls, events)
  {
    hide Running, OnStack, SampleCount, Occurs, Calling, Weighing;
    TalliedMeans(p, events);
    assert forall f :: f in p.samples ==> p.samples[f] == Count(p.samples, f);
    assert forall f :: f in p.totalSamples ==> p.totalSamples[f] == Count(p.totalSamples, f);
  }

  lemma NoCheckFails(n: Net)
    requires Books.Ready(n) && Lively(n)
    ensures !SomeCheckFails(n)
  {
    hide CyclePasses, Net.Sound, Lively, Usable;
    forall c
      ensures CyclePasses(n, c)
    {
      LivelyPasses(n, c);
    }
  }

  /** When everything is settled exactly the functions have totals. */
  lemma AllHaveTotals(n: Net, b: Book)
    requires AllSettled(n, b, |n.functions|)
    ensures b.total.Keys == SetOf(n.functions)
    ensures forall f :: f in b.total ==> f in n.functions
  {
    hide Total, MemberTotal, OutCalls, InCalls, CyclePasses;
    forall f | f in n.functions
      ensures f in b.total
    {
      CompIn(n, f);
      var i :| 0 <= i < |n.functions| && n.functions[i] == f;
      assert Done(b, n.CompOf(n.functions[i]));
      assert Settled(n, b, n.CompOf(f));
      if f in n.cycle {
        assert MemberSettled(n, b, n.cycle[f], f);
      }
    }
  }

  lemma ReadyConserves(n: Net)
    requires Books.Ready(n) && Normalised(n)
    ensures RootSum(n) == Sum(n.functions, Selfs(n))
  {
    Conservation(n);
  }
}

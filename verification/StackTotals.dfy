/** PerfParser.parse with the call stacks themselves: a function's total is its part of the samples it is on. */
module StackTotals {
  import opened Paths
  import opened Seqs
  import opened Sums
  import opened Components
  import opened CallRatios
  import opened Entries
  import opened Integrate
  import opened Profiles
  import opened Samples
  import opened Perf
  import opened Ledger
  import opened Outermost
  import opened Bounds
  import opened CycleCalls
  import opened CycleTime
  import Books
  import opened TarjanSpec
  import opened Normalisation

  /** Profile.ratio again, for the samples a function is on the stack for. */
  method TotalRatio(p: Profile)
    requires p.totalSamples.Keys == SetOf(p.functions) && p.totalTime == map[]
    modifies p`totalTime, p`profileTotal
    ensures p.totalTime.Keys == SetOf(p.functions)
    ensures forall f :: f in p.totalTime ==> p.totalTime[f] == Ratio(p.totalSamples[f] as real, p.profileSamples as real)
    ensures p.profileTotal == map[() := 1.0]
  {
    assert p.functions[..|p.functions|] == p.functions;
    for i := 0 to |p.functions|
      invariant p.totalTime.Keys == SetOf(p.functions[..i])
      invariant forall f :: f in p.totalTime ==>
        f in p.totalSamples && p.totalTime[f] == Ratio(p.totalSamples[f] as real, p.profileSamples as real)
    {
      var f := p.functions[i];
      assert f in SetOf(p.functions);
      SetOfStep(p.functions, i);
      p.totalTime := p.totalTime[f := Ratio(p.totalSamples[f] as real, p.profileSamples as real)];
    }
    p.profileTotal := map[() := 1.0];
  }

  /** The calls of f that have a ratio get that part of their callee's total. */
  method ShareCalls(p: Profile, f: Id)
    requires p.calls.Keys == p.totalTime.Keys && f in p.calls && Closed(p.calls)
    modifies p`callTime
    ensures forall u, v :: (u, v) in p.callTime <==>
      (u, v) in old(p.callTime) || (u == f && v in p.calls[f] && (u, v) in p.callRatio)
    ensures forall u, v :: (u, v) in p.callTime ==> (
      if u == f && v in p.calls[f] && (u, v) in p.callRatio then
        v in p.totalTime && p.callTime[(u, v)] == Times(p.callRatio[(u, v)], p.totalTime[v])
      else p.callTime[(u, v)] == old(p.callTime)[(u, v)])
  {
    var callees := p.calls[f];
    assert callees[..|callees|] == callees;
    for j := 0 to |callees|
      invariant forall u, v :: (u, v) in p.callTime <==>
        (u, v) in old(p.callTime) || (u == f && v in callees[..j] && (u, v) in p.callRatio)
      invariant forall u, v :: (u, v) in p.callTime ==> (
        if u == f && v in callees[..j] && (u, v) in p.callRatio then
          v in p.totalTime && p.callTime[(u, v)] == Times(p.callRatio[(u, v)], p.totalTime[v])
        else p.callTime[(u, v)] == old(p.callTime)[(u, v)])
    {
      var v := callees[j];
      assert callees[..j + 1] == callees[..j] + [v];
      if (f, v) in p.callRatio {
        p.callTime := p.callTime[(f, v) := p.callRatio[(f, v)] * p.totalTime[v]];
      }
    }
  }

  method ShareTotals(p: Profile)
    requires p.Shaped() && Closed(p.calls) && p.totalTime.Keys == SetOf(p.functions) && p.callTime == map[]
    requires forall u, v :: (u, v) in p.callRatio <==> Edge(p.calls, u, v) && u != v
    modifies p`callTime
    ensures forall u, v :: (u, v) in p.callTime <==> Edge(p.calls, u, v) && u != v
    ensures forall u, v :: (u, v) in p.callTime ==>
      v in p.totalTime && p.callTime[(u, v)] == Times(p.callRatio[(u, v)], p.totalTime[v])
  {
    assert p.functions[..|p.functions|] == p.functions;
    for i := 0 to |p.functions|
      invariant forall u, v :: (u, v) in p.callTime <==> u in p.functions[..i] && Edge(p.calls, u, v) && u != v
      invariant forall u, v :: (u, v) in p.callTime ==>
        v in p.totalTime && p.callTime[(u, v)] == Times(p.callRatio[(u, v)], p.totalTime[v])
    {
      var f := p.functions[i];
      assert f in SetOf(p.functions);
      assert p.functions[..i + 1] == p.functions[..i] + [f];
      ShareCalls(p, f);
    }
    forall u, v | Edge(p.calls, u, v)
      ensures u in p.functions
    {
      assert u in SetOf(p.functions);
    }
  }

  /**
    * Every function's total is exactly the part of the samples it is on the stack for, however often it
    * recurs there, and no less than its self time. Every call gets its ratio of its callee's total. The calls of a
    * function outside cycles get all of its total between them, and the ratios of the calls into a cycle add up to one.
    */
  method ParsePerfStacks(events: seq<Chain>) returns (p: Profile)
    ensures fresh(p) && forall f :: f in SetOf(p.functions) <==> Occurs(events, f)
    ensures Adjacent(p.calls, events)
    ensures Normalised(NetOf(p)) && Weighed(NetOf(p), p.callWeight)
    ensures p.totalTime.Keys == p.selfTime.Keys == SetOf(p.functions)
    ensures forall f :: f in p.totalTime ==> (
      var taken := |set i: nat | i < |events| && events[i] != []|;
      0 < taken && p.totalTime[f] == |set i: nat | i < |events| && f in events[i]| as real / taken as real)
    ensures forall f :: f in p.totalTime ==> 0.0 <= p.selfTime[f] <= p.totalTime[f] <= 1.0
    ensures forall u, v :: (u, v) in p.callTime <==> Edge(p.calls, u, v) && u != v
    ensures forall u, v :: (u, v) in p.callTime ==>
      (u, v) in p.callRatio && v in p.totalTime && p.callTime[(u, v)] == Times(p.callRatio[(u, v)], p.totalTime[v])
    ensures forall u, v :: (u, v) in p.callTime ==> 0.0 <= p.callTime[(u, v)] <= p.totalTime[v]
    ensures forall v :: v in p.totalTime && v !in p.cycle && CalledByOther(p.calls, v) ==>
      Sum(p.functions, PaidFor(p.callTime, v)) == p.totalTime[v]
    ensures forall c :: Called(NetOf(p), Cyc(c)) ==> Sum(p.functions, RatioInto(NetOf(p), c)) == 1.0
  {
    hide HasPartner, Tallied, Loaded, Occurs, SampleCount, Running, OnStack, Sum, Normalised, Lively, Weighed, Describes, Ratio,
         Profile.Shaped, Closed, Edge, CalledByOther, Called, PaidFor, RatioInto, NoDup, Books.Ready, Adjacent, Times, SetOf;
    p := ParseSamples(events);
    ghost var n := NetOf(p);
    DescribesParts(n, p);
    TotalRatio(p);
    ShareTotals(p);
    TotalsExact(events, p.functions, p.samples, p.totalSamples, p.selfTime, p.totalTime);
    CallsBounded(p.callRatio, p.totalTime, p.callTime);
    SharesDivide(n, p.totalTime, p.callTime);
  }

  /** Calls that get their ratios of their callees' totals divide these between them. */
  lemma SharesDivide(n: Net, totalTime: map<Id, real>, callTime: CallTimes)
    requires Books.Ready(n) && Normalised(n) && totalTime.Keys == SetOf(n.functions)
    requires forall u, v :: (u, v) in callTime <==> Edge(n.calls, u, v) && u != v
    requires forall u, v :: (u, v) in callTime ==>
      (u, v) in n.ratio && v in totalTime && callTime[(u, v)] == Times(n.ratio[(u, v)], totalTime[v])
    ensures forall v :: v in totalTime && v !in n.cycle && CalledByOther(n.calls, v) ==>
      Sum(n.functions, PaidFor(callTime, v)) == totalTime[v]
    ensures forall c :: Called(n, Cyc(c)) ==> Sum(n.functions, RatioInto(n, c)) == 1.0
  {
    hide Net.Sound, NonNegative, Usable, Normalised, Sum, Edge, Called, PaidFor, RatioInto;
    forall v | v in totalTime && v !in n.cycle && CalledByOther(n.calls, v)
      ensures Sum(n.functions, PaidFor(callTime, v)) == totalTime[v]
    {
      assert v in SetOf(n.functions);
      CallersPaid(n, callTime, v, totalTime[v]);
    }
    forall c | Called(n, Cyc(c))
      ensures Sum(n.functions, RatioInto(n, c)) == 1.0
    {
      CycleRatios(n, c);
    }
  }

  lemma TotalsExact(events: seq<Chain>, functions: seq<Id>, samples: map<Id, nat>, totalSamples: map<Id, nat>,
                    selfTime: map<Id, real>, totalTime: map<Id, real>)
    requires SetOf(functions) == samples.Keys == totalSamples.Keys == selfTime.Keys == totalTime.Keys
    requires forall f :: f in SetOf(functions) <==> Occurs(events, f)
    requires forall f :: f in samples ==> samples[f] == Running(events, f)
    requires forall f :: f in totalSamples ==> totalSamples[f] == OnStack(events, f)
    requires forall f :: f in selfTime ==> selfTime[f] == Ratio(samples[f] as real, SampleCount(events) as real)
    requires forall f :: f in totalTime ==> totalTime[f] == Ratio(totalSamples[f] as real, SampleCount(events) as real)
    ensures forall f :: f in totalTime ==> 0.0 <= selfTime[f] <= totalTime[f] <= 1.0
    ensures forall f :: f in totalTime ==> (
      var taken := |set i: nat | i < |events| && events[i] != []|;
      0 < taken && totalTime[f] == |set i: nat | i < |events| && f in events[i]| as real / taken as real)
  {
    hide SampleCount, Running, OnStack, Ratio, Occurs;
    SampleCountIs(events);
    forall f | f in totalTime
      ensures 0.0 <= selfTime[f] <= totalTime[f] <= 1.0
      ensures 0 < SampleCount(events) && totalTime[f] == OnStack(events, f) as real / SampleCount(events) as real
      ensures OnStack(events, f) == |set i: nat | i < |events| && f in events[i]|
    {
      OccursCounted(events, f);
      StackRatio(events, f);
      OnStackIs(events, f);
    }
  }

  lemma CallsBounded(ratio: map<Arrow, real>, totalTime: map<Id, real>, callTime: map<Arrow, real>)
    requires forall u, v :: (u, v) in ratio ==> 0.0 <= ratio[(u, v)] <= 1.0
    requires forall f :: f in totalTime ==> 0.0 <= totalTime[f]
    requires forall u, v :: (u, v) in callTime ==>
      (u, v) in ratio && v in totalTime && callTime[(u, v)] == Times(ratio[(u, v)], totalTime[v])
    ensures forall u, v :: (u, v) in callTime ==> v in totalTime && 0.0 <= callTime[(u, v)] <= totalTime[v]
  {
    forall u, v | (u, v) in callTime
      ensures v in totalTime && 0.0 <= callTime[(u, v)] <= totalTime[v]
    {
      Part(ratio[(u, v)], totalTime[v], callTime[(u, v)]);
    }
  }

  lemma Part(r: real, t: real, s: real)
    requires 0.0 <= r <= 1.0 && 0.0 <= t && s == Times(r, t)
    ensures 0.0 <= s <= t
  {
    Sign(r, t);
    Sign(1.0 - r, t);
    assert Times(1.0 - r, t) == t - Times(r, t);
  }

  /** The parts of a positive number of samples are exact: neither end of the range is ever cut off. */
  lemma StackRatio(events: seq<Chain>, f: Id)
    ensures
      var self := Ratio(Running(events, f) as real, SampleCount(events) as real);
      var total := Ratio(OnStack(events, f) as real, SampleCount(events) as real);
      0.0 <= self <= total <= 1.0 &&
      (0 < SampleCount(events) ==>
         self == Running(events, f) as real / SampleCount(events) as real &&
         total == OnStack(events, f) as real / SampleCount(events) as real)
  {
    SampleBounds(events, f);
    var a, b, t := Running(events, f), OnStack(events, f), SampleCount(events);
    if 0 < t {
      PartOf(a, t);
      PartOf(b, t);
      PartsOrdered(a as real, b as real, t as real);
    }
  }

  lemma PartsOrdered(a: real, b: real, t: real)
    requires a <= b && 0.0 < t
    ensures a / t <= b / t
  {
  }
}

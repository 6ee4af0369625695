/** PerfParser.parse_event: counting samples per function, per call and for the whole profile. */
module Samples {
  import opened Paths
  import opened Seqs
  import opened Sums
  import opened Profiles

  /** The functions on the stack when a sample was taken, the running one first. */
  type Chain = seq<Id>

  function One(b: bool): (r: nat)
    ensures r <= 1
  {
    if b then 1 else 0
  }

  /** Samples taken. */
  function SampleCount(events: seq<Chain>): nat {
    if events == [] then 0 else SampleCount(events[..|events| - 1]) + One(events[|events| - 1] != [])
  }

  /** Samples with f running. */
  function Running(events: seq<Chain>, f: Id): nat {
    if events == [] then 0
    else
      var e := events[|events| - 1];
      Running(events[..|events| - 1], f) + One(e != [] && e[0] == f)
  }

  /** Samples with f anywhere on the stack. */
  function OnStack(events: seq<Chain>, f: Id): nat {
    if events == [] then 0 else OnStack(events[..|events| - 1], f) + One(f in events[|events| - 1])
  }

  /** Places below k where u calls v: v stands just before u. */
  function Pairs(e: Chain, k: nat, u: Id, v: Id): nat
    requires k <= |e|
  {
    if k <= 1 then 0 else Pairs(e, k - 1, u, v) + One(e[k - 1] == u && e[k - 2] == v)
  }

  /** Times u was seen calling v. */
  function Calling(events: seq<Chain>, u: Id, v: Id): nat {
    if events == [] then 0
    else
      var e := events[|events| - 1];
      Calling(events[..|events| - 1], u, v) + Pairs(e, |e|, u, v)
  }

  predicate Occurs(events: seq<Chain>, f: Id) {
    exists i :: 0 <= i < |events| && f in events[i]
  }

  function Count(m: map<Id, nat>, f: Id): nat {
    if f in m then m[f] else 0
  }

  function Weighing(w: map<Arrow, real>, u: Id, v: Id): real {
    if (u, v) in w then w[(u, v)] else 0.0
  }

  /** Every function has its counters. */
  ghost predicate HasCounters(p: Profile)
    reads p`functions, p`calls, p`samples, p`totalSamples
  {
    p.Shaped() && p.samples.Keys == SetOf(p.functions) && p.totalSamples.Keys == SetOf(p.functions)
  }

  /** The counters say how often each function and each call was seen. */
  ghost predicate Counts(functions: seq<Id>, calls: Calls, samples: map<Id, nat>, totalSamples: map<Id, nat>, taken: nat,
                         w: map<Arrow, real>, events: seq<Chain>)
  {
    && (forall f :: f in SetOf(functions) <==> Occurs(events, f))
    && taken == SampleCount(events)
    && (forall f :: Count(samples, f) == Running(events, f))
    && (forall f :: Count(totalSamples, f) == OnStack(events, f))
    && (forall u, v :: Edge(calls, u, v) <==> (u, v) in w)
    && (forall u, v :: (u, v) in w <==> 0 < Calling(events, u, v))
    && (forall u, v :: Weighing(w, u, v) == Calling(events, u, v) as real)
  }

  /** A counter for each function and for each call seen, and no others. */
  ghost predicate Tallied(p: Profile, events: seq<Chain>)
    reads p`functions, p`calls, p`samples, p`totalSamples, p`profileSamples, p`callWeight
  {
    HasCounters(p) && Counts(p.functions, p.calls, p.samples, p.totalSamples, p.profileSamples, p.callWeight, events)
  }

  lemma {:induction false} OccursLess(events: seq<Chain>, f: Id)
    ensures !Occurs(events, f) ==> Running(events, f) == 0 && OnStack(events, f) == 0
  {
    if events != [] {
      var r := events[..|events| - 1];
      OccursLess(r, f);
      if Occurs(r, f) {
        var i :| 0 <= i < |r| && f in r[i];
        assert f in events[i];
      }
      assert f in events[|events| - 1] ==> Occurs(events, f);
    }
  }

  lemma {:induction false} PairsOccur(e: Chain, k: nat, u: Id, v: Id)
    requires k <= |e|
    ensures 0 < Pairs(e, k, u, v) ==> u in e && v in e
  {
    if k > 1 {
      PairsOccur(e, k - 1, u, v);
    }
  }

  lemma {:induction false} CallingOccur(events: seq<Chain>, u: Id, v: Id)
    ensures 0 < Calling(events, u, v) ==> Occurs(events, u) && Occurs(events, v)
  {
    if events != [] {
      var r, e := events[..|events| - 1], events[|events| - 1];
      CallingOccur(r, u, v);
      PairsOccur(e, |e|, u, v);
      forall f | Occurs(r, f)
        ensures Occurs(events, f)
      {
        var i :| 0 <= i < |r| && f in r[i];
        assert f in events[i];
      }
      assert forall f :: f in e ==> f in events[|events| - 1];
    }
  }

  /** One more event. */
  lemma OneMore(events: seq<Chain>, e: Chain)
    ensures SampleCount(events + [e]) == SampleCount(events) + One(e != [])
    ensures forall f :: Running(events + [e], f) == Running(events, f) + One(e != [] && e[0] == f)
    ensures forall f :: OnStack(events + [e], f) == OnStack(events, f) + One(f in e)
    ensures forall u, v :: Calling(events + [e], u, v) == Calling(events, u, v) + Pairs(e, |e|, u, v)
    ensures forall f :: Occurs(events + [e], f) <==> Occurs(events, f) || f in e
  {
    var all := events + [e];
    assert all[..|all| - 1] == events && all[|all| - 1] == e;
    forall f
      ensures Occurs(all, f) <==> Occurs(events, f) || f in e
    {
      if Occurs(events, f) {
        var i :| 0 <= i < |events| && f in events[i];
        assert f in all[i];
      }
      if f in e {
        assert f in all[|events|];
      }
    }
  }

  /** A function seen for the first time starts with no samples. */
  method AddFunction(p: Profile, f: Id)
    requires HasCounters(p)
    modifies p`functions, p`calls, p`samples, p`totalSamples
    ensures HasCounters(p) && SetOf(p.functions) == old(SetOf(p.functions)) + {f}
    ensures forall g :: Count(p.samples, g) == Count(old(p.samples), g)
    ensures forall g :: Count(p.totalSamples, g) == Count(old(p.totalSamples), g)
    ensures forall u, v :: Edge(p.calls, u, v) <==> Edge(old(p.calls), u, v)
  {
    hide NoDup, SetOf, Edge;
    if f !in p.calls {
      Joining(p.functions, p.calls, f);
      p.functions := p.functions + [f];
      p.calls := p.calls[f := []];
      p.samples := p.samples[f := 0];
      p.totalSamples := p.totalSamples[f := 0];
    } else {
      assert SetOf(p.functions) == SetOf(p.functions) + {f};
    }
  }

  lemma Joining(functions: seq<Id>, calls: Calls, f: Id)
    requires NoDup(functions) && calls.Keys == SetOf(functions) && f !in calls
    requires forall g :: g in calls ==> NoDup(calls[g])
    ensures NoDup(functions + [f]) && SetOf(functions + [f]) == SetOf(functions) + {f}
    ensures forall u, v :: Edge(calls[f := []], u, v) <==> Edge(calls, u, v)
    ensures NoDup<Id>([])
  {
    SetOfPlus(functions, [f]);
  }

  method AddFunctions(p: Profile, e: Chain)
    requires HasCounters(p)
    modifies p`functions, p`calls, p`samples, p`totalSamples
    ensures HasCounters(p) && SetOf(p.functions) == old(SetOf(p.functions)) + SetOf(e)
    ensures forall g :: Count(p.samples, g) == Count(old(p.samples), g)
    ensures forall g :: Count(p.totalSamples, g) == Count(old(p.totalSamples), g)
    ensures forall u, v :: Edge(p.calls, u, v) <==> Edge(old(p.calls), u, v)
  {
    hide HasCounters, Edge, Count;
    assert e[..|e|] == e;
    for i := 0 to |e|
      invariant HasCounters(p) && SetOf(p.functions) == old(SetOf(p.functions)) + SetOf(e[..i])
      invariant forall g :: Count(p.samples, g) == Count(old(p.samples), g)
      invariant forall g :: Count(p.totalSamples, g) == Count(old(p.totalSamples), g)
      invariant forall u, v :: Edge(p.calls, u, v) <==> Edge(old(p.calls), u, v)
    {
      SetOfStep(e, i);
      AddFunction(p, e[i]);
    }
  }

  /** Each caller on the stack is seen calling the function before it. */
  method CountCalls(p: Profile, e: Chain)
    requires p.Shaped() && SetOf(e) <= SetOf(p.functions) && e != []
    requires forall u, v :: Edge(p.calls, u, v) <==> (u, v) in p.callWeight
    modifies p`calls, p`callWeight
    ensures p.Shaped()
    ensures forall u, v :: Edge(p.calls, u, v) <==> (u, v) in p.callWeight
    ensures forall u, v :: (u, v) in p.callWeight <==> (u, v) in old(p.callWeight) || 0 < Pairs(e, |e|, u, v)
    ensures forall u, v :: Weighing(p.callWeight, u, v) == Weighing(old(p.callWeight), u, v) + Pairs(e, |e|, u, v) as real
  {
    for i := 1 to |e|
      invariant p.Shaped()
      invariant forall u, v :: Edge(p.calls, u, v) <==> (u, v) in p.callWeight
      invariant forall u, v :: (u, v) in p.callWeight <==> (u, v) in old(p.callWeight) || 0 < Pairs(e, i, u, v)
      invariant forall u, v :: Weighing(p.callWeight, u, v) == Weighing(old(p.callWeight), u, v) + Pairs(e, i, u, v) as real
    {
      var caller, callee := e[i], e[i - 1];
      assert caller in SetOf(e);
      CountCall(p, caller, callee);
    }
  }

  /** One more call of v by u. */
  method CountCall(p: Profile, u: Id, v: Id)
    requires p.Shaped() && u in p.functions
    requires forall x, y :: Edge(p.calls, x, y) <==> (x, y) in p.callWeight
    modifies p`calls, p`callWeight
    ensures p.Shaped()
    ensures forall x, y :: Edge(p.calls, x, y) <==> (x, y) in p.callWeight
    ensures p.callWeight == old(p.callWeight)[(u, v) := Weighing(old(p.callWeight), u, v) + 1.0]
  {
    assert u in SetOf(p.functions);
    assert Edge(p.calls, u, v) <==> v in p.calls[u];
    if v in p.calls[u] {
      p.callWeight := p.callWeight[(u, v) := p.callWeight[(u, v)] + 1.0];
    } else {
      p.calls := p.calls[u := p.calls[u] + [v]];
      p.callWeight := p.callWeight[(u, v) := 1.0];
    }
  }

  /** TOTAL_SAMPLES goes up once for each function on the stack, however often it stands there. */
  method CountStack(p: Profile, e: Chain)
    requires HasCounters(p) && SetOf(e) <= SetOf(p.functions)
    modifies p`totalSamples
    ensures HasCounters(p)
    ensures forall f :: Count(p.totalSamples, f) == Count(old(p.totalSamples), f) + One(f in e)
  {
    var stack := SetOf(e);
    var todo := stack;
    while todo != {}
      invariant todo <= stack && HasCounters(p)
      invariant forall f :: Count(p.totalSamples, f) == Count(old(p.totalSamples), f) + One(f in stack - todo)
    {
      var f :| f in todo;
      p.totalSamples := p.totalSamples[f := p.totalSamples[f] + 1];
      todo := todo - {f};
    }
    assert forall f :: f in stack - todo <==> f in e;
  }

  /** The function running when the sample was taken, and the profile, have one more sample. */
  method CountRunning(p: Profile, f: Id)
    requires HasCounters(p) && f in SetOf(p.functions)
    modifies p`samples, p`profileSamples
    ensures HasCounters(p)
    ensures p.profileSamples == old(p.profileSamples) + 1
    ensures forall g :: Count(p.samples, g) == Count(old(p.samples), g) + One(f == g)
  {
    p.samples := p.samples[f := p.samples[f] + 1];
    p.profileSamples := p.profileSamples + 1;
  }

  /** The counters after one more event. */
  lemma NextCounts(functions: seq<Id>, calls: Calls, samples: map<Id, nat>, totalSamples: map<Id, nat>, taken: nat,
                   w: map<Arrow, real>, functions': seq<Id>, calls': Calls, samples': map<Id, nat>,
                   totalSamples': map<Id, nat>, taken': nat, w': map<Arrow, real>, events: seq<Chain>, e: Chain)
    requires Counts(functions, calls, samples, totalSamples, taken, w, events)
    requires SetOf(functions') == SetOf(functions) + SetOf(e)
    requires taken' == taken + One(e != [])
    requires forall f :: Count(samples', f) == Count(samples, f) + One(e != [] && e[0] == f)
    requires forall f :: Count(totalSamples', f) == Count(totalSamples, f) + One(f in e)
    requires forall u, v :: Edge(calls', u, v) <==> (u, v) in w'
    requires forall u, v :: (u, v) in w' <==> (u, v) in w || 0 < Pairs(e, |e|, u, v)
    requires forall u, v :: Weighing(w', u, v) == Weighing(w, u, v) + Pairs(e, |e|, u, v) as real
    ensures Counts(functions', calls', samples', totalSamples', taken', w', events + [e])
  {
    hide Running, OnStack, Calling, SampleCount, Occurs, Edge, Count, Weighing, Pairs;
    OneMore(events, e);
    forall f
      ensures f in SetOf(functions') <==> Occurs(events + [e], f)
    {
      assert f in SetOf(e) <==> f in e;
    }
  }

  lemma CountsEdges(functions: seq<Id>, calls: Calls, samples: map<Id, nat>, totalSamples: map<Id, nat>, taken: nat,
                    w: map<Arrow, real>, events: seq<Chain>)
    requires Counts(functions, calls, samples, totalSamples, taken, w, events)
    ensures forall u, v :: Edge(calls, u, v) <==> (u, v) in w
  {
  }

  /** One sample. An empty chain changes nothing. */
  method ParseEvent(p: Profile, e: Chain, ghost events: seq<Chain>)
    requires Tallied(p, events)
    modifies p`functions, p`calls, p`samples, p`totalSamples, p`profileSamples, p`callWeight
    ensures Tallied(p, events + [e])
  {
    hide Counts, Edge, Count, Weighing, Profile.Shaped, SetOf, HasCounters, Pairs, NoDup;
    ghost var functions, calls, samples, totalSamples, taken, w :=
      p.functions, p.calls, p.samples, p.totalSamples, p.profileSamples, p.callWeight;
    CountsEdges(functions, calls, samples, totalSamples, taken, w, events);
    AddFunctions(p, e);
    CountersShaped(p);
    SetOfIs(e);
    if e != [] {
      CountRunning(p, e[0]);
      CountCalls(p, e);
      CountersStay(p);
      CountStack(p, e);
    } else {
      NoPairs(e);
    }
    NextCounts(functions, calls, samples, totalSamples, taken, w,
               p.functions, p.calls, p.samples, p.totalSamples, p.profileSamples, p.callWeight, events, e);
  }

  lemma SetOfIs(e: Chain)
    ensures forall f :: f in SetOf(e) <==> f in e
  {
  }

  lemma NoPairs(e: Chain)
    ensures e == [] ==> forall u, v :: Pairs(e, |e|, u, v) == 0
  {
  }

  lemma CountersStay(p: Profile)
    requires p.Shaped() && p.samples.Keys == p.totalSamples.Keys == SetOf(p.functions)
    ensures HasCounters(p)
  {
  }

  lemma CountersShaped(p: Profile)
    requires HasCounters(p)
    ensures p.Shaped() && p.samples.Keys == p.totalSamples.Keys == SetOf(p.functions)
  {
  }

  /** A function runs in no more samples than it is on the stack for, and those are no more than were taken. */
  lemma {:induction false} SampleBounds(events: seq<Chain>, f: Id)
    ensures Running(events, f) <= OnStack(events, f) <= SampleCount(events)
  {
    if events != [] {
      SampleBounds(events[..|events| - 1], f);
    }
  }

  ghost function RunningIn(events: seq<Chain>): Id -> real {
    f => Running(events, f) as real
  }

  ghost function RunsIn(e: Chain): Id -> real {
    f => One(e != [] && e[0] == f) as real
  }

  /** Every sample has exactly one running function. */
  lemma {:induction false} RunningSum(events: seq<Chain>, functions: seq<Id>)
    requires NoDup(functions) && forall f :: Occurs(events, f) ==> f in functions
    ensures Sum(functions, RunningIn(events)) == SampleCount(events) as real
  {
    if events == [] {
      SumZero(functions, RunningIn(events));
    } else {
      var r, e := events[..|events| - 1], events[|events| - 1];
      forall f | Occurs(r, f)
        ensures f in functions
      {
        var i :| 0 <= i < |r| && f in r[i];
        assert f in events[i];
      }
      RunningSum(r, functions);
      SumPlus(functions, RunningIn(r), RunsIn(e), RunningIn(events));
      if e == [] {
        SumZero(functions, RunsIn(e));
      } else {
        assert e[0] in events[|events| - 1];
        SumPoint(functions, e[0], RunsIn(e));
      }
    }
  }

  // --- What the counters count, read off the samples ---

  /** Where u was seen calling v among the places below j of chain i: v stands at one place and u at the next. */
  ghost function SeenBelow(i: nat, e: Chain, j: nat, u: Id, v: Id): set<(nat, nat)>
    requires j <= |e|
  {
    set k: nat | k + 1 < j && e[k + 1] == u && e[k] == v :: (i, k)
  }

  lemma SeenStep(i: nat, e: Chain, j: nat, u: Id, v: Id)
    requires 1 < j <= |e|
    ensures SeenBelow(i, e, j, u, v) ==
      SeenBelow(i, e, j - 1, u, v) + if e[j - 1] == u && e[j - 2] == v then {(i, (j - 2) as nat)} else {}
    ensures (i, (j - 2) as nat) !in SeenBelow(i, e, j - 1, u, v)
  {
  }

  lemma {:induction false} PairsSeen(i: nat, e: Chain, j: nat, u: Id, v: Id)
    requires j <= |e|
    ensures |SeenBelow(i, e, j, u, v)| == Pairs(e, j, u, v)
  {
    hide SeenBelow;
    if j <= 1 {
      NoneSeen(i, e, j, u, v);
    } else {
      PairsSeen(i, e, j - 1, u, v);
      SeenStep(i, e, j, u, v);
    }
  }

  lemma NoneSeen(i: nat, e: Chain, j: nat, u: Id, v: Id)
    requires j <= |e| && j <= 1
    ensures SeenBelow(i, e, j, u, v) == {}
  {
  }

  /** Where u was seen calling v: in sample i, v stands at place k and u at the next. */
  ghost function Sightings(events: seq<Chain>, u: Id, v: Id): set<(nat, nat)> {
    set i: nat, k: nat | i < |events| && k + 1 < |events[i]| && events[i][k + 1] == u && events[i][k] == v :: (i, k)
  }

  /** A call weighs as much as there are places in the samples where its caller stands right after its callee. */
  lemma CallingIs(events: seq<Chain>, u: Id, v: Id)
    ensures Calling(events, u, v) ==
      |set i: nat, k: nat | i < |events| && k + 1 < |events[i]| && events[i][k + 1] == u && events[i][k] == v :: (i, k)|
    ensures 0 < Calling(events, u, v) <==>
      exists i, k :: 0 <= i < |events| && 0 <= k < |events[i]| - 1 && events[i][k + 1] == u && events[i][k] == v
  {
    SightingsCount(events, u, v);
    if i, k :| 0 <= i < |events| && 0 <= k < |events[i]| - 1 && events[i][k + 1] == u && events[i][k] == v {
      assert (i as nat, k as nat) in Sightings(events, u, v);
    }
    if Sightings(events, u, v) != {} {
      var at :| at in Sightings(events, u, v);
      assert events[at.0][at.1] == v;
    }
  }

  lemma {:induction false} SightingsCount(events: seq<Chain>, u: Id, v: Id)
    ensures |Sightings(events, u, v)| == Calling(events, u, v)
  {
    if events == [] {
      assert Sightings(events, u, v) == {};
    } else {
      var r, n, e := events[..|events| - 1], |events| - 1, events[|events| - 1];
      SightingsCount(r, u, v);
      PairsSeen(n, e, |e|, u, v);
      forall i: nat | i < n
        ensures r[i] == events[i]
      {
      }
      SightingsMore(events, u, v);
    }
  }

  lemma SightingsMore(events: seq<Chain>, u: Id, v: Id)
    requires events != []
    ensures
      var n := |events| - 1;
      var old_, new_ := Sightings(events[..n], u, v), SeenBelow(n, events[n], |events[n]|, u, v);
      Sightings(events, u, v) == old_ + new_ && old_ !! new_
  {
  }

  /** The events that have P. */
  ghost function Where(events: seq<Chain>, P: Chain -> bool): set<nat> {
    set i: nat | i < |events| && P(events[i])
  }

  lemma WhereStep(events: seq<Chain>, P: Chain -> bool)
    requires events != []
    ensures |Where(events, P)| == |Where(events[..|events| - 1], P)| + One(P(events[|events| - 1]))
  {
    var n := |events| - 1;
    assert Where(events, P) == Where(events[..n], P) + if P(events[n]) then {n} else {};
  }

  /** The samples taken are the chains that are not empty. */
  lemma {:induction false} SampleCountIs(events: seq<Chain>)
    ensures SampleCount(events) == |set i: nat | i < |events| && events[i] != []|
  {
    var P := (e: Chain) => e != [];
    assert Where(events, P) == set i: nat | i < |events| && events[i] != [];
    if events != [] {
      var r := events[..|events| - 1];
      SampleCountIs(r);
      assert Where(r, P) == set i: nat | i < |r| && r[i] != [];
      WhereStep(events, P);
    }
  }

  /** A function runs in the samples whose chain it starts. */
  lemma {:induction false} RunningIs(events: seq<Chain>, f: Id)
    ensures Running(events, f) == |set i: nat | i < |events| && events[i] != [] && events[i][0] == f|
  {
    var P := (e: Chain) => e != [] && e[0] == f;
    assert Where(events, P) == set i: nat | i < |events| && events[i] != [] && events[i][0] == f;
    if events != [] {
      var r := events[..|events| - 1];
      RunningIs(r, f);
      assert Where(r, P) == set i: nat | i < |r| && r[i] != [] && r[i][0] == f;
      WhereStep(events, P);
    }
  }

  /** A function is on the stack of the samples whose chain it stands in, once each. */
  lemma {:induction false} OnStackIs(events: seq<Chain>, f: Id)
    ensures OnStack(events, f) == |set i: nat | i < |events| && f in events[i]|
  {
    var P := (e: Chain) => f in e;
    assert Where(events, P) == set i: nat | i < |events| && f in events[i];
    if events != [] {
      var r := events[..|events| - 1];
      OnStackIs(r, f);
      assert Where(r, P) == set i: nat | i < |r| && f in r[i];
      WhereStep(events, P);
    }
  }

  /** What a tallied profile holds, place by place of the samples. */
  lemma TalliedMeans(p: Profile, events: seq<Chain>)
    requires Tallied(p, events)
    ensures forall f :: f in p.functions <==> exists i :: 0 <= i < |events| && f in events[i]
    ensures forall u, v :: Edge(p.calls, u, v) <==>
      exists i, k :: 0 <= i < |events| && 0 <= k < |events[i]| - 1 && events[i][k + 1] == u && events[i][k] == v
    ensures forall u, v :: (u, v) in p.callWeight <==> Edge(p.calls, u, v)
    ensures forall u, v :: (u, v) in p.callWeight ==> (
      p.callWeight[(u, v)] ==
      |set i: nat, k: nat | i < |events| && k + 1 < |events[i]| && events[i][k + 1] == u && events[i][k] == v :: (i, k)| as real)
    ensures forall f :: f in p.samples ==> p.samples[f] == |set i: nat | i < |events| && events[i] != [] && events[i][0] == f|
    ensures forall f :: f in p.totalSamples ==> p.totalSamples[f] == |set i: nat | i < |events| && f in events[i]|
    ensures p.profileSamples == |set i: nat | i < |events| && events[i] != []|
  {
    hide Running, OnStack, SampleCount, Calling, NoDup;
    SampleCountIs(events);
    forall f
      ensures f in p.functions <==> exists i :: 0 <= i < |events| && f in events[i]
      ensures f in p.samples ==> p.samples[f] == |set i: nat | i < |events| && events[i] != [] && events[i][0] == f|
      ensures f in p.totalSamples ==> p.totalSamples[f] == |set i: nat | i < |events| && f in events[i]|
    {
      assert f in p.functions <==> f in SetOf(p.functions);
      assert f in p.samples ==> p.samples[f] == Count(p.samples, f);
      assert f in p.totalSamples ==> p.totalSamples[f] == Count(p.totalSamples, f);
      RunningIs(events, f);
      OnStackIs(events, f);
    }
    forall u, v
      ensures Edge(p.calls, u, v) <==>
        exists i, k :: 0 <= i < |events| && 0 <= k < |events[i]| - 1 && events[i][k + 1] == u && events[i][k] == v
      ensures (u, v) in p.callWeight ==> (
        p.callWeight[(u, v)] ==
        |set i: nat, k: nat | i < |events| && k + 1 < |events[i]| && events[i][k + 1] == u && events[i][k] == v :: (i, k)| as real)
    {
      CallingIs(events, u, v);
      assert (u, v) in p.callWeight ==> p.callWeight[(u, v)] == Weighing(p.callWeight, u, v);
    }
  }
}

/** Profile._integrate_cycle_function: an entry's share of the cycle's time, handed on from member to member. */
module CycleTime {
  import opened Paths
  import opened Seqs
  import opened Sums
  import opened Components
  import opened CallRatios
  import opened Ranks
  import opened Rings
  import opened CycleCalls

  type CallTimes = map<(Id, Id), real>

  function GetCall(m: CallTimes, u: Id, v: Id): real {
    if (u, v) in m then m[(u, v)] else 0.0
  }

  /** What u's call to v is given on behalf of the entry. */
  ghost function Given(r: Ring, T: Id -> real, u: Id, v: Id): real {
    if Rises(r, u, v) then Times(Fraction(r, u, v), T(v)) else 0.0
  }

  /**
    * Partial times are remembered once. A newly remembered member has its partial time added to its
    * total, and each of its rising calls what it is given; nothing else changes.
    */
  ghost predicate Handed(r: Ring, T: Id -> real, partials0: map<Id, real>, partials: map<Id, real>,
                         total0: map<Id, real>, total: map<Id, real>, call0: CallTimes, call: CallTimes)
  {
    && partials0.Keys <= partials.Keys
    && (forall f :: f in partials0 ==> partials[f] == partials0[f])
    && (forall f :: f in partials && f !in partials0 ==> partials[f] == T(f) && f in r.members)
    && (forall f, v :: f in partials && f !in partials0 && Rises(r, f, v) ==> v in partials)
    && total.Keys == total0.Keys + (partials.Keys - partials0.Keys)
    && (forall f :: Get(total, f) == Get(total0, f) + if f in partials && f !in partials0 then T(f) else 0.0)
    && (forall u, v :: (u, v) in call <==> (u, v) in call0 || (u in partials && u !in partials0 && Rises(r, u, v)))
    && (forall u, v :: GetCall(call, u, v) ==
          GetCall(call0, u, v) + if u in partials && u !in partials0 then Given(r, T, u, v) else 0.0)
  }

  /** The newly remembered members are no nearer to the entry than `low`. */
  ghost predicate Further(ranks: RankMap, partials0: map<Id, real>, partials: map<Id, real>, low: nat) {
    forall g :: g in partials && g !in partials0 ==> g in ranks && low <= ranks[g]
  }

  lemma NothingHanded(r: Ring, T: Id -> real, partials: map<Id, real>, total: map<Id, real>, call: CallTimes)
    ensures Handed(r, T, partials, partials, total, total, call, call)
  {
  }

  /** What holds while the first i calls of f have been followed: its rising calls have been given theirs. */
  ghost predicate Handing(r: Ring, T: Id -> real, f: Id, i: nat, partials0: map<Id, real>, partials: map<Id, real>,
                          total0: map<Id, real>, total: map<Id, real>, call0: CallTimes, call: CallTimes)
    requires i <= |r.net.Out(f)|
  {
    && f !in partials && partials0.Keys <= partials.Keys
    && (forall g :: g in partials0 ==> partials[g] == partials0[g])
    && (forall g :: g in partials && g !in partials0 ==> partials[g] == T(g) && g in r.members)
    && (forall g, v :: g in partials && g !in partials0 && Rises(r, g, v) ==> v in partials)
    && (forall k :: 0 <= k < i && Rises(r, f, r.net.Out(f)[k]) ==> r.net.Out(f)[k] in partials)
    && total.Keys == total0.Keys + (partials.Keys - partials0.Keys)
    && (forall g :: Get(total, g) == Get(total0, g) + if g in partials && g !in partials0 then T(g) else 0.0)
    && (forall u, v :: (u, v) in call <==> (u, v) in call0 || GivenTo(r, f, i, partials0, partials, u, v))
    && (forall u, v :: GetCall(call, u, v) ==
          GetCall(call0, u, v) + if GivenTo(r, f, i, partials0, partials, u, v) then Given(r, T, u, v) else 0.0)
  }

  ghost predicate GivenTo(r: Ring, f: Id, i: nat, partials0: map<Id, real>, partials: map<Id, real>, u: Id, v: Id)
    requires i <= |r.net.Out(f)|
  {
    Rises(r, u, v) && ((u in partials && u !in partials0) || (u == f && v in r.net.Out(f)[..i]))
  }

  lemma StartHanding(r: Ring, T: Id -> real, f: Id, partials: map<Id, real>, total: map<Id, real>, call: CallTimes)
    requires f !in partials
    ensures Handing(r, T, f, 0, partials, partials, total, total, call, call)
  {
  }

  lemma SkipHanding(r: Ring, T: Id -> real, f: Id, i: nat, partials0: map<Id, real>, partials: map<Id, real>,
                    total0: map<Id, real>, total: map<Id, real>, call0: CallTimes, call: CallTimes)
    requires i < |r.net.Out(f)| && Handing(r, T, f, i, partials0, partials, total0, total, call0, call)
    requires !Rises(r, f, r.net.Out(f)[i])
    ensures Handing(r, T, f, i + 1, partials0, partials, total0, total, call0, call)
  {
    hide Rises, Given;
    var out := r.net.Out(f);
    assert out[..i + 1] == out[..i] + [out[i]];
  }

  lemma RiseHanding(r: Ring, T: Id -> real, f: Id, i: nat, partials0: map<Id, real>, partials1: map<Id, real>,
                    total0: map<Id, real>, total1: map<Id, real>, call0: CallTimes, call1: CallTimes,
                    partials: map<Id, real>, total: map<Id, real>, call2: CallTimes, call: CallTimes)
    requires i < |r.net.Out(f)| && NoDup(r.net.Out(f))
    requires Handing(r, T, f, i, partials0, partials1, total0, total1, call0, call1)
    requires Handed(r, T, partials1, partials, total1, total, call1, call2)
    requires var v := r.net.Out(f)[i];
             && Rises(r, f, v) && v in partials && f !in partials
             && call == call2[(f, v) := GetCall(call2, f, v) + Given(r, T, f, v)]
    ensures Handing(r, T, f, i + 1, partials0, partials, total0, total, call0, call)
  {
    hide Given, Rises, GivenTo;
    var out := r.net.Out(f);
    assert out[..i + 1] == out[..i] + [out[i]];
    forall u, v
      ensures (u, v) in call <==> (u, v) in call0 || GivenTo(r, f, i + 1, partials0, partials, u, v)
      ensures GetCall(call, u, v) ==
              GetCall(call0, u, v) + if GivenTo(r, f, i + 1, partials0, partials, u, v) then Given(r, T, u, v) else 0.0
    {
      HandingStep(r, T, f, i, partials0, partials1, total0, total1, call0, call1, partials, total, call2, call, u, v);
    }
  }

  lemma HandingStep(r: Ring, T: Id -> real, f: Id, i: nat, partials0: map<Id, real>, partials1: map<Id, real>,
                    total0: map<Id, real>, total1: map<Id, real>, call0: CallTimes, call1: CallTimes,
                    partials: map<Id, real>, total: map<Id, real>, call2: CallTimes, call: CallTimes, u: Id, x: Id)
    requires i < |r.net.Out(f)| && NoDup(r.net.Out(f))
    requires Handing(r, T, f, i, partials0, partials1, total0, total1, call0, call1)
    requires Handed(r, T, partials1, partials, total1, total, call1, call2)
    requires var v := r.net.Out(f)[i];
             && Rises(r, f, v) && v in partials && f !in partials
             && call == call2[(f, v) := GetCall(call2, f, v) + Given(r, T, f, v)]
    ensures (u, x) in call <==> (u, x) in call0 || GivenTo(r, f, i + 1, partials0, partials, u, x)
    ensures GetCall(call, u, x) ==
            GetCall(call0, u, x) + if GivenTo(r, f, i + 1, partials0, partials, u, x) then Given(r, T, u, x) else 0.0
  {
    hide Handing, Handed, Rises, Given;
    var out := r.net.Out(f);
    assert out[..i + 1] == out[..i] + [out[i]];
    assert out[i] !in out[..i];
    HandingAt(r, T, f, i, partials0, partials1, total0, total1, call0, call1, u, x);
    HandedAt(r, T, partials1, partials, total1, total, call1, call2, u, x);
  }

  lemma HandingAt(r: Ring, T: Id -> real, f: Id, i: nat, partials0: map<Id, real>, partials: map<Id, real>,
                  total0: map<Id, real>, total: map<Id, real>, call0: CallTimes, call: CallTimes, u: Id, x: Id)
    requires i <= |r.net.Out(f)| && Handing(r, T, f, i, partials0, partials, total0, total, call0, call)
    ensures (u, x) in call <==> (u, x) in call0 || GivenTo(r, f, i, partials0, partials, u, x)
    ensures GetCall(call, u, x) ==
            GetCall(call0, u, x) + if GivenTo(r, f, i, partials0, partials, u, x) then Given(r, T, u, x) else 0.0
    ensures f !in partials && partials0.Keys <= partials.Keys
  {
  }

  lemma HandedAt(r: Ring, T: Id -> real, partials0: map<Id, real>, partials: map<Id, real>,
                 total0: map<Id, real>, total: map<Id, real>, call0: CallTimes, call: CallTimes, u: Id, x: Id)
    requires Handed(r, T, partials0, partials, total0, total, call0, call)
    ensures (u, x) in call <==> (u, x) in call0 || (u in partials && u !in partials0 && Rises(r, u, x))
    ensures GetCall(call, u, x) == GetCall(call0, u, x) + if u in partials && u !in partials0 then Given(r, T, u, x) else 0.0
    ensures partials0.Keys <= partials.Keys
    ensures !Rises(r, u, x) ==> Given(r, T, u, x) == 0.0
  {
  }

  lemma FinishHanding(r: Ring, T: Id -> real, f: Id, partials0: map<Id, real>, partials: map<Id, real>,
                      total0: map<Id, real>, total: map<Id, real>, call0: CallTimes, call: CallTimes)
    requires f in r.members
    requires Handing(r, T, f, |r.net.Out(f)|, partials0, partials, total0, total, call0, call)
    ensures Handed(r, T, partials0, partials[f := T(f)], total0, total[f := Get(total, f) + T(f)], call0, call)
  {
    hide Given, Rises;
    var out := r.net.Out(f);
    assert out[..|out|] == out;
    GivenOnly(r, T);
  }

  lemma GivenOnly(r: Ring, T: Id -> real)
    ensures forall u, v :: Given(r, T, u, v) == 0.0 || Rises(r, u, v)
    ensures forall u, v :: Rises(r, u, v) ==> v in r.net.Out(u)
  {
  }

  /** f's partial time after its self time and the first i of its calls. */
  ghost function SoFar(r: Ring, rho: real, T: Id -> real, f: Id, i: nat): real
    requires i <= |r.net.Out(f)|
  {
    Times(rho, r.net.Self(f) + Sum(r.net.Out(f)[..i], Outward(r.net, Totals(r.net), f))) +
    Sum(r.net.Out(f)[..i], RiseTerm(r, T, f))
  }

  lemma SoFarStart(r: Ring, rho: real, T: Id -> real, f: Id)
    ensures SoFar(r, rho, T, f, 0) == Times(rho, r.net.Self(f))
  {
  }

  lemma Distribute(k: real, a: real, b: real)
    ensures Times(k, a + b) == Times(k, a) + Times(k, b)
  {
  }

  lemma SoFarStep(r: Ring, rho: real, T: Id -> real, f: Id, i: nat)
    requires i < |r.net.Out(f)|
    ensures var v := r.net.Out(f)[i];
            SoFar(r, rho, T, f, i + 1) ==
            SoFar(r, rho, T, f, i) + Times(rho, Outward(r.net, Totals(r.net), f)(v)) + RiseTerm(r, T, f)(v)
  {
    hide Sum, Times, Total;
    var out, g := r.net.Out(f), Outward(r.net, Totals(r.net), f);
    SumStep(out, i, g);
    SumStep(out, i, RiseTerm(r, T, f));
    Distribute(rho, r.net.Self(f) + Sum(out[..i], g), g(out[i]));
  }

  lemma SoundKey(n: Net, f: Id)
    requires n.Sound() && f in n.functions
    ensures f in n.calls
  {
    assert f in SetOf(n.functions);
  }

  lemma SoFarEnd(n: Net, c: nat, ranks: RankMap, rho: real, f: Id)
    requires n.Sound() && f in InComp(n, Cyc(c))
    ensures var r := RingOf(n, c, ranks); var T := Partials(r, rho, Subtotals(n));
            SoFar(r, rho, T, f, |n.Out(f)|) == T(f)
  {
    hide Times, Sum, Total, Subtotal, Partial, Net.Sound;
    var r := RingOf(n, c, ranks);
    assert n.Out(f)[..|n.Out(f)|] == n.Out(f);
    SoundKey(n, f);
    SubtotalIs(n, f);
    PartialIs(r, rho, Subtotals(n), f);
  }

  /** The calls that leave the cycle have their time. */
  ghost predicate OutDone(n: Net, c: nat, call: CallTimes) {
    forall u, v :: u in InComp(n, Cyc(c)) && v in n.Out(u) && n.CompOf(v) != Cyc(c) ==>
      (u, v) in call && call[(u, v)] == Outward(n, Totals(n), u)(v)
  }

  lemma OutStays(n: Net, c: nat, ranks: RankMap, T: Id -> real, partials0: map<Id, real>, partials: map<Id, real>,
                 total0: map<Id, real>, total: map<Id, real>, call0: CallTimes, call: CallTimes)
    requires OutDone(n, c, call0) && Handed(RingOf(n, c, ranks), T, partials0, partials, total0, total, call0, call)
    ensures OutDone(n, c, call)
  {
    hide Outward;
    forall u, v | u in InComp(n, Cyc(c)) && v in n.Out(u) && n.CompOf(v) != Cyc(c)
      ensures (u, v) in call && call[(u, v)] == Outward(n, Totals(n), u)(v)
    {
      HandedAt(RingOf(n, c, ranks), T, partials0, partials, total0, total, call0, call, u, v);
      assert GetCall(call, u, v) == GetCall(call0, u, v);
    }
  }

  lemma OutStaysAt(n: Net, c: nat, call0: CallTimes, call: CallTimes, f: Id, v: Id)
    requires OutDone(n, c, call0) && n.CompOf(v) == Cyc(c)
    requires forall x :: x in call0 && x != (f, v) ==> x in call && call[x] == call0[x]
    ensures OutDone(n, c, call)
  {
    hide Outward;
  }

  ghost predicate Remembered(T: Id -> real, partials: map<Id, real>) {
    forall g :: g in partials ==> partials[g] == T(g)
  }

  lemma RememberedAt(T: Id -> real, partials: map<Id, real>, f: Id)
    requires Remembered(T, partials) && f in partials
    ensures partials[f] == T(f)
  {
  }

  lemma RememberedMore(r: Ring, T: Id -> real, partials0: map<Id, real>, partials: map<Id, real>,
                       total0: map<Id, real>, total: map<Id, real>, call0: CallTimes, call: CallTimes)
    requires Remembered(T, partials0) && Handed(r, T, partials0, partials, total0, total, call0, call)
    ensures Remembered(T, partials)
  {
  }

  lemma NothingFurther(ranks: RankMap, partials: map<Id, real>, low: nat)
    ensures Further(ranks, partials, partials, low)
  {
  }

  lemma FurtherMore(ranks: RankMap, partials0: map<Id, real>, partials1: map<Id, real>, partials: map<Id, real>, low: nat, high: nat)
    requires Further(ranks, partials0, partials1, low) && Further(ranks, partials1, partials, high) && low <= high
    ensures Further(ranks, partials0, partials, low)
  {
  }

  /** The sums of call_ratios are the arrivals. */
  ghost predicate Summed(r: Ring, sums: map<Id, real>) {
    forall u, v :: Rises(r, u, v) ==> v in sums && sums[v] == Arrival(r, v)
  }

  /** A call into another component takes Outward, a rising call its fraction, any other nothing. */
  lemma CallKinds(n: Net, c: nat, s: Id, ranks: RankMap, sums: map<Id, real>, call: CallTimes, T: Id -> real, f: Id, i: nat)
    requires Usable(n) && Entered(RingOf(n, c, ranks), s) && f in InComp(n, Cyc(c)) && f in n.calls && i < |n.calls[f]|
    requires OutDone(n, c, call) && Summed(RingOf(n, c, ranks), sums)
    ensures n.Out(f) == n.calls[f] && NoDup(n.Out(f)) && f in ranks && n.CompOf(f) == Cyc(c)
    ensures var v, r := n.calls[f][i], RingOf(n, c, ranks);
            && (n.CompOf(v) != Cyc(c) ==>
                  (f, v) in call && call[(f, v)] == Outward(n, Totals(n), f)(v) && RiseTerm(r, T, f)(v) == 0.0)
            && (n.CompOf(v) == Cyc(c) ==> Outward(n, Totals(n), f)(v) == 0.0)
            && (v != f && n.CompOf(v) == Cyc(c) ==> v in ranks && (f, v) in n.ratio && v in InComp(n, Cyc(c)))
            && (Rises(r, f, v) <==> v != f && n.CompOf(v) == Cyc(c) && ranks[v] > ranks[f])
            && (Rises(r, f, v) ==> v in sums && Depth(r, v) < Depth(r, f))
            && (Rises(r, f, v) ==> Fraction(r, f, v) == Ratio(n.ratio[(f, v)], sums[v]))
            && (Rises(r, f, v) ==> RiseTerm(r, T, f)(v) == Given(r, T, f, v) == Times(Fraction(r, f, v), T(v)))
            && (!Rises(r, f, v) ==> RiseTerm(r, T, f)(v) == 0.0)
  {
    hide Times, Total;
    ReadFunction(n, c, s, ranks, f);
    ReadCall(n, c, s, ranks, f, i);
  }

  lemma TimesIs(a: real, b: real)
    ensures a * b == Times(a, b)
  {
  }

  /** The state while the first i calls of f have been followed. */
  ghost predicate Progress(n: Net, c: nat, r: Ring, rho: real, T: Id -> real, f: Id, i: nat, partial: real,
                           partials0: map<Id, real>, partials: map<Id, real>,
                           total0: map<Id, real>, total: map<Id, real>, call0: CallTimes, call: CallTimes)
    requires i <= |r.net.Out(f)| && f in r.ranks
  {
    && Handing(r, T, f, i, partials0, partials, total0, total, call0, call)
    && partial == SoFar(r, rho, T, f, i)
    && Further(r.ranks, partials0, partials, r.ranks[f] + 1)
    && OutDone(n, c, call) && Remembered(T, partials)
  }

  lemma StartProgress(n: Net, c: nat, r: Ring, rho: real, T: Id -> real, f: Id, partials: map<Id, real>,
                      total: map<Id, real>, call: CallTimes)
    requires f !in partials && f in r.ranks && OutDone(n, c, call) && Remembered(T, partials)
    ensures Progress(n, c, r, rho, T, f, 0, Times(rho, r.net.Self(f)), partials, partials, total, total, call, call)
  {
    SoFarStart(r, rho, T, f);
    StartHanding(r, T, f, partials, total, call);
    hide SoFar, Handing, OutDone, Remembered;
  }

  lemma SkipProgress(n: Net, c: nat, r: Ring, rho: real, T: Id -> real, f: Id, i: nat, partial: real,
                     partials0: map<Id, real>, partials: map<Id, real>,
                     total0: map<Id, real>, total: map<Id, real>, call0: CallTimes, call: CallTimes, partial': real)
    requires i < |r.net.Out(f)| && f in r.ranks
    requires Progress(n, c, r, rho, T, f, i, partial, partials0, partials, total0, total, call0, call)
    requires var v := r.net.Out(f)[i];
             && !Rises(r, f, v) && RiseTerm(r, T, f)(v) == 0.0
             && partial' == partial + Times(rho, Outward(r.net, Totals(r.net), f)(v))
    ensures Progress(n, c, r, rho, T, f, i + 1, partial', partials0, partials, total0, total, call0, call)
  {
    hide Handing, SoFar, Further, OutDone, Remembered, Times, Outward, RiseTerm, Rises;
    SoFarStep(r, rho, T, f, i);
    SkipHanding(r, T, f, i, partials0, partials, total0, total, call0, call);
  }

  lemma RingParts(n: Net, c: nat, ranks: RankMap)
    ensures RingOf(n, c, ranks).ranks == ranks && RingOf(n, c, ranks).net == n
  {
  }

  lemma RisesRanks(r: Ring, u: Id, v: Id)
    requires Rises(r, u, v)
    ensures u in r.ranks && v in r.ranks && r.ranks[u] < r.ranks[v]
  {
  }

  /** A member nearer than everything newly remembered is not among it. */
  lemma StillOpen(r: Ring, T: Id -> real, f: Id, i: nat, partials0: map<Id, real>, partials1: map<Id, real>,
                  total0: map<Id, real>, total1: map<Id, real>, call0: CallTimes, call1: CallTimes, partials: map<Id, real>)
    requires i < |r.net.Out(f)| && Handing(r, T, f, i, partials0, partials1, total0, total1, call0, call1)
    requires Rises(r, f, r.net.Out(f)[i]) && Further(r.ranks, partials1, partials, r.ranks[r.net.Out(f)[i]])
    ensures f !in partials
  {
  }

  lemma RiseProgress(n: Net, c: nat, ranks: RankMap, rho: real, T: Id -> real, f: Id, i: nat, partial: real,
                     partials0: map<Id, real>, partials1: map<Id, real>,
                     total0: map<Id, real>, total1: map<Id, real>, call0: CallTimes, call1: CallTimes,
                     partials: map<Id, real>, total: map<Id, real>, call2: CallTimes, call: CallTimes, partial': real)
    requires var r := RingOf(n, c, ranks);
             && f in ranks && i < |n.Out(f)| && NoDup(n.Out(f))
             && Progress(n, c, r, rho, T, f, i, partial, partials0, partials1, total0, total1, call0, call1)
             && Handed(r, T, partials1, partials, total1, total, call1, call2)
             && var v := n.Out(f)[i];
             && Rises(r, f, v) && v in partials && v in ranks && Further(ranks, partials1, partials, ranks[v])
             && call == call2[(f, v) := GetCall(call2, f, v) + Given(r, T, f, v)]
             && RiseTerm(r, T, f)(v) == Given(r, T, f, v)
             && Outward(n, Totals(n), f)(v) == 0.0 && n.CompOf(v) == Cyc(c)
             && partial' == partial + Given(r, T, f, v)
    ensures Progress(n, c, RingOf(n, c, ranks), rho, T, f, i + 1, partial', partials0, partials, total0, total, call0, call)
  {
    hide RingOf, SoFar, Times, Outward, RiseTerm, Rises, Given, Handing, Handed, Further, OutDone, Remembered;
    var r, v := RingOf(n, c, ranks), n.Out(f)[i];
    RingParts(n, c, ranks);
    RisesRanks(r, f, v);
    StillOpen(r, T, f, i, partials0, partials1, total0, total1, call0, call1, partials);
    SoFarStep(r, rho, T, f, i);
    ZeroTimes(rho);
    RiseHanding(r, T, f, i, partials0, partials1, total0, total1, call0, call1, partials, total, call2, call);
    FurtherMore(ranks, partials0, partials1, partials, ranks[f] + 1, ranks[v]);
    RememberedMore(r, T, partials1, partials, total1, total, call1, call2);
    OutStaysRing(n, c, ranks, r, T, partials1, partials, total1, total, call1, call2);
    OutStaysAt(n, c, call2, call, f, v);
  }

  lemma OutStaysRing(n: Net, c: nat, ranks: RankMap, r: Ring, T: Id -> real, partials0: map<Id, real>, partials: map<Id, real>,
                     total0: map<Id, real>, total: map<Id, real>, call0: CallTimes, call: CallTimes)
    requires r == RingOf(n, c, ranks)
    requires OutDone(n, c, call0) && Handed(r, T, partials0, partials, total0, total, call0, call)
    ensures OutDone(n, c, call)
  {
    OutStays(n, c, ranks, T, partials0, partials, total0, total, call0, call);
  }

  lemma SelfKnown(n: Net, c: nat, f: Id)
    requires f in InComp(n, Cyc(c)) && n.self.Keys == SetOf(n.functions) && Usable(n)
    ensures f in n.self && n.Self(f) == n.self[f] && f in n.calls && n.Out(f) == n.calls[f]
  {
    assert f in SetOf(n.functions);
  }

  lemma FinishProgress(n: Net, c: nat, ranks: RankMap, rho: real, f: Id, partial: real,
                       partials0: map<Id, real>, partials: map<Id, real>,
                       total0: map<Id, real>, total: map<Id, real>, call0: CallTimes, call: CallTimes)
    requires n.Sound() && f in InComp(n, Cyc(c)) && f in ranks
    requires var r := RingOf(n, c, ranks);
             Progress(n, c, r, rho, Partials(r, rho, Subtotals(n)), f, |n.Out(f)|, partial,
                      partials0, partials, total0, total, call0, call)
    ensures var r := RingOf(n, c, ranks); var T := Partials(r, rho, Subtotals(n));
            && partial == T(f)
            && Handed(r, T, partials0, partials[f := partial], total0, total[f := Get(total, f) + partial], call0, call)
            && Further(ranks, partials0, partials[f := partial], ranks[f])
  {
    hide Partials, SoFar, Handing, Handed, OutDone, Remembered, RingOf, Further, InComp, Net.Sound;
    var r := RingOf(n, c, ranks);
    var T := Partials(r, rho, Subtotals(n));
    RingParts(n, c, ranks);
    RingMember(n, c, ranks, f);
    SoFarEnd(n, c, ranks, rho, f);
    FinishHanding(r, T, f, partials0, partials, total0, total, call0, call);
    FurtherAdd(ranks, partials0, partials, f, partial);
  }

  lemma RingMember(n: Net, c: nat, ranks: RankMap, f: Id)
    requires f in InComp(n, Cyc(c))
    ensures f in RingOf(n, c, ranks).members
  {
  }

  lemma FurtherAdd(ranks: RankMap, partials0: map<Id, real>, partials: map<Id, real>, f: Id, x: real)
    requires f in ranks && Further(ranks, partials0, partials, ranks[f] + 1)
    ensures Further(ranks, partials0, partials[f := x], ranks[f])
  {
  }

  lemma ProgressKeeps(n: Net, c: nat, r: Ring, rho: real, T: Id -> real, f: Id, i: nat, partial: real,
                      partials0: map<Id, real>, partials: map<Id, real>,
                      total0: map<Id, real>, total: map<Id, real>, call0: CallTimes, call: CallTimes)
    requires i <= |r.net.Out(f)| && f in r.ranks
    requires Progress(n, c, r, rho, T, f, i, partial, partials0, partials, total0, total, call0, call)
    ensures OutDone(n, c, call) && Remembered(T, partials)
  {
  }

  /** One turn of the loop over the calls of f. */
  method FollowCall(n: Net, c: nat, f: Id, i: nat, rho: real, partial1: real, ranks: RankMap, sums: map<Id, real>,
                    ghost partials0: map<Id, real>, partials1: map<Id, real>, ghost total0: map<Id, real>, total1: map<Id, real>,
                    ghost call0: CallTimes, call1: CallTimes, ghost s: Id)
    returns (partial: real, partials: map<Id, real>, total: map<Id, real>, call: CallTimes)
    requires n.Sound() && Usable(n) && n.self.Keys == SetOf(n.functions)
    requires Entered(RingOf(n, c, ranks), s) && f in InComp(n, Cyc(c)) && f in ranks
    requires Summed(RingOf(n, c, ranks), sums)
    requires f in n.calls && i < |n.calls[f]|
    requires Progress(n, c, RingOf(n, c, ranks), rho, Partials(RingOf(n, c, ranks), rho, Subtotals(n)), f, i, partial1,
                      partials0, partials1, total0, total1, call0, call1)
    ensures Progress(n, c, RingOf(n, c, ranks), rho, Partials(RingOf(n, c, ranks), rho, Subtotals(n)), f, i + 1, partial,
                     partials0, partials, total0, total, call0, call)
    decreases Depth(RingOf(n, c, ranks), f), 0
  {
    hide Net.Sound, Entered, Usable, Summed, OutDone, Remembered, Handed, Further, Rises, Depth, Partials, RingOf,
         Progress, Times, Given, RiseTerm, Outward, InComp, Fraction;
    ghost var r := RingOf(n, c, ranks);
    ghost var T := Partials(r, rho, Subtotals(n));
    RingParts(n, c, ranks);
    ProgressKeeps(n, c, r, rho, T, f, i, partial1, partials0, partials1, total0, total1, call0, call1);
    partial, partials, total, call := partial1, partials1, total1, call1;
    var v := n.calls[f][i];
    CallKinds(n, c, s, ranks, sums, call, T, f, i);
    ZeroTimes(rho);
    if v != f {
      if n.CompOf(v) != Cyc(c) {
        partial := partial + rho * call[(f, v)];
        TimesIs(rho, call[(f, v)]);
        SkipProgress(n, c, r, rho, T, f, i, partial1, partials0, partials, total0, total, call0, call, partial);
      } else if ranks[v] > ranks[f] {
        var calleePartial;
        calleePartial, partials, total, call := IntegrateCycleFunction(n, c, v, rho, partials, ranks, sums, total, call, s);
        var callRatio := Ratio(n.ratio[(f, v)], sums[v]);
        var callPartial := callRatio * calleePartial;
        TimesIs(callRatio, calleePartial);
        ghost var call2 := call;
        call := call[(f, v) := GetCall(call, f, v) + callPartial];
        partial := partial + callPartial;
        RiseProgress(n, c, ranks, rho, T, f, i, partial1, partials0, partials1, total0, total1, call0, call1,
                     partials, total, call2, call, partial);
      } else {
        SkipProgress(n, c, r, rho, T, f, i, partial1, partials0, partials, total0, total, call0, call, partial);
      }
    } else {
      SkipProgress(n, c, r, rho, T, f, i, partial1, partials0, partials, total0, total, call0, call, partial);
    }
  }

  /**
    * f's partial time, computed once, added to f's total and handed out to the calls it rises by.
    */
  method IntegrateCycleFunction(n: Net, c: nat, f: Id, rho: real, partials0: map<Id, real>, ranks: RankMap,
                                sums: map<Id, real>, total0: map<Id, real>, call0: CallTimes, ghost s: Id)
    returns (partial: real, partials: map<Id, real>, total: map<Id, real>, call: CallTimes)
    requires n.Sound() && Usable(n) && n.self.Keys == SetOf(n.functions)
    requires Entered(RingOf(n, c, ranks), s) && f in InComp(n, Cyc(c)) && f in ranks
    requires Summed(RingOf(n, c, ranks), sums) && OutDone(n, c, call0)
    requires Remembered(Partials(RingOf(n, c, ranks), rho, Subtotals(n)), partials0)
    ensures partial == Partials(RingOf(n, c, ranks), rho, Subtotals(n))(f) && f in partials
    ensures Handed(RingOf(n, c, ranks), Partials(RingOf(n, c, ranks), rho, Subtotals(n)),
                   partials0, partials, total0, total, call0, call)
    ensures Further(ranks, partials0, partials, ranks[f])
    decreases Depth(RingOf(n, c, ranks), f), 1
  {
    hide Net.Sound, Entered, Usable, Summed, OutDone, Remembered, Handed, Further, Rises, Depth, Partials, RingOf,
         Progress, Times, Given, RiseTerm, Outward, InComp, Fraction;
    ghost var r := RingOf(n, c, ranks);
    ghost var T := Partials(r, rho, Subtotals(n));
    RingParts(n, c, ranks);
    partials, total, call := partials0, total0, call0;
    if f in partials {
      partial := partials[f];
      RememberedAt(T, partials, f);
      NothingHanded(r, T, partials, total, call);
      NothingFurther(ranks, partials, ranks[f]);
    } else {
      SelfKnown(n, c, f);
      partial := rho * n.self[f];
      TimesIs(rho, n.self[f]);
      assert partial == Times(rho, r.net.Self(f));
      StartProgress(n, c, r, rho, T, f, partials, total, call);
      assert Progress(n, c, r, rho, T, f, 0, partial, partials0, partials, total0, total, call0, call);
      var callees := n.calls[f];
      for i := 0 to |callees|
        invariant Progress(n, c, r, rho, T, f, i, partial, partials0, partials, total0, total, call0, call)
      {
        partial, partials, total, call := FollowCall(n, c, f, i, rho, partial, ranks, sums, partials0, partials,
                                                     total0, total, call0, call, s);
      }
      FinishProgress(n, c, ranks, rho, f, partial, partials0, partials, total0, total, call0, call);
      partials := partials[f := partial];
      total := total[f := Get(total, f) + partial];
    }
  }
}

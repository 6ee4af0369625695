/** Inside a cycle, time is handed on from the entry along calls that lead further away from it. */
module Rings {
  import opened Paths
  import opened Seqs
  import opened Sums
  import opened Flow
  import opened Components
  import opened CallRatios
  import opened Ranks

  /** The members of a cycle with their ranks, none of them above `top`. */
  datatype Ring = Ring(net: Net, members: set<Id>, ranks: RankMap, top: nat)

  /** u calls v, and v is further from the entry. */
  ghost predicate Rises(r: Ring, u: Id, v: Id) {
    && u in r.members && v in r.members && v in r.net.Out(u)
    && u in r.ranks && v in r.ranks && r.ranks[u] < r.ranks[v] <= r.top
  }

  ghost predicate HasRiser(r: Ring, v: Id) {
    exists u :: Rises(r, u, v)
  }

  /** s is the entry, and every other member is called by one nearer to it. */
  ghost predicate Entered(r: Ring, s: Id) {
    && NoDup(r.net.functions) && r.members <= SetOf(r.net.functions)
    && (forall f :: f in r.net.functions ==> NoDup(r.net.Out(f)))
    && r.ranks.Keys == r.members && s in r.members && r.ranks[s] == 0
    && (forall v :: v in r.ranks ==> r.ranks[v] <= r.top)
    && (forall v {:trigger HasRiser(r, v)} :: v in r.members && v != s ==> HasRiser(r, v))
  }

  ghost predicate NoneNegative(r: Ring) {
    forall u, v :: 0.0 <= r.net.Ratio(u, v)
  }

  /** Calls that rise have positive ratios. */
  ghost predicate Flowing(r: Ring) {
    forall u, v :: Rises(r, u, v) ==> 0.0 < r.net.Ratio(u, v)
  }

  ghost function RiseRatio(r: Ring, v: Id): Id -> real {
    u => if Rises(r, u, v) then r.net.Ratio(u, v) else 0.0
  }

  /** The ratios of all calls that rise to v. */
  ghost function Arrival(r: Ring, v: Id): real {
    Sum(r.net.functions, RiseRatio(r, v))
  }

  ghost function Riser(r: Ring, v: Id): Id -> real {
    u => if Rises(r, u, v) then 1.0 else 0.0
  }

  /** How many calls rise to v. */
  ghost function Risers(r: Ring, v: Id): real {
    Sum(r.net.functions, Riser(r, v))
  }

  /** The part of v's time that u takes. */
  ghost function Fraction(r: Ring, u: Id, v: Id): real {
    Ratio(r.net.Ratio(u, v), Arrival(r, v))
  }

  ghost function Depth(r: Ring, f: Id): nat {
    if f in r.ranks && r.ranks[f] <= r.top then r.top - r.ranks[f] else 0
  }

  /** f's own part, and its portions of the members it rises to. */
  ghost function Partial(r: Ring, rho: real, base: Id -> real, f: Id): real
    decreases Depth(r, f)
  {
    Times(rho, base(f)) +
    Sum(r.net.Out(f), v => if Rises(r, f, v) then Times(Fraction(r, f, v), Partial(r, rho, base, v)) else 0.0)
  }

  ghost function Partials(r: Ring, rho: real, base: Id -> real): Id -> real {
    f => Partial(r, rho, base, f)
  }

  ghost function Scaled(rho: real, base: Id -> real): Id -> real {
    f => Times(rho, base(f))
  }

  /** f's portion of the value T gives v. */
  ghost function RiseTerm(r: Ring, T: Id -> real, f: Id): Id -> real {
    v => if Rises(r, f, v) then Times(Fraction(r, f, v), T(v)) else 0.0
  }

  lemma PartialIs(r: Ring, rho: real, base: Id -> real, f: Id)
    ensures Partial(r, rho, base, f) == Times(rho, base(f)) + Sum(r.net.Out(f), RiseTerm(r, Partials(r, rho, base), f))
  {
    SumSame(r.net.Out(f), v => if Rises(r, f, v) then Times(Fraction(r, f, v), Partial(r, rho, base, v)) else 0.0,
            RiseTerm(r, Partials(r, rho, base), f));
  }

  ghost predicate HandsOn(r: Ring, b: Id -> real, T: Id -> real) {
    forall f :: f in r.members ==> T(f) == b(f) + Sum(r.net.Out(f), RiseTerm(r, T, f))
  }

  ghost function Coef(r: Ring): (Id, Id) -> real {
    (u, v) => if Rises(r, u, v) then Fraction(r, u, v) else 0.0
  }

  ghost function Members(r: Ring): seq<Id> {
    Kept(r.net.functions, r.members)
  }

  /** The partial times are a flow over the members. */
  lemma RingFlow(r: Ring, s: Id, b: Id -> real, T: Id -> real)
    requires Entered(r, s) && HandsOn(r, b, T)
    ensures Solves(Members(r), b, Coef(r), T)
  {
    var ms := Members(r);
    forall f | f in ms
      ensures T(f) == b(f) + Sum(ms, Taken(Coef(r), T, f))
    {
      var p := Kept(ms, SetOf(r.net.Out(f)));
      RiseTermIs(r, s, T, f);
      hide Sum, Rises, Times, Fraction;
      SumPart(ms, p, RiseTerm(r, T, f), Taken(Coef(r), T, f));
      SumPart(r.net.Out(f), p, RiseTerm(r, T, f), RiseTerm(r, T, f));
    }
  }

  lemma RiseTermIs(r: Ring, s: Id, T: Id -> real, f: Id)
    requires Entered(r, s)
    ensures forall v :: v in Members(r) ==>
              Taken(Coef(r), T, f)(v) == if v in r.net.Out(f) then RiseTerm(r, T, f)(v) else 0.0
    ensures forall v :: v in r.net.Out(f) && v !in Members(r) ==> RiseTerm(r, T, f)(v) == 0.0
  {
    forall v | v in Members(r)
      ensures Taken(Coef(r), T, f)(v) == if v in r.net.Out(f) then RiseTerm(r, T, f)(v) else 0.0
    {
      TimesZero(T(v));
    }
    forall v | v in r.net.Out(f) && v !in Members(r)
      ensures RiseTerm(r, T, f)(v) == 0.0
    {
      assert v in r.members ==> v in SetOf(r.net.functions);
    }
  }

  lemma RatioAtMostArrival(r: Ring, u: Id, v: Id)
    requires NoneNegative(r) && Rises(r, u, v) && r.members <= SetOf(r.net.functions)
    ensures 0.0 <= r.net.Ratio(u, v) <= Arrival(r, v)
  {
    assert u in SetOf(r.net.functions);
    TermLess(r.net.functions, u, RiseRatio(r, v));
  }

  /** What u takes of v: the quotient if anything arrives at v, else all of it. */
  lemma CoefIs(r: Ring, u: Id, v: Id)
    requires NoneNegative(r) && r.members <= SetOf(r.net.functions)
    ensures Arrival(r, v) == 0.0 ==> Coef(r)(u, v) == Riser(r, v)(u)
    ensures Arrival(r, v) != 0.0 ==> Coef(r)(u, v) == Times(RiseRatio(r, v)(u), 1.0 / Arrival(r, v))
  {
    if Rises(r, u, v) {
      RatioAtMostArrival(r, u, v);
      PartOrOne(r.net.Ratio(u, v), Arrival(r, v));
    } else if Arrival(r, v) != 0.0 {
      TimesZero(1.0 / Arrival(r, v));
    }
  }

  /** With positive ratios the fraction is the exact quotient. */
  lemma FractionIs(r: Ring, s: Id, u: Id, v: Id)
    requires Entered(r, s) && NoneNegative(r) && Flowing(r) && Rises(r, u, v)
    ensures Arrival(r, v) > 0.0 && Fraction(r, u, v) == Times(r.net.Ratio(u, v), 1.0 / Arrival(r, v))
    ensures 0.0 < Fraction(r, u, v)
  {
    RatioAtMostArrival(r, u, v);
    PartOrOne(r.net.Ratio(u, v), Arrival(r, v));
  }

  /** A member is handed out once if anything arrives at it, and else once for every call that rises to it. */
  lemma InflowIs(r: Ring, s: Id, v: Id)
    requires Entered(r, s) && NoneNegative(r) && v in r.members
    ensures Inflow(Members(r), Coef(r), v) == (
      if v == s then 0.0 else if Arrival(r, v) == 0.0 then Risers(r, v) else 1.0)
  {
    hide Sum, Times, Fraction, NoneNegative, Rises;
    var ms, t := Members(r), Arrival(r, v);
    var k := if t == 0.0 then 0.0 else 1.0 / t;
    forall u
      ensures t == 0.0 ==> Column(Coef(r), v)(u) == Riser(r, v)(u)
      ensures t != 0.0 ==> Column(Coef(r), v)(u) == Times(RiseRatio(r, v)(u), k)
    {
      CoefIs(r, u, v);
    }
    OutsideRing(r, v);
    if v == s {
      NoneRises(r, s);
      SumZero(ms, Column(Coef(r), v));
    } else if t == 0.0 {
      SumPart(r.net.functions, ms, Riser(r, v), Riser(r, v));
      SumSame(ms, Column(Coef(r), v), Riser(r, v));
    } else {
      SumPart(r.net.functions, ms, RiseRatio(r, v), RiseRatio(r, v));
      SumTimes(ms, k, RiseRatio(r, v), Column(Coef(r), v));
      Inverse(t);
    }
  }

  lemma OutsideRing(r: Ring, v: Id)
    ensures forall u :: u in r.net.functions && u !in Members(r) ==> Riser(r, v)(u) == 0.0 && RiseRatio(r, v)(u) == 0.0
  {
  }

  lemma NoneRises(r: Ring, s: Id)
    requires Entered(r, s)
    ensures forall u :: Coef(r)(u, s) == 0.0
  {
  }

  lemma RisersAtLeastOne(r: Ring, s: Id, v: Id)
    requires Entered(r, s) && v in r.members && v != s
    ensures 1.0 <= Risers(r, v)
  {
    assert HasRiser(r, v);
    var u :| Rises(r, u, v);
    assert u in SetOf(r.net.functions);
    TermLess(r.net.functions, u, Riser(r, v));
  }

  /** v is handed out more than once: two or more calls rise to it, and none has any ratio. */
  ghost predicate Doubled(r: Ring, s: Id, v: Id) {
    v in r.members && v != s && Arrival(r, v) == 0.0 && Risers(r, v) > 1.0
  }

  lemma FlowingNotDoubled(r: Ring, s: Id, v: Id)
    requires Entered(r, s) && NoneNegative(r) && Flowing(r)
    ensures !Doubled(r, s, v)
  {
    if v in r.members && v != s {
      assert HasRiser(r, v);
      var u :| Rises(r, u, v);
      RatioAtMostArrival(r, u, v);
    }
  }

  /** With positive ratios every member but the entry hands out exactly all of its time, the entry none. */
  lemma RingInflow(r: Ring, s: Id, v: Id)
    requires Entered(r, s) && NoneNegative(r) && Flowing(r) && v in r.members
    ensures Inflow(Members(r), Coef(r), v) == if v == s then 0.0 else 1.0
  {
    hide Inflow, Members, Coef;
    InflowIs(r, s, v);
    FlowingNotDoubled(r, s, v);
    if v != s {
      RisersAtLeastOne(r, s, v);
    }
  }

  /** What v hands out beyond its time. */
  ghost function Excess(r: Ring, s: Id, T: Id -> real): Id -> real {
    v => if Doubled(r, s, v) then Times(Risers(r, v) - 1.0, T(v)) else 0.0
  }

  ghost function AtEntry(s: Id, T: Id -> real): Id -> real {
    v => if v == s then T(v) else 0.0
  }

  lemma LeftIs(r: Ring, s: Id, T: Id -> real, v: Id)
    requires Entered(r, s) && NoneNegative(r) && v in r.members
    ensures AtEntry(s, T)(v) == Left(Members(r), Coef(r), T)(v) + Excess(r, s, T)(v)
  {
    hide Inflow, Arrival, Risers, Entered, NoneNegative;
    InflowIs(r, s, v);
    if v != s {
      RisersAtLeastOne(r, s, v);
    }
  }

  lemma ExcessSign(r: Ring, s: Id, T: Id -> real, v: Id)
    requires 0.0 <= T(v)
    ensures 0.0 <= Excess(r, s, T)(v)
    ensures 0.0 < Excess(r, s, T)(v) <==> Doubled(r, s, v) && 0.0 < T(v)
  {
    Sign(Risers(r, v) - 1.0, T(v));
  }

  /** The entry has what the members put in, and every excess. */
  lemma EntryGets(r: Ring, s: Id, b: Id -> real, T: Id -> real)
    requires Entered(r, s) && NoneNegative(r) && HandsOn(r, b, T)
    ensures T(s) == SumIn(r.net.functions, r.members, b) + Sum(Members(r), Excess(r, s, T))
  {
    hide Sum, HandsOn, NoneNegative, Coef, Excess, Left, Solves, Entered, AtEntry;
    var ms := Members(r);
    RingFlow(r, s, b, T);
    Balance(ms, b, Coef(r), T);
    forall v | v in ms
      ensures AtEntry(s, T)(v) == Left(ms, Coef(r), T)(v) + Excess(r, s, T)(v)
    {
      LeftIs(r, s, T, v);
    }
    SumPlus(ms, Left(ms, Coef(r), T), Excess(r, s, T), AtEntry(s, T));
    EntryTerm(r, s, T);
    MembersSum(r, s, b);
  }

  lemma EntryTerm(r: Ring, s: Id, T: Id -> real)
    requires Entered(r, s)
    ensures Sum(Members(r), AtEntry(s, T)) == T(s)
  {
    assert s in SetOf(r.net.functions);
    SumPoint(Members(r), s, AtEntry(s, T));
  }

  lemma MembersSum(r: Ring, s: Id, b: Id -> real)
    requires Entered(r, s)
    ensures SumIn(r.net.functions, r.members, b) == Sum(Members(r), b)
  {
    SumPart(r.net.functions, Members(r), b, Only(r.members, b));
  }

  lemma FlowingNoExcess(r: Ring, s: Id, T: Id -> real, v: Id)
    requires Entered(r, s) && NoneNegative(r) && Flowing(r)
    ensures Excess(r, s, T)(v) == 0.0
  {
    FlowingNotDoubled(r, s, v);
  }

  /** With positive ratios the entry's time is everything the members put in. */
  lemma EntryGetsAll(r: Ring, s: Id, b: Id -> real, T: Id -> real)
    requires Entered(r, s) && NoneNegative(r) && Flowing(r) && HandsOn(r, b, T)
    ensures T(s) == SumIn(r.net.functions, r.members, b)
  {
    EntryGets(r, s, b, T);
    forall v
      ensures Excess(r, s, T)(v) == 0.0
    {
      FlowingNoExcess(r, s, T, v);
    }
    SumZero(Members(r), Excess(r, s, T));
  }

  /** No member's time is negative, when nothing negative is put in, nor less than its own part. */
  lemma {:induction false} PartialNonNegative(r: Ring, rho: real, base: Id -> real, f: Id)
    requires 0.0 <= rho && forall g :: 0.0 <= base(g)
    ensures Times(rho, base(f)) <= Partial(r, rho, base, f) && 0.0 <= Partial(r, rho, base, f)
    decreases Depth(r, f)
  {
    forall v | Rises(r, f, v)
      ensures 0.0 <= Times(Fraction(r, f, v), Partial(r, rho, base, v))
    {
      PartialNonNegative(r, rho, base, v);
      Sign(Fraction(r, f, v), Partial(r, rho, base, v));
    }
    Sign(rho, base(f));
    SumNonNegative(r.net.Out(f), v => if Rises(r, f, v) then Times(Fraction(r, f, v), Partial(r, rho, base, v)) else 0.0);
  }

  /** One unit put in by f, and nothing else. */
  ghost function Unit(f: Id): Id -> real {
    g => if g == f then 1.0 else 0.0
  }

  /** How much of f's time each member takes, over all ways along rising calls. */
  ghost function Takes(r: Ring, f: Id): Id -> real {
    Partials(r, 1.0, Unit(f))
  }

  /** A member not nearer to the entry than f takes nothing of it, unless it is f. */
  lemma {:induction false} TakesNothing(r: Ring, f: Id, u: Id)
    requires u != f && Depth(r, u) <= Depth(r, f)
    ensures Takes(r, f)(u) == 0.0
    decreases Depth(r, u)
  {
    hide Times, Fraction;
    PartialIs(r, 1.0, Unit(f), u);
    forall v
      ensures RiseTerm(r, Takes(r, f), u)(v) == 0.0
    {
      if Rises(r, u, v) {
        RisesDeeper(r, u, v);
        TakesNothing(r, f, v);
        ZeroTimes(Fraction(r, u, v));
      }
    }
    SumZero(r.net.Out(u), RiseTerm(r, Takes(r, f), u));
    ZeroTimes(1.0);
  }

  lemma RisesDeeper(r: Ring, u: Id, v: Id)
    requires Rises(r, u, v)
    ensures Depth(r, v) < Depth(r, u)
  {
  }

  lemma TakesItself(r: Ring, f: Id)
    ensures Takes(r, f)(f) == 1.0
  {
    PartialIs(r, 1.0, Unit(f), f);
    forall v
      ensures RiseTerm(r, Takes(r, f), f)(v) == 0.0
    {
      if Rises(r, f, v) {
        RisesDeeper(r, f, v);
        TakesNothing(r, f, v);
        ZeroTimes(Fraction(r, f, v));
      }
    }
    SumZero(r.net.Out(f), RiseTerm(r, Takes(r, f), f));
  }

  /** A member's time is at least what it takes of f's. */
  lemma {:induction false} TimeAtLeastTaken(r: Ring, rho: real, base: Id -> real, f: Id, u: Id)
    requires 0.0 <= rho && forall g :: 0.0 <= base(g)
    ensures Times(Takes(r, f)(u), Partial(r, rho, base, f)) <= Partial(r, rho, base, u)
    decreases Depth(r, u)
  {
    hide Times, Fraction, Rises;
    var t, T := Partial(r, rho, base, f), Partials(r, rho, base);
    if u == f {
      TakesItself(r, f);
      OneTimes(t);
    } else {
      PartialIs(r, 1.0, Unit(f), u);
      PartialIs(r, rho, base, u);
      var scaled := v => Times(RiseTerm(r, Takes(r, f), u)(v), t);
      forall v | v in r.net.Out(u)
        ensures scaled(v) <= RiseTerm(r, T, u)(v)
      {
        if Rises(r, u, v) {
          RisesDeeper(r, u, v);
          TimeAtLeastTaken(r, rho, base, f, v);
        }
        TermAtLeastTaken(r, Takes(r, f), T, u, v, t);
      }
      SumTimes(r.net.Out(u), t, RiseTerm(r, Takes(r, f), u), scaled);
      SumLess(r.net.Out(u), scaled, RiseTerm(r, T, u));
      ZeroTimes(1.0);
      Sign(rho, base(u));
    }
  }

  lemma TermAtLeastTaken(r: Ring, S: Id -> real, T: Id -> real, u: Id, v: Id, t: real)
    requires Rises(r, u, v) ==> Times(S(v), t) <= T(v)
    ensures Times(RiseTerm(r, S, u)(v), t) <= RiseTerm(r, T, u)(v)
  {
    hide Times, Rises;
    if Rises(r, u, v) {
      Rescale(Fraction(r, u, v), S(v), t, T(v));
    } else {
      TimesZero(t);
    }
  }

  lemma Rescale(k: real, a: real, t: real, b: real)
    requires 0.0 <= k && Times(a, t) <= b
    ensures Times(Times(k, a), t) <= Times(k, b)
  {
    assert k * (a * t) <= k * b;
  }

  /** The entry takes every member's time at least once. */
  lemma EntryTakes(r: Ring, s: Id, f: Id)
    requires Entered(r, s) && NoneNegative(r) && f in r.members
    ensures 1.0 <= Takes(r, f)(s)
  {
    hide Entered, NoneNegative, Excess, Sum, Times;
    var b := Scaled(1.0, Unit(f));
    forall g | g in r.members
      ensures Takes(r, f)(g) == b(g) + Sum(r.net.Out(g), RiseTerm(r, Takes(r, f), g))
    {
      PartialIs(r, 1.0, Unit(f), g);
    }
    EntryGets(r, s, b, Takes(r, f));
    forall v
      ensures 0.0 <= Excess(r, s, Takes(r, f))(v)
    {
      PartialNonNegative(r, 1.0, Unit(f), v);
      ExcessSign(r, s, Takes(r, f), v);
    }
    SumNonNegative(Members(r), Excess(r, s, Takes(r, f)));
    UnitSum(r, s, f);
  }

  lemma UnitSum(r: Ring, s: Id, f: Id)
    requires Entered(r, s) && f in r.members
    ensures SumIn(r.net.functions, r.members, Scaled(1.0, Unit(f))) == 1.0
  {
    assert f in SetOf(r.net.functions);
    SumPoint(r.net.functions, f, Only(r.members, Scaled(1.0, Unit(f))));
  }

  /** The entry's time is the greatest, whatever ratios there are. */
  lemma EntryGetsMost(r: Ring, s: Id, rho: real, base: Id -> real, f: Id)
    requires Entered(r, s) && NoneNegative(r) && f in r.members && 0.0 <= rho && forall g :: 0.0 <= base(g)
    ensures Partial(r, rho, base, f) <= Partial(r, rho, base, s)
  {
    hide Entered, NoneNegative, Takes;
    PartialNonNegative(r, rho, base, f);
    EntryTakes(r, s, f);
    TimeAtLeastTaken(r, rho, base, f, s);
    AtLeast(Takes(r, f)(s), Partial(r, rho, base, f));
  }

  lemma AtLeast(k: real, t: real)
    requires 1.0 <= k && 0.0 <= t
    ensures t <= Times(k, t)
  {
  }
}

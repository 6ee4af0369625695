/** What becomes of a cycle's time when calls inside it may have no weight. */
module ZeroRatios {
  import opened Paths
  import opened Seqs
  import opened Sums
  import opened Components
  import opened Bounds
  import opened Supply
  import opened CallRatios
  import opened Rings
  import opened Entries

  /** f has time of its own, or takes some of a member further from the entry that carries time. */
  ghost predicate Carries(r: Ring, f: Id)
    decreases Depth(r, f)
  {
    Supplied(r.net, r.net.CompOf(f), f) ||
    exists v :: Rises(r, f, v) && (0.0 < r.net.Ratio(f, v) || Arrival(r, v) == 0.0) && Carries(r, v)
  }

  lemma FractionPositive(r: Ring, u: Id, v: Id)
    requires NoneNegative(r) && Rises(r, u, v) && r.members <= SetOf(r.net.functions)
    ensures 0.0 <= Fraction(r, u, v)
    ensures 0.0 < Fraction(r, u, v) <==> 0.0 < r.net.Ratio(u, v) || Arrival(r, v) == 0.0
  {
    RatioAtMostArrival(r, u, v);
    PartOrOne(r.net.Ratio(u, v), Arrival(r, v));
    if Arrival(r, v) != 0.0 {
      TimesZero(1.0 / Arrival(r, v));
    }
  }

  /** A member has time exactly when the cycle is entered with some ratio and it carries time. */
  lemma {:induction false} PartialPositive(r: Ring, rho: real, f: Id)
    requires NonNegative(r.net) && r.members <= SetOf(r.net.functions) && 0.0 <= rho
    ensures 0.0 < Partial(r, rho, Subtotals(r.net), f) <==> 0.0 < rho && Carries(r, f)
    decreases Depth(r, f)
  {
    hide Times, Fraction, Rises, Subtotal, Supplied;
    var base, T := Subtotals(r.net), Partials(r, rho, Subtotals(r.net));
    SubtotalsNonNegative(r.net);
    SubtotalPositive(r.net, r.net.CompOf(f), f);
    Sign(rho, base(f));
    forall v
      ensures 0.0 <= RiseTerm(r, T, f)(v)
      ensures 0.0 < RiseTerm(r, T, f)(v) <==>
        Rises(r, f, v) && (0.0 < r.net.Ratio(f, v) || Arrival(r, v) == 0.0) && 0.0 < rho && Carries(r, v)
    {
      if Rises(r, f, v) {
        RisesDeeper(r, f, v);
        PartialPositive(r, rho, v);
        PartialNonNegative(r, rho, base, v);
        FractionPositive(r, f, v);
        Sign(Fraction(r, f, v), T(v));
      }
    }
    RisesOut(r, f);
    PartialIs(r, rho, base, f);
    SumPositive(r.net.Out(f), RiseTerm(r, T, f));
    SumNonNegative(r.net.Out(f), RiseTerm(r, T, f));
  }

  lemma RisesOut(r: Ring, f: Id)
    ensures forall v :: Rises(r, f, v) ==> v in r.net.Out(f)
  {
  }

  /**
    * Time that the entry e gets more than once: two or more calls rise to v, none of them with any ratio, e is called
    * with some ratio, and v carries time.
    */
  ghost predicate TimeDoubled(n: Net, c: nat, e: Id, v: Id) {
    Doubled(RingAt(n, c, e), e, v) && 0.0 < EntryRatio(n, c, e) && Carries(RingAt(n, c, e), v)
  }

  lemma ExcessPositive(n: Net, c: nat, e: Id, v: Id)
    requires n.Sound() && NonNegative(n) && e in InComp(n, Cyc(c))
    ensures var x := Excess(RingAt(n, c, e), e, PartialsAt(n, c, e))(v);
      0.0 <= x && (0.0 < x <==> TimeDoubled(n, c, e, v))
  {
    hide RingAt, Doubled, EntryRatio, Carries, Excess, Net.Sound, NonNegative, Entered, NoneNegative, Partials;
    RingAtEntered(n, c, e);
    RingAtParts(n, c, e);
    EnteredMembers(RingAt(n, c, e), e);
    EntryRatioNonNegative(n, c, e);
    PartialsNonNegative(n, c, e, v);
    PartialPositive(RingAt(n, c, e), EntryRatio(n, c, e), v);
    PartialsAre(n, c, e, v);
    ExcessSign(RingAt(n, c, e), e, PartialsAt(n, c, e), v);
  }

  lemma PartialsAre(n: Net, c: nat, e: Id, v: Id)
    ensures PartialsAt(n, c, e)(v) == Partial(RingAt(n, c, e), EntryRatio(n, c, e), Subtotals(n), v)
  {
  }

  lemma EnteredMembers(r: Ring, e: Id)
    requires Entered(r, e)
    ensures r.members <= SetOf(r.net.functions)
    ensures forall v :: v in r.members ==> v in Members(r)
  {
    forall v | v in r.members
      ensures v in Members(r)
    {
      assert v in SetOf(r.net.functions);
    }
  }

  /**
    * With ratios and self times that are not negative, the entry's partial time is at least its part of the
    * cycle's total, and exactly that if and only if no time is doubled.
    */
  lemma EntryExactIff(n: Net, c: nat, e: Id)
    requires n.Sound() && NonNegative(n) && e in InComp(n, Cyc(c))
    ensures Times(EntryRatio(n, c, e), Total(n, Cyc(c))) <= PartialsAt(n, c, e)(e)
    ensures PartialsAt(n, c, e)(e) == Times(EntryRatio(n, c, e), Total(n, Cyc(c))) <==>
      forall v :: !TimeDoubled(n, c, e, v)
  {
    hide Net.Sound, NonNegative, RingAt, EntryRatio, Sum, Times, Total, Excess, PartialsAt, TimeDoubled, Members;
    var r, x := RingAt(n, c, e), Excess(RingAt(n, c, e), e, PartialsAt(n, c, e));
    EntryExceeds(n, c, e);
    forall v
      ensures 0.0 <= x(v) && (0.0 < x(v) <==> TimeDoubled(n, c, e, v))
    {
      ExcessPositive(n, c, e, v);
    }
    SumPositive(Members(r), x);
    if v :| TimeDoubled(n, c, e, v) {
      DoubledMember(n, c, e, v);
      assert v in Members(r) && 0.0 < x(v);
    } else {
      SumZero(Members(r), x);
    }
  }

  lemma DoubledMember(n: Net, c: nat, e: Id, v: Id)
    requires n.Sound() && NonNegative(n) && e in InComp(n, Cyc(c)) && TimeDoubled(n, c, e, v)
    ensures v in Members(RingAt(n, c, e))
  {
    RingAtEntered(n, c, e);
    EnteredMembers(RingAt(n, c, e), e);
  }

  /** The check of the code fails exactly when what is doubled is more than a thousandth of the entry's part. */
  lemma EntryPassesIff(n: Net, c: nat, e: Id)
    requires n.Sound() && NonNegative(n) && e in InComp(n, Cyc(c))
    ensures EntryPasses(n, c, e) <==> ExcessAt(n, c, e) <= 0.001 * Times(EntryRatio(n, c, e), Total(n, Cyc(c)))
  {
    hide Net.Sound, NonNegative, EntryRatio, Times, Total, PartialsAt, ExcessAt;
    EntryExceeds(n, c, e);
  }

  /** The checks of a cycle's entries hold when no time is doubled. */
  lemma UndoubledPasses(n: Net, c: nat)
    requires n.Sound() && NonNegative(n)
    requires forall e, v :: e in EntrySet(n, c) ==> !TimeDoubled(n, c, e, v)
    ensures CyclePasses(n, c)
  {
    hide Net.Sound, NonNegative, EntryRatio, Times, Total, PartialsAt, TimeDoubled;
    forall e | e in EntrySet(n, c)
      ensures EntryPasses(n, c, e)
    {
      EntryInside(n, c, e);
      EntryExactIff(n, c, e);
      PartNonNegative(n, c, e);
    }
  }

  lemma EntryInside(n: Net, c: nat, e: Id)
    requires n.Sound() && e in EntrySet(n, c)
    ensures e in InComp(n, Cyc(c))
  {
  }

  lemma PartNonNegative(n: Net, c: nat, e: Id)
    requires NonNegative(n)
    ensures 0.0 <= EntryRatio(n, c, e) && 0.0 <= Times(EntryRatio(n, c, e), Total(n, Cyc(c)))
  {
    hide EntryRatio;
    EntryRatioNonNegative(n, c, e);
    TotalNonNegative(n, Cyc(c));
    Sign(EntryRatio(n, c, e), Total(n, Cyc(c)));
  }

  /** Partial times grow in proportion to the ratio with which the cycle is entered. */
  lemma {:induction false} PartialScales(r: Ring, rho: real, base: Id -> real, f: Id)
    ensures Partial(r, rho, base, f) == Times(Partial(r, 1.0, base, f), rho)
    decreases Depth(r, f)
  {
    hide Times, Fraction, Rises;
    var T, T1 := Partials(r, rho, base), Partials(r, 1.0, base);
    forall v
      ensures RiseTerm(r, T, f)(v) == Times(RiseTerm(r, T1, f)(v), rho)
    {
      if Rises(r, f, v) {
        RisesDeeper(r, f, v);
        PartialScales(r, rho, base, v);
        Regroup(Fraction(r, f, v), T1(v), rho);
      } else {
        TimesZero(rho);
      }
    }
    SumTimes(r.net.Out(f), rho, RiseTerm(r, T1, f), RiseTerm(r, T, f));
    PartialIs(r, rho, base, f);
    PartialIs(r, 1.0, base, f);
    Factor(base(f), Sum(r.net.Out(f), RiseTerm(r, T1, f)), rho);
  }

  lemma Regroup(a: real, b: real, c: real)
    ensures Times(a, Times(b, c)) == Times(Times(a, b), c)
  {
  }

  lemma Factor(a: real, b: real, rho: real)
    ensures Times(rho, a) + Times(b, rho) == Times(Times(1.0, a) + b, rho)
  {
  }

  /** What is handed out again when the cycle is entered with a ratio of one. */
  ghost function UnitExcess(n: Net, c: nat, e: Id): real {
    var r := RingAt(n, c, e);
    Sum(Members(r), Excess(r, e, Partials(r, 1.0, Subtotals(n))))
  }

  lemma ExcessScales(n: Net, c: nat, e: Id)
    ensures ExcessAt(n, c, e) == Times(UnitExcess(n, c, e), EntryRatio(n, c, e))
  {
    hide Times, RingAt, EntryRatio, Partial, Members, Doubled, Risers, Subtotals;
    var r, rho := RingAt(n, c, e), EntryRatio(n, c, e);
    var x1, x := Excess(r, e, Partials(r, 1.0, Subtotals(n))), Excess(r, e, PartialsAt(n, c, e));
    forall v
      ensures x(v) == Times(x1(v), rho)
    {
      PartialScales(r, rho, Subtotals(n), v);
      Regroup(Risers(r, v) - 1.0, Partial(r, 1.0, Subtotals(n), v), rho);
      TimesZero(rho);
    }
    SumTimes(Members(r), rho, x1, x);
  }

  /** With how much ratio an entry is called, if with any, makes no difference to its check. */
  lemma EntryFailsIff(n: Net, c: nat, e: Id)
    requires n.Sound() && NonNegative(n) && e in InComp(n, Cyc(c))
    ensures !EntryPasses(n, c, e) <==> 0.0 < EntryRatio(n, c, e) && 0.001 * Total(n, Cyc(c)) < UnitExcess(n, c, e)
  {
    hide Net.Sound, NonNegative, EntryRatio, Total, EntryPasses, ExcessAt, UnitExcess;
    EntryPassesIff(n, c, e);
    ExcessScales(n, c, e);
    EntryRatioNonNegative(n, c, e);
    Cancel(UnitExcess(n, c, e), Total(n, Cyc(c)), EntryRatio(n, c, e));
  }

  lemma Cancel(x: real, t: real, rho: real)
    requires 0.0 <= rho
    ensures Times(x, rho) <= 0.001 * Times(rho, t) <==> rho == 0.0 || x <= 0.001 * t
  {
    if rho > 0.0 {
      var d := x - 0.001 * t;
      assert Times(x, rho) - 0.001 * Times(rho, t) == d * rho;
      assert d > 0.0 ==> d * rho > 0.0;
      assert d <= 0.0 ==> d * rho <= 0.0;
    }
  }
}

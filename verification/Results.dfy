/** What integration gives a reader of the profile: time is conserved and every total is bounded. */
module Results {
  import opened Paths
  import opened Seqs
  import opened Sums
  import opened Components
  import opened Bounds
  import opened CallRatios
  import opened CycleCalls
  import opened Entries

  /** u's calls to members of the cycle, if u is outside it. */
  ghost function IntoCycle(n: Net, c: nat, u: Id): Id -> real {
    x => if n.CompOf(x) == Cyc(c) && n.CompOf(u) != Cyc(c) then n.Ratio(u, x) else 0.0
  }

  ghost function Itself(): Id -> Id {
    x => x
  }

  ghost function EntryTerms(n: Net, c: nat): (Id, Id) -> real {
    (e, u) => if e in EntrySet(n, c) then OutsideFrom(n, c, e)(u) else 0.0
  }

  lemma ShareByEntry(n: Net, c: nat, u: Id)
    requires n.Sound() && Usable(n) && u in n.functions
    ensures Share(n, Cyc(c))(u) == Sum(n.functions, Column(EntryTerms(n, c), u))
  {
    var D := Cyc(c);
    forall v | v in n.Out(u)
      ensures Itself()(v) in n.functions
    {
      assert Edge(n.calls, u, v);
    }
    SumSame(n.Out(u), AtKey(Key(n), Across(n, u), D), IntoCycle(n, c, u));
    SumByKey(n.Out(u), n.functions, Itself(), IntoCycle(n, c, u));
    forall e | e in n.functions
      ensures KeySums(n.Out(u), Itself(), IntoCycle(n, c, u))(e) == Column(EntryTerms(n, c), u)(e)
    {
      EntryTerm(n, c, e, u);
    }
    SumSame(n.functions, KeySums(n.Out(u), Itself(), IntoCycle(n, c, u)), Column(EntryTerms(n, c), u));
  }

  lemma EntryTerm(n: Net, c: nat, e: Id, u: Id)
    requires e in n.functions && u in n.functions
    ensures KeySums(n.Out(u), Itself(), IntoCycle(n, c, u))(e) == Column(EntryTerms(n, c), u)(e)
  {
    if e in EntrySet(n, c) {
      assert n.CompOf(e) == Cyc(c);
      SumSame(n.Out(u), AtKey(Itself(), IntoCycle(n, c, u), e), OutsideTerm(n, c, e, u));
      assert Column(EntryTerms(n, c), u)(e) == EntryTerms(n, c)(e, u) == OutsideFrom(n, c, e)(u);
    } else {
      forall x | x in n.Out(u)
        ensures AtKey(Itself(), IntoCycle(n, c, u), e)(x) == 0.0
      {
        assert x == e ==> (n.CompOf(e) == Cyc(c) && n.CompOf(u) != Cyc(c) ==> IsEntry(n, c, e));
      }
      SumZero(n.Out(u), AtKey(Itself(), IntoCycle(n, c, u), e));
    }
  }

  /** The ratio with which u calls e, if u is outside the cycle and calls it. */
  ghost function CallsTo(n: Net, c: nat, e: Id): Id -> real {
    u => if e in n.Out(u) && n.CompOf(u) != Cyc(c) then n.Ratio(u, e) else 0.0
  }

  /** An entry's ratio is that of the calls to it from outside, caller by caller. */
  lemma EntryRatioIs(n: Net, c: nat, e: Id)
    requires forall u :: u in n.functions ==> NoDup(n.Out(u))
    ensures EntryRatio(n, c, e) == Sum(n.functions, CallsTo(n, c, e))
  {
    forall u | u in n.functions
      ensures OutsideFrom(n, c, e)(u) == CallsTo(n, c, e)(u)
    {
      if e in n.Out(u) {
        SumPoint(n.Out(u), e, OutsideTerm(n, c, e, u));
      } else {
        SumZero(n.Out(u), OutsideTerm(n, c, e, u));
      }
    }
    SumSame(n.functions, OutsideFrom(n, c, e), CallsTo(n, c, e));
  }

  /** The ratios of the entries add up to all the ratios into the cycle. */
  lemma EntryRatiosSum(n: Net, c: nat)
    requires n.Sound() && Usable(n)
    ensures SumIn(n.functions, EntrySet(n, c), EntryRatios(n, c)) == Into(n, Cyc(c))
  {
    hide Sum, EntrySet, Net.Sound, Usable, OutsideFrom, Share;
    forall u | u in n.functions
      ensures Share(n, Cyc(c))(u) == ColumnSums(n.functions, EntryTerms(n, c))(u)
    {
      ShareByEntry(n, c, u);
    }
    SumSame(n.functions, Share(n, Cyc(c)), ColumnSums(n.functions, EntryTerms(n, c)));
    SumSwap(n.functions, n.functions, EntryTerms(n, c));
    forall e | e in n.functions
      ensures RowSums(n.functions, EntryTerms(n, c))(e) == Only(EntrySet(n, c), EntryRatios(n, c))(e)
    {
      if e in EntrySet(n, c) {
        SumSame(n.functions, Row(EntryTerms(n, c), e), OutsideFrom(n, c, e));
      } else {
        SumZero(n.functions, Row(EntryTerms(n, c), e));
      }
    }
    SumSame(n.functions, RowSums(n.functions, EntryTerms(n, c)), Only(EntrySet(n, c), EntryRatios(n, c)));
  }

  lemma TimesLess(k: real, a: real, b: real)
    requires 0.0 <= k && a <= b
    ensures Times(k, a) <= Times(k, b)
  {
  }

  /** One entry gives a member at least its ratio of the member's self time, and at most what it has itself. */
  lemma PartialBounds(n: Net, c: nat, e: Id, m: Id)
    requires n.Sound() && NonNegative(n) && e in InComp(n, Cyc(c)) && m in InComp(n, Cyc(c))
    ensures Times(EntryRatio(n, c, e), n.Self(m)) <= PartialOf(n, c, m)(e) <= PartialOf(n, c, e)(e)
    ensures Lively(n) ==> PartialOf(n, c, e)(e) == Times(EntryRatio(n, c, e), Total(n, Cyc(c)))
  {
    hide Net.Sound, NonNegative, PartialsAt, EntryRatio, Total, Subtotal, Times, Sum, InComp;
    EntryGreatest(n, c, e, m);
    EntryRatioNonNegative(n, c, e);
    PartialsNonNegative(n, c, e, m);
    SelfInSubtotal(n, c, m);
    TimesLess(EntryRatio(n, c, e), n.Self(m), Subtotals(n)(m));
    if Lively(n) {
      EntryExact(n, c, e);
    }
  }

  lemma SelfInSubtotal(n: Net, c: nat, m: Id)
    requires n.Sound() && NonNegative(n) && m in InComp(n, Cyc(c))
    ensures n.Self(m) <= Subtotals(n)(m)
  {
    hide Times, Total;
    assert m in SetOf(n.functions);
    SubtotalIs(n, m);
    forall v | v in n.Out(m)
      ensures 0.0 <= Outward(n, Totals(n), m)(v)
    {
      TotalNonNegative(n, n.CompOf(v));
      Sign(n.Ratio(m, v), Total(n, n.CompOf(v)));
    }
    SumNonNegative(n.Out(m), Outward(n, Totals(n), m));
  }

  /** No entry's partial time is more than k times its part of the cycle's total. */
  ghost predicate EntriesWithin(n: Net, c: nat, k: real) {
    forall e :: e in EntrySet(n, c) ==> PartialOf(n, c, e)(e) <= Times(EntryRatio(n, c, e), Times(k, Total(n, Cyc(c))))
  }

  lemma MemberWithin(n: Net, c: nat, m: Id, k: real)
    requires n.Sound() && Normalised(n) && NonNegative(n) && Usable(n) && m in InComp(n, Cyc(c)) && EntriesWithin(n, c, k)
    ensures if Called(n, Cyc(c)) then n.Self(m) <= MemberTotal(n, c, m) <= Times(k, Total(n, Cyc(c)))
            else MemberTotal(n, c, m) == 0.0
  {
    hide Net.Sound, Usable, EntryRatio, Total, Times, Sum, PartialsAt, Called, Into, PartialOf;
    var E, most := EntrySet(n, c), Times(k, Total(n, Cyc(c)));
    EntryRatiosSum(n, c);
    assert forall e :: e in E ==> e in InComp(n, Cyc(c));
    var low := (e: Id) => Times(EntryRatio(n, c, e), n.Self(m));
    var high := (e: Id) => Times(EntryRatio(n, c, e), most);
    forall e | e in n.functions
      ensures Only(E, low)(e) <= Only(E, PartialOf(n, c, m))(e) <= Only(E, high)(e)
      ensures Only(E, low)(e) == Times(Only(E, EntryRatios(n, c))(e), n.Self(m))
      ensures Only(E, high)(e) == Times(Only(E, EntryRatios(n, c))(e), most)
    {
      TimesZero(n.Self(m));
      TimesZero(most);
      if e in E {
        PartialBounds(n, c, e, m);
      }
    }
    SumLess(n.functions, Only(E, low), Only(E, PartialOf(n, c, m)));
    SumLess(n.functions, Only(E, PartialOf(n, c, m)), Only(E, high));
    SumTimes(n.functions, n.Self(m), Only(E, EntryRatios(n, c)), Only(E, low));
    SumTimes(n.functions, most, Only(E, EntryRatios(n, c)), Only(E, high));
    OneTimes(n.Self(m));
    OneTimes(most);
  }

  /**
    * A member's total is at most its cycle's; with a caller outside the cycle it is at least the
    * member's self time, without one it is zero.
    */
  lemma MemberBounded(n: Net, c: nat, m: Id)
    requires n.Sound() && Normalised(n) && Lively(n) && Usable(n) && m in InComp(n, Cyc(c))
    ensures 0.0 <= MemberTotal(n, c, m) <= Total(n, Cyc(c))
    ensures if Called(n, Cyc(c)) then n.Self(m) <= MemberTotal(n, c, m) else MemberTotal(n, c, m) == 0.0
  {
    hide Net.Sound, Usable, EntryRatio, Total, Times, Sum, PartialsAt, Called, Into, MemberTotal, Normalised;
    forall e | e in EntrySet(n, c)
      ensures PartialOf(n, c, e)(e) <= Times(EntryRatio(n, c, e), Times(1.0, Total(n, Cyc(c))))
    {
      EntryExact(n, c, e);
      OneTimes(Total(n, Cyc(c)));
    }
    MemberWithin(n, c, m, 1.0);
    OneTimes(Total(n, Cyc(c)));
    TotalNonNegative(n, Cyc(c));
  }

  /** Whatever the ratios inside the cycle, if its entries pass their checks then so it is up to the tolerance. */
  lemma MemberNearlyBounded(n: Net, c: nat, m: Id)
    requires n.Sound() && Normalised(n) && NonNegative(n) && Usable(n) && m in InComp(n, Cyc(c)) && CyclePasses(n, c)
    ensures 0.0 <= MemberTotal(n, c, m) <= Times(1.001, Total(n, Cyc(c)))
    ensures if Called(n, Cyc(c)) then n.Self(m) <= MemberTotal(n, c, m) else MemberTotal(n, c, m) == 0.0
  {
    hide Net.Sound, Usable, EntryRatio, Total, Times, Sum, PartialsAt, Called, Into, MemberTotal, Normalised;
    forall e | e in EntrySet(n, c)
      ensures PartialOf(n, c, e)(e) <= Times(EntryRatio(n, c, e), Times(1.001, Total(n, Cyc(c))))
    {
      assert EntryPasses(n, c, e);
      NearMeans(EntryRatio(n, c, e), Total(n, Cyc(c)), PartialsAt(n, c, e)(e));
    }
    MemberWithin(n, c, m, 1.001);
    TotalNonNegative(n, Cyc(c));
    Sign(1.001, Total(n, Cyc(c)));
  }

  lemma NearMeans(rho: real, total: real, partial: real)
    requires Near(Times(rho, total), partial)
    ensures partial <= Times(rho, Times(1.001, total))
  {
    assert rho * (1.001 * total) == 1.001 * (rho * total);
  }
}

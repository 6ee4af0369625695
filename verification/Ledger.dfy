/** What a reader can add up on an integrated profile: every total is self time and the times of calls. */
module Ledger {
  import opened Paths
  import opened Seqs
  import opened Sums
  import opened Components
  import opened Bounds
  import opened Rings
  import opened CycleCalls
  import opened CycleTime
  import opened Entries
  import opened Books
  import opened Integrate
  import opened Results

  /** The time that u's call to v has, if it has any. */
  ghost function Paid(call: CallTimes, u: Id): Id -> real {
    v => if (u, v) in call then call[(u, v)] else 0.0
  }

  /** The same for calls that leave u's component only. */
  ghost function PaidAway(n: Net, call: CallTimes, u: Id): Id -> real {
    v => if n.CompOf(v) != n.CompOf(u) && (u, v) in call then call[(u, v)] else 0.0
  }

  /** The same for calls inside it. */
  ghost function PaidInside(n: Net, call: CallTimes, u: Id): Id -> real {
    v => if n.CompOf(v) == n.CompOf(u) && (u, v) in call then call[(u, v)] else 0.0
  }

  /** A function's self time and the times of its calls into other components. */
  ghost function Costs(n: Net, call: CallTimes): Id -> real {
    m => n.Self(m) + Sum(n.Out(m), PaidAway(n, call, m))
  }

  lemma AllDone(n: Net, b: Book, f: Id)
    requires AllSettled(n, b, |n.functions|) && f in n.functions
    ensures Settled(n, b, n.CompOf(f)) && Done(b, n.CompOf(f))
  {
    hide Settled, Done;
    CompIn(n, f);
    var i :| 0 <= i < |n.functions| && n.functions[i] == f;
    assert Done(b, n.CompOf(n.functions[i]));
  }

  lemma Outgoing(n: Net, b: Book, f: Id)
    requires AllSettled(n, b, |n.functions|) && f in n.functions
    ensures OutCalls(n, b, f) && f in b.total
    ensures f in n.cycle ==> MemberSettled(n, b, n.cycle[f], f) && n.cycle[f] in b.cycle
    ensures f in n.cycle ==> b.total[f] == MemberTotal(n, n.cycle[f], f) && InCalls(n, b, n.cycle[f], f)
    ensures f in n.cycle ==> b.cycle[n.cycle[f]] == Total(n, Cyc(n.cycle[f]))
    ensures f !in n.cycle ==> b.total[f] == Total(n, Fn(f)) && (f, f) !in b.call
  {
    hide AllSettled, OutCalls, InCalls, MemberTotal, CyclePasses, Total;
    AllDone(n, b, f);
    if f in n.cycle {
      assert f in InComp(n, n.CompOf(f));
      assert MemberSettled(n, b, n.cycle[f], f);
    }
  }

  /** A call into another component has its ratio of what the profile says that component has in all. */
  lemma CallLedger(n: Net, b: Book, u: Id, v: Id)
    requires Ready(n) && AllSettled(n, b, |n.functions|) && Edge(n.calls, u, v) && n.CompOf(u) != n.CompOf(v)
    ensures v in b.total && (v in n.cycle ==> n.cycle[v] in b.cycle) && (u, v) in b.call
    ensures b.call[(u, v)] == Times(n.Ratio(u, v), if v in n.cycle then b.cycle[n.cycle[v]] else b.total[v])
  {
    hide AllSettled, Settled, MemberSettled, InCalls, MemberTotal, Total, Times;
    assert u in SetOf(n.functions);
    Outgoing(n, b, u);
    Outgoing(n, b, v);
  }

  lemma AwayAt(n: Net, b: Book, u: Id, v: Id)
    requires OutCalls(n, b, u) && v in n.Out(u)
    ensures PaidAway(n, b.call, u)(v) == Outward(n, Totals(n), u)(v)
  {
    hide Times, Total;
    if n.CompOf(v) != n.CompOf(u) {
      assert (u, v) in b.call;
    }
  }

  lemma AwayIs(n: Net, b: Book, u: Id)
    requires Ready(n) && AllSettled(n, b, |n.functions|) && u in n.functions
    ensures Sum(n.Out(u), PaidAway(n, b.call, u)) == Sum(n.Out(u), Outward(n, Totals(n), u))
  {
    hide AllSettled, Settled, MemberSettled, InCalls, MemberTotal, Total, Times;
    Outgoing(n, b, u);
    forall v | v in n.Out(u)
      ensures PaidAway(n, b.call, u)(v) == Outward(n, Totals(n), u)(v)
    {
      AwayAt(n, b, u, v);
    }
    SumSame(n.Out(u), PaidAway(n, b.call, u), Outward(n, Totals(n), u));
  }

  lemma CostsAre(n: Net, b: Book, m: Id)
    requires Ready(n) && AllSettled(n, b, |n.functions|) && m in n.functions
    ensures Costs(n, b.call)(m) == Subtotals(n)(m)
  {
    hide AllSettled, Outward;
    AwayIs(n, b, m);
    assert m in SetOf(n.functions);
    SubtotalIs(n, m);
  }

  /** A cycle has the self time of its members and the times of their calls out of it. */
  lemma CycleLedger(n: Net, b: Book, c: nat)
    requires Ready(n) && AllSettled(n, b, |n.functions|) && InComp(n, Cyc(c)) != {}
    ensures c in b.cycle && b.cycle[c] == SumIn(n.functions, InComp(n, Cyc(c)), Costs(n, b.call))
  {
    hide AllSettled, Costs, Subtotal, Ready;
    var f :| f in InComp(n, Cyc(c));
    Outgoing(n, b, f);
    forall m | m in n.functions
      ensures Only(InComp(n, Cyc(c)), Costs(n, b.call))(m) == Only(InComp(n, Cyc(c)), Subtotals(n))(m)
    {
      CostsAre(n, b, m);
    }
    SumSame(n.functions, Only(InComp(n, Cyc(c)), Costs(n, b.call)), Only(InComp(n, Cyc(c)), Subtotals(n)));
    TotalIs(n, Cyc(c));
  }

  lemma PaidSplit(n: Net, call: CallTimes, u: Id)
    ensures Sum(n.Out(u), Paid(call, u)) == Sum(n.Out(u), PaidAway(n, call, u)) + Sum(n.Out(u), PaidInside(n, call, u))
  {
    SumPlus(n.Out(u), PaidAway(n, call, u), PaidInside(n, call, u), Paid(call, u));
  }

  /** Outside cycles a function's total is its self time and the times of its calls. */
  lemma FunctionLedger(n: Net, b: Book, f: Id)
    requires Ready(n) && AllSettled(n, b, |n.functions|) && f in n.functions && f !in n.cycle
    ensures f in b.total && b.total[f] == n.Self(f) + Sum(n.Out(f), Paid(b.call, f))
  {
    hide AllSettled, Sum, Outward, Total, OutCalls;
    Outgoing(n, b, f);
    PaidSplit(n, b.call, f);
    forall v | v in n.Out(f)
      ensures PaidInside(n, b.call, f)(v) == 0.0
    {
    }
    SumZero(n.Out(f), PaidInside(n, b.call, f));
    CostsAre(n, b, f);
    assert f in SetOf(n.functions);
    TotalOfFunction(n, f);
    SubtotalIs(n, f);
  }

  /** What m's rising calls are given for the entry e. */
  ghost function RiseTimes(n: Net, c: nat, m: Id): (Id, Id) -> real {
    (e, v) => if e in EntrySet(n, c) then GivenAt(n, c, m, v)(e) else 0.0
  }

  lemma RiseRow(n: Net, c: nat, m: Id, e: Id)
    ensures Sum(n.Out(m), Row(RiseTimes(n, c, m), e)) ==
      if e in EntrySet(n, c) then Sum(n.Out(m), RiseTerm(RingAt(n, c, e), PartialsAt(n, c, e), m)) else 0.0
  {
    hide RingAt, PartialsAt, EntrySet, Rises, Times, Fraction;
    if e in EntrySet(n, c) {
      forall v
        ensures Row(RiseTimes(n, c, m), e)(v) == RiseTerm(RingAt(n, c, e), PartialsAt(n, c, e), m)(v)
      {
        assert Row(RiseTimes(n, c, m), e)(v) == RiseTimes(n, c, m)(e, v) == GivenAt(n, c, m, v)(e);
      }
      SumSame(n.Out(m), Row(RiseTimes(n, c, m), e), RiseTerm(RingAt(n, c, e), PartialsAt(n, c, e), m));
    } else {
      SumZero(n.Out(m), Row(RiseTimes(n, c, m), e));
    }
  }

  lemma RiseColumn(n: Net, c: nat, m: Id, v: Id)
    ensures Sum(n.functions, Column(RiseTimes(n, c, m), v)) == InsideTime(n, c, m, v)
  {
    hide RingAt, PartialsAt, EntrySet, Rises, Times, Fraction, GivenAt;
    SumSame(n.functions, Column(RiseTimes(n, c, m), v), Only(EntrySet(n, c), GivenAt(n, c, m, v)));
  }

  lemma NoRiseNoTime(n: Net, c: nat, u: Id, v: Id)
    requires !RisesFrom(n, c, EntrySet(n, c), u, v)
    ensures InsideTime(n, c, u, v) == 0.0
  {
    SumZero(n.functions, Only(EntrySet(n, c), GivenAt(n, c, u, v)));
  }

  lemma RiseInside(n: Net, c: nat, m: Id, v: Id)
    requires n.CompOf(v) != Cyc(c)
    ensures InsideTime(n, c, m, v) == 0.0
  {
    forall e
      ensures !Rises(RingAt(n, c, e), m, v)
    {
      RingAtParts(n, c, e);
    }
    NoRiseNoTime(n, c, m, v);
  }

  lemma InsideAt(n: Net, b: Book, c: nat, m: Id, v: Id)
    requires InCalls(n, b, c, m) && n.CompOf(m) == Cyc(c)
    ensures InsideTime(n, c, m, v) == PaidInside(n, b.call, m)(v)
  {
    hide InsideTime, RisesFrom, EntrySet;
    if n.CompOf(v) != Cyc(c) {
      RiseInside(n, c, m, v);
    } else if (m, v) !in b.call {
      NoRiseNoTime(n, c, m, v);
    }
  }

  /** m's own parts, entry by entry. */
  ghost function OwnParts(n: Net, c: nat, m: Id): Id -> real {
    e => Times(EntryRatio(n, c, e), Subtotals(n)(m))
  }

  /** A member's total splits into its own part, once for every entry, and what its rising calls are given. */
  lemma MemberSplit(n: Net, c: nat, m: Id)
    ensures MemberTotal(n, c, m) == SumIn(n.functions, EntrySet(n, c), OwnParts(n, c, m)) +
      Sum(n.functions, RowSums(n.Out(m), RiseTimes(n, c, m)))
  {
    hide Sum, EntrySet, EntryRatio, Subtotals, RiseTimes, RingAt, Times, RiseTerm;
    var E := EntrySet(n, c);
    forall e | e in n.functions
      ensures Only(E, PartialOf(n, c, m))(e) == Only(E, OwnParts(n, c, m))(e) + RowSums(n.Out(m), RiseTimes(n, c, m))(e)
    {
      RiseRow(n, c, m, e);
      RingAtParts(n, c, e);
      PartialIs(RingAt(n, c, e), EntryRatio(n, c, e), Subtotals(n), m);
    }
    SumPlus(n.functions, Only(E, OwnParts(n, c, m)), RowSums(n.Out(m), RiseTimes(n, c, m)), Only(E, PartialOf(n, c, m)));
  }

  lemma OwnPartsSum(n: Net, c: nat, m: Id)
    requires n.Sound() && Usable(n)
    ensures SumIn(n.functions, EntrySet(n, c), OwnParts(n, c, m)) == Times(Into(n, Cyc(c)), Subtotals(n)(m))
  {
    hide Sum, EntrySet, EntryRatio, Subtotals, Times, Net.Sound, Usable, Into;
    var k := Subtotals(n)(m);
    TimesZero(k);
    SumTimes(n.functions, k, Only(EntrySet(n, c), EntryRatios(n, c)), Only(EntrySet(n, c), OwnParts(n, c, m)));
    EntryRatiosSum(n, c);
  }

  /** Whatever the ratios, a member's total is its own costs, times the ratios into its cycle, and the times of its calls
      inside. */
  lemma MemberSplitLedger(n: Net, b: Book, m: Id)
    requires Ready(n) && AllSettled(n, b, |n.functions|) && m in n.functions && m in n.cycle
    ensures m in b.total
    ensures b.total[m] == Times(Into(n, n.CompOf(m)), Costs(n, b.call)(m)) + Sum(n.Out(m), PaidInside(n, b.call, m))
  {
    hide AllSettled, Settled, MemberSettled, OutCalls, Sum, Times, Into, Costs, Subtotals, MemberTotal, InsideTime, EntrySet,
         RiseTimes, Net.Sound, Usable, NonNegative, OwnParts;
    var c := n.cycle[m];
    Outgoing(n, b, m);
    CostsAre(n, b, m);
    MemberSplit(n, c, m);
    OwnPartsSum(n, c, m);
    SumSwap(n.functions, n.Out(m), RiseTimes(n, c, m));
    forall v | v in n.Out(m)
      ensures ColumnSums(n.functions, RiseTimes(n, c, m))(v) == PaidInside(n, b.call, m)(v)
    {
      RiseColumn(n, c, m, v);
      InsideAt(n, b, c, m, v);
    }
    SumSame(n.Out(m), ColumnSums(n.functions, RiseTimes(n, c, m)), PaidInside(n, b.call, m));
  }

  /** With normalised ratios every total is self time and the times of calls, in cycles as outside them, unless nobody
      calls the cycle. */
  lemma TotalLedger(n: Net, b: Book, f: Id)
    requires Ready(n) && AllSettled(n, b, |n.functions|) && Normalised(n) && f in n.functions
    requires f in n.cycle ==> Called(n, n.CompOf(f))
    ensures f in b.total && b.total[f] == n.Self(f) + Sum(n.Out(f), Paid(b.call, f))
  {
    hide AllSettled, Sum, Times, Into, Ready, Called;
    if f in n.cycle {
      MemberSplitLedger(n, b, f);
      PaidSplit(n, b.call, f);
      OneTimes(Costs(n, b.call)(f));
    } else {
      FunctionLedger(n, b, f);
    }
  }

  /** What v's callers are paid for calling it. */
  ghost function PaidFor(call: CallTimes, v: Id): Id -> real {
    u => if (u, v) in call then call[(u, v)] else 0.0
  }

  lemma ShareOfFunction(n: Net, u: Id, v: Id)
    requires n.Sound() && Usable(n) && u in n.functions && v !in n.cycle
    ensures Share(n, Fn(v))(u) == if v in n.Out(u) && u != v then n.Ratio(u, v) else 0.0
  {
    assert u in SetOf(n.functions);
    var f := AtKey(Key(n), Across(n, u), Fn(v));
    forall x
      ensures x != v ==> f(x) == 0.0
      ensures f(v) == if u != v then n.Ratio(u, v) else 0.0
    {
    }
    if v in n.Out(u) {
      SumPoint(n.Out(u), v, f);
    } else {
      SumZero(n.Out(u), f);
    }
  }

  /** When each call of v has its ratio of t, and v is called, the callers together have t. */
  lemma CallersPaid(n: Net, call: CallTimes, v: Id, t: real)
    requires n.Sound() && Usable(n) && Normalised(n) && v !in n.cycle && v in n.functions
    requires forall u :: u in n.functions ==> ((u, v) in call <==> Edge(n.calls, u, v) && u != v)
    requires forall u :: u in n.functions && (u, v) in call ==> call[(u, v)] == Times(n.Ratio(u, v), t)
    requires CalledByOther(n.calls, v)
    ensures Sum(n.functions, PaidFor(call, v)) == t
  {
    hide Net.Sound, Usable, Times, Sum;
    var u0 :| Edge(n.calls, u0, v) && u0 != v;
    assert Called(n, Fn(v)) by {
      assert n.CompOf(u0) != Fn(v);
    }
    TimesZero(t);
    forall u | u in n.functions
      ensures PaidFor(call, v)(u) == Times(Share(n, Fn(v))(u), t)
    {
      ShareOfFunction(n, u, v);
    }
    SumTimes(n.functions, t, Share(n, Fn(v)), PaidFor(call, v));
    OneTimes(t);
  }

  /** A function outside cycles that is called at all is paid for by its callers, exactly. */
  lemma CallersLedger(n: Net, b: Book, v: Id)
    requires Ready(n) && AllSettled(n, b, |n.functions|) && Normalised(n) && v in n.functions && v !in n.cycle
    requires CalledByOther(n.calls, v)
    ensures v in b.total && Sum(n.functions, PaidFor(b.call, v)) == b.total[v]
  {
    hide AllSettled, Normalised, Sum, Times, NonNegative;
    Outgoing(n, b, v);
    forall u | u in n.functions
      ensures (u, v) in b.call <==> Edge(n.calls, u, v) && u != v
      ensures (u, v) in b.call ==> b.call[(u, v)] == Times(n.Ratio(u, v), b.total[v])
    {
      CallOf(n, b, u, v);
    }
    CallersPaid(n, b.call, v, b.total[v]);
  }

  lemma CallOf(n: Net, b: Book, u: Id, v: Id)
    requires Ready(n) && AllSettled(n, b, |n.functions|) && v in n.functions && v !in n.cycle && u in n.functions
    ensures v in b.total && ((u, v) in b.call <==> Edge(n.calls, u, v) && u != v)
    ensures (u, v) in b.call ==> b.call[(u, v)] == Times(n.Ratio(u, v), b.total[v])
  {
    hide AllSettled, Settled, MemberSettled, InCalls, MemberTotal, Total, Times, Outward;
    Outgoing(n, b, v);
    Outgoing(n, b, u);
    assert u in SetOf(n.functions);
    if u != v && Edge(n.calls, u, v) {
      CallLedger(n, b, u, v);
    }
  }

  /** The ratio with which u calls into the cycle, if u is outside it. */
  ghost function RatioInto(n: Net, c: nat): Id -> real {
    u => Sum(n.Out(u), IntoCycle(n, c, u))
  }

  /** The ratios of all calls into a cycle somebody calls add up to one. */
  lemma CycleRatios(n: Net, c: nat)
    requires Normalised(n)
    ensures Sum(n.functions, RatioInto(n, c)) == if Called(n, Cyc(c)) then 1.0 else 0.0
  {
    forall u | u in n.functions
      ensures RatioInto(n, c)(u) == Share(n, Cyc(c))(u)
    {
      SumSame(n.Out(u), IntoCycle(n, c, u), AtKey(Key(n), Across(n, u), Cyc(c)));
    }
    SumSame(n.functions, RatioInto(n, c), Share(n, Cyc(c)));
  }

  /** What is stored for v, or for its cycle. */
  ghost function Stored(n: Net, b: Book, v: Id): real {
    if v in n.cycle then (if n.cycle[v] in b.cycle then b.cycle[n.cycle[v]] else 0.0)
    else if v in b.total then b.total[v] else 0.0
  }

  ghost predicate CalledByOther(calls: Calls, v: Id) {
    exists u :: Edge(calls, u, v) && u != v
  }

  /**
    * The stored numbers add up, whatever the ratios. A call into another component has its ratio of what is stored for
    * that; a cycle has the self times and outgoing calls of its members; a function has its self time and the times of
    * its calls; a member of a cycle has the former as often as its cycle is called, and the times of its calls inside.
    */
  ghost predicate AddsUp(n: Net, b: Book) {
    && (forall u, v :: Edge(n.calls, u, v) && n.CompOf(u) != n.CompOf(v) ==>
          (u, v) in b.call && b.call[(u, v)] == Times(n.Ratio(u, v), Stored(n, b, v)))
    && (forall f :: f in n.functions && f in n.cycle ==>
          Stored(n, b, f) == SumIn(n.functions, InComp(n, n.CompOf(f)), Costs(n, b.call)))
    && (forall f :: f in n.functions && f !in n.cycle ==>
          f in b.total && b.total[f] == n.Self(f) + Sum(n.Out(f), Paid(b.call, f)))
    && (forall m :: m in n.functions && m in n.cycle ==>
          m in b.total && b.total[m] == Times(Into(n, n.CompOf(m)), Costs(n, b.call)(m)) + Sum(n.Out(m), PaidInside(n, b.call, m)))
  }

  /**
    * Every function has its self time and the times of its calls, unless it is in a cycle nobody calls; and a function
    * outside cycles that somebody calls is what its callers have together.
    */
  ghost predicate PaysAll(n: Net, b: Book) {
    && (forall f :: f in n.functions && (f in n.cycle ==> Called(n, n.CompOf(f))) ==>
          f in b.total && b.total[f] == n.Self(f) + Sum(n.Out(f), Paid(b.call, f)))
    && (forall v :: v in n.functions && v !in n.cycle && CalledByOther(n.calls, v) ==>
          Sum(n.functions, PaidFor(b.call, v)) == Stored(n, b, v))
  }

  /** Integration leaves a profile whose numbers add up. */
  lemma SettledAddsUp(n: Net, b: Book)
    requires Ready(n) && AllSettled(n, b, |n.functions|)
    ensures AddsUp(n, b)
  {
    hide AllSettled, Sum, SumIn, Times, Ready, Costs, InComp, Edge, Into, Paid, PaidInside;
    forall u, v | Edge(n.calls, u, v) && n.CompOf(u) != n.CompOf(v)
      ensures (u, v) in b.call && b.call[(u, v)] == Times(n.Ratio(u, v), Stored(n, b, v))
    {
      CallLedger(n, b, u, v);
    }
    forall f | f in n.functions && f in n.cycle
      ensures Stored(n, b, f) == SumIn(n.functions, InComp(n, n.CompOf(f)), Costs(n, b.call))
    {
      OwnComp(n, f);
      CycleLedger(n, b, n.cycle[f]);
    }
    forall f | f in n.functions && f !in n.cycle
      ensures f in b.total && b.total[f] == n.Self(f) + Sum(n.Out(f), Paid(b.call, f))
    {
      FunctionLedger(n, b, f);
    }
    forall m | m in n.functions && m in n.cycle
      ensures m in b.total
      ensures b.total[m] == Times(Into(n, n.CompOf(m)), Costs(n, b.call)(m)) + Sum(n.Out(m), PaidInside(n, b.call, m))
    {
      MemberSplitLedger(n, b, m);
    }
  }

  /** With normalised ratios it leaves one where every call is paid for. */
  lemma SettledPaysAll(n: Net, b: Book)
    requires Ready(n) && AllSettled(n, b, |n.functions|) && Normalised(n)
    ensures PaysAll(n, b)
  {
    hide AllSettled, Normalised, Sum, Times, Ready, Called, Edge, CalledByOther, Paid, PaidFor;
    forall f | f in n.functions && (f in n.cycle ==> Called(n, n.CompOf(f)))
      ensures f in b.total && b.total[f] == n.Self(f) + Sum(n.Out(f), Paid(b.call, f))
    {
      TotalLedger(n, b, f);
    }
    forall v | v in n.functions && v !in n.cycle && CalledByOther(n.calls, v)
      ensures Sum(n.functions, PaidFor(b.call, v)) == Stored(n, b, v)
    {
      CallersLedger(n, b, v);
    }
  }

  lemma OwnComp(n: Net, f: Id)
    requires f in n.functions
    ensures f in InComp(n, n.CompOf(f))
  {
  }
}

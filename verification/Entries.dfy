/** The part of Profile._integrate_cycle that hands a cycle's time back to its callers, entry by entry. */
module Entries {
  import opened Paths
  import opened Seqs
  import opened Sums
  import opened Components
  import opened Bounds
  import opened CallRatios
  import opened Ranks
  import opened Rings
  import opened CycleCalls
  import opened CycleTime

  ghost function DistancesFrom(calls: Calls, C: set<Id>, s: Id): RankMap {
    if exists r :: Ranked(calls, C, s, r) then
      var r :| Ranked(calls, C, s, r);
      r
    else map[]
  }

  lemma {:induction false} LeastWalk(calls: Calls, C: set<Id>, s: Id, v: Id, k: nat)
    requires Walk(calls, C, k, s, v)
    ensures exists d: nat :: IsDistance(calls, C, s, v, d)
  {
    if j: nat :| j < k && Walk(calls, C, j, s, v) {
      LeastWalk(calls, C, s, v, j);
    } else {
      assert IsDistance(calls, C, s, v, k);
    }
  }

  lemma DistancesExist(calls: Calls, C: set<Id>, s: Id)
    ensures Ranked(calls, C, s, DistancesFrom(calls, C, s))
  {
    forall v | v in C && ReachIn(calls, C, s, v)
      ensures exists d: nat :: IsDistance(calls, C, s, v, d)
    {
      var k: nat :| Walk(calls, C, k, s, v);
      LeastWalk(calls, C, s, v, k);
    }
    var r := map v | v in C && ReachIn(calls, C, s, v) :: var d: nat :| IsDistance(calls, C, s, v, d); d;
    assert Ranked(calls, C, s, r);
  }

  lemma DistancesAre(calls: Calls, C: set<Id>, s: Id, ranks: RankMap)
    requires Ranked(calls, C, s, ranks)
    ensures DistancesFrom(calls, C, s) == ranks
  {
    RanksUnique(calls, C, s, ranks, DistancesFrom(calls, C, s));
  }

  /** The cycle as entered by e. */
  ghost function RingAt(n: Net, c: nat, e: Id): Ring {
    RingOf(n, c, DistancesFrom(n.calls, InComp(n, Cyc(c)), e))
  }

  /** Members that some function outside the cycle calls. */
  ghost predicate IsEntry(n: Net, c: nat, e: Id) {
    e in InComp(n, Cyc(c)) && exists u :: u in n.functions && n.CompOf(u) != Cyc(c) && e in n.Out(u)
  }

  ghost function EntrySet(n: Net, c: nat): set<Id> {
    set e | e in n.functions && IsEntry(n, c, e)
  }

  /** The ratio with which u calls e, if u is outside the cycle. */
  ghost function OutsideTerm(n: Net, c: nat, e: Id, u: Id): Id -> real {
    x => if x == e && n.CompOf(u) != Cyc(c) then n.Ratio(u, x) else 0.0
  }

  ghost function OutsideFrom(n: Net, c: nat, e: Id): Id -> real {
    u => Sum(n.Out(u), OutsideTerm(n, c, e, u))
  }

  /** The ratios of all calls to e from outside the cycle. */
  ghost function EntryRatio(n: Net, c: nat, e: Id): real {
    Sum(n.functions, OutsideFrom(n, c, e))
  }

  ghost function EntryRatios(n: Net, c: nat): Id -> real {
    e => EntryRatio(n, c, e)
  }

  /** The partial times of all members when the cycle is entered by e. */
  ghost function PartialsAt(n: Net, c: nat, e: Id): Id -> real {
    Partials(RingAt(n, c, e), EntryRatio(n, c, e), Subtotals(n))
  }

  /** m's partial time, entry by entry. */
  ghost function PartialOf(n: Net, c: nat, m: Id): Id -> real {
    e => PartialsAt(n, c, e)(m)
  }

  /** m's total: its partial times over all entries. */
  ghost function MemberTotal(n: Net, c: nat, m: Id): real {
    SumIn(n.functions, EntrySet(n, c), PartialOf(n, c, m))
  }

  /** What the call from u to v inside the cycle is given, entry by entry. */
  ghost function GivenAt(n: Net, c: nat, u: Id, v: Id): Id -> real {
    e => Given(RingAt(n, c, e), PartialsAt(n, c, e), u, v)
  }

  ghost function InsideTime(n: Net, c: nat, u: Id, v: Id): real {
    SumIn(n.functions, EntrySet(n, c), GivenAt(n, c, u, v))
  }

  /** The call rises from some entry in E. */
  ghost predicate RisesFrom(n: Net, c: nat, E: set<Id>, u: Id, v: Id) {
    exists e :: e in E && Rises(RingAt(n, c, e), u, v)
  }

  /** Nothing has negative self time, and calls inside a cycle have positive ratios. */
  ghost predicate Lively(n: Net) {
    && NonNegative(n)
    && (forall u, v :: Edge(n.calls, u, v) && u != v && n.CompOf(u) == n.CompOf(v) ==> 0.0 < n.Ratio(u, v))
  }

  function Abs(x: real): real {
    if x < 0.0 then -x else x
  }

  /** The tolerance with which the code compares an entry's part of the cycle's total with its partial time. */
  predicate Near(due: real, partial: real) {
    Abs(due - partial) <= 0.001 * due
  }

  /** The entry e of the cycle stands that comparison. */
  ghost predicate EntryPasses(n: Net, c: nat, e: Id) {
    Near(Times(EntryRatio(n, c, e), Total(n, Cyc(c))), PartialsAt(n, c, e)(e))
  }

  ghost predicate CyclePasses(n: Net, c: nat) {
    forall e :: e in EntrySet(n, c) ==> EntryPasses(n, c, e)
  }

  /** The totals once the entries in E have been served: members have their partial times for these. */
  ghost predicate Served(n: Net, c: nat, E: set<Id>, total0: map<Id, real>, total: map<Id, real>,
                         call0: CallTimes, call: CallTimes)
  {
    && total.Keys == total0.Keys + InComp(n, Cyc(c))
    && (forall f :: f in total0 && f !in InComp(n, Cyc(c)) ==> total[f] == total0[f])
    && (forall m :: m in InComp(n, Cyc(c)) ==> total[m] == SumIn(n.functions, E, PartialOf(n, c, m)))
    && (forall u, v :: (u, v) in call <==> (u, v) in call0 || RisesFrom(n, c, E, u, v))
    && (forall u, v :: GetCall(call, u, v) == GetCall(call0, u, v) + SumIn(n.functions, E, GivenAt(n, c, u, v)))
  }

  lemma SumInNone<T(!new)>(s: seq<T>, f: T -> real)
    ensures SumIn(s, {}, f) == 0.0
  {
    SumZero(s, Only({}, f));
  }

  /** Every member's total starts at zero. */
  method ClearMembers(n: Net, c: nat, members: set<Id>, ghost call: CallTimes, total0: map<Id, real>) returns (total: map<Id, real>)
    requires members == InComp(n, Cyc(c))
    ensures Served(n, c, {}, total0, total, call, call)
  {
    total := total0;
    var todo := members;
    while todo != {}
      invariant todo <= members
      invariant total.Keys == total0.Keys + (members - todo)
      invariant forall f :: f in total ==> total[f] == if f in members - todo then 0.0 else total0[f]
    {
      var m :| m in todo;
      total := total[m := 0.0];
      todo := todo - {m};
    }
    forall m
      ensures SumIn(n.functions, {}, PartialOf(n, c, m)) == 0.0
    {
      SumInNone(n.functions, PartialOf(n, c, m));
    }
    forall u, v
      ensures SumIn(n.functions, {}, GivenAt(n, c, u, v)) == 0.0
    {
      SumInNone(n.functions, GivenAt(n, c, u, v));
    }
  }

  /** Serving one more entry. */
  lemma ServeOne(n: Net, c: nat, E: set<Id>, e: Id, ranks: RankMap, partials: map<Id, real>,
                 total0: map<Id, real>, total1: map<Id, real>, total: map<Id, real>,
                 call0: CallTimes, call1: CallTimes, call: CallTimes)
    requires NoDup(n.functions) && e in n.functions && e !in E && Served(n, c, E, total0, total1, call0, call1)
    requires RingAt(n, c, e) == RingOf(n, c, ranks)
    requires Handed(RingAt(n, c, e), PartialsAt(n, c, e), map[], partials, total1, total, call1, call)
    requires partials.Keys == InComp(n, Cyc(c))
    ensures Served(n, c, E + {e}, total0, total, call0, call)
  {
    hide RingAt, PartialsAt, Rises, Sum, SumIn, InComp, RisesFrom, GetCall;
    forall m | m in InComp(n, Cyc(c))
      ensures total[m] == SumIn(n.functions, E + {e}, PartialOf(n, c, m))
    {
      SumInAdd(n.functions, E, e, PartialOf(n, c, m));
    }
    forall u, v
      ensures (u, v) in call <==> (u, v) in call0 || RisesFrom(n, c, E + {e}, u, v)
      ensures GetCall(call, u, v) == GetCall(call0, u, v) + SumIn(n.functions, E + {e}, GivenAt(n, c, u, v))
    {
      ServeCall(n, c, E, e, partials, total0, total1, total, call0, call1, call, u, v);
    }
  }

  lemma ServeCall(n: Net, c: nat, E: set<Id>, e: Id, partials: map<Id, real>,
                  total0: map<Id, real>, total1: map<Id, real>, total: map<Id, real>,
                  call0: CallTimes, call1: CallTimes, call: CallTimes, u: Id, v: Id)
    requires NoDup(n.functions) && e in n.functions && e !in E && Served(n, c, E, total0, total1, call0, call1)
    requires Handed(RingAt(n, c, e), PartialsAt(n, c, e), map[], partials, total1, total, call1, call)
    requires partials.Keys == InComp(n, Cyc(c))
    ensures (u, v) in call <==> (u, v) in call0 || RisesFrom(n, c, E + {e}, u, v)
    ensures GetCall(call, u, v) == GetCall(call0, u, v) + SumIn(n.functions, E + {e}, GivenAt(n, c, u, v))
  {
    hide RisesFrom, Handed, RingAt, PartialsAt, Rises, Sum, SumIn, InComp, Served, Given;
    SumInAdd(n.functions, E, e, GivenAt(n, c, u, v));
    RisesMember(n, c, e, u, v);
    ServedAt(n, c, E, total0, total1, call0, call1, u, v);
    HandedAt(RingAt(n, c, e), PartialsAt(n, c, e), map[], partials, total1, total, call1, call, u, v);
    RisesFromMore(n, c, E, e, u, v);
  }

  lemma RisesMember(n: Net, c: nat, e: Id, u: Id, v: Id)
    ensures Rises(RingAt(n, c, e), u, v) ==> u in InComp(n, Cyc(c))
    ensures Given(RingAt(n, c, e), PartialsAt(n, c, e), u, v) != 0.0 ==> Rises(RingAt(n, c, e), u, v)
  {
  }

  lemma ServedAt(n: Net, c: nat, E: set<Id>, total0: map<Id, real>, total: map<Id, real>,
                 call0: CallTimes, call: CallTimes, u: Id, v: Id)
    requires Served(n, c, E, total0, total, call0, call)
    ensures (u, v) in call <==> (u, v) in call0 || RisesFrom(n, c, E, u, v)
    ensures GetCall(call, u, v) == GetCall(call0, u, v) + SumIn(n.functions, E, GivenAt(n, c, u, v))
  {
  }

  lemma RisesFromMore(n: Net, c: nat, E: set<Id>, e: Id, u: Id, v: Id)
    ensures RisesFrom(n, c, E + {e}, u, v) <==> RisesFrom(n, c, E, u, v) || Rises(RingAt(n, c, e), u, v)
  {
    hide Rises;
    if Rises(RingAt(n, c, e), u, v) {
      assert e in E + {e};
    }
    if RisesFrom(n, c, E, u, v) {
      var x :| x in E && Rises(RingAt(n, c, x), u, v);
      assert x in E + {e};
    }
  }

  lemma TimesSym(a: real, b: real)
    ensures Times(a, b) == Times(b, a)
  {
  }

  /** The ring of a cycle entered by e. */
  lemma RingAtEntered(n: Net, c: nat, e: Id)
    requires n.Sound() && NonNegative(n) && e in InComp(n, Cyc(c))
    ensures Entered(RingAt(n, c, e), e) && NoneNegative(RingAt(n, c, e))
  {
    DistancesExist(n.calls, InComp(n, Cyc(c)), e);
    RingEntered(n, c, e, DistancesFrom(n.calls, InComp(n, Cyc(c)), e));
  }

  lemma RingAtFlowing(n: Net, c: nat, e: Id)
    requires n.Sound() && Lively(n)
    ensures Flowing(RingAt(n, c, e))
  {
    var r := RingAt(n, c, e);
    forall u, v | Rises(r, u, v)
      ensures 0.0 < n.Ratio(u, v)
    {
      assert u in SetOf(n.functions) && Edge(n.calls, u, v);
    }
  }

  lemma PartialsHandOn(n: Net, c: nat, e: Id)
    ensures HandsOn(RingAt(n, c, e), Scaled(EntryRatio(n, c, e), Subtotals(n)), PartialsAt(n, c, e))
  {
    hide RingAt;
    var r := RingAt(n, c, e);
    forall f | f in r.members
      ensures PartialsAt(n, c, e)(f) ==
              Scaled(EntryRatio(n, c, e), Subtotals(n))(f) + Sum(r.net.Out(f), RiseTerm(r, PartialsAt(n, c, e), f))
    {
      PartialIs(r, EntryRatio(n, c, e), Subtotals(n), f);
    }
  }

  lemma EntryRatioNonNegative(n: Net, c: nat, e: Id)
    requires NonNegative(n)
    ensures 0.0 <= EntryRatio(n, c, e)
  {
    forall u
      ensures 0.0 <= OutsideFrom(n, c, e)(u)
    {
      SumNonNegative(n.Out(u), OutsideTerm(n, c, e, u));
    }
    SumNonNegative(n.functions, OutsideFrom(n, c, e));
  }

  /** What the members hand out more than once when the cycle is entered by e. */
  ghost function ExcessAt(n: Net, c: nat, e: Id): real {
    var r := RingAt(n, c, e);
    Sum(Members(r), Excess(r, e, PartialsAt(n, c, e)))
  }

  lemma SubtotalsNonNegative(n: Net)
    requires NonNegative(n)
    ensures forall g :: 0.0 <= Subtotals(n)(g)
  {
    forall g
      ensures 0.0 <= Subtotals(n)(g)
    {
      SubtotalNonNegative(n, n.CompOf(g), g);
    }
  }

  /**
    * Whatever the ratios, the entry's partial time is its part of the cycle's total and the excess, which is
    * not negative.
    */
  lemma EntryExceeds(n: Net, c: nat, e: Id)
    requires n.Sound() && NonNegative(n) && e in InComp(n, Cyc(c))
    ensures PartialsAt(n, c, e)(e) == Times(EntryRatio(n, c, e), Total(n, Cyc(c))) + ExcessAt(n, c, e)
    ensures 0.0 <= ExcessAt(n, c, e) && 0.0 <= EntryRatio(n, c, e)
  {
    hide Net.Sound, NonNegative, RingAt, Entered, NoneNegative, HandsOn, EntryRatio, Sum, SumIn, Times, Total, Subtotal,
         Rises, Excess, PartialsAt, Members;
    var r, rho, b, T := RingAt(n, c, e), EntryRatio(n, c, e), Scaled(EntryRatio(n, c, e), Subtotals(n)), PartialsAt(n, c, e);
    RingAtEntered(n, c, e);
    RingAtParts(n, c, e);
    PartialsHandOn(n, c, e);
    EntryGets(r, e, b, T);
    TotalIs(n, Cyc(c));
    ScaledSum(n, InComp(n, Cyc(c)), rho, Subtotals(n));
    EntryRatioNonNegative(n, c, e);
    forall v
      ensures 0.0 <= Excess(r, e, T)(v)
    {
      PartialsNonNegative(n, c, e, v);
      ExcessSign(r, e, T, v);
    }
    SumNonNegative(Members(r), Excess(r, e, T));
  }

  lemma PartialsNonNegative(n: Net, c: nat, e: Id, m: Id)
    requires NonNegative(n)
    ensures 0.0 <= PartialsAt(n, c, e)(m)
    ensures Times(EntryRatio(n, c, e), Subtotals(n)(m)) <= PartialsAt(n, c, e)(m)
  {
    hide RingAt, EntryRatio, Subtotal, Total, NonNegative, Times;
    EntryRatioNonNegative(n, c, e);
    SubtotalsNonNegative(n);
    PartialNonNegative(RingAt(n, c, e), EntryRatio(n, c, e), Subtotals(n), m);
  }

  /** Whatever the ratios, no partial time is greater than the entry's: the first check always succeeds. */
  lemma EntryGreatest(n: Net, c: nat, e: Id, m: Id)
    requires n.Sound() && NonNegative(n) && e in InComp(n, Cyc(c)) && m in InComp(n, Cyc(c))
    ensures PartialsAt(n, c, e)(m) <= PartialsAt(n, c, e)(e)
  {
    hide RingAt, EntryRatio, Subtotal, Total, NonNegative, Net.Sound, Entered, NoneNegative, InComp;
    RingAtEntered(n, c, e);
    RingAtParts(n, c, e);
    EntryRatioNonNegative(n, c, e);
    SubtotalsNonNegative(n);
    EntryGetsMost(RingAt(n, c, e), e, EntryRatio(n, c, e), Subtotals(n), m);
  }

  /**
    * With positive ratios inside cycles the entry's partial time is exactly its part of the cycle's total, and
    * the greatest of all.
    */
  lemma EntryExact(n: Net, c: nat, e: Id)
    requires n.Sound() && Lively(n) && e in InComp(n, Cyc(c))
    ensures PartialsAt(n, c, e)(e) == Times(EntryRatio(n, c, e), Total(n, Cyc(c)))
    ensures forall m :: m in InComp(n, Cyc(c)) ==> 0.0 <= PartialsAt(n, c, e)(m) <= PartialsAt(n, c, e)(e)
  {
    hide Net.Sound, NonNegative, RingAt, Entered, NoneNegative, Flowing, EntryRatio, Sum, Times, Total, PartialsAt, InComp,
         Excess;
    var r, T := RingAt(n, c, e), PartialsAt(n, c, e);
    EntryExceeds(n, c, e);
    RingAtEntered(n, c, e);
    RingAtFlowing(n, c, e);
    forall v
      ensures Excess(r, e, T)(v) == 0.0
    {
      FlowingNoExcess(r, e, T, v);
    }
    SumZero(Members(r), Excess(r, e, T));
    forall m | m in InComp(n, Cyc(c))
      ensures 0.0 <= T(m) <= T(e)
    {
      PartialsNonNegative(n, c, e, m);
      EntryGreatest(n, c, e, m);
    }
  }

  /** With positive ratios inside cycles no check fails. */
  lemma LivelyPasses(n: Net, c: nat)
    requires n.Sound() && Lively(n)
    ensures CyclePasses(n, c)
  {
    hide Net.Sound, EntryRatio, Total, PartialsAt, Times;
    forall e | e in EntrySet(n, c)
      ensures EntryPasses(n, c, e)
    {
      EntryExact(n, c, e);
      EntryRatioNonNegative(n, c, e);
      TotalNonNegative(n, Cyc(c));
      Sign(EntryRatio(n, c, e), Total(n, Cyc(c)));
    }
  }

  lemma RingAtParts(n: Net, c: nat, e: Id)
    ensures RingAt(n, c, e).net == n && RingAt(n, c, e).members == InComp(n, Cyc(c))
  {
  }

  lemma ScaledSum(n: Net, S: set<Id>, rho: real, f: Id -> real)
    ensures SumIn(n.functions, S, Scaled(rho, f)) == Times(rho, SumIn(n.functions, S, f))
  {
    forall x
      ensures Only(S, Scaled(rho, f))(x) == Times(Only(S, f)(x), rho)
    {
      TimesSym(f(x), rho);
      TimesZero(rho);
    }
    SumTimes(n.functions, rho, Only(S, f), Only(S, Scaled(rho, f)));
    TimesSym(rho, Sum(n.functions, Only(S, f)));
  }

  /** Every member is remembered once the entry's partial time is. */
  lemma {:induction false} MemberRemembered(r: Ring, s: Id, T: Id -> real, partials: map<Id, real>,
                          total0: map<Id, real>, total: map<Id, real>, call0: CallTimes, call: CallTimes)
    requires Entered(r, s) && s in partials && Handed(r, T, map[], partials, total0, total, call0, call)
    ensures partials.Keys == r.members
  {
    forall v | v in r.members
      ensures v in partials
    {
      AllVisited(r, s, partials.Keys, v);
    }
  }

  lemma Greatest(n: Net, c: nat, e: Id, partials: map<Id, real>, total0: map<Id, real>, total: map<Id, real>,
                 call0: CallTimes, call: CallTimes)
    requires n.Sound() && NonNegative(n) && e in InComp(n, Cyc(c)) && e in partials
    requires Handed(RingAt(n, c, e), PartialsAt(n, c, e), map[], partials, total0, total, call0, call)
    ensures forall g :: g in partials ==> partials[g] <= partials[e]
    ensures 0.0 <= partials[e] == PartialsAt(n, c, e)(e)
    ensures partials.Keys == InComp(n, Cyc(c))
  {
    hide Net.Sound, RingAt, Entered, PartialsAt, Times, Total, EntryRatio, InComp;
    RingAtEntered(n, c, e);
    RingAtParts(n, c, e);
    MemberRemembered(RingAt(n, c, e), e, PartialsAt(n, c, e), partials, total0, total, call0, call);
    forall g | g in partials
      ensures PartialsAt(n, c, e)(g) <= PartialsAt(n, c, e)(e)
    {
      EntryGreatest(n, c, e, g);
    }
    PartialsNonNegative(n, c, e, e);
  }

  /** max(partials.values()) */
  method MaxPartial(partials: map<Id, real>) returns (greatest: real)
    requires partials != map[]
    ensures exists g :: g in partials && partials[g] == greatest
    ensures forall g :: g in partials ==> partials[g] <= greatest
  {
    var todo := partials.Keys;
    var g :| g in todo;
    greatest := partials[g];
    todo := todo - {g};
    while todo != {}
      invariant todo <= partials.Keys && exists g :: g in partials && partials[g] == greatest
      invariant forall g :: g in partials && g !in todo ==> partials[g] <= greatest
    {
      var g :| g in todo;
      if greatest < partials[g] {
        greatest := partials[g];
      }
      todo := todo - {g};
    }
  }

  lemma NothingRemembered(T: Id -> real)
    ensures Remembered(T, map[])
  {
  }

  lemma ServedOutDone(n: Net, c: nat, E: set<Id>, total0: map<Id, real>, total: map<Id, real>, call0: CallTimes, call: CallTimes)
    requires OutDone(n, c, call0) && Served(n, c, E, total0, total, call0, call)
    ensures OutDone(n, c, call)
  {
    hide Outward, Served, InComp, InsideTime, Sum, SumIn, GivenAt, RisesFrom, Net.CompOf;
    forall u, v | u in InComp(n, Cyc(c)) && v in n.Out(u) && n.CompOf(v) != Cyc(c)
      ensures (u, v) in call && call[(u, v)] == Outward(n, Totals(n), u)(v)
    {
      ServedAt(n, c, E, total0, total, call0, call, u, v);
      NothingGivenOut(n, c, E, u, v);
      assert GetCall(call, u, v) == GetCall(call0, u, v);
    }
  }

  lemma NothingGivenOut(n: Net, c: nat, E: set<Id>, u: Id, v: Id)
    requires n.CompOf(v) != Cyc(c)
    ensures SumIn(n.functions, E, GivenAt(n, c, u, v)) == 0.0
  {
    hide Given, Sum, Rises, RingAt, PartialsAt;
    forall e
      ensures GivenAt(n, c, u, v)(e) == 0.0
    {
      NoRiseOut(n, c, e, u, v);
    }
    SumZero(n.functions, Only(E, GivenAt(n, c, u, v)));
  }

  lemma NoRiseOut(n: Net, c: nat, e: Id, u: Id, v: Id)
    requires n.CompOf(v) != Cyc(c)
    ensures Given(RingAt(n, c, e), PartialsAt(n, c, e), u, v) == 0.0
    ensures !Rises(RingAt(n, c, e), u, v)
  {
    hide Times;
  }

  /** One entry of the cycle: its ranks, its rising calls, its partial times, and the two checks of the result. */
  method ServeEntry(n: Net, c: nat, members: set<Id>, e: Id, rho: real, cycleTotal: real, ghost E: set<Id>,
                    ghost total0: map<Id, real>, total1: map<Id, real>, ghost call0: CallTimes, call1: CallTimes)
    returns (ok: bool, total: map<Id, real>, call: CallTimes)
    requires n.Sound() && NonNegative(n) && Usable(n) && n.self.Keys == SetOf(n.functions)
    requires members == InComp(n, Cyc(c)) && e in members && e !in E
    requires rho == EntryRatio(n, c, e) && cycleTotal == Total(n, Cyc(c))
    requires OutDone(n, c, call1) && Served(n, c, E, total0, total1, call0, call1)
    ensures Served(n, c, E + {e}, total0, total, call0, call)
    ensures ok <==> EntryPasses(n, c, e)
  {
    hide Net.Sound, NonNegative, Usable, InComp, EntryRatio, Total, Served, OutDone, Summed, Entered, Handed, Rises, RingOf,
         RingAt, Ranked, Added, Remembered, Further, Times, Subtotal, Arrival, PartialsAt;
    EntryParts(n, c, e);
    var ranks, queued := RankCycleFunction(n.calls, members, e);
    RanksFit(n, c, e, ranks);
    var sums, visited := CallRatiosCycle(n, c, e, ranks, map[], {}, e);
    SumsFit(n, c, e, ranks, visited, sums);
    NothingRemembered(Partials(RingOf(n, c, ranks), rho, Subtotals(n)));
    PartialsFit(n, c, e, ranks);
    var partial, partials;
    partial, partials, total, call := IntegrateCycleFunction(n, c, e, rho, map[], ranks, sums, total1, call1, e);
    HandedAlready(RingOf(n, c, ranks), PartialsAt(n, c, e), partials, total1, total, call1, call, e);
    Greatest(n, c, e, partials, total1, total, call1, call);
    var greatest := MaxPartial(partials);
    if Abs(partial - greatest) > 0.0000001 * greatest {
      assert false;
    }
    TimesIs(rho, cycleTotal);
    ok := Near(rho * cycleTotal, partial);
    ServeOne(n, c, E, e, ranks, partials, total0, total1, total, call0, call1, call);
  }

  lemma EntryParts(n: Net, c: nat, e: Id)
    requires n.Sound() && e in InComp(n, Cyc(c))
    ensures InComp(n, Cyc(c)) <= n.calls.Keys && e in n.functions && NoDup(n.functions)
  {
    forall f | f in InComp(n, Cyc(c))
      ensures f in n.calls
    {
      assert f in SetOf(n.functions);
    }
  }

  lemma RanksFit(n: Net, c: nat, e: Id, ranks: RankMap)
    requires n.Sound() && NonNegative(n) && e in InComp(n, Cyc(c)) && Ranked(n.calls, InComp(n, Cyc(c)), e, ranks)
    ensures RingAt(n, c, e) == RingOf(n, c, ranks) && Entered(RingOf(n, c, ranks), e) && e in ranks
  {
    hide Entered, NoneNegative, RingOf, Net.Sound, Ranked, NonNegative;
    DistancesAre(n.calls, InComp(n, Cyc(c)), e, ranks);
    RingAtEntered(n, c, e);
    AllRanked(n, c, e, ranks);
  }

  lemma SumsFit(n: Net, c: nat, e: Id, ranks: RankMap, visited: set<Id>, sums: map<Id, real>)
    requires Entered(RingOf(n, c, ranks), e) && e in visited && Added(RingOf(n, c, ranks), {}, visited, map[], sums)
    ensures Summed(RingOf(n, c, ranks), sums)
  {
    hide Entered, Added, Rises, Arrival, RingOf;
    SumsAreArrivals(RingOf(n, c, ranks), e, visited, sums);
  }

  lemma PartialsFit(n: Net, c: nat, e: Id, ranks: RankMap)
    requires RingAt(n, c, e) == RingOf(n, c, ranks)
    ensures PartialsAt(n, c, e) == Partials(RingOf(n, c, ranks), EntryRatio(n, c, e), Subtotals(n))
  {
  }

  lemma HandedAlready(r: Ring, T: Id -> real, partials: map<Id, real>,
                      total0: map<Id, real>, total: map<Id, real>, call0: CallTimes, call: CallTimes, e: Id)
    requires Handed(r, T, map[], partials, total0, total, call0, call) && e in partials
    ensures partials[e] == T(e)
  {
  }

  /** Every entry of the cycle in turn, in any order, up to the first that fails its check. */
  method ServeEntries(n: Net, c: nat, members: set<Id>, entries: map<Id, real>, cycleTotal: real,
                      total0: map<Id, real>, call0: CallTimes)
    returns (ok: bool, total: map<Id, real>, call: CallTimes)
    requires n.Sound() && NonNegative(n) && Usable(n) && n.self.Keys == SetOf(n.functions)
    requires members == InComp(n, Cyc(c)) && cycleTotal == Total(n, Cyc(c)) && OutDone(n, c, call0)
    requires entries.Keys == EntrySet(n, c) && forall e :: e in entries ==> entries[e] == EntryRatio(n, c, e)
    ensures ok <==> CyclePasses(n, c)
    ensures ok ==> Served(n, c, EntrySet(n, c), total0, total, call0, call)
  {
    hide Net.Sound, NonNegative, Usable, InComp, EntryRatio, Total, Served, OutDone, EntryPasses;
    total := ClearMembers(n, c, members, call0, total0);
    call := call0;
    ok := true;
    var todo := entries.Keys;
    assert entries.Keys - todo == {};
    while todo != {}
      invariant todo <= entries.Keys
      invariant Served(n, c, entries.Keys - todo, total0, total, call0, call)
      invariant forall e :: e in entries.Keys - todo ==> EntryPasses(n, c, e)
    {
      var e :| e in todo;
      ServedOutDone(n, c, entries.Keys - todo, total0, total, call0, call);
      ghost var done := entries.Keys - todo;
      ok, total, call := ServeEntry(n, c, members, e, entries[e], cycleTotal, done, total0, total, call0, call);
      if !ok {
        assert e in EntrySet(n, c);
        return;
      }
      todo := todo - {e};
      assert entries.Keys - todo == done + {e};
    }
    assert entries.Keys - todo == entries.Keys;
    ok := true;
  }
}

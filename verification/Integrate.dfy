/** Profile.integrate: every component is integrated once, callees first, and gets exactly what it is due. */
module Integrate {
  import opened Paths
  import opened Seqs
  import opened Sums
  import opened Components
  import opened Bounds
  import opened CallRatios
  import opened CycleCalls
  import opened CycleTime
  import opened Entries
  import opened Collect
  import opened Books
  import opened Profiles

  ghost function BookOf(p: Profile): Book
    reads p`totalTime, p`callTime, p`cycleTime
  {
    Book(p.totalTime, p.callTime, p.cycleTime)
  }

  /** The profile is the one n describes, and the Cycle objects hold the members of the cycles. */
  ghost predicate Describes(n: Net, p: Profile)
    reads p`functions, p`calls, p`cycle, p`callRatio, p`selfTime, p`cycleFunctions
  {
    && n == NetOf(p) && Ready(n)
    && (forall f :: f in p.cycle ==> p.cycle[f] < |p.cycleFunctions| && p.cycleFunctions[p.cycle[f]] == InComp(n, Cyc(p.cycle[f])))
  }

  lemma CalleeLower(n: Net, u: Id, j: nat)
    requires Ready(n) && u in n.functions && j < |n.Out(u)|
    ensures u in n.calls && n.Out(u) == n.calls[u] && NoDup(n.Out(u)) && n.CompOf(u) in Comps(n)
    ensures var v := n.Out(u)[j];
            && v in n.functions && n.CompOf(v) in Comps(n)
            && (n.CompOf(v) != n.CompOf(u) ==> Height(n, n.CompOf(v)) < Height(n, n.CompOf(u)) && (u, v) in n.ratio)
            && (n.CompOf(v) != n.CompOf(u) ==>
                  Outward(n, Totals(n), u)(v) == Times(n.ratio[(u, v)], Total(n, n.CompOf(v))))
  {
    assert u in SetOf(n.functions);
    var v := n.Out(u)[j];
    assert Edge(n.calls, u, v);
    CompIn(n, u);
    CompIn(n, v);
    if n.CompOf(v) != n.CompOf(u) {
      Lower(n, u, v);
    }
  }

  /** A call not yet followed has no time yet. */
  lemma NotCalled(n: Net, b0: Book, b: Book, C: Comp, P: set<Id>, m: Id, j: nat)
    requires j < |n.Out(m)| && NoDup(n.Out(m)) && Working(n, b0, b, C, P, m, j) && m in InComp(n, C) && m !in P
    ensures (m, n.Out(m)[j]) !in b.call
  {
    assert PartlyCalled(n, b, P, m, j, m);
    assert n.Out(m)[j] !in n.Out(m)[..j];
  }

  lemma CalleeReady(n: Net, b: Book, C: Comp, D: Comp)
    requires LowerSettled(n, b, C) && D in Comps(n) && Height(n, D) < Height(n, C)
    ensures LowerSettled(n, b, D) && Settled(n, b, D)
  {
  }

  lemma WorkingLower(n: Net, b0: Book, b: Book, C: Comp, P: set<Id>, m: Id, j: nat)
    requires j <= |n.Out(m)| && Working(n, b0, b, C, P, m, j)
    ensures LowerSettled(n, b, C)
  {
  }

  /** Some entry of some cycle fails its check. */
  ghost predicate SomeCheckFails(n: Net) {
    exists c :: !CyclePasses(n, c)
  }

  lemma FailsHere(n: Net, c: nat)
    requires !CyclePasses(n, c)
    ensures SomeCheckFails(n)
  {
  }

  /** One call into another component: the callee's total, times the ratio. */
  method IntegrateCall(p: Profile, ghost n: Net, u: Id, j: nat, ghost b0: Book, ghost P: set<Id>)
    returns (ok: bool, subtotal: real)
    requires Describes(n, p) && u in n.functions && j < |n.Out(u)| && n.CompOf(n.Out(u)[j]) != n.CompOf(u) && u !in P
    requires Working(n, b0, BookOf(p), n.CompOf(u), P, u, j)
    modifies p`totalTime, p`callTime, p`cycleTime
    ensures Describes(n, p)
    ensures ok ==> Working(n, b0, BookOf(p), n.CompOf(u), P, u, j + 1)
    ensures ok ==> subtotal == Outward(n, Totals(n), u)(n.Out(u)[j])
    ensures !ok ==> SomeCheckFails(n)
    decreases Height(n, n.CompOf(u)), 0
  {
    hide Ready, Working, LowerSettled, Settled, Comps, Height, Outward, Times, Total, InComp, Integrated, SomeCheckFails;
    DescribesParts(n, p);
    CalleeLower(n, u, j);
    ghost var C := n.CompOf(u);
    InOwnComp(n, u);
    var v := p.calls[u][j];
    NotCalled(n, b0, BookOf(p), C, P, u, j);
    assert (u, v) !in p.callTime && (u, v) in p.callRatio;
    WorkingLower(n, b0, BookOf(p), C, P, u, j);
    CalleeReady(n, BookOf(p), C, n.CompOf(v));
    ghost var b1 := BookOf(p);
    var t;
    subtotal := 0.0;
    ok, t := IntegrateFunction(p, n, v);
    if !ok {
      return;
    }
    ghost var b2 := BookOf(p);
    subtotal := p.callRatio[(u, v)] * t;
    TimesIs(p.callRatio[(u, v)], t);
    p.callTime := p.callTime[(u, v) := subtotal];
    IntegratedParts(n, b1, b2, n.CompOf(v));
    assert subtotal == Outward(n, Totals(n), u)(v);
    assert BookOf(p) == b2.(call := b2.call[(u, v) := Outward(n, Totals(n), u)(v)]);
    WorkCall(n, b0, b1, b2, BookOf(p), C, P, u, j);
  }

  lemma InOwnComp(n: Net, u: Id)
    requires u in n.functions
    ensures u in InComp(n, n.CompOf(u))
  {
  }

  lemma IntegratedParts(n: Net, b: Book, b': Book, C: Comp)
    requires Integrated(n, b, b', C)
    ensures LowerSettled(n, b', C) && Settled(n, b', C) && Frame(n, b, b', C) && DoneGrows(n, b, b') && Done(b', C)
  {
  }

  lemma FunctionReady(n: Net, f: Id)
    requires Ready(n) && f in n.functions
    ensures f in n.calls && f in n.self && n.Self(f) == n.self[f] && n.Out(f) == n.calls[f] && n.CompOf(f) in Comps(n)
    ensures f in InComp(n, n.CompOf(f))
  {
    assert f in SetOf(n.functions);
    CompIn(n, f);
  }

  lemma DoneTotal(n: Net, b: Book, C: Comp)
    requires Settled(n, b, C) && Done(b, C)
    ensures C.Fn? ==> b.total[C.f] == Total(n, C)
    ensures C.Cyc? ==> b.cycle[C.c] == Total(n, C)
  {
  }

  /** The total of the function's component, integrated if it is not done yet. */
  method IntegrateFunction(p: Profile, ghost n: Net, f: Id) returns (ok: bool, t: real)
    requires Describes(n, p) && f in n.functions
    requires LowerSettled(n, BookOf(p), n.CompOf(f)) && Settled(n, BookOf(p), n.CompOf(f))
    modifies p`totalTime, p`callTime, p`cycleTime
    ensures Describes(n, p)
    ensures ok ==> Integrated(n, old(BookOf(p)), BookOf(p), n.CompOf(f))
    ensures ok ==> t == Total(n, n.CompOf(f))
    ensures !ok ==> SomeCheckFails(n)
    decreases Height(n, n.CompOf(f)), 3
  {
    hide Ready, Working, LowerSettled, Settled, Comps, Height, Outward, Times, Total, InComp, Integrated, SomeCheckFails, Describes;
    ghost var b0 := BookOf(p);
    DescribesParts(n, p);
    FunctionReady(n, f);
    if f in p.cycle {
      ok, t := IntegrateCycle(p, n, p.cycle[f], f);
    } else {
      ok := true;
      if f !in p.totalTime {
        StartWorking(n, b0, n.CompOf(f), f);
        ok, t := IntegrateLone(p, n, f, b0);
        if !ok {
          return;
        }
        FinishFunction(n, b0, BookOf(p), f);
        p.totalTime := p.totalTime[f := t];
      } else {
        AlreadyIntegrated(n, b0, Fn(f));
        DoneTotal(n, b0, Fn(f));
      }
      t := p.totalTime[f];
    }
  }

  lemma DescribesParts(n: Net, p: Profile)
    requires Describes(n, p)
    ensures Ready(n) && n.functions == p.functions && n.calls == p.calls && n.cycle == p.cycle
    ensures n.ratio == p.callRatio && n.self == p.selfTime
  {
  }

  /** A call inside the component adds nothing, any other its share. */
  lemma SubtotalStep(n: Net, m: Id, j: nat)
    requires j < |n.Out(m)|
    ensures Sum(n.Out(m)[..j + 1], Outward(n, Totals(n), m)) ==
            Sum(n.Out(m)[..j], Outward(n, Totals(n), m)) + Outward(n, Totals(n), m)(n.Out(m)[j])
    ensures n.CompOf(n.Out(m)[j]) == n.CompOf(m) ==> Outward(n, Totals(n), m)(n.Out(m)[j]) == 0.0
  {
    SumStep(n.Out(m), j, Outward(n, Totals(n), m));
  }

  /** The self time of m and its shares in the first j components it calls. */
  ghost function SubtotalSoFar(n: Net, m: Id, j: nat): real
    requires j <= |n.Out(m)|
  {
    n.Self(m) + Sum(n.Out(m)[..j], Outward(n, Totals(n), m))
  }

  lemma SubtotalEnd(n: Net, m: Id)
    requires Ready(n) && m in n.functions
    ensures SubtotalSoFar(n, m, |n.Out(m)|) == Subtotals(n)(m)
    ensures m !in n.cycle ==> SubtotalSoFar(n, m, |n.Out(m)|) == Total(n, Fn(m))
  {
    assert n.Out(m)[..|n.Out(m)|] == n.Out(m);
    assert m in SetOf(n.functions);
    SubtotalIs(n, m);
    if m !in n.cycle {
      TotalOfFunction(n, m);
    }
  }

  /** A function without a cycle: its self time, and its share of every other function it calls. */
  method IntegrateLone(p: Profile, ghost n: Net, f: Id, ghost b0: Book) returns (ok: bool, total: real)
    requires Describes(n, p) && f in n.functions && f !in n.cycle
    requires Working(n, b0, BookOf(p), Fn(f), {}, f, 0)
    modifies p`totalTime, p`callTime, p`cycleTime
    ensures Describes(n, p)
    ensures ok ==> Working(n, b0, BookOf(p), Fn(f), {}, f, |n.Out(f)|)
    ensures ok ==> total == Total(n, Fn(f))
    ensures !ok ==> SomeCheckFails(n)
    decreases Height(n, Fn(f)), 1
  {
    hide Ready, Working, LowerSettled, Settled, Comps, Height, Outward, Times, Total, InComp, Integrated, SomeCheckFails, Describes, Subtotal;
    DescribesParts(n, p);
    FunctionReady(n, f);
    total := p.selfTime[f];
    var callees := p.calls[f];
    for j := 0 to |callees|
      invariant Describes(n, p) && Working(n, b0, BookOf(p), Fn(f), {}, f, j)
      invariant total == SubtotalSoFar(n, f, j)
    {
      CalleeLower(n, f, j);
      SubtotalStep(n, f, j);
      LoneCallee(n, f, callees[j]);
      if callees[j] != f {
        var subtotal;
        ok, subtotal := IntegrateCall(p, n, f, j, b0, {});
        if !ok {
          return;
        }
        total := total + subtotal;
      } else {
        WorkInside(n, b0, BookOf(p), Fn(f), {}, f, j);
      }
    }
    SubtotalEnd(n, f);
    ok := true;
  }

  lemma LoneCallee(n: Net, f: Id, v: Id)
    requires f !in n.cycle
    ensures n.CompOf(f) == Fn(f) && (n.CompOf(v) == Fn(f) <==> v == f)
  {
  }

  /** One member of a cycle: its self time, and its share of everything it calls outside the cycle. */
  method IntegrateMember(p: Profile, ghost n: Net, c: nat, m: Id, ghost b0: Book, ghost P: set<Id>)
    returns (ok: bool, subtotal: real)
    requires Describes(n, p) && m in n.functions && n.CompOf(m) == Cyc(c) && m !in P
    requires Working(n, b0, BookOf(p), Cyc(c), P, m, 0)
    modifies p`totalTime, p`callTime, p`cycleTime
    ensures Describes(n, p)
    ensures ok ==> Working(n, b0, BookOf(p), Cyc(c), P, m, |n.Out(m)|)
    ensures ok ==> subtotal == Subtotals(n)(m)
    ensures !ok ==> SomeCheckFails(n)
    decreases Height(n, Cyc(c)), 1
  {
    hide Ready, Working, LowerSettled, Settled, Comps, Height, Outward, Times, Total, InComp, Integrated, SomeCheckFails, Describes, Subtotals;
    DescribesParts(n, p);
    FunctionReady(n, m);
    subtotal := p.selfTime[m];
    var callees := p.calls[m];
    for j := 0 to |callees|
      invariant Describes(n, p) && Working(n, b0, BookOf(p), Cyc(c), P, m, j)
      invariant subtotal == SubtotalSoFar(n, m, j)
    {
      CalleeLower(n, m, j);
      SubtotalStep(n, m, j);
      DescribesParts(n, p);
      if !(callees[j] in p.cycle && p.cycle[callees[j]] == c) {
        var t;
        ok, t := IntegrateCall(p, n, m, j, b0, P);
        if !ok {
          return;
        }
        subtotal := subtotal + t;
      } else {
        WorkInside(n, b0, BookOf(p), Cyc(c), P, m, j);
      }
    }
    SubtotalEnd(n, m);
    ok := true;
  }

  lemma CycleMembers(n: Net, p: Profile, f: Id, c: nat)
    requires Describes(n, p) && f in n.functions && f in p.cycle && p.cycle[f] == c
    ensures c < |p.cycleFunctions| && p.cycleFunctions[c] == InComp(n, Cyc(c)) && n.CompOf(f) == Cyc(c)
    ensures n.self.Keys == SetOf(n.functions) && n.Sound() && NonNegative(n) && Usable(n) && NoDup(n.functions)
    ensures forall m :: m in InComp(n, Cyc(c)) ==> m in n.functions && n.CompOf(m) == Cyc(c)
    ensures forall m :: m in InComp(n, Cyc(c)) ==> m in SetOf(n.functions)
  {
  }

  /** The subtotals of the members, in any order. */
  method IntegrateMembers(p: Profile, ghost n: Net, c: nat, ghost f: Id, ghost b0: Book)
    returns (ok: bool, total: real)
    requires Describes(n, p) && f in n.functions && f in p.cycle && p.cycle[f] == c
    requires Working(n, b0, BookOf(p), Cyc(c), {}, f, 0)
    modifies p`totalTime, p`callTime, p`cycleTime
    ensures Describes(n, p)
    ensures ok ==> Working(n, b0, BookOf(p), Cyc(c), InComp(n, Cyc(c)), f, 0)
    ensures ok ==> total == Total(n, Cyc(c))
    ensures !ok ==> SomeCheckFails(n)
    decreases Height(n, Cyc(c)), 2, 0
  {
    hide Ready, Working, LowerSettled, Settled, Comps, Height, Outward, Times, Total, InComp, Integrated, SomeCheckFails, Describes, Subtotals,
         Net.Sound, NonNegative, Usable, Sum, SumIn;
    CycleMembers(n, p, f, c);
    var members := p.cycleFunctions[c];
    var todo := members;
    total := 0.0;
    assert members - todo == {};
    SumInNone(n.functions, Subtotals(n));
    while todo != {}
      invariant todo <= members
      invariant Describes(n, p) && Working(n, b0, BookOf(p), Cyc(c), members - todo, f, 0)
      invariant total == SumIn(n.functions, members - todo, Subtotals(n))
    {
      var m :| m in todo;
      ghost var P := members - todo;
      WorkOther(n, b0, BookOf(p), Cyc(c), P, f, m);
      var subtotal;
      ok, subtotal := IntegrateMember(p, n, c, m, b0, P);
      if !ok {
        return;
      }
      WorkMember(n, b0, BookOf(p), Cyc(c), P, m, f);
      SumInAdd(n.functions, P, m, Subtotals(n));
      total := total + subtotal;
      todo := todo - {m};
      assert members - todo == P + {m};
    }
    assert members - todo == members;
    TotalIs(n, Cyc(c));
    ok := true;
  }

  /** The cycle's total, and the totals of its members for all the members it is entered by. */
  method IntegrateCycle(p: Profile, ghost n: Net, c: nat, ghost f: Id) returns (ok: bool, t: real)
    requires Describes(n, p) && f in n.functions && f in p.cycle && p.cycle[f] == c
    requires LowerSettled(n, BookOf(p), Cyc(c)) && Settled(n, BookOf(p), Cyc(c))
    modifies p`totalTime, p`callTime, p`cycleTime
    ensures Describes(n, p)
    ensures ok ==> Integrated(n, old(BookOf(p)), BookOf(p), Cyc(c))
    ensures ok ==> t == Total(n, Cyc(c))
    ensures !ok ==> SomeCheckFails(n)
    decreases Height(n, Cyc(c)), 2, 1
  {
    hide Ready, Working, LowerSettled, Settled, Comps, Height, Outward, Times, Total, InComp, Integrated, SomeCheckFails, Describes, Subtotals,
         Net.Sound, NonNegative, Usable, EntrySet, EntryRatio, Served, OutDone, CyclePasses;
    t := 0.0;
    ghost var b0 := BookOf(p);
    CycleMembers(n, p, f, c);
    DescribesParts(n, p);
    FunctionReady(n, f);
    if c !in p.cycleTime {
      StartWorking(n, b0, Cyc(c), f);
      var total;
      ok, total := IntegrateMembers(p, n, c, f, b0);
      if !ok {
        return;
      }
      CycleMembers(n, p, f, c);
      DescribesParts(n, p);
      ghost var b := BookOf(p);
      CycleOutDone(n, b0, b, c, f);
      p.cycleTime := p.cycleTime[c := total];
      assert Describes(n, p);
      var net := Net(p.functions, p.calls, p.cycle, p.callRatio, p.selfTime);
      var entries := CollectEntries(net, c);
      ok, p.totalTime, p.callTime := ServeEntries(net, c, p.cycleFunctions[c], entries, total, p.totalTime, p.callTime);
      if !ok {
        FailsHere(n, c);
        return;
      }
      FinishCycle(n, b0, b, BookOf(p), c, f);
    } else {
      AlreadyIntegrated(n, b0, Cyc(c));
      DoneTotal(n, b0, Cyc(c));
      ok := true;
    }
    t := p.cycleTime[c];
  }

  /** Nothing has been written, or everything for the components of the first i functions. */
  ghost predicate AllSettled(n: Net, b: Book, i: nat)
    requires i <= |n.functions|
  {
    && (forall D :: D in Comps(n) ==> Settled(n, b, D)) && b.total.Keys <= SetOf(n.functions)
    && (forall k :: 0 <= k < i ==> Done(b, n.CompOf(n.functions[k])))
  }

  lemma NothingSettled(n: Net)
    ensures AllSettled(n, Book(map[], map[], map[]), 0)
  {
  }

  lemma SettledReady(n: Net, b: Book, i: nat)
    requires i < |n.functions| && AllSettled(n, b, i)
    ensures LowerSettled(n, b, n.CompOf(n.functions[i])) && Settled(n, b, n.CompOf(n.functions[i]))
  {
    CompIn(n, n.functions[i]);
  }

  lemma SettledNext(n: Net, b: Book, b': Book, i: nat)
    requires i < |n.functions| && AllSettled(n, b, i) && Integrated(n, b, b', n.CompOf(n.functions[i]))
    ensures AllSettled(n, b', i + 1)
  {
    hide Settled, SameAt, Comps, Height;
    var C := n.CompOf(n.functions[i]);
    forall D | D in Comps(n)
      ensures Settled(n, b', D)
    {
      if D != C && Height(n, C) <= Height(n, D) {
        SettledStays(n, b, b', D);
      }
    }
  }

  /** When everything is settled every cycle has passed its checks. */
  lemma AllPass(n: Net, b: Book)
    requires AllSettled(n, b, |n.functions|)
    ensures !SomeCheckFails(n)
  {
    hide EntryPasses, MemberSettled, FunctionSettled, Total;
    forall c
      ensures CyclePasses(n, c)
    {
      forall e | e in EntrySet(n, c)
        ensures EntryPasses(n, c, e)
      {
        var i :| 0 <= i < |n.functions| && n.functions[i] == e;
        assert Done(b, n.CompOf(n.functions[i]));
        CompIn(n, e);
        assert Settled(n, b, Cyc(c));
      }
    }
  }

  /** For every cycle, the sum over all functions is stored on the profile. */
  method AggregateInput(p: Profile)
    requires Describes(NetOf(p), p)
    modifies p`profileSelf
    ensures p.profileSelf == if p.cycles == [] then old(p.profileSelf) else map[() := Sum(p.functions, Selfs(NetOf(p)))]
  {
    hide Ready, Describes, Sum;
    ghost var n := NetOf(p);
    DescribesParts(n, p);
    for k := 0 to |p.cycles|
      invariant p.profileSelf == if k == 0 then old(p.profileSelf) else map[() := Sum(p.functions, Selfs(n))]
    {
      var total := 0.0;
      SumNothing(Selfs(n));
      for i := 0 to |p.functions|
        invariant total == Sum(p.functions[..i], Selfs(n))
      {
        FunctionReady(n, p.functions[i]);
        SumStep(p.functions, i, Selfs(n));
        total := total + p.selfTime[p.functions[i]];
      }
      assert p.functions[..|p.functions|] == p.functions;
      p.profileSelf := map[() := total];
    }
  }

  lemma SumNothing<T>(f: T -> real)
    ensures Sum([], f) == 0.0
  {
  }

  /**
    * Integration comes to its end exactly when no cycle fails a check. Then every component is done with what it is
    * due, and the profile's own total is all the self time. When there are cycles the profile's self time is
    * overwritten with that same sum.
    */
  method Integrate(p: Profile) returns (ok: bool)
    requires Describes(NetOf(p), p)
    requires p.totalTime == map[] && p.callTime == map[] && p.cycleTime == map[] && p.profileTotal == map[]
    modifies p`totalTime, p`callTime, p`cycleTime, p`profileSelf, p`profileTotal
    ensures NetOf(p) == old(NetOf(p)) && Describes(NetOf(p), p)
    ensures ok <==> !SomeCheckFails(NetOf(p))
    ensures ok ==> AllSettled(NetOf(p), BookOf(p), |p.functions|)
    ensures p.profileTotal == if ok then map[() := Sum(p.functions, Selfs(NetOf(p)))] else map[]
    ensures p.profileSelf == if p.cycles == [] then old(p.profileSelf) else map[() := Sum(p.functions, Selfs(NetOf(p)))]
  {
    hide Ready, Describes, AllSettled, Integrated, LowerSettled, Settled, SomeCheckFails, Sum, Height, Comps;
    ghost var n := NetOf(p);
    DescribesParts(n, p);
    assert p.functions[..|p.functions|] == p.functions;
    AggregateInput(p);
    var total := 0.0;
    SumNothing(Selfs(n));
    NothingSettled(n);
    ghost var profileSelf := p.profileSelf;
    for i := 0 to |p.functions|
      invariant Describes(n, p) && n == NetOf(p) && AllSettled(n, BookOf(p), i) && p.profileTotal == map[]
      invariant total == Sum(p.functions[..i], Selfs(n)) && p.profileSelf == profileSelf
    {
      var f := p.functions[i];
      DescribesParts(n, p);
      FunctionReady(n, f);
      SumStep(p.functions, i, Selfs(n));
      total := total + p.selfTime[f];
      SettledReady(n, BookOf(p), i);
      ghost var b := BookOf(p);
      var t;
      ok, t := IntegrateFunction(p, n, f);
      if !ok {
        return;
      }
      SettledNext(n, b, BookOf(p), i);
    }
    p.profileTotal := map[() := total];
    AllPass(n, BookOf(p));
    ok := true;
  }
}

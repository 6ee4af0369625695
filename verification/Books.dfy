/** The times written by integration, and what is true of them from one call to the next. */
module Books {
  import opened Paths
  import opened Seqs
  import opened Sums
  import opened Components
  import opened Bounds
  import opened CycleCalls
  import opened CycleTime
  import opened Entries

  /** function[outevent], call[outevent] and cycle[outevent]. */
  datatype Book = Book(total: map<Id, real>, call: CallTimes, cycle: map<nat, real>)

  /** A profile that can be integrated. */
  ghost predicate Ready(n: Net) {
    n.Sound() && NonNegative(n) && Usable(n) && n.self.Keys == SetOf(n.functions)
  }

  ghost predicate Done(b: Book, C: Comp) {
    match C
    case Fn(f) => f in b.total
    case Cyc(c) => c in b.cycle
  }

  /** The calls of u to other components have their shares. */
  ghost predicate OutCalls(n: Net, b: Book, u: Id) {
    forall v :: n.CompOf(v) != n.CompOf(u) ==>
      ((u, v) in b.call <==> v in n.Out(u)) && ((u, v) in b.call ==> b.call[(u, v)] == Outward(n, Totals(n), u)(v))
  }

  /** The calls of u inside its cycle have what they are given for all entries. */
  ghost predicate InCalls(n: Net, b: Book, c: nat, u: Id) {
    forall v :: n.CompOf(v) == Cyc(c) ==>
      ((u, v) in b.call <==> RisesFrom(n, c, EntrySet(n, c), u, v)) && ((u, v) in b.call ==> b.call[(u, v)] == InsideTime(n, c, u, v))
  }

  ghost predicate Untouched(b: Book, u: Id) {
    u !in b.total && forall v :: (u, v) !in b.call
  }

  ghost predicate FunctionSettled(n: Net, b: Book, f: Id) {
    if f in b.total then b.total[f] == Total(n, Fn(f)) && OutCalls(n, b, f) && (f, f) !in b.call
    else Untouched(b, f)
  }

  ghost predicate MemberSettled(n: Net, b: Book, c: nat, m: Id) {
    if c in b.cycle then m in b.total && b.total[m] == MemberTotal(n, c, m) && OutCalls(n, b, m) && InCalls(n, b, c, m)
    else Untouched(b, m)
  }

  /** C is done and everything written for it is its due, or nothing has been written for it. */
  ghost predicate Settled(n: Net, b: Book, C: Comp) {
    match C
    case Fn(f) => FunctionSettled(n, b, f)
    case Cyc(c) => (c in b.cycle ==> b.cycle[c] == Total(n, C) && CyclePasses(n, c)) && forall m :: m in InComp(n, C) ==> MemberSettled(n, b, c, m)
  }

  ghost predicate SameFunction(b: Book, b': Book, u: Id) {
    && (u in b.total <==> u in b'.total) && (u in b.total ==> b.total[u] == b'.total[u])
    && (forall v :: (u, v) in b.call <==> (u, v) in b'.call)
    && (forall v :: (u, v) in b.call && (u, v) in b'.call ==> b.call[(u, v)] == b'.call[(u, v)])
  }

  ghost predicate SameCycle(b: Book, b': Book, c: nat) {
    (c in b.cycle <==> c in b'.cycle) && (c in b.cycle ==> b.cycle[c] == b'.cycle[c])
  }

  /** Nothing written for C has changed. */
  ghost predicate SameAt(n: Net, b: Book, b': Book, C: Comp) {
    && (forall u :: u in InComp(n, C) ==> SameFunction(b, b', u))
    && (C.Cyc? ==> SameCycle(b, b', C.c))
  }

  lemma SameFunctionTrans(b: Book, b': Book, b'': Book, u: Id)
    requires SameFunction(b, b', u) && SameFunction(b', b'', u)
    ensures SameFunction(b, b'', u)
  {
  }

  lemma SameAtTrans(n: Net, b: Book, b': Book, b'': Book, C: Comp)
    requires SameAt(n, b, b', C) && SameAt(n, b', b'', C)
    ensures SameAt(n, b, b'', C)
  {
    hide SameFunction, InComp;
    forall u | u in InComp(n, C)
      ensures SameFunction(b, b'', u)
    {
      SameFunctionTrans(b, b', b'', u);
    }
  }

  lemma SameAtRefl(n: Net, b: Book, C: Comp)
    ensures SameAt(n, b, b, C)
  {
  }

  lemma FunctionStays(n: Net, b: Book, b': Book, u: Id, c: nat)
    requires SameFunction(b, b', u) && SameCycle(b, b', c)
    ensures FunctionSettled(n, b, u) ==> FunctionSettled(n, b', u)
    ensures MemberSettled(n, b, c, u) ==> MemberSettled(n, b', c, u)
  {
    hide Outward, Total, MemberTotal, InsideTime, RisesFrom, EntrySet;
  }

  lemma SettledStays(n: Net, b: Book, b': Book, C: Comp)
    requires Settled(n, b, C) && SameAt(n, b, b', C) && C in Comps(n)
    ensures Settled(n, b', C)
  {
    hide FunctionSettled, MemberSettled, SameFunction, Total, CyclePasses;
    match C {
      case Fn(f) =>
        CompOfFn(n, f);
        FunctionStaysAlone(n, b, b', f);
      case Cyc(c) =>
        forall m | m in InComp(n, C)
          ensures MemberSettled(n, b', c, m)
        {
          FunctionStays(n, b, b', m, c);
        }
    }
  }

  lemma FunctionStaysAlone(n: Net, b: Book, b': Book, f: Id)
    requires SameFunction(b, b', f) && FunctionSettled(n, b, f)
    ensures FunctionSettled(n, b', f)
  {
    hide Outward, Total;
  }

  lemma CompOfFn(n: Net, f: Id)
    requires Fn(f) in Comps(n)
    ensures f !in n.cycle && InComp(n, Fn(f)) == {f}
  {
    var g :| g in n.functions && n.CompOf(g) == Fn(f);
  }

  /** Every component lower than C is settled. */
  ghost predicate LowerSettled(n: Net, b: Book, C: Comp) {
    forall D :: D in Comps(n) && Height(n, D) < Height(n, C) ==> Settled(n, b, D)
  }

  /** Components not lower than C, other than C, are as they were. */
  ghost predicate Frame(n: Net, b: Book, b': Book, C: Comp) {
    forall D :: D in Comps(n) && Height(n, C) <= Height(n, D) && D != C ==> SameAt(n, b, b', D)
  }

  /** What is done stays done, and only functions get totals. */
  ghost predicate DoneGrows(n: Net, b: Book, b': Book) {
    && b.total.Keys <= b'.total.Keys && b.cycle.Keys <= b'.cycle.Keys
    && (forall f :: f in b'.total && f !in b.total ==> f in n.functions)
  }

  /** u's calls out of its component: all of them if u is in P, the first j if u is m, none otherwise. */
  ghost predicate PartlyCalled(n: Net, b: Book, P: set<Id>, m: Id, j: nat, u: Id)
    requires j <= |n.Out(m)|
  {
    && u !in b.total
    && (forall v :: (u, v) in b.call <==>
          n.CompOf(v) != n.CompOf(u) && v in n.Out(u) && (u in P || (u == m && v in n.Out(m)[..j])))
    && (forall v :: (u, v) in b.call ==> b.call[(u, v)] == Outward(n, Totals(n), u)(v))
  }

  /** C is being integrated: the calls out of it have been followed for P and the first j of m. */
  ghost predicate Working(n: Net, b0: Book, b: Book, C: Comp, P: set<Id>, m: Id, j: nat)
    requires j <= |n.Out(m)|
  {
    && LowerSettled(n, b, C) && Frame(n, b0, b, C) && DoneGrows(n, b0, b)
    && !Done(b, C)
    && (forall u :: u in InComp(n, C) ==> PartlyCalled(n, b, P, m, j, u))
  }

  lemma StartWorking(n: Net, b: Book, C: Comp, m: Id)
    requires LowerSettled(n, b, C) && Settled(n, b, C) && !Done(b, C) && C in Comps(n)
    ensures Working(n, b, b, C, {}, m, 0)
  {
    hide LowerSettled, Outward, SameAt;
    assert Frame(n, b, b, C) by {
      forall D
        ensures SameAt(n, b, b, D)
      {
        SameAtRefl(n, b, D);
      }
    }
    forall u | u in InComp(n, C)
      ensures PartlyCalled(n, b, {}, m, 0, u)
    {
      UntouchedIn(n, b, C, u);
    }
  }

  lemma UntouchedIn(n: Net, b: Book, C: Comp, u: Id)
    requires Settled(n, b, C) && !Done(b, C) && u in InComp(n, C)
    ensures Untouched(b, u)
  {
  }

  /** A call inside the component is passed over. */
  lemma WorkInside(n: Net, b0: Book, b: Book, C: Comp, P: set<Id>, m: Id, j: nat)
    requires j < |n.Out(m)| && Working(n, b0, b, C, P, m, j) && n.CompOf(m) == C && n.CompOf(n.Out(m)[j]) == C
    ensures Working(n, b0, b, C, P, m, j + 1)
  {
    hide LowerSettled, Frame, Outward;
    var out := n.Out(m);
    assert out[..j + 1] == out[..j] + [out[j]];
    forall u | u in InComp(n, C)
      ensures PartlyCalled(n, b, P, m, j + 1, u)
    {
      assert PartlyCalled(n, b, P, m, j, u);
    }
  }

  /** All calls of m have been followed. */
  lemma WorkMember(n: Net, b0: Book, b: Book, C: Comp, P: set<Id>, m: Id, m': Id)
    requires Working(n, b0, b, C, P, m, |n.Out(m)|)
    ensures Working(n, b0, b, C, P + {m}, m', 0)
  {
    hide LowerSettled, Frame, Outward;
    var out := n.Out(m);
    assert out[..|out|] == out;
    forall u | u in InComp(n, C)
      ensures PartlyCalled(n, b, P + {m}, m', 0, u)
    {
      assert PartlyCalled(n, b, P, m, |n.Out(m)|, u);
    }
  }

  lemma WorkOther(n: Net, b0: Book, b: Book, C: Comp, P: set<Id>, m: Id, m': Id)
    requires Working(n, b0, b, C, P, m, 0)
    ensures Working(n, b0, b, C, P, m', 0)
  {
    hide LowerSettled, Frame, Outward;
    forall u | u in InComp(n, C)
      ensures PartlyCalled(n, b, P, m', 0, u)
    {
      assert PartlyCalled(n, b, P, m, 0, u);
    }
  }

  /** After integrating the component D below C: everything below C is settled, C is as it was. */
  lemma AfterLower(n: Net, b1: Book, b2: Book, C: Comp, D: Comp)
    requires LowerSettled(n, b1, C) && Height(n, D) < Height(n, C) && C in Comps(n)
    requires LowerSettled(n, b2, D) && Settled(n, b2, D) && Frame(n, b1, b2, D)
    ensures LowerSettled(n, b2, C) && SameAt(n, b1, b2, C) && Frame(n, b1, b2, C)
  {
    hide Settled, SameAt, Height;
    forall X | X in Comps(n) && Height(n, X) < Height(n, C)
      ensures Settled(n, b2, X)
    {
      if X != D && Height(n, D) <= Height(n, X) {
        SettledStays(n, b1, b2, X);
      }
    }
  }

  lemma FrameTrans(n: Net, b: Book, b': Book, b'': Book, C: Comp)
    requires Frame(n, b, b', C) && Frame(n, b', b'', C)
    ensures Frame(n, b, b'', C)
  {
    hide SameAt, Height;
    forall D | D in Comps(n) && Height(n, C) <= Height(n, D) && D != C
      ensures SameAt(n, b, b'', D)
    {
      SameAtTrans(n, b, b', b'', D);
    }
  }

  /** Writing for functions of C, or for the cycle C, leaves every other component alone. */
  ghost predicate OnlyAt(n: Net, b: Book, b': Book, C: Comp) {
    && (forall u :: n.CompOf(u) != C ==> SameFunction(b, b', u))
    && (forall c :: C != Cyc(c) ==> SameCycle(b, b', c))
  }

  lemma OnlyAtFrame(n: Net, b: Book, b': Book, C: Comp)
    requires OnlyAt(n, b, b', C)
    ensures Frame(n, b, b', C)
    ensures LowerSettled(n, b, C) ==> LowerSettled(n, b', C)
  {
    hide SameFunction, Height, Settled;
    forall D | D != C
      ensures SameAt(n, b, b', D)
    {
    }
    if LowerSettled(n, b, C) {
      forall D | D in Comps(n) && Height(n, D) < Height(n, C)
        ensures Settled(n, b', D)
      {
        SettledStays(n, b, b', D);
      }
    }
  }

  /** Following one call out of the component: the callee's component is done, and the call has its share. */
  lemma WorkCall(n: Net, b0: Book, b1: Book, b2: Book, b3: Book, C: Comp, P: set<Id>, m: Id, j: nat)
    requires j < |n.Out(m)| && NoDup(n.Out(m)) && Working(n, b0, b1, C, P, m, j) && m in InComp(n, C) && m !in P && C in Comps(n)
    requires var v := n.Out(m)[j]; var D := n.CompOf(v);
             && D != C && Height(n, D) < Height(n, C)
             && LowerSettled(n, b2, D) && Settled(n, b2, D) && Frame(n, b1, b2, D) && DoneGrows(n, b1, b2)
             && b3 == b2.(call := b2.call[(m, v) := Outward(n, Totals(n), m)(v)])
    ensures Working(n, b0, b3, C, P, m, j + 1)
  {
    hide LowerSettled, Settled, Frame, SameAt, Outward, OnlyAt, SameFunction, PartlyCalled, Height, Comps;
    var out := n.Out(m);
    var v := out[j];
    AfterLower(n, b1, b2, C, n.CompOf(v));
    OneCallOnly(n, b2, b3, C, m, v, Outward(n, Totals(n), m)(v));
    OnlyAtFrame(n, b2, b3, C);
    FrameTrans(n, b0, b1, b2, C);
    FrameTrans(n, b0, b2, b3, C);
    NotDone(n, b1, b2, C);
    forall u | u in InComp(n, C)
      ensures PartlyCalled(n, b3, P, m, j + 1, u)
    {
      CallWritten(n, b1, b2, b3, C, P, m, j, u);
    }
  }

  lemma NotDone(n: Net, b1: Book, b2: Book, C: Comp)
    requires SameAt(n, b1, b2, C) && !Done(b1, C) && C in Comps(n)
    ensures !Done(b2, C)
  {
    if C.Fn? {
      CompOfFn(n, C.f);
      assert SameFunction(b1, b2, C.f);
    }
  }

  lemma OneCallOnly(n: Net, b: Book, b': Book, C: Comp, m: Id, v: Id, x: real)
    requires n.CompOf(m) == C && b' == b.(call := b.call[(m, v) := x])
    ensures OnlyAt(n, b, b', C)
  {
  }

  lemma CallWritten(n: Net, b1: Book, b2: Book, b3: Book, C: Comp, P: set<Id>, m: Id, j: nat, u: Id)
    requires j < |n.Out(m)| && NoDup(n.Out(m)) && m !in P && u in InComp(n, C) && m in InComp(n, C)
    requires PartlyCalled(n, b1, P, m, j, u) && SameAt(n, b1, b2, C)
    requires var v := n.Out(m)[j];
             && n.CompOf(v) != C
             && b3 == b2.(call := b2.call[(m, v) := Outward(n, Totals(n), m)(v)])
    ensures PartlyCalled(n, b3, P, m, j + 1, u)
  {
    hide Outward;
    var out := n.Out(m);
    assert out[..j + 1] == out[..j] + [out[j]];
    assert SameFunction(b1, b2, u);
  }

  /** What integrating a component promises. */
  ghost predicate Integrated(n: Net, b: Book, b': Book, C: Comp) {
    && LowerSettled(n, b', C) && Settled(n, b', C) && Done(b', C)
    && Frame(n, b, b', C) && DoneGrows(n, b, b')
  }

  lemma AlreadyIntegrated(n: Net, b: Book, C: Comp)
    requires LowerSettled(n, b, C) && Settled(n, b, C) && Done(b, C)
    ensures Integrated(n, b, b, C)
  {
    hide LowerSettled, Settled, SameAt;
    forall D
      ensures SameAt(n, b, b, D)
    {
      SameAtRefl(n, b, D);
    }
  }

  lemma WorkDone(n: Net, b0: Book, b: Book, b': Book, C: Comp, P: set<Id>, m: Id, j: nat)
    requires j <= |n.Out(m)| && Working(n, b0, b, C, P, m, j)
    requires OnlyAt(n, b, b', C) && Settled(n, b', C) && Done(b', C) && DoneGrows(n, b, b')
    ensures Integrated(n, b0, b', C)
  {
    hide LowerSettled, Settled, Frame, OnlyAt, PartlyCalled;
    OnlyAtFrame(n, b, b', C);
    FrameTrans(n, b0, b, b', C);
  }

  /** A function without a cycle gets its total. */
  lemma FinishFunction(n: Net, b0: Book, b: Book, f: Id)
    requires f in n.functions && n.CompOf(f) == Fn(f) && Working(n, b0, b, Fn(f), {}, f, |n.Out(f)|)
    ensures Integrated(n, b0, b.(total := b.total[f := Total(n, Fn(f))]), Fn(f))
  {
    hide LowerSettled, Frame, Outward, Total;
    var b' := b.(total := b.total[f := Total(n, Fn(f))]);
    assert n.Out(f)[..|n.Out(f)|] == n.Out(f);
    assert PartlyCalled(n, b, {}, f, |n.Out(f)|, f);
    assert FunctionSettled(n, b', f);
    WorkDone(n, b0, b, b', Fn(f), {}, f, |n.Out(f)|);
  }

  lemma CycleOutDone(n: Net, b0: Book, b: Book, c: nat, m: Id)
    requires Working(n, b0, b, Cyc(c), InComp(n, Cyc(c)), m, 0)
    ensures OutDone(n, c, b.call)
  {
    hide LowerSettled, Frame, Outward;
    forall u, v | u in InComp(n, Cyc(c)) && v in n.Out(u) && n.CompOf(v) != Cyc(c)
      ensures (u, v) in b.call && b.call[(u, v)] == Outward(n, Totals(n), u)(v)
    {
      assert PartlyCalled(n, b, InComp(n, Cyc(c)), m, 0, u);
    }
  }

  /** A rising call joins two members. */
  lemma RisesInside(n: Net, c: nat, E: set<Id>, u: Id, v: Id)
    ensures RisesFrom(n, c, E, u, v) ==> u in InComp(n, Cyc(c)) && v in InComp(n, Cyc(c))
    ensures !(u in InComp(n, Cyc(c)) && v in InComp(n, Cyc(c))) ==> SumIn(n.functions, E, GivenAt(n, c, u, v)) == 0.0
  {
    if !(u in InComp(n, Cyc(c)) && v in InComp(n, Cyc(c))) {
      hide PartialsAt, Sum, Times;
      forall e
        ensures GivenAt(n, c, u, v)(e) == 0.0
      {
      }
      SumZero(n.functions, Only(E, GivenAt(n, c, u, v)));
    }
  }

  lemma MemberServed(n: Net, b: Book, b': Book, c: nat, m: Id)
    requires Served(n, c, EntrySet(n, c), b.total, b'.total, b.call, b'.call) && c in b'.cycle
    requires m in InComp(n, Cyc(c)) && PartlyCalled(n, b, InComp(n, Cyc(c)), m, 0, m)
    requires Closed(n.calls) && n.calls.Keys == SetOf(n.functions)
    ensures MemberSettled(n, b', c, m)
  {
    hide Outward, RisesFrom, SumIn, GivenAt, InsideTime, EntrySet, MemberTotal, Served;
    ServedTotal(n, c, b.total, b'.total, b.call, b'.call, m);
    forall v
      ensures n.CompOf(v) != Cyc(c) ==> ((m, v) in b'.call <==> v in n.Out(m))
      ensures n.CompOf(v) != Cyc(c) && (m, v) in b'.call ==> b'.call[(m, v)] == Outward(n, Totals(n), m)(v)
      ensures n.CompOf(v) == Cyc(c) ==> ((m, v) in b'.call <==> RisesFrom(n, c, EntrySet(n, c), m, v))
      ensures n.CompOf(v) == Cyc(c) && (m, v) in b'.call ==> b'.call[(m, v)] == InsideTime(n, c, m, v)
    {
      ServedAt(n, c, EntrySet(n, c), b.total, b'.total, b.call, b'.call, m, v);
      RisesInside(n, c, EntrySet(n, c), m, v);
      InsideTimeIs(n, c, m, v);
    }
  }

  lemma InsideTimeIs(n: Net, c: nat, u: Id, v: Id)
    ensures InsideTime(n, c, u, v) == SumIn(n.functions, EntrySet(n, c), GivenAt(n, c, u, v))
  {
  }

  lemma ServedTotal(n: Net, c: nat, total0: map<Id, real>, total: map<Id, real>, call0: CallTimes, call: CallTimes, m: Id)
    requires Served(n, c, EntrySet(n, c), total0, total, call0, call)
    ensures m in InComp(n, Cyc(c)) ==> m in total && total[m] == MemberTotal(n, c, m)
    ensures total0.Keys <= total.Keys
    ensures m !in InComp(n, Cyc(c)) ==> (m in total <==> m in total0) && (m in total ==> total[m] == total0[m])
  {
  }

  lemma ServedKeys(n: Net, c: nat, total0: map<Id, real>, total: map<Id, real>, call0: CallTimes, call: CallTimes)
    requires Served(n, c, EntrySet(n, c), total0, total, call0, call)
    ensures total0.Keys <= total.Keys
    ensures forall f :: f in total && f !in total0 ==> f in n.functions
  {
  }

  lemma OthersServed(n: Net, b: Book, b': Book, c: nat, u: Id)
    requires Served(n, c, EntrySet(n, c), b.total, b'.total, b.call, b'.call)
    requires u !in InComp(n, Cyc(c))
    ensures SameFunction(b, b', u)
  {
    hide RisesFrom, SumIn, GivenAt, EntrySet, Served;
    ServedTotal(n, c, b.total, b'.total, b.call, b'.call, u);
    forall v
      ensures (u, v) in b'.call <==> (u, v) in b.call
      ensures (u, v) in b.call ==> b'.call[(u, v)] == b.call[(u, v)]
    {
      ServedAt(n, c, EntrySet(n, c), b.total, b'.total, b.call, b'.call, u, v);
      RisesInside(n, c, EntrySet(n, c), u, v);
    }
  }

  /** A cycle gets its total and its members theirs. */
  lemma FinishCycle(n: Net, b0: Book, b: Book, b': Book, c: nat, m: Id)
    requires n.Sound() && Working(n, b0, b, Cyc(c), InComp(n, Cyc(c)), m, 0)
    requires Served(n, c, EntrySet(n, c), b.total, b'.total, b.call, b'.call)
    requires b'.cycle == b.cycle[c := Total(n, Cyc(c))] && CyclePasses(n, c)
    ensures Integrated(n, b0, b', Cyc(c))
  {
    hide LowerSettled, Frame, Served, SameFunction, MemberSettled, EntrySet, InComp, Total, CyclePasses;
    forall u | u in InComp(n, Cyc(c))
      ensures MemberSettled(n, b', c, u)
    {
      OwnCalls(n, b, InComp(n, Cyc(c)), m, u);
      MemberServed(n, b, b', c, u);
    }
    forall u | n.CompOf(u) != Cyc(c)
      ensures SameFunction(b, b', u)
    {
      NotMember(n, c, u);
      OthersServed(n, b, b', c, u);
    }
    ServedKeys(n, c, b.total, b'.total, b.call, b'.call);
    WorkDone(n, b0, b, b', Cyc(c), InComp(n, Cyc(c)), m, 0);
  }

  lemma NotMember(n: Net, c: nat, u: Id)
    requires n.CompOf(u) != Cyc(c)
    ensures u !in InComp(n, Cyc(c))
  {
  }

  lemma OwnCalls(n: Net, b: Book, P: set<Id>, m: Id, u: Id)
    requires PartlyCalled(n, b, P, m, 0, u)
    ensures PartlyCalled(n, b, P, u, 0, u)
  {
  }
}

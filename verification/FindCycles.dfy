/** Profile.find_cycles and Profile._tarjan: the cycles are the components with two or more members. */
module FindCycles {
  import opened Paths
  import opened Profiles
  import opened Seqs
  import opened TarjanSpec

  /** The source's _TarjanData. */
  datatype Node = Node(order: nat, lowlink: nat, onstack: bool)

  type Data = map<Id, Node>

  ghost function Num(data: Data): Numbers {
    map x | x in data :: data[x].order
  }

  ghost function Live(data: Data): set<Id> {
    set x | x in data && data[x].onstack
  }

  ghost function Done(data: Data): set<Id> {
    set x | x in data && !data[x].onstack
  }

  /** The stack lists the live functions in order of discovery, and all numbers are below `order`. */
  ghost predicate Stacked(data: Data, stack: seq<Id>, order: nat) {
    && (forall x :: x in stack <==> x in data && data[x].onstack)
    && (forall i, j :: 0 <= i < j < |stack| && stack[i] in data && stack[j] in data ==>
          data[stack[i]].order < data[stack[j]].order)
    && (forall x :: x in data ==> data[x].order < order)
  }

  ghost predicate Ready(calls: Calls, data: Data, stack: seq<Id>, order: nat, gray: set<Id>) {
    Closed(calls) && Inv(calls, Num(data), Live(data), gray) && Stacked(data, stack, order)
  }

  /** Old records keep their low link and their place; new ones are numbered from order0. */
  ghost predicate Later(data0: Data, stack0: seq<Id>, order0: nat, data: Data, stack: seq<Id>, order: nat) {
    && order0 <= order && stack0 <= stack
    && Grows(Num(data0), Live(data0), order0, Num(data), Live(data))
    && (forall x :: x in data0 ==> x in data && data[x].lowlink == data0[x].lowlink)
  }

  /** The state while the first i calls of f have been followed in its visit. */
  ghost predicate Busy(calls: Calls, data0: Data, stack0: seq<Id>, order0: nat, gray: set<Id>, f: Id, i: nat,
                       data: Data, stack: seq<Id>, order: nat)
  {
    && Ready(calls, data, stack, order, gray + {f})
    && f in data && f !in data0 && data[f].order == order0 && order0 < order
    && Visiting(calls, Num(data), Live(data), gray, f, i, data[f].lowlink)
    && Later(data0, stack0, order0, data, stack, order)
    && stack0 + [f] <= stack
  }

  lemma Begin(calls: Calls, data0: Data, stack0: seq<Id>, order0: nat, gray: set<Id>, f: Id)
    requires Ready(calls, data0, stack0, order0, gray) && f in calls && f !in data0
    requires forall g :: g in gray ==> Reach(calls, g, f)
    ensures var data := data0[f := Node(order0, order0, true)];
            && Busy(calls, data0, stack0, order0, gray, f, 0, data, stack0 + [f], order0 + 1)
            && Done(data) == Done(data0)
  {
    hide Inv, Visiting, Reach;
    Open(calls, Num(data0), Live(data0), order0, gray, f);
    var data := data0[f := Node(order0, order0, true)];
    assert Num(data) == Num(data0)[f := order0];
    assert Live(data) == Live(data0) + {f};
    assert Inv(calls, Num(data), Live(data), gray + {f}) by { VisitingInv(calls, Num(data), Live(data), gray, f, 0, order0); }
  }

  lemma VisitingInv(calls: Calls, num: Numbers, live: set<Id>, gray: set<Id>, x: Id, i: nat, low: nat)
    requires Visiting(calls, num, live, gray, x, i, low)
    ensures Inv(calls, num, live, gray + {x})
  {
  }

  /** Setting the low link of f leaves every number and place alone. */
  lemma SetLow(calls: Calls, data0: Data, stack0: seq<Id>, order0: nat, gray: set<Id>, f: Id, i: nat,
               data: Data, stack: seq<Id>, order: nat, low: nat)
    requires Ready(calls, data, stack, order, gray + {f})
    requires f in data && f !in data0 && data[f].order == order0 && order0 < order
    requires Visiting(calls, Num(data), Live(data), gray, f, i, low)
    requires Later(data0, stack0, order0, data, stack, order)
    requires stack0 + [f] <= stack
    ensures var data' := data[f := data[f].(lowlink := low)];
            && Busy(calls, data0, stack0, order0, gray, f, i, data', stack, order)
            && Done(data') == Done(data)
  {
    hide Inv, Visiting, Reach;
    var data' := data[f := data[f].(lowlink := low)];
    assert Num(data') == Num(data) && Live(data') == Live(data);
  }

  lemma LaterRefl(data: Data, stack: seq<Id>, order: nat)
    ensures Later(data, stack, order, data, stack, order)
  {
  }

  lemma LaterTrans(data0: Data, stack0: seq<Id>, order0: nat, data1: Data, stack1: seq<Id>, order1: nat,
                   data: Data, stack: seq<Id>, order: nat)
    requires Later(data0, stack0, order0, data1, stack1, order1)
    requires Later(data1, stack1, order1, data, stack, order)
    ensures Later(data0, stack0, order0, data, stack, order)
  {
  }

  lemma SeenStep(calls: Calls, data0: Data, stack0: seq<Id>, order0: nat, gray: set<Id>, f: Id, i: nat,
                 data: Data, stack: seq<Id>, order: nat, low: nat)
    requires Busy(calls, data0, stack0, order0, gray, f, i, data, stack, order)
    requires i < |calls[f]| && calls[f][i] in data
    requires var v := data[calls[f][i]];
             low == if v.onstack && v.order < data[f].lowlink then v.order else data[f].lowlink
    ensures var data' := data[f := data[f].(lowlink := low)];
            && Busy(calls, data0, stack0, order0, gray, f, i + 1, data', stack, order)
            && Done(data') == Done(data)
  {
    SeenCallee(calls, Num(data), Live(data), gray, f, i, data[f].lowlink);
    hide Inv, Visiting, Reach;
    SetLow(calls, data0, stack0, order0, gray, f, i + 1, data, stack, order, low);
  }

  lemma BusyGrows(calls: Calls, data0: Data, stack0: seq<Id>, order0: nat, gray: set<Id>, f: Id, i: nat,
                  data: Data, stack: seq<Id>, order: nat)
    requires Busy(calls, data0, stack0, order0, gray, f, i, data, stack, order)
    ensures calls.Keys - data.Keys < calls.Keys - data0.Keys
  {
    assert Num(data).Keys == data.Keys && Num(data0).Keys == data0.Keys;
    assert f in data && f !in data0 && f in calls;
  }

  lemma NewReady(calls: Calls, data0: Data, stack0: seq<Id>, order0: nat, gray: set<Id>, f: Id, i: nat,
                 data: Data, stack: seq<Id>, order: nat)
    requires Busy(calls, data0, stack0, order0, gray, f, i, data, stack, order)
    requires i < |calls[f]|
    ensures Ready(calls, data, stack, order, gray + {f}) && calls[f][i] in calls
    ensures forall g :: g in gray + {f} ==> Reach(calls, g, calls[f][i])
  {
    var v := calls[f][i];
    assert Edge(calls, f, v);
    forall g | g in gray + {f}
      ensures Reach(calls, g, v)
    {
      assert Reach(calls, g, f);
      ReachStep(calls, g, f, v);
    }
  }

  lemma NewStep(calls: Calls, data0: Data, stack0: seq<Id>, order0: nat, gray: set<Id>, f: Id, i: nat,
                data1: Data, stack1: seq<Id>, order1: nat, data: Data, stack: seq<Id>, order: nat, low: nat)
    requires Busy(calls, data0, stack0, order0, gray, f, i, data1, stack1, order1)
    requires i < |calls[f]| && calls[f][i] in calls && calls[f][i] in data
    requires Ready(calls, data, stack, order, gray + {f})
    requires Later(data1, stack1, order1, data, stack, order)
    requires var v := calls[f][i];
             Visited(calls, Num(data1), Live(data1), order1, Num(data), Live(data), v, data[v].lowlink)
    requires f in data && low == if data[calls[f][i]].lowlink < data[f].lowlink then data[calls[f][i]].lowlink else data[f].lowlink
    ensures var data' := data[f := data[f].(lowlink := low)];
            && Busy(calls, data0, stack0, order0, gray, f, i + 1, data', stack, order)
            && Done(data') == Done(data)
  {
    hide Inv, Reach;
    var v := calls[f][i];
    NewCallee(calls, Num(data1), Live(data1), gray, f, i, data1[f].lowlink, order1, Num(data), Live(data),
              data[v].lowlink);
    hide Visiting, Visited;
    LaterTrans(data0, stack0, order0, data1, stack1, order1, data, stack, order);
    SetLow(calls, data0, stack0, order0, gray, f, i + 1, data, stack, order, low);
  }

  lemma FinishLive(calls: Calls, data0: Data, stack0: seq<Id>, order0: nat, gray: set<Id>, f: Id,
                   data: Data, stack: seq<Id>, order: nat)
    requires f in calls && Busy(calls, data0, stack0, order0, gray, f, |calls[f]|, data, stack, order)
    requires data[f].lowlink != data[f].order
    ensures Ready(calls, data, stack, order, gray)
    ensures Later(data0, stack0, order0, data, stack, order) && data0.Keys <= data.Keys
    ensures Visited(calls, Num(data0), Live(data0), order0, Num(data), Live(data), f, data[f].lowlink)
  {
    CloseLive(calls, Num(data), Live(data), gray, f, data[f].lowlink);
    hide Inv, Reach;
  }

  /** The functions stacked from f on are those numbered from f on. */
  lemma StackTail(data: Data, stack: seq<Id>, order: nat, pos: nat, f: Id)
    requires Stacked(data, stack, order) && pos < |stack| && stack[pos] == f && Live(data) <= Num(data).Keys
    ensures SetOf(stack[pos..]) == From(Num(data), Live(data), f)
    ensures SetOf(stack[..pos]) == Live(data) - From(Num(data), Live(data), f)
    ensures NoDup(stack)
  {
    forall k | 0 <= k < |stack|
      ensures stack[k] in From(Num(data), Live(data), f) <==> pos <= k
    {
      assert stack[k] in stack;
    }
  }

  /** After the records of `out` lose their place on the stack. */
  ghost function Off(data: Data, out: seq<Id>): Data {
    map x | x in data :: if x in out then data[x].(onstack := false) else data[x]
  }

  /** Taking the stacked functions from f on off the stack. */
  lemma OffLive(data: Data, stack: seq<Id>, stack0: seq<Id>, order: nat, out: seq<Id>)
    requires Stacked(data, stack, order) && stack == stack0 + out
    requires SetOf(stack0) == Live(data) - SetOf(out)
    ensures Num(Off(data, out)) == Num(data)
    ensures Live(Off(data, out)) == Live(data) - SetOf(out)
    ensures Stacked(Off(data, out), stack0, order)
  {
    var data' := Off(data, out);
    assert Live(data') == Live(data) - SetOf(out);
    assert forall x :: x in stack0 <==> x in SetOf(stack0);
    forall i, j | 0 <= i < j < |stack0|
      ensures data'[stack0[i]].order < data'[stack0[j]].order
    {
      assert stack[i] == stack0[i] && stack[j] == stack0[j];
    }
  }

  lemma FinishComponent(calls: Calls, data0: Data, stack0: seq<Id>, order0: nat, gray: set<Id>, f: Id,
                        data: Data, stack: seq<Id>, order: nat)
    requires f in calls && Busy(calls, data0, stack0, order0, gray, f, |calls[f]|, data, stack, order)
    requires data[f].lowlink == data[f].order && Ready(calls, data0, stack0, order0, gray)
    ensures var data' := Off(data, stack[|stack0|..]);
            && stack[..|stack0|] == stack0
            && Ready(calls, data', stack0, order, gray)
            && Later(data0, stack0, order0, data', stack0, order) && data0.Keys <= data'.Keys
            && f in data' && Visited(calls, Num(data0), Live(data0), order0, Num(data'), Live(data'), f, data'[f].lowlink)
  {
    hide Reach, Inv, Visiting, Num, Live, Done, Off, Stacked, Visited, Grows, From, Later, Busy, Mutual;
    BusyParts(calls, data0, stack0, order0, gray, f, |calls[f]|, data, stack, order);
    var out := stack[|stack0|..];
    ComponentOut(calls, data0, stack0, order0, gray, f, data, stack, order);
    CloseComponent(calls, Num(data), Live(data), gray, f);
    OffLive(data, stack, stack0, order, out);
    OffRecords(data, out);
    LaterOff(data0, stack0, order0, f, data, stack, order, Off(data, out));
    VisitedOff(calls, Num(data0), Live(data0), order0, Num(data), Live(data), f);
  }

  lemma BusyParts(calls: Calls, data0: Data, stack0: seq<Id>, order0: nat, gray: set<Id>, f: Id, i: nat,
                  data: Data, stack: seq<Id>, order: nat)
    requires Busy(calls, data0, stack0, order0, gray, f, i, data, stack, order)
    ensures f in data && data[f].order == order0 && Closed(calls) && Stacked(data, stack, order)
    ensures Visiting(calls, Num(data), Live(data), gray, f, i, data[f].lowlink)
    ensures Later(data0, stack0, order0, data, stack, order) && stack0 <= stack
    ensures Grows(Num(data0), Live(data0), order0, Num(data), Live(data))
    ensures f in Num(data) && Num(data)[f] == order0 && Live(data) <= Num(data).Keys && f !in Num(data0)
  {
    hide Inv, Reach, Stacked;
  }

  lemma OffRecords(data: Data, out: seq<Id>)
    ensures Off(data, out).Keys == data.Keys
    ensures forall x :: x in data ==> Off(data, out)[x].lowlink == data[x].lowlink
  {
  }

  lemma LaterOff(data0: Data, stack0: seq<Id>, order0: nat, f: Id, data: Data, stack: seq<Id>, order: nat, data': Data)
    requires f in data && data[f].order == order0 && Live(data) <= Num(data).Keys
    requires Later(data0, stack0, order0, data, stack, order) && Stacked(data0, stack0, order0)
    requires Num(data') == Num(data) && Live(data') == Live(data) - From(Num(data), Live(data), f)
    requires data'.Keys == data.Keys && forall x :: x in data ==> data'[x].lowlink == data[x].lowlink
    ensures Later(data0, stack0, order0, data', stack0, order) && data0.Keys <= data'.Keys
    ensures Grows(Num(data0), Live(data0), order0, Num(data'), Live(data'))
  {
    hide Live, From;
    OldStay(data0, stack0, order0, f, data, stack, order);
    assert Num(data0).Keys == data0.Keys;
  }

  /** A visit that ends with its own component leaves nothing new live. */
  lemma VisitedOff(calls: Calls, num0: Numbers, live0: set<Id>, order0: nat, num: Numbers, live: set<Id>, f: Id)
    requires f in num && num[f] == order0 && f !in num0 && live <= num.Keys
    requires Grows(num0, live0, order0, num, live - From(num, live, f))
    ensures Visited(calls, num0, live0, order0, num, live - From(num, live, f), f, order0)
  {
    hide Above, Reach;
    var live' := live - From(num, live, f);
    forall u | u in live'
      ensures u in num0
    {
      assert num[u] < order0;
    }
  }

  lemma OldStay(data0: Data, stack0: seq<Id>, order0: nat, f: Id, data: Data, stack: seq<Id>, order: nat)
    requires f in data && data[f].order == order0 && Live(data) <= Num(data).Keys
    requires Later(data0, stack0, order0, data, stack, order) && Stacked(data0, stack0, order0)
    ensures forall x :: x in data0 ==> (x in Live(data0) <==> x in Live(data) - From(Num(data), Live(data), f))
  {
    forall x | x in data0
      ensures x in Live(data0) <==> x in Live(data) - From(Num(data), Live(data), f)
    {
      assert Num(data)[x] == Num(data0)[x];
    }
  }

  /** The functions stacked from f on are a whole component, none of it finished before. */
  lemma ComponentOut(calls: Calls, data0: Data, stack0: seq<Id>, order0: nat, gray: set<Id>, f: Id,
                     data: Data, stack: seq<Id>, order: nat)
    requires f in calls && Busy(calls, data0, stack0, order0, gray, f, |calls[f]|, data, stack, order)
    requires data[f].lowlink == data[f].order
    ensures stack[..|stack0|] == stack0 && NoDup(stack[|stack0|..])
    ensures SetOf(stack[|stack0|..]) == From(Num(data), Live(data), f)
    ensures SetOf(stack0) == Live(data) - From(Num(data), Live(data), f)
    ensures var M := SetOf(stack[|stack0|..]);
            && f in M && M !! Done(data) && M <= data.Keys && M <= calls.Keys
            && Done(Off(data, stack[|stack0|..])) == Done(data) + M
            && forall z :: z in M <==> z in calls && Mutual(calls, f, z)
  {
    var pos := |stack0|;
    assert stack[pos] == f && stack[..pos] == stack0;
    ComponentFound(calls, Num(data), Live(data), gray, f);
    hide Reach;
    StackTail(data, stack, order, pos, f);
    hide Inv, Visiting;
    assert f in stack[pos..];
  }

  ghost function Joined(cycle: map<Id, nat>, M: set<Id>, c: nat): map<Id, nat> {
    map y | y in cycle.Keys + M :: if y in M then c else cycle[y]
  }

  lemma JoinedStep(cycle: map<Id, nat>, M: set<Id>, m: Id, c: nat)
    ensures Joined(cycle, M + {m}, c) == Joined(cycle, M, c)[m := c]
  {
  }

  lemma OffStep(data: Data, s: seq<Id>, j: nat)
    requires j < |s| && forall m :: m in s ==> m in data
    ensures var d := Off(data, s[..j]);
            s[j] in d && Off(data, s[..j + 1]) == d[s[j] := d[s[j]].(onstack := false)]
  {
    assert s[..j + 1] == s[..j] + [s[j]];
  }

  /** Two or more members become a new cycle and leave the stack. */
  method MakeCycle(p: Profile, members: seq<Id>, data0: Data) returns (data: Data)
    requires NoDup(members) && SetOf(members) <= data0.Keys
    modifies p`cycle, p`cycleFunctions
    ensures data == Off(data0, members)
    ensures p.cycleFunctions == old(p.cycleFunctions) + [SetOf(members)]
    ensures p.cycle == Joined(old(p.cycle), SetOf(members), |old(p.cycleFunctions)|)
  {
    data := data0;
    assert members[..|members|] == members && SetOf(members[..0]) == {};
    assert Joined(p.cycle, SetOf(members[..0]), |p.cycleFunctions|) == p.cycle;
    assert Off(data0, members[..0]) == data0;
    hide Joined, Off, SetOf, NoDup;
    var c := |p.cycleFunctions|;
    p.cycleFunctions := p.cycleFunctions + [{}];
    for j := 0 to |members|
      invariant data == Off(data0, members[..j])
      invariant p.cycleFunctions == old(p.cycleFunctions) + [SetOf(members[..j])]
      invariant p.cycle == Joined(old(p.cycle), SetOf(members[..j]), c)
    {
      OffStep(data0, members, j);
      SetOfStep(members, j);
      JoinedStep(old(p.cycle), SetOf(members[..j]), members[j], c);
      p.AddToCycle(c, members[j]);
      data := data[members[j] := data[members[j]].(onstack := false)];
    }
  }

  /** The members of a component leave the stack; only two or more of them make a cycle. */
  method Settle(p: Profile, members: seq<Id>, data0: Data) returns (data: Data)
    requires NoDup(members) && SetOf(members) <= data0.Keys
    modifies p`cycle, p`cycleFunctions
    ensures data == Off(data0, members)
    ensures |members| <= 1 ==> p.cycle == old(p.cycle) && p.cycleFunctions == old(p.cycleFunctions)
    ensures |members| > 1 ==>
              && p.cycleFunctions == old(p.cycleFunctions) + [SetOf(members)]
              && p.cycle == Joined(old(p.cycle), SetOf(members), |old(p.cycleFunctions)|)
  {
    data := data0;
    if |members| > 1 {
      data := MakeCycle(p, members, data);
    } else {
      assert members[..|members|] == members;
      for j := 0 to |members|
        invariant data == Off(data0, members[..j])
        invariant p.cycle == old(p.cycle) && p.cycleFunctions == old(p.cycleFunctions)
      {
        OffStep(data0, members, j);
        data := data[members[j] := data[members[j]].(onstack := false)];
      }
    }
  }

  lemma TwoMembers(s: seq<Id>, x: Id)
    requires NoDup(s) && x in s
    ensures |s| > 1 <==> SetOf(s) != {x}
  {
    if |s| > 1 {
      assert s[0] != s[1] && s[0] in SetOf(s) && s[1] in SetOf(s);
    }
  }

  /** The end of a visit: what is stacked from f on leaves when f reaches nothing live below it. */
  method Finish(p: Profile, f: Id, ghost data0: Data, ghost stack0: seq<Id>, ghost order0: nat,
                order: nat, stack1: seq<Id>, data1: Data, pos: nat, ghost gray: set<Id>)
    returns (stack: seq<Id>, data: Data)
    requires f in p.calls && Busy(p.calls, data0, stack0, order0, gray, f, |p.calls[f]|, data1, stack1, order)
    requires Ready(p.calls, data0, stack0, order0, gray) && pos == |stack0|
    requires Grouped(p.calls, Done(data1), p.cycle, p.cycleFunctions)
    modifies p`cycle, p`cycleFunctions
    ensures Ready(p.calls, data, stack, order, gray)
    ensures Grouped(p.calls, Done(data), p.cycle, p.cycleFunctions)
    ensures f in data && data0.Keys <= data.Keys && Later(data0, stack0, order0, data, stack, order)
    ensures Visited(p.calls, Num(data0), Live(data0), order0, Num(data), Live(data), f, data[f].lowlink)
  {
    hide Ready, Later, Visited, Visiting, Grouped, Reach, Done, Live, Num, Inv, From;
    stack, data := stack1, data1;
    if data[f].lowlink == data[f].order {
      FinishComponent(p.calls, data0, stack0, order0, gray, f, data, stack, order);
      ComponentOut(p.calls, data0, stack0, order0, gray, f, data, stack, order);
      var members := stack[pos..];
      stack := stack[..pos];
      TwoMembers(members, f);
      ghost var cycle, cycleFunctions := p.cycle, p.cycleFunctions;
      data := Settle(p, members, data);
      Group(p.calls, Done(data1), cycle, cycleFunctions, f, SetOf(members), p.cycle, p.cycleFunctions);
    } else {
      FinishLive(p.calls, data0, stack0, order0, gray, f, data, stack, order);
    }
  }

  /** One turn of the loop over the calls of f. */
  method Follow(p: Profile, f: Id, i: nat, ghost data0: Data, ghost stack0: seq<Id>, ghost order0: nat,
                order1: nat, stack1: seq<Id>, data1: Data, ghost gray: set<Id>)
    returns (order: nat, stack: seq<Id>, data: Data)
    requires f in p.calls && i < |p.calls[f]|
    requires Busy(p.calls, data0, stack0, order0, gray, f, i, data1, stack1, order1)
    requires Grouped(p.calls, Done(data1), p.cycle, p.cycleFunctions)
    modifies p`cycle, p`cycleFunctions
    ensures Busy(p.calls, data0, stack0, order0, gray, f, i + 1, data, stack, order)
    ensures Grouped(p.calls, Done(data), p.cycle, p.cycleFunctions)
    decreases p.calls.Keys - data1.Keys, 1
  {
    var calls := p.calls;
    var v := calls[f][i];
    order, stack, data := order1, stack1, data1;
    var low := data[f].lowlink;
    hide Ready, Later, Visited, Visiting, Grouped, Reach, Done, Live, Num, Inv;
    if v in data {
      if data[v].onstack && data[v].order < low {
        low := data[v].order;
      }
      SeenStep(calls, data0, stack0, order0, gray, f, i, data, stack, order, low);
    } else {
      NewReady(calls, data0, stack0, order0, gray, f, i, data, stack, order);
      order, stack, data := Tarjan(p, v, order, stack, data, gray + {f});
      low := data[f].lowlink;
      if data[v].lowlink < low {
        low := data[v].lowlink;
      }
      NewStep(calls, data0, stack0, order0, gray, f, i, data1, stack1, order1, data, stack, order, low);
    }
    data := data[f := data[f].(lowlink := low)];
  }

  method Tarjan(p: Profile, f: Id, order0: nat, stack0: seq<Id>, data0: Data, ghost gray: set<Id>)
    returns (order: nat, stack: seq<Id>, data: Data)
    requires Ready(p.calls, data0, stack0, order0, gray) && f in p.calls
    requires Grouped(p.calls, Done(data0), p.cycle, p.cycleFunctions)
    requires f !in data0 ==> forall g :: g in gray ==> Reach(p.calls, g, f)
    modifies p`cycle, p`cycleFunctions
    ensures Ready(p.calls, data, stack, order, gray)
    ensures Grouped(p.calls, Done(data), p.cycle, p.cycleFunctions)
    ensures f in data && data0.Keys <= data.Keys && Later(data0, stack0, order0, data, stack, order)
    ensures f !in data0 ==>
              Visited(p.calls, Num(data0), Live(data0), order0, Num(data), Live(data), f, data[f].lowlink)
    decreases p.calls.Keys - data0.Keys, 0
  {
    hide Busy, Ready, Later, Visited, Visiting, Grouped, Reach, Done, Live, Num, Inv, From;
    var calls := p.calls;
    order, stack, data := order0, stack0, data0;
    if f in data {
      LaterRefl(data0, stack0, order0);
      return;
    }
    Begin(calls, data0, stack0, order0, gray, f);
    data := data[f := Node(order, order, true)];
    order := order + 1;
    var pos := |stack|;
    stack := stack + [f];
    for i := 0 to |calls[f]|
      invariant p.calls == calls
      invariant Busy(calls, data0, stack0, order0, gray, f, i, data, stack, order)
      invariant Grouped(calls, Done(data), p.cycle, p.cycleFunctions)
    {
      BusyGrows(calls, data0, stack0, order0, gray, f, i, data, stack, order);
      order, stack, data := Follow(p, f, i, data0, stack0, order0, order, stack, data, gray);
    }
    stack, data := Finish(p, f, data0, stack0, order0, order, stack, data, pos, gray);
  }

  /** Nothing is live when no visit is open. */
  lemma AllDone(calls: Calls, data: Data, stack: seq<Id>, order: nat)
    requires Ready(calls, data, stack, order, {}) && calls.Keys <= data.Keys
    ensures Done(data) == calls.Keys
  {
    assert Num(data).Keys == data.Keys;
    forall x
      ensures x !in Live(data)
    {
      var none := ReachesGray(calls, Num(data), {}, x);
    }
    assert forall x :: x in data && data[x].onstack ==> x in Live(data);
  }

  /**
    * Distinct functions share a cycle exactly when each reaches the other, and a function has no
    * cycle exactly when no other function is mutually reachable with it.
    */
  ghost predicate CyclesFound(calls: Calls, cycle: map<Id, nat>, members: seq<set<Id>>) {
    && cycle.Keys <= calls.Keys
    && (forall x :: x in cycle ==> cycle[x] < |members|)
    && (forall x, c :: 0 <= c < |members| ==> (x in members[c] <==> x in cycle && cycle[x] == c))
    && (forall x, z :: x in calls && z in calls && x != z ==> (Mutual(calls, x, z) <==> Together(cycle, x, z)))
    && (forall x {:trigger HasPartner(calls, x)} :: x in calls ==> (x in cycle <==> HasPartner(calls, x)))
  }

  ghost predicate Together(cycle: map<Id, nat>, x: Id, z: Id) {
    x in cycle && z in cycle && cycle[x] == cycle[z]
  }

  lemma GroupedAll(calls: Calls, cycle: map<Id, nat>, members: seq<set<Id>>)
    requires Grouped(calls, calls.Keys, cycle, members)
    ensures CyclesFound(calls, cycle, members)
  {
    hide Reach;
    forall x {:trigger HasPartner(calls, x)} | x in calls && HasPartner(calls, x)
      ensures x in cycle
    {
      var z :| z != x && Mutual(calls, x, z);
      assert z in calls.Keys;
    }
  }

  /** The distinct cycles of the functions, in the order they are first met. */
  method CollectCycles(p: Profile)
    requires p.cycle.Keys <= SetOf(p.functions)
    modifies p`cycles
    ensures NoDup(p.cycles) && SetOf(p.cycles) == p.cycle.Values
  {
    var found: seq<nat> := [];
    var cycle := p.cycle;
    for i := 0 to |p.functions|
      invariant NoDup(found)
      invariant forall c :: c in found ==> c in cycle.Values
      invariant forall k :: 0 <= k < i && p.functions[k] in cycle ==> cycle[p.functions[k]] in found
    {
      var f := p.functions[i];
      if f in cycle && cycle[f] !in found {
        found := found + [cycle[f]];
      }
    }
    forall c | c in cycle.Values
      ensures c in found
    {
      var f :| f in cycle && cycle[f] == c;
      assert f in p.functions;
    }
    p.cycles := found;
  }

  method FindCycles(p: Profile)
    requires p.Shaped() && Closed(p.calls) && p.cycle == map[] && p.cycleFunctions == []
    modifies p`cycle, p`cycleFunctions, p`cycles
    ensures CyclesFound(p.calls, p.cycle, p.cycleFunctions)
    ensures NoDup(p.cycles) && SetOf(p.cycles) == p.cycle.Values
  {
    var stack, data, order := [], map[], 0;
    assert p.functions[..|p.functions|] == p.functions;
    hide Grouped, Later, Visited, Done, CyclesFound, Reach;
    for i := 0 to |p.functions|
      invariant Ready(p.calls, data, stack, order, {})
      invariant Grouped(p.calls, Done(data), p.cycle, p.cycleFunctions)
      invariant SetOf(p.functions[..i]) <= data.Keys
    {
      hide Ready;
      SetOfStep(p.functions, i);
      order, stack, data := Tarjan(p, p.functions[i], order, stack, data, {});
    }
    AllDone(p.calls, data, stack, order);
    GroupedAll(p.calls, p.cycle, p.cycleFunctions);
    CollectCycles(p);
  }

  ghost predicate SameEdges(calls: Calls, calls': Calls) {
    calls.Keys == calls'.Keys && forall a, b :: Edge(calls, a, b) <==> Edge(calls', a, b)
  }

  lemma {:induction false} SameWalks(calls: Calls, calls': Calls, S: set<Id>, k: nat, a: Id, b: Id)
    requires SameEdges(calls, calls') && Walk(calls, S, k, a, b)
    ensures Walk(calls', S, k, a, b)
  {
    if k > 0 {
      var m :| Walk(calls, S, k - 1, a, m) && Edge(calls, m, b);
      SameWalks(calls, calls', S, k - 1, a, m);
      assert Edge(calls', m, b);
    }
  }

  lemma SameReach(calls: Calls, calls': Calls, a: Id, b: Id)
    requires SameEdges(calls, calls') && Reach(calls, a, b)
    ensures Reach(calls', a, b)
  {
    var k: nat :| Walk(calls, calls.Keys, k, a, b);
    SameWalks(calls, calls', calls.Keys, k, a, b);
  }

  /** Two runs over the same calls, listed in any orders, group the functions in the same way. */
  lemma OrderDoesNotMatter(calls: Calls, cycle: map<Id, nat>, members: seq<set<Id>>,
                           calls': Calls, cycle': map<Id, nat>, members': seq<set<Id>>, x: Id, z: Id)
    requires SameEdges(calls, calls')
    requires CyclesFound(calls, cycle, members) && CyclesFound(calls', cycle', members')
    requires x in calls && z in calls
    ensures Together(cycle, x, z) <==> Together(cycle', x, z)
  {
    MutualSame(calls, calls', x, z);
    hide Reach;
    if x == z {
      assert HasPartner(calls, x) <==> HasPartner(calls', x) by {
        if HasPartner(calls, x) {
          var y :| y != x && Mutual(calls, x, y);
          MutualSame(calls, calls', x, y);
        } else if HasPartner(calls', x) {
          var y :| y != x && Mutual(calls', x, y);
          MutualSame(calls, calls', x, y);
        }
      }
    }
  }

  lemma MutualSame(calls: Calls, calls': Calls, x: Id, z: Id)
    requires SameEdges(calls, calls')
    ensures Mutual(calls, x, z) <==> Mutual(calls', x, z)
  {
    if Mutual(calls, x, z) {
      SameReach(calls, calls', x, z);
      SameReach(calls, calls', z, x);
    }
    if Mutual(calls', x, z) {
      assert SameEdges(calls', calls);
      SameReach(calls', calls, x, z);
      SameReach(calls', calls, z, x);
    }
  }
}

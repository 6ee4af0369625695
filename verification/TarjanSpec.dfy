/** What Tarjan's algorithm keeps at every step, and why one step after another keeps it. */
module TarjanSpec {
  import opened Paths

  type Numbers = map<Id, nat>

  /**
    * `num` numbers the visited functions in order of discovery, `live` holds those whose component
    * is not finished and `gray` those whose visit is still open. Every live function reaches an
    * open one discovered no later, every open function reaches all live ones discovered after it,
    * and what is no longer live calls only what is no longer live.
    */
  ghost predicate Inv(calls: Calls, num: Numbers, live: set<Id>, gray: set<Id>) {
    && num.Keys <= calls.Keys && live <= num.Keys && gray <= live
    && (forall x, y :: Edge(calls, x, y) && x in num && x !in gray ==> y in num)
    && (forall x, y :: Edge(calls, x, y) && x in num && x !in live ==> y in num && y !in live)
    && (forall y {:trigger ReachesGray(calls, num, gray, y)} :: y in live ==> ReachesGray(calls, num, gray, y))
    && (forall g, y :: g in gray && y in live && num[g] <= num[y] ==> Reach(calls, g, y))
  }

  ghost predicate ReachesGray(calls: Calls, num: Numbers, gray: set<Id>, y: Id) {
    exists g :: g in gray && NoLater(num, g, y) && Reach(calls, y, g)
  }

  ghost predicate NoLater(num: Numbers, a: Id, b: Id) {
    a in num && b in num && num[a] <= num[b]
  }

  /** The low link of x is its own number, or the number of a live function that x reaches. */
  ghost predicate LowReaches(calls: Calls, num: Numbers, live: set<Id>, x: Id, low: nat) {
    && x in num && low <= num[x]
    && (low < num[x] ==> exists y :: y in live && y in num && num[y] == low && Reach(calls, x, y))
  }

  /** No call of u to a live function numbered below `base` goes below `low`. */
  ghost predicate Above(calls: Calls, num: Numbers, live: set<Id>, base: nat, u: Id, low: nat) {
    forall v :: Edge(calls, u, v) && v in live && v in num && num[v] < base ==> low <= num[v]
  }

  /** A followed call leads to a visited function, and not to a live one between `low` and `base`. */
  ghost predicate Followed(num: Numbers, live: set<Id>, v: Id, base: nat, low: nat) {
    v in num && (v in live && num[v] < base ==> low <= num[v])
  }

  /** What holds while the first i calls of x have been followed. */
  ghost predicate Visiting(calls: Calls, num: Numbers, live: set<Id>, gray: set<Id>, x: Id, i: nat, low: nat) {
    && Inv(calls, num, live, gray + {x})
    && x in calls && i <= |calls[x]| && x !in gray
    && (forall g :: g in gray ==> num[g] < num[x])
    && (forall u :: u in live && num[u] == num[x] ==> u == x)
    && LowReaches(calls, num, live, x, low)
    && (forall k :: 0 <= k < i ==> Followed(num, live, calls[x][k], num[x], low))
    && (forall u :: u in live && num[x] < num[u] ==> Above(calls, num, live, num[x], u, low))
  }

  /** Old records are kept, new ones are numbered from `order`, and nothing live is dropped or revived. */
  ghost predicate Grows(num: Numbers, live: set<Id>, order: nat, num': Numbers, live': set<Id>) {
    && (forall y :: y in num ==> y in num' && num'[y] == num[y] && (y in live <==> y in live'))
    && (forall y :: y in num' && y !in num ==> order <= num'[y])
  }

  /** What the visit of an unseen x promises its caller, apart from the invariant. */
  ghost predicate Visited(calls: Calls, num: Numbers, live: set<Id>, order: nat, num': Numbers, live': set<Id>,
                          x: Id, low: nat)
  {
    && Grows(num, live, order, num', live')
    && x in num' && num'[x] == order
    && LowReaches(calls, num', live', x, low)
    && (x in live' <==> low < order)
    && (forall u :: u in live' && u !in num ==> Above(calls, num', live', order, u, low))
  }

  /** Opening the visit of an unseen function. */
  lemma Open(calls: Calls, num: Numbers, live: set<Id>, order: nat, gray: set<Id>, x: Id)
    requires Inv(calls, num, live, gray) && x in calls && x !in num
    requires forall y :: y in num ==> num[y] < order
    requires forall g :: g in gray ==> Reach(calls, g, x)
    ensures Visiting(calls, num[x := order], live + {x}, gray, x, 0, order)
  {
    ReachRefl(calls, x);
    hide Reach;
    var num' := num[x := order];
    forall y {:trigger ReachesGray(calls, num', gray + {x}, y)} | y in live + {x}
      ensures ReachesGray(calls, num', gray + {x}, y)
    {
      if y == x {
        assert NoLater(num', x, x) && x in gray + {x};
      } else {
        assert ReachesGray(calls, num, gray, y);
        var g :| g in gray && NoLater(num, g, y) && Reach(calls, y, g);
        assert NoLater(num', g, y) && g in gray + {x};
      }
    }
  }

  /** Following a call to a function already seen. */
  lemma SeenCallee(calls: Calls, num: Numbers, live: set<Id>, gray: set<Id>, x: Id, i: nat, low: nat)
    requires Visiting(calls, num, live, gray, x, i, low) && i < |calls[x]| && calls[x][i] in num
    ensures var v := calls[x][i];
            Visiting(calls, num, live, gray, x, i + 1, if v in live && num[v] < low then num[v] else low)
  {
    var v := calls[x][i];
    if v in live && num[v] < low {
      assert Edge(calls, x, v);
      ReachEdge(calls, x, v);
    }
  }

  lemma LiveNumbered(calls: Calls, num: Numbers, live: set<Id>, gray: set<Id>)
    requires Inv(calls, num, live, gray)
    ensures forall y :: y in live ==> y in num
    ensures forall g :: g in gray ==> g in num
  {
  }

  lemma CallReaches(calls: Calls, x: Id, i: nat)
    requires x in calls && i < |calls[x]| && calls[x][i] in calls
    ensures Edge(calls, x, calls[x][i]) && Reach(calls, x, calls[x][i])
  {
    ReachEdge(calls, x, calls[x][i]);
  }

  /** Following a call to a function that the call visits. */
  lemma NewCallee(calls: Calls, num: Numbers, live: set<Id>, gray: set<Id>, x: Id, i: nat, low: nat, order: nat,
                  num': Numbers, live': set<Id>, low': nat)
    requires Visiting(calls, num, live, gray, x, i, low) && i < |calls[x]| && calls[x][i] in calls
    requires num[x] < order
    requires Visited(calls, num, live, order, num', live', calls[x][i], low')
    requires Inv(calls, num', live', gray + {x})
    ensures Visiting(calls, num', live', gray, x, i + 1, if low' < low then low' else low)
  {
    hide Inv, Reach;
    var v := calls[x][i];
    var low'' := if low' < low then low' else low;
    LiveNumbered(calls, num', live', gray + {x});
    LiveNumbered(calls, num, live, gray + {x});
    CallReaches(calls, x, i);
    forall y | Reach(calls, v, y)
      ensures Reach(calls, x, y)
    {
      ReachTrans(calls, x, v, y);
    }
    forall u | u in live' && num'[x] < num'[u]
      ensures Above(calls, num', live', num'[x], u, low'')
    {
      if u in num {
        assert Above(calls, num, live, num[x], u, low);
      } else {
        assert Above(calls, num', live', order, u, low');
      }
    }
  }

  lemma FollowedAll(calls: Calls, num: Numbers, live: set<Id>, gray: set<Id>, x: Id, low: nat, u: Id, v: Id)
    requires x in calls && Visiting(calls, num, live, gray, x, |calls[x]|, low)
    requires Edge(calls, u, v) && u in num && u !in gray
    ensures v in num
  {
    if u == x {
      var k :| 0 <= k < |calls[x]| && calls[x][k] == v;
      assert Followed(num, live, calls[x][k], num[x], low);
    }
  }

  /** Closing the visit of x when it can reach something below it: x stays live. */
  lemma CloseLive(calls: Calls, num: Numbers, live: set<Id>, gray: set<Id>, x: Id, low: nat)
    requires x in calls && x in num && low < num[x] && Visiting(calls, num, live, gray, x, |calls[x]|, low)
    ensures Inv(calls, num, live, gray)
  {
    hide Reach;
    var y :| y in live && y in num && num[y] == low && Reach(calls, x, y);
    assert ReachesGray(calls, num, gray + {x}, y);
    var g :| g in gray + {x} && NoLater(num, g, y) && Reach(calls, y, g);
    ReachTrans(calls, x, y, g);
    forall u, v | Edge(calls, u, v) && u in num && u !in gray
      ensures v in num
    {
      FollowedAll(calls, num, live, gray, x, low, u, v);
    }
    forall z {:trigger ReachesGray(calls, num, gray, z)} | z in live
      ensures ReachesGray(calls, num, gray, z)
    {
      assert ReachesGray(calls, num, gray + {x}, z);
      var h :| h in gray + {x} && NoLater(num, h, z) && Reach(calls, z, h);
      if h == x {
        ReachTrans(calls, z, x, g);
        assert NoLater(num, g, z);
      }
    }
  }

  /** The live functions numbered from x on. */
  ghost function From(num: Numbers, live: set<Id>, x: Id): set<Id>
    requires live <= num.Keys && x in num
  {
    set y | y in live && num[x] <= num[y]
  }

  /** The functions whose component has been completed. */
  ghost function Finished(num: Numbers, live: set<Id>): set<Id> {
    num.Keys - live
  }

  lemma NoneBelow(calls: Calls, num: Numbers, live: set<Id>, gray: set<Id>, x: Id, u: Id, v: Id)
    requires x in calls && x in num && Visiting(calls, num, live, gray, x, |calls[x]|, num[x])
    requires u in From(num, live, x) && v in live && Edge(calls, u, v)
    ensures v in From(num, live, x)
  {
    if u == x {
      var k :| 0 <= k < |calls[x]| && calls[x][k] == v;
      assert Followed(num, live, calls[x][k], num[x], num[x]);
    } else {
      assert Above(calls, num, live, num[x], u, num[x]);
    }
  }

  /** When x reaches nothing live below it, the live functions from x on are its component. */
  lemma ComponentFound(calls: Calls, num: Numbers, live: set<Id>, gray: set<Id>, x: Id)
    requires x in calls && x in num && Visiting(calls, num, live, gray, x, |calls[x]|, num[x])
    ensures forall z :: z in From(num, live, x) <==> z in calls && Mutual(calls, x, z)
  {
    var M := From(num, live, x);
    forall z | z in M
      ensures Mutual(calls, x, z)
    {
      assert ReachesGray(calls, num, gray + {x}, z);
      var g :| g in gray + {x} && NoLater(num, g, z) && Reach(calls, z, g);
      assert Reach(calls, g, x);
      ReachTrans(calls, z, g, x);
    }
    forall z | z in calls && Mutual(calls, x, z)
      ensures z in M
    {
      if z !in M {
        StaysInside(calls, num, live, gray, x, z);
      }
    }
  }

  /** What leaves the component of x has left the stack, so it never comes back. */
  lemma StaysInside(calls: Calls, num: Numbers, live: set<Id>, gray: set<Id>, x: Id, z: Id)
    requires x in calls && x in num && Visiting(calls, num, live, gray, x, |calls[x]|, num[x])
    requires Mutual(calls, x, z)
    ensures z in From(num, live, x)
  {
    var M := From(num, live, x);
    var done := Finished(num, live);
    forall u, v | u in M + done && v in calls && Edge(calls, u, v)
      ensures v in M + done
    {
      if u in M && v in live {
        NoneBelow(calls, num, live, gray, x, u, v);
      }
    }
    ReachClosed(calls, M + done, x, z);
    if z in done {
      ReachClosed(calls, done, z, x);
    }
  }

  /** Closing the visit of x when the live functions from x on form a component: they leave. */
  lemma CloseComponent(calls: Calls, num: Numbers, live: set<Id>, gray: set<Id>, x: Id)
    requires x in calls && x in num && Visiting(calls, num, live, gray, x, |calls[x]|, num[x])
    ensures Inv(calls, num, live - From(num, live, x), gray)
  {
    var M := From(num, live, x);
    var live' := live - M;
    forall u, v | Edge(calls, u, v) && u in num && u !in live'
      ensures v in num && v !in live'
    {
      if u in M && v in live {
        NoneBelow(calls, num, live, gray, x, u, v);
      }
    }
    forall y {:trigger ReachesGray(calls, num, gray, y)} | y in live'
      ensures ReachesGray(calls, num, gray, y)
    {
      assert ReachesGray(calls, num, gray + {x}, y);
    }
  }

  /** Completed functions are grouped into cycles exactly by mutual reachability. */
  ghost predicate Grouped(calls: Calls, done: set<Id>, cycle: map<Id, nat>, members: seq<set<Id>>) {
    && cycle.Keys <= done <= calls.Keys
    && (forall x, z :: x in done && Mutual(calls, x, z) ==> z in done)
    && (forall x :: x in cycle ==> cycle[x] < |members|)
    && (forall x, c :: 0 <= c < |members| ==> (x in members[c] <==> x in cycle && cycle[x] == c))
    && (forall x, z :: x in done && z in done && x != z ==>
          (Mutual(calls, x, z) <==> x in cycle && z in cycle && cycle[x] == cycle[z]))
    && (forall x {:trigger HasPartner(calls, x)} :: x in cycle ==> HasPartner(calls, x))
  }

  ghost predicate HasPartner(calls: Calls, x: Id) {
    exists z :: z != x && Mutual(calls, x, z)
  }

  /** Adding the component M of x: as a new cycle when it has a second member, else as a lone function. */
  lemma Group(calls: Calls, done: set<Id>, cycle: map<Id, nat>, members: seq<set<Id>>, x: Id, M: set<Id>,
              cycle': map<Id, nat>, members': seq<set<Id>>)
    requires Grouped(calls, done, cycle, members)
    requires x in M && M !! done && M <= calls.Keys
    requires forall z :: z in M <==> z in calls && Mutual(calls, x, z)
    requires if M == {x} then cycle' == cycle && members' == members
             else members' == members + [M] &&
                  cycle' == map y | y in cycle.Keys + M :: if y in M then |members| else cycle[y]
    ensures Grouped(calls, done + M, cycle', members')
  {
    hide Reach;
    forall y, z | y in M && Mutual(calls, y, z)
      ensures z in M
    {
      MutualTrans(calls, x, y, z);
      InGraph(calls, y, z);
    }
    forall y, z | y in M && z in M
      ensures Mutual(calls, y, z)
    {
      MutualTrans(calls, y, x, z);
    }
    if M != {x} {
      var w :| w in M && w != x;
      forall y {:trigger HasPartner(calls, y)} | y in M
        ensures HasPartner(calls, y)
      {
        var z := if y == x then w else x;
        assert z != y && Mutual(calls, y, z);
      }
    }
  }

  lemma InGraph(calls: Calls, a: Id, b: Id)
    requires Reach(calls, a, b)
    ensures a in calls && b in calls
  {
    var k: nat :| Walk(calls, calls.Keys, k, a, b);
    WalkStart(calls, calls.Keys, k, a, b);
  }
}

/** Profile.prune_root and Profile.prune_leaf: keeping what a search from the roots, or back from the leaves, visits. */
module Prune {
  import opened Paths
  import opened Seqs
  import opened Profiles
  import opened Search

  /** The nodes called by each function. */
  ghost function Down(calls: Calls): Next {
    map f | f in calls :: SetOf(calls[f])
  }

  /** The functions calling each node. */
  ghost function Up(calls: Calls): Next {
    map n | n in calls :: set f | f in calls && n in calls[f]
  }

  /** Some start reaches v by calls. */
  ghost predicate ReachedFromSome(calls: Calls, starts: set<Id>, v: Id) {
    exists r :: r in starts && Reach(calls, r, v)
  }

  ghost predicate ReachedWithin(calls: Calls, starts: set<Id>, depth: int, v: Id) {
    exists r, k: nat :: r in starts && k <= depth && Walk(calls, calls.Keys, k, r, v)
  }

  /** v reaches some end by calls. */
  ghost predicate ReachesSome(calls: Calls, ends: set<Id>, v: Id) {
    exists l :: l in ends && Reach(calls, v, l)
  }

  ghost predicate ReachesWithin(calls: Calls, ends: set<Id>, depth: int, v: Id) {
    exists l, k: nat :: l in ends && k <= depth && Walk(calls, calls.Keys, k, v, l)
  }

  lemma {:induction false} DownChain(calls: Calls, starts: set<Id>, k: nat, v: Id)
    requires starts <= calls.Keys && Closed(calls)
    ensures Chain(Down(calls), starts, k, v) <==> exists r :: r in starts && Walk(calls, calls.Keys, k, r, v)
  {
    if k == 0 {
      if v in starts {
        assert Walk(calls, calls.Keys, 0, v, v);
      }
    } else {
      if Chain(Down(calls), starts, k, v) {
        var m :| Chain(Down(calls), starts, k - 1, m) && v in After(Down(calls), m);
        DownChain(calls, starts, k - 1, m);
        var r :| r in starts && Walk(calls, calls.Keys, k - 1, r, m);
        assert Edge(calls, m, v);
        assert Walk(calls, calls.Keys, k, r, v);
      }
      if r :| r in starts && Walk(calls, calls.Keys, k, r, v) {
        var m :| Walk(calls, calls.Keys, k - 1, r, m) && Edge(calls, m, v);
        DownChain(calls, starts, k - 1, m);
        assert v in After(Down(calls), m);
      }
    }
  }

  /** A step before a walk. */
  lemma StepBefore(calls: Calls, k: nat, a: Id, m: Id, b: Id)
    requires Edge(calls, a, m) && m in calls && Walk(calls, calls.Keys, k, m, b)
    ensures Walk(calls, calls.Keys, k + 1, a, b)
  {
    assert Walk(calls, calls.Keys, 0, a, a);
    assert Walk(calls, calls.Keys, 1, a, m);
    WalkConcat(calls, calls.Keys, 1, k, a, m, b);
  }

  /** The first step of a walk. */
  lemma {:induction false} FirstStep(calls: Calls, k: nat, a: Id, b: Id) returns (m: Id)
    requires Walk(calls, calls.Keys, k + 1, a, b)
    ensures Edge(calls, a, m) && Walk(calls, calls.Keys, k, m, b)
  {
    var x :| Walk(calls, calls.Keys, k, a, x) && Edge(calls, x, b);
    if k == 0 {
      m := b;
    } else {
      m := FirstStep(calls, k - 1, a, x);
      assert Walk(calls, calls.Keys, k, m, b);
    }
  }

  lemma {:induction false} UpChain(calls: Calls, ends: set<Id>, k: nat, v: Id)
    requires Closed(calls) && ends <= calls.Keys
    ensures Chain(Up(calls), ends, k, v) <==> exists l :: l in ends && Walk(calls, calls.Keys, k, v, l)
  {
    if k == 0 {
      if v in ends {
        assert Walk(calls, calls.Keys, 0, v, v);
      }
    } else {
      if Chain(Up(calls), ends, k, v) {
        var m :| Chain(Up(calls), ends, k - 1, m) && v in After(Up(calls), m);
        UpChain(calls, ends, k - 1, m);
        var l :| l in ends && Walk(calls, calls.Keys, k - 1, m, l);
        StepBefore(calls, k - 1, v, m, l);
      }
      if l :| l in ends && Walk(calls, calls.Keys, k, v, l) {
        var m := FirstStep(calls, k - 1, v, l);
        UpChain(calls, ends, k - 1, m);
        WalkStart(calls, calls.Keys, k - 1, m, l);
        WalkStart(calls, calls.Keys, k, v, l);
        assert v in After(Up(calls), m);
      }
    }
  }

  lemma DownFound(calls: Calls, starts: set<Id>, depth: int, v: Id)
    requires starts <= calls.Keys && Closed(calls)
    ensures Found(Down(calls), starts, v) <==> ReachedFromSome(calls, starts, v)
    ensures FoundWithin(Down(calls), starts, depth, v) <==> ReachedWithin(calls, starts, depth, v)
  {
    if k: nat :| Chain(Down(calls), starts, k, v) {
      DownChain(calls, starts, k, v);
    }
    if k: nat :| k <= depth && Chain(Down(calls), starts, k, v) {
      DownChain(calls, starts, k, v);
    }
    if r :| r in starts && Reach(calls, r, v) {
      var k: nat :| Walk(calls, calls.Keys, k, r, v);
      DownChain(calls, starts, k, v);
    }
    if r, k: nat :| r in starts && k <= depth && Walk(calls, calls.Keys, k, r, v) {
      DownChain(calls, starts, k, v);
    }
  }

  lemma UpFound(calls: Calls, ends: set<Id>, depth: int, v: Id)
    requires ends <= calls.Keys && Closed(calls)
    ensures Found(Up(calls), ends, v) <==> ReachesSome(calls, ends, v)
    ensures FoundWithin(Up(calls), ends, depth, v) <==> ReachesWithin(calls, ends, depth, v)
  {
    if k: nat :| Chain(Up(calls), ends, k, v) {
      UpChain(calls, ends, k, v);
    }
    if k: nat :| k <= depth && Chain(Up(calls), ends, k, v) {
      UpChain(calls, ends, k, v);
    }
    if l :| l in ends && Reach(calls, v, l) {
      var k: nat :| Walk(calls, calls.Keys, k, v, l);
      UpChain(calls, ends, k, v);
    }
    if l, k: nat :| l in ends && k <= depth && Walk(calls, calls.Keys, k, v, l) {
      UpChain(calls, ends, k, v);
    }
  }

  /** What a finished search from the starts has visited. */
  ghost predicate Visits(next: Next, starts: set<Id>, depth: int, all: set<Id>, visited: set<Id>) {
    && visited <= all
    && (0 <= depth ==> forall v :: v in visited ==> FoundWithin(next, starts, depth, v))
    && (depth < 0 || |all| - 1 <= depth ==> forall v :: v in visited <==> Found(next, starts, v))
    && (0 <= depth && (depth <= 1 || OneLength(next, starts, depth)) ==>
          forall v :: v in visited <==> FoundWithin(next, starts, depth, v))
    && starts <= visited
  }

  lemma EndVisits(next: Next, starts: set<Id>, depth: int, all: set<Id>, picks: seq<(Id, int)>)
    requires Complete(next, starts, depth, all, picks)
    ensures Visits(next, starts, depth, all, Run(next, starts, depth, picks).visited)
  {
    hide OneLength, Take, Legal;
    var s := Run(next, starts, depth, picks);
    RunInv(next, starts, depth, all, picks);
    if 0 <= depth && OneLength(next, starts, depth) {
      OneLengthMissesNothing(next, starts, depth, all, picks);
    }
    if depth < 0 || |all| - 1 <= depth {
      EndExact(next, starts, depth, all, s);
    }
    if 0 <= depth <= 1 {
      EndShallow(next, starts, depth, all, s);
    }
    forall v | v in starts
      ensures v in s.visited
    {
      assert v in s.visited || Queued(s, v);
    }
  }

  lemma DownInside(calls: Calls, n: Id)
    requires Closed(calls)
    ensures After(Down(calls), n) <= calls.Keys
    ensures n in calls ==> After(Down(calls), n) == SetOf(calls[n])
  {
    assert forall m :: m in After(Down(calls), n) ==> m in calls[n];
  }

  /** The search from the roots along the calls. The pair taken each time is arbitrary. */
  method VisitDown(calls: Calls, roots: set<Id>, depth: int) returns (visited: set<Id>, ghost picks: seq<(Id, int)>)
    requires Closed(calls) && roots <= calls.Keys
    ensures Visits(Down(calls), roots, depth, calls.Keys, visited)
    ensures Legal(Down(calls), roots, depth, picks) && Run(Down(calls), roots, depth, picks) == State({}, visited)
  {
    hide Inv, Down, Stale, Closed;
    ghost var next := Down(calls);
    visited, picks := {}, [];
    var frontier := set n | n in roots :: (n, depth);
    BeginInv(next, roots, depth, calls.Keys);
    forall n
      ensures After(next, n) <= calls.Keys
    {
      DownInside(calls, n);
    }
    while frontier != {}
      invariant Inv(next, roots, depth, calls.Keys, State(frontier, visited))
      invariant Legal(next, roots, depth, picks) && Run(next, roots, depth, picks) == State(frontier, visited)
      decreases calls.Keys - visited, Stale(State(frontier, visited))
    {
      var pick :| pick in frontier;
      ghost var s := State(frontier, visited);
      PickKnown(next, roots, depth, calls.Keys, s, pick);
      TakeInv(next, roots, depth, calls.Keys, s, pick);
      TakeEnds(next, calls.Keys, s, pick);
      assert (picks + [pick])[..|picks|] == picks;
      picks := picks + [pick];
      frontier := frontier - {pick};
      var node, nodeDepth := pick.0, pick.1;
      visited := visited + {node};
      if nodeDepth != 0 {
        DownInside(calls, node);
        var newNodes := SetOf(calls[node]) - visited;
        frontier := frontier + set newNode | newNode in newNodes :: (newNode, nodeDepth - 1);
      }
    }
    EndVisits(next, roots, depth, calls.Keys, picks);
  }

  lemma PickKnown(next: Next, starts: set<Id>, depth: int, all: set<Id>, s: State, pick: (Id, int))
    requires Inv(next, starts, depth, all, s) && pick in s.frontier
    ensures pick.0 in all && s.visited <= all
  {
    var (n, d) := pick;
    assert (n, d) in s.frontier;
  }

  /** The callers of every node, gathered from the calls of the first i functions and the first j calls of f. */
  ghost predicate Gathered(functions: seq<Id>, calls: Calls, i: nat, f: Id, j: nat, up: map<Id, set<Id>>)
    requires i <= |functions| && f in calls && j <= |calls[f]|
  {
    forall n, g :: g in After(up, n) <==> Meets(functions, calls, i, f, j, g, n)
  }

  ghost predicate Meets(functions: seq<Id>, calls: Calls, i: nat, f: Id, j: nat, g: Id, n: Id)
    requires i <= |functions| && f in calls && j <= |calls[f]|
  {
    (g in functions[..i] && Edge(calls, g, n)) || (g == f && n in calls[f][..j])
  }

  /** prune_leaf's edgesUp. */
  method CallersOf(functions: seq<Id>, calls: Calls) returns (up: map<Id, set<Id>>)
    requires calls.Keys == SetOf(functions)
    ensures forall n, g :: g in After(up, n) <==> Edge(calls, g, n)
  {
    up := map[];
    for i := 0 to |functions|
      invariant forall n, g :: g in After(up, n) <==> g in functions[..i] && Edge(calls, g, n)
    {
      var f := functions[i];
      assert f in SetOf(functions);
      assert functions[..i + 1] == functions[..i] + [f];
      up := AddCallers(functions, calls, i, f, up);
    }
    assert functions[..|functions|] == functions;
    assert forall g :: g in functions <==> g in SetOf(functions);
  }

  method AddCallers(ghost functions: seq<Id>, calls: Calls, ghost i: nat, f: Id, up0: map<Id, set<Id>>) returns (up: map<Id, set<Id>>)
    requires i <= |functions| && f in calls
    requires forall n, g :: g in After(up0, n) <==> g in functions[..i] && Edge(calls, g, n)
    ensures forall n, g :: g in After(up, n) <==> (g in functions[..i] || g == f) && Edge(calls, g, n)
  {
    up := up0;
    var callees := calls[f];
    assert Gathered(functions, calls, i, f, 0, up);
    for j := 0 to |callees|
      invariant Gathered(functions, calls, i, f, j, up)
    {
      var n := callees[j];
      ghost var up1 := up;
      up := up[n := After(up, n) + {f}];
      GatherOne(functions, calls, i, f, j, up1, up);
    }
    assert callees[..|callees|] == callees;
  }

  lemma GatherOne(functions: seq<Id>, calls: Calls, i: nat, f: Id, j: nat, up: map<Id, set<Id>>, up': map<Id, set<Id>>)
    requires i <= |functions| && f in calls && j < |calls[f]| && Gathered(functions, calls, i, f, j, up)
    requires up' == up[calls[f][j] := After(up, calls[f][j]) + {f}]
    ensures Gathered(functions, calls, i, f, j + 1, up')
  {
    assert calls[f][..j + 1] == calls[f][..j] + [calls[f][j]];
    assert forall n :: n in calls[f][..j + 1] <==> n in calls[f][..j] || n == calls[f][j];
    forall n, g
      ensures g in After(up', n) <==> Meets(functions, calls, i, f, j + 1, g, n)
    {
      assert g in After(up', n) <==> g in After(up, n) || (n == calls[f][j] && g == f);
    }
  }

  lemma UpInside(calls: Calls, n: Id)
    requires Closed(calls)
    ensures After(Up(calls), n) <= calls.Keys && (n !in calls ==> After(Up(calls), n) == {})
  {
  }

  lemma UpIs(calls: Calls, up: map<Id, set<Id>>, n: Id)
    requires Closed(calls) && forall m, g :: g in After(up, m) <==> Edge(calls, g, m)
    ensures After(up, n) == After(Up(calls), n)
  {
    forall g
      ensures g in After(up, n) <==> g in After(Up(calls), n)
    {
      assert Edge(calls, g, n) ==> n in calls && g in calls;
    }
  }

  /** What a state holds of the functions. */
  ghost function Within(s: State, keys: set<Id>): State {
    State((set pair | pair in s.frontier && pair.0 in keys), s.visited * keys)
  }

  /** Taking a pair of a function changes the functions' part of the state alone, taking any other pair the rest alone. */
  lemma TakeWithin(next: Next, keys: set<Id>, s: State, pick: (Id, int))
    requires forall n :: After(next, n) <= keys && (n !in keys ==> After(next, n) == {})
    ensures Within(Take(next, s, pick), keys) == if pick.0 in keys then Take(next, Within(s, keys), pick) else Within(s, keys)
  {
    var news := After(next, pick.0) - (s.visited + {pick.0});
    if pick.0 in keys {
      assert news == After(next, pick.0) - (s.visited * keys + {pick.0});
    } else {
      assert news == {};
    }
  }

  /** Of a run from any leaves the functions see a run from those leaves that are functions. */
  lemma {:induction false} RunWithin(next: Next, leafs: set<Id>, depth: int, keys: set<Id>, picks: seq<(Id, int)>)
    returns (inner: seq<(Id, int)>)
    requires forall n :: After(next, n) <= keys && (n !in keys ==> After(next, n) == {})
    requires Legal(next, leafs, depth, picks)
    ensures Legal(next, leafs * keys, depth, inner)
    ensures Run(next, leafs * keys, depth, inner) == Within(Run(next, leafs, depth, picks), keys)
  {
    hide Take;
    inner := [];
    if picks == [] {
      assert Begin(leafs * keys, depth) == Within(Begin(leafs, depth), keys);
    } else {
      var before, pick := picks[..|picks| - 1], picks[|picks| - 1];
      inner := RunWithin(next, leafs, depth, keys, before);
      TakeWithin(next, keys, Run(next, leafs, depth, before), pick);
      if pick.0 in keys {
        assert (inner + [pick])[..|inner|] == inner;
        inner := inner + [pick];
      }
    }
  }

  /** A finished search from any leaves has visited what one from the leaves that are functions visits, and the others. */
  lemma EndVisitsWithin(calls: Calls, leafs: set<Id>, depth: int, picks: seq<(Id, int)>)
    requires Closed(calls) && Legal(Up(calls), leafs, depth, picks) && Run(Up(calls), leafs, depth, picks).frontier == {}
    ensures Visits(Up(calls), leafs * calls.Keys, depth, calls.Keys, Run(Up(calls), leafs, depth, picks).visited * calls.Keys)
  {
    hide Up, Visits, Run, Legal, Closed;
    forall n
      ensures After(Up(calls), n) <= calls.Keys && (n !in calls ==> After(Up(calls), n) == {})
    {
      UpInside(calls, n);
    }
    var inner := RunWithin(Up(calls), leafs, depth, calls.Keys, picks);
    EndVisits(Up(calls), leafs * calls.Keys, depth, calls.Keys, inner);
  }

  /** The search from the leaves back along the calls. A leaf that is no function has no callers. */
  method VisitUp(functions: seq<Id>, calls: Calls, leafs: set<Id>, depth: int) returns (visited: set<Id>, ghost picks: seq<(Id, int)>)
    requires Closed(calls) && calls.Keys == SetOf(functions)
    ensures Visits(Up(calls), leafs * calls.Keys, depth, calls.Keys, visited * calls.Keys)
    ensures Legal(Up(calls), leafs, depth, picks) && Run(Up(calls), leafs, depth, picks) == State({}, visited)
  {
    hide Up, Stale, Closed, Visits;
    var edgesUp := CallersOf(functions, calls);
    ghost var next, all := Up(calls), calls.Keys + leafs;
    visited, picks := {}, [];
    var frontier := set n | n in leafs :: (n, depth);
    forall n
      ensures After(next, n) <= calls.Keys && After(edgesUp, n) == After(next, n)
    {
      UpInside(calls, n);
      UpIs(calls, edgesUp, n);
    }
    while frontier != {}
      invariant visited <= all && forall pair :: pair in frontier ==> pair.0 in all
      invariant Legal(next, leafs, depth, picks) && Run(next, leafs, depth, picks) == State(frontier, visited)
      decreases all - visited, Stale(State(frontier, visited))
    {
      var pick :| pick in frontier;
      ghost var s := State(frontier, visited);
      TakeEnds(next, all, s, pick);
      assert (picks + [pick])[..|picks|] == picks;
      picks := picks + [pick];
      frontier := frontier - {pick};
      var node, nodeDepth := pick.0, pick.1;
      visited := visited + {node};
      if nodeDepth != 0 {
        var newNodes := After(edgesUp, node) - visited;
        frontier := frontier + set newNode | newNode in newNodes :: (newNode, nodeDepth - 1);
      }
    }
    EndVisitsWithin(calls, leafs, depth, picks);
  }

  /** The profile cut down to `kept`: these functions, and the calls between them. */
  ghost predicate CutTo(functions: seq<Id>, calls: Calls, calls0: Calls, kept: set<Id>) {
    && NoDup(functions) && SetOf(functions) == kept && calls.Keys == kept
    && (forall f :: f in kept && f in calls0 && f in calls ==> calls[f] == Kept(calls0[f], kept))
  }

  /** The functions of `kept`, in any order, each with its calls into `kept`. */
  method CutDown(p: Profile, kept: set<Id>)
    requires p.Shaped() && kept <= p.calls.Keys
    modifies p`functions, p`calls
    ensures p.Shaped() && Closed(p.calls) && CutTo(p.functions, p.calls, old(p.calls), kept)
  {
    var functions: seq<Id> := [];
    var calls: Calls := map[];
    var all := p.calls;
    var todo := kept;
    while todo != {}
      invariant todo <= kept && NoDup(functions) && SetOf(functions) == kept - todo == calls.Keys
      invariant forall f :: f in calls ==> f in all && calls[f] == Kept(all[f], kept)
    {
      var n :| n in todo;
      SetOfPlus(functions, [n]);
      functions := functions + [n];
      var newCalls := [];
      var callees := all[n];
      for j := 0 to |callees|
        invariant newCalls == Kept(callees[..j], kept)
      {
        assert callees[..j + 1] == callees[..j] + [callees[j]];
        if callees[j] in kept {
          newCalls := newCalls + [callees[j]];
        }
      }
      assert callees[..|callees|] == callees;
      calls := calls[n := newCalls];
      todo := todo - {n};
    }
    p.functions, p.calls := functions, calls;
  }

  /**
    * Without a depth limit, or with one that no simple chain of calls can exceed, exactly what the
    * roots reach is kept; with any limit nothing is kept that is not within it, and exactly what is
    * within it if it is at most one, or if within it all chains to one function have one length.
    */
  method PruneRoot(p: Profile, roots: set<Id>, depth: int) returns (ghost kept: set<Id>)
    requires p.Shaped() && Closed(p.calls) && roots <= p.calls.Keys
    modifies p`functions, p`calls
    ensures p.Shaped() && Closed(p.calls) && CutTo(p.functions, p.calls, old(p.calls), kept)
    ensures roots <= kept <= old(p.calls).Keys
    ensures depth < 0 || |old(p.calls).Keys| - 1 <= depth ==> forall f :: f in kept <==> ReachedFromSome(old(p.calls), roots, f)
    ensures 0 <= depth ==> forall f :: f in kept ==> ReachedWithin(old(p.calls), roots, depth, f)
    ensures 0 <= depth && (depth <= 1 || OneLength(Down(old(p.calls)), roots, depth)) ==>
      forall f :: f in kept <==> ReachedWithin(old(p.calls), roots, depth, f)
  {
    ghost var calls := p.calls;
    var visited, picks := VisitDown(p.calls, roots, depth);
    kept := visited;
    CutDown(p, visited);
    forall f
      ensures Found(Down(calls), roots, f) <==> ReachedFromSome(calls, roots, f)
      ensures FoundWithin(Down(calls), roots, depth, f) <==> ReachedWithin(calls, roots, depth, f)
    {
      DownFound(calls, roots, depth, f);
    }
  }

  lemma LeafsWithin(calls: Calls, leafs: set<Id>, depth: int, f: Id)
    ensures ReachesSome(calls, leafs * calls.Keys, f) <==> ReachesSome(calls, leafs, f)
    ensures ReachesWithin(calls, leafs * calls.Keys, depth, f) <==> ReachesWithin(calls, leafs, depth, f)
  {
    forall k: nat, l | l in leafs && Walk(calls, calls.Keys, k, f, l)
      ensures l in leafs * calls.Keys
    {
      WalkEnd(calls, k, f, l);
    }
  }

  /** The same from the leaves, back along the calls. Leaves that are no functions make no difference. */
  method PruneLeaf(p: Profile, leafs: set<Id>, depth: int) returns (ghost kept: set<Id>)
    requires p.Shaped() && Closed(p.calls)
    modifies p`functions, p`calls
    ensures p.Shaped() && Closed(p.calls) && CutTo(p.functions, p.calls, old(p.calls), kept)
    ensures leafs * old(p.calls).Keys <= kept <= old(p.calls).Keys
    ensures depth < 0 || |old(p.calls).Keys| - 1 <= depth ==> forall f :: f in kept <==> ReachesSome(old(p.calls), leafs, f)
    ensures 0 <= depth ==> forall f :: f in kept ==> ReachesWithin(old(p.calls), leafs, depth, f)
    ensures 0 <= depth && (depth <= 1 || OneLength(Up(old(p.calls)), leafs * old(p.calls).Keys, depth)) ==>
      forall f :: f in kept <==> ReachesWithin(old(p.calls), leafs, depth, f)
  {
    ghost var calls, inside := p.calls, leafs * p.calls.Keys;
    var upTree, picks := VisitUp(p.functions, p.calls, leafs, depth);
    var downTree := SetOf(p.functions);
    kept := downTree * upTree;
    assert kept == upTree * calls.Keys;
    CutDown(p, downTree * upTree);
    forall f
      ensures Found(Up(calls), inside, f) <==> ReachesSome(calls, leafs, f)
      ensures FoundWithin(Up(calls), inside, depth, f) <==> ReachesWithin(calls, leafs, depth, f)
    {
      UpFound(calls, inside, depth, f);
      LeafsWithin(calls, leafs, depth, f);
    }
  }

  lemma CutEdges(functions: seq<Id>, calls: Calls, calls0: Calls, kept: set<Id>)
    requires CutTo(functions, calls, calls0, kept) && kept <= calls0.Keys
    ensures forall u, v :: Edge(calls, u, v) <==> Edge(calls0, u, v) && u in kept && v in kept
    ensures calls.Keys == kept && SetOf(functions) == kept
  {
  }

  lemma {:induction false} CutWalk(calls: Calls, calls0: Calls, k: nat, a: Id, b: Id)
    requires Walk(calls, calls.Keys, k, a, b) && calls.Keys <= calls0.Keys
    requires forall u, v :: Edge(calls, u, v) ==> Edge(calls0, u, v)
    ensures Walk(calls0, calls0.Keys, k, a, b)
  {
    if k > 0 {
      var m :| Walk(calls, calls.Keys, k - 1, a, m) && Edge(calls, m, b);
      CutWalk(calls, calls0, k - 1, a, m);
    }
  }

  /** A walk from a kept function stays among what is kept, when that is closed under calls. */
  lemma {:induction false} WalkKept(calls: Calls, calls0: Calls, k: nat, a: Id, b: Id)
    requires Walk(calls0, calls0.Keys, k, a, b) && a in calls
    requires forall u, v :: Edge(calls0, u, v) && u in calls ==> v in calls && Edge(calls, u, v)
    ensures Walk(calls, calls.Keys, k, a, b)
  {
    if k > 0 {
      var m :| Walk(calls0, calls0.Keys, k - 1, a, m) && Edge(calls0, m, b);
      WalkKept(calls, calls0, k - 1, a, m);
      WalkEnd(calls, k - 1, a, m);
    }
  }

  lemma WalkEnd(calls: Calls, k: nat, a: Id, b: Id)
    requires Walk(calls, calls.Keys, k, a, b)
    ensures b in calls
  {
  }

  /** After pruning to what the roots reach, what reaches a leaf is what reached it before. */
  lemma LeavesAsBefore(calls: Calls, calls0: Calls, roots: set<Id>, leafs: set<Id>, f: Id)
    requires Closed(calls0) && roots <= calls0.Keys && calls.Keys <= calls0.Keys
    requires forall g :: g in calls <==> ReachedFromSome(calls0, roots, g)
    requires forall u, v :: Edge(calls, u, v) <==> Edge(calls0, u, v) && u in calls && v in calls
    ensures ReachesSome(calls, leafs, f) <==> f in calls && ReachesSome(calls0, leafs, f)
  {
    if ReachesSome(calls, leafs, f) {
      var l :| l in leafs && Reach(calls, f, l);
      var k: nat :| Walk(calls, calls.Keys, k, f, l);
      CutWalk(calls, calls0, k, f, l);
      WalkStart(calls, calls.Keys, k, f, l);
      assert Reach(calls0, f, l);
    }
    if f in calls && ReachesSome(calls0, leafs, f) {
      var l :| l in leafs && Reach(calls0, f, l);
      var k: nat :| Walk(calls0, calls0.Keys, k, f, l);
      forall u, v | Edge(calls0, u, v) && u in calls
        ensures v in calls && Edge(calls, u, v)
      {
        var r :| r in roots && Reach(calls0, r, u);
        ReachStep(calls0, r, u, v);
        assert ReachedFromSome(calls0, roots, v);
      }
      WalkKept(calls, calls0, k, f, l);
      assert Reach(calls, f, l);
    }
  }

  /** Root, then leaf: exactly the functions between some root and some leaf stay, with the calls among them. */
  method PruneRootThenLeaf(p: Profile, roots: set<Id>, leafs: set<Id>)
    requires p.Shaped() && Closed(p.calls) && roots <= p.calls.Keys
    modifies p`functions, p`calls
    ensures p.Shaped() && Closed(p.calls)
    ensures forall f :: f in p.functions <==> ReachedFromSome(old(p.calls), roots, f) && ReachesSome(old(p.calls), leafs, f)
    ensures forall u, v :: Edge(p.calls, u, v) <==> Edge(old(p.calls), u, v) && u in p.functions && v in p.functions
  {
    hide ReachedFromSome, ReachesSome, CutTo, Closed, Edge, Profile.Shaped;
    ghost var calls0 := p.calls;
    var kept := PruneRoot(p, roots, -1);
    ghost var calls1 := p.calls;
    CutEdges(p.functions, calls1, calls0, kept);
    var kept' := PruneLeaf(p, leafs, -1);
    CutEdges(p.functions, p.calls, calls1, kept');
    forall f
      ensures f in SetOf(p.functions) <==> ReachedFromSome(calls0, roots, f) && ReachesSome(calls0, leafs, f)
    {
      LeavesAsBefore(calls1, calls0, roots, leafs, f);
    }
    assert forall f :: f in p.functions <==> f in SetOf(p.functions);
  }
}

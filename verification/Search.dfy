/** The worklist search shared by prune_root and prune_leaf: pairs of a node and the depth left, in any order. */
module Search {
  import opened Paths

  /** The nodes one step further. */
  type Next = map<Id, set<Id>>

  function After(next: Next, n: Id): set<Id> {
    if n in next then next[n] else {}
  }

  /** Some start leads to v in exactly k steps. */
  ghost predicate Chain(next: Next, starts: set<Id>, k: nat, v: Id) {
    if k == 0 then v in starts
    else exists m :: Chain(next, starts, k - 1, m) && v in After(next, m)
  }

  ghost predicate Found(next: Next, starts: set<Id>, v: Id) {
    exists k: nat :: Chain(next, starts, k, v)
  }

  ghost predicate FoundWithin(next: Next, starts: set<Id>, depth: int, v: Id) {
    exists k: nat :: k <= depth && Chain(next, starts, k, v)
  }

  datatype State = State(frontier: set<(Id, int)>, visited: set<Id>)

  function Begin(starts: set<Id>, depth: int): State {
    State(set n | n in starts :: (n, depth), {})
  }

  /** Taking one pair from the frontier. */
  function Take(next: Next, s: State, pick: (Id, int)): State {
    var visited := s.visited + {pick.0};
    var rest := s.frontier - {pick};
    if pick.1 == 0 then State(rest, visited)
    else State(rest + set n | n in After(next, pick.0) - visited :: (n, pick.1 - 1), visited)
  }

  /** The state after taking `picks` in order, each of them from the frontier of its time. */
  ghost function Run(next: Next, starts: set<Id>, depth: int, picks: seq<(Id, int)>): State {
    if picks == [] then Begin(starts, depth)
    else Take(next, Run(next, starts, depth, picks[..|picks| - 1]), picks[|picks| - 1])
  }

  ghost predicate Legal(next: Next, starts: set<Id>, depth: int, picks: seq<(Id, int)>) {
    picks == [] ||
    (Legal(next, starts, depth, picks[..|picks| - 1]) &&
     picks[|picks| - 1] in Run(next, starts, depth, picks[..|picks| - 1]).frontier)
  }

  /** A pair in the frontier stands for a chain, over distinct nodes visited before. */
  ghost predicate Standing(next: Next, starts: set<Id>, depth: int, visited: set<Id>, n: Id, d: int) {
    exists k: nat, A: set<Id> :: Stands(next, starts, depth, visited, n, d, k, A)
  }

  ghost predicate Stands(next: Next, starts: set<Id>, depth: int, visited: set<Id>, n: Id, d: int, k: nat, A: set<Id>) {
    && d == depth - k && (0 <= depth ==> 0 <= d)
    && Chain(next, starts, k, n)
    && A <= visited && |A| == k && n !in A
  }

  ghost predicate Queued(s: State, n: Id) {
    exists d :: (n, d) in s.frontier
  }

  /** n was expanded or will be: each node after it is visited or queued. */
  ghost predicate Covered(next: Next, s: State, n: Id) {
    forall m :: m in After(next, n) ==> m in s.visited || Queued(s, m)
  }

  /** What every run keeps. `all` is the set of all nodes. */
  ghost predicate Inv(next: Next, starts: set<Id>, depth: int, all: set<Id>, s: State) {
    && s.visited <= all
    && (forall n, d :: (n, d) in s.frontier ==> n in all && Standing(next, starts, depth, s.visited, n, d))
    && (forall v :: v in s.visited ==> if depth < 0 then Found(next, starts, v) else FoundWithin(next, starts, depth, v))
    && (forall v :: v in starts ==> v in s.visited || Queued(s, v))
    && (depth < 0 ==> forall v :: v in s.visited ==> Covered(next, s, v))
    && (1 <= depth ==> forall v :: v in starts ==> (v, depth) in s.frontier || Covered(next, s, v))
    && (|all| - 1 <= depth ==> s.visited == all || forall v :: v in s.visited ==> Covered(next, s, v))
  }

  lemma BeginInv(next: Next, starts: set<Id>, depth: int, all: set<Id>)
    requires starts <= all
    ensures Inv(next, starts, depth, all, Begin(starts, depth))
  {
    var s := Begin(starts, depth);
    forall n, d | (n, d) in s.frontier
      ensures Standing(next, starts, depth, s.visited, n, d)
    {
      assert Stands(next, starts, depth, s.visited, n, d, 0, {});
    }
    forall v | v in starts
      ensures Queued(s, v)
    {
      assert (v, depth) in s.frontier;
    }
  }

  lemma SizeOf<T>(a: set<T>, b: set<T>)
    requires a <= b
    ensures |a| <= |b|
    ensures |a| == |b| ==> a == b
  {
    assert b == a + (b - a);
    assert |b| == |a| + |b - a|;
  }

  /** Taking a pair: everything else in the frontier still stands, and the new pairs stand one step further. */
  lemma TakeStanding(next: Next, starts: set<Id>, depth: int, s: State, pick: (Id, int), n: Id, d: int)
    requires pick in s.frontier && Standing(next, starts, depth, s.visited, pick.0, pick.1)
    requires (n, d) in s.frontier ==> Standing(next, starts, depth, s.visited, n, d)
    requires (n, d) in Take(next, s, pick).frontier
    ensures Standing(next, starts, depth, Take(next, s, pick).visited, n, d)
  {
    var visited := Take(next, s, pick).visited;
    if (n, d) in s.frontier {
      var k: nat, A :| Stands(next, starts, depth, s.visited, n, d, k, A);
      assert Stands(next, starts, depth, visited, n, d, k, A);
    } else {
      var k: nat, A :| Stands(next, starts, depth, s.visited, pick.0, pick.1, k, A);
      assert Chain(next, starts, k + 1, n);
      assert Stands(next, starts, depth, visited, n, d, k + 1, A + {pick.0});
    }
  }

  lemma TakeQueued(next: Next, s: State, pick: (Id, int), m: Id)
    requires m in s.visited || Queued(s, m)
    ensures m in Take(next, s, pick).visited || Queued(Take(next, s, pick), m)
  {
    var t := Take(next, s, pick);
    if m !in t.visited {
      var d :| (m, d) in s.frontier;
      assert (m, d) in t.frontier;
    }
  }

  /** The picked node is covered once it is expanded. */
  lemma TakeCovers(next: Next, s: State, pick: (Id, int))
    requires pick.1 != 0
    ensures Covered(next, Take(next, s, pick), pick.0)
  {
    var t := Take(next, s, pick);
    forall m | m in After(next, pick.0)
      ensures m in t.visited || Queued(t, m)
    {
      if m !in t.visited {
        assert m in After(next, pick.0) - (s.visited + {pick.0});
        assert (m, pick.1 - 1) in t.frontier;
      }
    }
  }

  /** A node taken with no depth left closes a chain through as many nodes as the depth, and itself. */
  lemma LastStep(next: Next, starts: set<Id>, depth: int, all: set<Id>, s: State, pick: (Id, int))
    requires s.visited <= all && pick.0 in all && |all| - 1 <= depth && pick.1 == 0
    requires Standing(next, starts, depth, s.visited, pick.0, pick.1)
    ensures s.visited + {pick.0} == all
  {
    var k: nat, A :| Stands(next, starts, depth, s.visited, pick.0, pick.1, k, A);
    assert |A + {pick.0}| == k + 1;
    SizeOf(A + {pick.0}, all);
  }

  lemma TakeFrontier(next: Next, starts: set<Id>, depth: int, all: set<Id>, s: State, pick: (Id, int))
    requires Inv(next, starts, depth, all, s) && pick in s.frontier
    requires forall n :: After(next, n) <= all
    ensures var t := Take(next, s, pick);
            && pick.0 in all && Standing(next, starts, depth, s.visited, pick.0, pick.1)
            && forall n, d :: (n, d) in t.frontier ==> n in all && Standing(next, starts, depth, t.visited, n, d)
  {
    var t := Take(next, s, pick);
    var (n0, d0) := pick;
    assert (n0, d0) in s.frontier;
    forall n, d | (n, d) in t.frontier
      ensures n in all && Standing(next, starts, depth, t.visited, n, d)
    {
      TakeStanding(next, starts, depth, s, pick, n, d);
    }
  }

  lemma TakeFound(next: Next, starts: set<Id>, depth: int, visited: set<Id>, n: Id, d: int)
    requires Standing(next, starts, depth, visited, n, d)
    ensures if depth < 0 then Found(next, starts, n) else FoundWithin(next, starts, depth, n)
  {
    var k: nat, A :| Stands(next, starts, depth, visited, n, d, k, A);
    assert Chain(next, starts, k, n);
  }

  /** What was covered stays covered, and so does the picked node unless no depth is left. */
  lemma TakeCovered(next: Next, s: State, pick: (Id, int), v: Id)
    requires Covered(next, s, v) || (v == pick.0 && pick.1 != 0)
    ensures Covered(next, Take(next, s, pick), v)
  {
    if Covered(next, s, v) {
      forall m | m in After(next, v)
        ensures m in Take(next, s, pick).visited || Queued(Take(next, s, pick), m)
      {
        TakeQueued(next, s, pick, m);
      }
    } else {
      TakeCovers(next, s, pick);
    }
  }

  lemma TakeInv(next: Next, starts: set<Id>, depth: int, all: set<Id>, s: State, pick: (Id, int))
    requires Inv(next, starts, depth, all, s) && pick in s.frontier
    requires forall n :: After(next, n) <= all
    ensures Inv(next, starts, depth, all, Take(next, s, pick))
  {
    hide Standing, Queued, Covered, Found, FoundWithin;
    var t := Take(next, s, pick);
    TakeFrontier(next, starts, depth, all, s, pick);
    TakeFound(next, starts, depth, s.visited, pick.0, pick.1);
    NoDepthLeft(next, starts, depth, s.visited, pick.0, pick.1);
    forall v | v in starts
      ensures v in t.visited || Queued(t, v)
    {
      TakeQueued(next, s, pick, v);
    }
    forall v | Covered(next, s, v) || (v == pick.0 && pick.1 != 0)
      ensures Covered(next, t, v)
    {
      TakeCovered(next, s, pick, v);
    }
    if |all| - 1 <= depth && pick.1 == 0 {
      LastStep(next, starts, depth, all, s, pick);
    }
  }

  lemma NoDepthLeft(next: Next, starts: set<Id>, depth: int, visited: set<Id>, n: Id, d: int)
    requires Standing(next, starts, depth, visited, n, d)
    ensures depth < 0 ==> d != 0
  {
  }

  /** With the frontier empty, a search that never cut off has found everything. */
  lemma EndExact(next: Next, starts: set<Id>, depth: int, all: set<Id>, s: State)
    requires Inv(next, starts, depth, all, s) && s.frontier == {} && starts <= all
    requires forall n :: After(next, n) <= all
    requires depth < 0 || |all| - 1 <= depth
    ensures forall v :: v in s.visited <==> Found(next, starts, v)
  {
    forall v | Found(next, starts, v)
      ensures v in s.visited
    {
      var k: nat :| Chain(next, starts, k, v);
      if s.visited == all {
        ChainIn(next, starts, all, k, v);
      } else {
        assert forall u, m :: u in s.visited && m in After(next, u) ==> m in s.visited by {
          forall u, m | u in s.visited && m in After(next, u)
            ensures m in s.visited
          {
            assert Covered(next, s, u);
          }
        }
        ChainIn(next, starts, s.visited, k, v);
      }
    }
    forall v | v in s.visited
      ensures Found(next, starts, v)
    {
      if 0 <= depth {
        var k: nat :| k <= depth && Chain(next, starts, k, v);
      }
    }
  }

  /** A limit of zero or one misses nothing: every start is expanded with its full depth left. */
  lemma EndShallow(next: Next, starts: set<Id>, depth: int, all: set<Id>, s: State)
    requires Inv(next, starts, depth, all, s) && s.frontier == {} && 0 <= depth <= 1
    ensures forall v :: v in s.visited <==> FoundWithin(next, starts, depth, v)
  {
    forall v | FoundWithin(next, starts, depth, v)
      ensures v in s.visited
    {
      var k: nat :| k <= depth && Chain(next, starts, k, v);
      if k == 0 {
        assert v in s.visited || Queued(s, v);
      } else {
        var m :| Chain(next, starts, k - 1, m) && v in After(next, m);
        assert (m, depth) in s.frontier || Covered(next, s, m);
        assert v in s.visited || Queued(s, v);
      }
    }
  }

  // A limit of two or more can miss nodes: a line from one root visits a node with no depth left
  // before the other root, which calls it directly, is taken.

  function Node(i: nat): Id {
    Id(seq(i, _ => 'n'))
  }

  lemma NodesDiffer(i: nat, j: nat)
    ensures Node(i) == Node(j) ==> i == j
    ensures Node(i) != Id("r") && Node(i) != Id("b")
  {
    assert |Node(i).key| == i && |Node(j).key| == j;
    if i == 1 {
      assert Node(i).key[0] == 'n';
    }
  }

  /** The line of nodes 0 to k. */
  function Line(k: nat): Next {
    if k == 0 then map[] else Line(k - 1)[Node(k - 1) := {Node(k)}]
  }

  /** The line to node d, which leads to b; the second root r leads to node d directly. */
  function Detour(d: nat): Next {
    Line(d)[Node(d) := {Id("b")}][Id("r") := {Node(d)}]
  }

  lemma {:induction false} LineAfter(k: nat, i: nat)
    ensures After(Line(k), Node(i)) == if i < k then {Node(i + 1)} else {}
  {
    if k > 0 {
      LineAfter(k - 1, i);
      NodesDiffer(k - 1, i);
    }
  }

  lemma DetourAfter(d: nat, i: nat)
    ensures i < d ==> After(Detour(d), Node(i)) == {Node(i + 1)}
    ensures After(Detour(d), Node(d)) == {Id("b")}
    ensures After(Detour(d), Id("r")) == {Node(d)}
  {
    LineAfter(d, i);
    NodesDiffer(i, d);
    NodesDiffer(d, d);
  }

  function FirstNodes(k: nat): set<Id> {
    set i: nat | i < k :: Node(i)
  }

  /** The first k nodes of the line, taken one after the other. */
  function Straight(d: nat, k: nat): seq<(Id, int)>
    requires k <= d + 1
  {
    if k == 0 then [] else Straight(d, k - 1) + [(Node(k - 1), d - (k - 1))]
  }

  /** The frontier when the first k nodes have been taken. */
  function Ahead(d: nat, k: nat): set<(Id, int)> {
    if k <= d then {(Node(k), d - k), (Id("r"), d)} else {(Id("r"), d)}
  }

  lemma StraightTake(d: nat, k: nat)
    requires 0 < k <= d + 1
    ensures (Node(k - 1), d - (k - 1)) in Ahead(d, k - 1)
    ensures Take(Detour(d), State(Ahead(d, k - 1), FirstNodes(k - 1)), (Node(k - 1), d - (k - 1))) ==
            State(Ahead(d, k), FirstNodes(k))
  {
    hide Detour, FirstNodes, Node;
    NodesDiffer(k - 1, k);
    DetourAfter(d, k - 1);
    FirstNodesStep(k);
    if k <= d {
      var news := After(Detour(d), Node(k - 1)) - FirstNodes(k);
      assert news == {Node(k)};
      assert (set n | n in news :: (n, d - k)) == {(Node(k), d - k)};
    }
  }

  lemma {:induction false} StraightRun(d: nat, k: nat)
    requires k <= d + 1
    ensures var starts := {Node(0), Id("r")};
            && Legal(Detour(d), starts, d, Straight(d, k))
            && Run(Detour(d), starts, d, Straight(d, k)) == State(Ahead(d, k), FirstNodes(k))
  {
    hide Detour, Take, Node;
    var starts := {Node(0), Id("r")};
    if k == 0 {
      assert Begin(starts, d).frontier == {(Node(0), d), (Id("r"), d)};
    } else {
      StraightRun(d, k - 1);
      var picks := Straight(d, k);
      assert picks[..|picks| - 1] == Straight(d, k - 1) && picks[|picks| - 1] == (Node(k - 1), d - (k - 1));
      StraightTake(d, k);
    }
  }

  lemma FirstNodesStep(k: nat)
    requires k > 0
    ensures FirstNodes(k) == FirstNodes(k - 1) + {Node(k - 1)}
    ensures Node(k) !in FirstNodes(k) && Id("r") !in FirstNodes(k) && Id("b") !in FirstNodes(k)
    ensures forall i :: 0 <= i < k ==> Node(i) in FirstNodes(k)
  {
    forall i: nat | i < k
      ensures Node(i) != Node(k) && Node(i) != Id("r") && Node(i) != Id("b")
    {
      NodesDiffer(i, k);
    }
  }

  /** For every limit from two on there is a graph and a complete run that misses a node two steps away. */
  lemma DeepMisses(d: nat) returns (picks: seq<(Id, int)>)
    requires 2 <= d
    ensures var starts := {Node(0), Id("r")};
            && Legal(Detour(d), starts, d, picks)
            && Run(Detour(d), starts, d, picks).frontier == {}
            && Id("b") !in Run(Detour(d), starts, d, picks).visited
            && FoundWithin(Detour(d), starts, d, Id("b"))
  {
    var starts := {Node(0), Id("r")};
    StraightRun(d, d + 1);
    FirstNodesStep(d + 1);
    DetourAfter(d, d);
    picks := Straight(d, d + 1) + [(Id("r"), d)];
    assert picks[..|picks| - 1] == Straight(d, d + 1);
    assert Chain(Detour(d), starts, 0, Id("r"));
    assert Chain(Detour(d), starts, 1, Node(d));
    assert Chain(Detour(d), starts, 2, Id("b"));
  }

  lemma {:induction false} ChainIn(next: Next, starts: set<Id>, X: set<Id>, k: nat, v: Id)
    requires Chain(next, starts, k, v) && starts <= X
    requires forall u, m :: u in X && m in After(next, u) ==> m in X
    ensures v in X
  {
    if k > 0 {
      var m :| Chain(next, starts, k - 1, m) && v in After(next, m);
      ChainIn(next, starts, X, k - 1, m);
    }
  }

  /**
    * The search ends, whatever pair is taken each time: either an unvisited node is visited, or a pair
    * of a visited node goes and only pairs of unvisited nodes come.
    */
  lemma TakeEnds(next: Next, all: set<Id>, s: State, pick: (Id, int))
    requires pick in s.frontier && pick.0 in all && s.visited <= all
    ensures var t := Take(next, s, pick);
            if pick.0 in s.visited then t.visited == s.visited && Stale(t) < Stale(s)
            else all - t.visited < all - s.visited
  {
    var t := Take(next, s, pick);
    if pick.0 in s.visited {
      assert t.visited == s.visited;
      assert pick in Stale(s) && pick !in Stale(t);
    } else {
      assert pick.0 in all - s.visited && pick.0 !in all - t.visited;
    }
  }

  /** The pairs whose node is already visited. */
  ghost function Stale(s: State): set<(Id, int)> {
    set pair | pair in s.frontier && pair.0 in s.visited
  }

  lemma {:induction false} RunInv(next: Next, starts: set<Id>, depth: int, all: set<Id>, picks: seq<(Id, int)>)
    requires Legal(next, starts, depth, picks) && starts <= all && forall n :: After(next, n) <= all
    ensures Inv(next, starts, depth, all, Run(next, starts, depth, picks))
  {
    if picks == [] {
      BeginInv(next, starts, depth, all);
    } else {
      var before := picks[..|picks| - 1];
      RunInv(next, starts, depth, all, before);
      TakeInv(next, starts, depth, all, Run(next, starts, depth, before), picks[|picks| - 1]);
    }
  }

  /** A run to the end over nodes that all lie in `all`. */
  ghost predicate Complete(next: Next, starts: set<Id>, depth: int, all: set<Id>, picks: seq<(Id, int)>) {
    && starts <= all && (forall n :: After(next, n) <= all)
    && Legal(next, starts, depth, picks) && Run(next, starts, depth, picks).frontier == {}
  }

  ghost predicate MissesNothing(next: Next, starts: set<Id>, depth: int, picks: seq<(Id, int)>) {
    forall v :: v in Run(next, starts, depth, picks).visited <==> FoundWithin(next, starts, depth, v)
  }

  /** All runs on all graphs visit exactly what is within the limit if and only if the limit is at most one. */
  lemma ExactIffShallow(depth: nat)
    ensures (forall next, starts, all, picks :: Complete(next, starts, depth, all, picks) ==> MissesNothing(next, starts, depth, picks))
            <==> depth <= 1
  {
    if depth <= 1 {
      forall next, starts, all, picks | Complete(next, starts, depth, all, picks)
        ensures MissesNothing(next, starts, depth, picks)
      {
        RunInv(next, starts, depth, all, picks);
        EndShallow(next, starts, depth, all, Run(next, starts, depth, picks));
      }
    } else {
      var picks := DeepMisses(depth);
      var starts := {Node(0), Id("r")};
      var all := FirstNodes(depth + 1) + {Id("r"), Id("b")};
      FirstNodesStep(depth + 1);
      forall n
        ensures After(Detour(depth), n) <= all
      {
        DetourInside(depth, n);
      }
      assert Complete(Detour(depth), starts, depth, all, picks);
      assert !MissesNothing(Detour(depth), starts, depth, picks);
    }
  }

  lemma {:induction false} LineInside(k: nat, n: Id)
    ensures After(Line(k), n) <= FirstNodes(k + 1)
  {
    if k > 0 {
      LineInside(k - 1, n);
      FirstNodesStep(k + 1);
      FirstNodesStep(k);
    }
  }

  lemma DetourInside(d: nat, n: Id)
    ensures After(Detour(d), n) <= FirstNodes(d + 1) + {Id("r"), Id("b")}
  {
    LineInside(d, n);
    FirstNodesStep(d + 1);
  }

  /** Within the limit, all chains that lead to one node have one length. */
  ghost predicate OneLength(next: Next, starts: set<Id>, depth: int) {
    forall j: nat, k: nat, v :: j <= depth && k <= depth && Chain(next, starts, j, v) && Chain(next, starts, k, v) ==> j == k
  }

  /** Every visited node that a chain below the limit leads to is covered. */
  ghost predicate Expanded(next: Next, starts: set<Id>, depth: int, s: State) {
    forall k: nat, v :: k < depth && Chain(next, starts, k, v) && v in s.visited ==> Covered(next, s, v)
  }

  /** With chains of one length a pair has depth left exactly when its node is below the limit. */
  lemma DepthLeft(next: Next, starts: set<Id>, depth: int, visited: set<Id>, n: Id, d: int, k: nat)
    requires OneLength(next, starts, depth) && Standing(next, starts, depth, visited, n, d)
    requires k < depth && Chain(next, starts, k, n)
    ensures d != 0
  {
    hide OneLength, Chain;
    var j: nat, A :| Stands(next, starts, depth, visited, n, d, j, A);
    if d == 0 {
      LengthsMeet(next, starts, depth, j, k, n);
    }
  }

  lemma LengthsMeet(next: Next, starts: set<Id>, depth: int, j: nat, k: nat, v: Id)
    requires OneLength(next, starts, depth) && j <= depth && k <= depth
    requires Chain(next, starts, j, v) && Chain(next, starts, k, v)
    ensures j == k
  {
    hide Chain;
  }

  lemma TakeExpanded(next: Next, starts: set<Id>, depth: int, s: State, pick: (Id, int))
    requires OneLength(next, starts, depth) && Expanded(next, starts, depth, s)
    requires Standing(next, starts, depth, s.visited, pick.0, pick.1)
    ensures Expanded(next, starts, depth, Take(next, s, pick))
  {
    hide OneLength, Standing, Chain, Covered;
    var t := Take(next, s, pick);
    forall k: nat, v | k < depth && Chain(next, starts, k, v) && v in t.visited
      ensures Covered(next, t, v)
    {
      if v == pick.0 {
        DepthLeft(next, starts, depth, s.visited, v, pick.1, k);
      }
      TakeCovered(next, s, pick, v);
    }
  }

  lemma {:induction false} RunExpanded(next: Next, starts: set<Id>, depth: int, all: set<Id>, picks: seq<(Id, int)>)
    requires Legal(next, starts, depth, picks) && starts <= all && forall n :: After(next, n) <= all
    requires OneLength(next, starts, depth)
    ensures Expanded(next, starts, depth, Run(next, starts, depth, picks))
  {
    hide OneLength, Standing, Take;
    if picks != [] {
      var before, pick := picks[..|picks| - 1], picks[|picks| - 1];
      RunExpanded(next, starts, depth, all, before);
      RunInv(next, starts, depth, all, before);
      TakeFrontier(next, starts, depth, all, Run(next, starts, depth, before), pick);
      TakeExpanded(next, starts, depth, Run(next, starts, depth, before), pick);
    }
  }

  lemma {:induction false} ExpandedFinds(next: Next, starts: set<Id>, depth: int, s: State, k: nat, v: Id)
    requires Expanded(next, starts, depth, s) && starts <= s.visited && s.frontier == {}
    requires k <= depth && Chain(next, starts, k, v)
    ensures v in s.visited
  {
    if k > 0 {
      var m :| Chain(next, starts, k - 1, m) && v in After(next, m);
      ExpandedFinds(next, starts, depth, s, k - 1, m);
      assert Covered(next, s, m);
    }
  }

  /** On such a graph no run misses anything, whatever the limit. */
  lemma OneLengthMissesNothing(next: Next, starts: set<Id>, depth: int, all: set<Id>, picks: seq<(Id, int)>)
    requires 0 <= depth && Complete(next, starts, depth, all, picks) && OneLength(next, starts, depth)
    ensures MissesNothing(next, starts, depth, picks)
  {
    hide OneLength, Expanded, Chain, Take;
    var s := Run(next, starts, depth, picks);
    RunInv(next, starts, depth, all, picks);
    RunExpanded(next, starts, depth, all, picks);
    forall v | v in starts
      ensures v in s.visited
    {
      assert v in s.visited || Queued(s, v);
    }
    forall v | FoundWithin(next, starts, depth, v)
      ensures v in s.visited
    {
      var k: nat :| k <= depth && Chain(next, starts, k, v);
      ExpandedFinds(next, starts, depth, s, k, v);
    }
  }
}

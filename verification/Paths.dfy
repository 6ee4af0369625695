/** Walks in a call graph, and the reachability they define. */
module Paths {
  /** Function ids are only ever compared. */
  datatype Id = Id(key: string)

  /** The calls of every function: function id to the ids it calls. */
  type Calls = map<Id, seq<Id>>

  /** A call, as caller and callee. */
  type Arrow = (Id, Id)

  /** Every callee is itself a function of the graph. */
  ghost predicate Closed(calls: Calls) {
    forall a, b :: a in calls && b in calls[a] ==> b in calls
  }

  ghost predicate Edge(calls: Calls, a: Id, b: Id) {
    a in calls && b in calls[a]
  }

  /** There is a walk of exactly k calls from a to b that stays inside S. */
  ghost predicate Walk(calls: Calls, S: set<Id>, k: nat, a: Id, b: Id) {
    b in S &&
    if k == 0 then a == b
    else exists m :: Walk(calls, S, k - 1, a, m) && Edge(calls, m, b)
  }

  ghost predicate ReachIn(calls: Calls, S: set<Id>, a: Id, b: Id) {
    exists k: nat :: Walk(calls, S, k, a, b)
  }

  ghost predicate Reach(calls: Calls, a: Id, b: Id) {
    ReachIn(calls, calls.Keys, a, b)
  }

  /** Each reaches the other: a and b are in one strongly connected component. */
  ghost predicate Mutual(calls: Calls, a: Id, b: Id) {
    Reach(calls, a, b) && Reach(calls, b, a)
  }

  lemma {:induction false} WalkConcat(calls: Calls, S: set<Id>, j: nat, k: nat, a: Id, b: Id, c: Id)
    requires Walk(calls, S, j, a, b) && Walk(calls, S, k, b, c)
    ensures Walk(calls, S, j + k, a, c)
  {
    if k > 0 {
      var m :| Walk(calls, S, k - 1, b, m) && Edge(calls, m, c);
      WalkConcat(calls, S, j, k - 1, a, b, m);
      assert Walk(calls, S, j + k - 1, a, m);
    }
  }

  lemma {:induction false} WalkStart(calls: Calls, S: set<Id>, k: nat, a: Id, b: Id)
    requires Walk(calls, S, k, a, b)
    ensures a in S
  {
    if k > 0 {
      var m :| Walk(calls, S, k - 1, a, m) && Edge(calls, m, b);
      WalkStart(calls, S, k - 1, a, m);
    }
  }

  /** A walk cannot leave a set that is closed under the calls inside S. */
  lemma {:induction false} WalkClosed(calls: Calls, S: set<Id>, X: set<Id>, k: nat, a: Id, b: Id)
    requires Walk(calls, S, k, a, b) && a in X
    requires forall u, v :: u in X && v in S && Edge(calls, u, v) ==> v in X
    ensures b in X
  {
    if k > 0 {
      var m :| Walk(calls, S, k - 1, a, m) && Edge(calls, m, b);
      WalkClosed(calls, S, X, k - 1, a, m);
    }
  }

  /** A walk to S stays in S when nothing reached from a calls into S from outside. */
  lemma {:induction false} WalkInside(calls: Calls, S: set<Id>, k: nat, a: Id, b: Id)
    requires Walk(calls, calls.Keys, k, a, b) && b in S
    requires forall u, v :: Edge(calls, u, v) && v in S && Reach(calls, a, u) ==> u in S
    ensures Walk(calls, S, k, a, b)
  {
    if k > 0 {
      var m :| Walk(calls, calls.Keys, k - 1, a, m) && Edge(calls, m, b);
      assert Reach(calls, a, m);
      WalkInside(calls, S, k - 1, a, m);
    }
  }

  lemma ReachRefl(calls: Calls, a: Id)
    requires a in calls
    ensures Reach(calls, a, a)
  {
    assert Walk(calls, calls.Keys, 0, a, a);
  }

  lemma ReachTrans(calls: Calls, a: Id, b: Id, c: Id)
    requires Reach(calls, a, b) && Reach(calls, b, c)
    ensures Reach(calls, a, c)
  {
    var j: nat :| Walk(calls, calls.Keys, j, a, b);
    var k: nat :| Walk(calls, calls.Keys, k, b, c);
    WalkConcat(calls, calls.Keys, j, k, a, b, c);
  }

  lemma ReachStep(calls: Calls, a: Id, b: Id, c: Id)
    requires Reach(calls, a, b) && Edge(calls, b, c) && c in calls
    ensures Reach(calls, a, c)
  {
    var j: nat :| Walk(calls, calls.Keys, j, a, b);
    assert Walk(calls, calls.Keys, j + 1, a, c);
  }

  lemma ReachEdge(calls: Calls, a: Id, b: Id)
    requires Edge(calls, a, b) && b in calls
    ensures Reach(calls, a, b)
  {
    ReachRefl(calls, a);
    ReachStep(calls, a, a, b);
  }

  lemma ReachClosed(calls: Calls, X: set<Id>, a: Id, b: Id)
    requires Reach(calls, a, b) && a in X
    requires forall u, v :: u in X && v in calls && Edge(calls, u, v) ==> v in X
    ensures b in X
  {
    var k: nat :| Walk(calls, calls.Keys, k, a, b);
    WalkClosed(calls, calls.Keys, X, k, a, b);
  }

  lemma MutualTrans(calls: Calls, a: Id, b: Id, c: Id)
    requires Mutual(calls, a, b) && Mutual(calls, b, c)
    ensures Mutual(calls, a, c)
  {
    ReachTrans(calls, a, b, c);
    ReachTrans(calls, c, b, a);
  }
}

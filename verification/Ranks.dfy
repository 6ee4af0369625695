/** Profile._rank_cycle_function: the distance of every member of a cycle from the one it is entered by. */
module Ranks {
  import opened Paths
  import opened Seqs

  type RankMap = map<Id, nat>

  /** The shortest walk from s to v inside C has k calls. */
  ghost predicate IsDistance(calls: Calls, C: set<Id>, s: Id, v: Id, k: nat) {
    Walk(calls, C, k, s, v) && forall j: nat :: j < k ==> !Walk(calls, C, j, s, v)
  }

  /** Every function that can be reached inside C has its distance, and nothing else has one. */
  ghost predicate Ranked(calls: Calls, C: set<Id>, s: Id, ranks: RankMap) {
    && (forall v :: v in ranks ==> IsDistance(calls, C, s, v, ranks[v]))
    && (forall v :: ReachIn(calls, C, s, v) ==> v in ranks)
  }

  lemma RanksUnique(calls: Calls, C: set<Id>, s: Id, r: RankMap, r': RankMap)
    requires Ranked(calls, C, s, r) && Ranked(calls, C, s, r')
    ensures r == r'
  {
    forall v
      ensures v in r <==> v in r'
      ensures v in r ==> r[v] == r'[v]
    {
      if v in r {
        assert Walk(calls, C, r[v], s, v);
      }
      if v in r' {
        assert Walk(calls, C, r'[v], s, v);
      }
    }
  }

  /** An entry of the source's heap. */
  datatype Item = Item(cost: nat, parent: Id, member: Id)

  /** What is known between two pops: all queued costs are `low` or one more, nothing visited is above it. */
  ghost predicate Searching(calls: Calls, C: set<Id>, s: Id, ranks: RankMap, Q: seq<Item>, visited: set<Id>, low: nat) {
    && s in visited && visited <= C && s in ranks && ranks[s] == 0
    && (forall i, j :: 0 <= i < j < |Q| ==> Q[i].member != Q[j].member)
    && (forall i :: 0 <= i < |Q| ==> Queued(ranks, visited, Q[i], low))
    && (forall v :: v in ranks ==> v in visited || HasEntry(Q, v))
    && (forall v :: v in visited ==> v in ranks && ranks[v] <= low)
    && (forall v :: v in ranks ==> ranks[v] <= low + 1 && Walk(calls, C, ranks[v], s, v))
  }

  ghost predicate HasEntry(Q: seq<Item>, v: Id) {
    exists i :: 0 <= i < |Q| && Q[i].member == v
  }

  ghost predicate Queued(ranks: RankMap, visited: set<Id>, item: Item, low: nat) {
    item.member in ranks && item.member !in visited && ranks[item.member] == item.cost && low <= item.cost <= low + 1
  }

  /** The callee of u has a rank at most one more than u's. */
  ghost predicate Near(C: set<Id>, ranks: RankMap, u: Id, v: Id) {
    v in C ==> u in ranks && v in ranks && ranks[v] <= ranks[u] + 1
  }

  ghost predicate Expanded(calls: Calls, C: set<Id>, ranks: RankMap, visited: set<Id>) {
    forall u, v :: u in visited && Edge(calls, u, v) ==> Near(C, ranks, u, v)
  }

  /** heapq.heappop: some entry of least cost leaves the queue. */
  method PopLeast(Q: seq<Item>) returns (item: Item, rest: seq<Item>, ghost at: nat)
    requires Q != []
    ensures at < |Q| && item == Q[at] && rest == Q[..at] + Q[at + 1..]
    ensures forall i :: 0 <= i < |Q| ==> item.cost <= Q[i].cost
  {
    var k := 0;
    for i := 1 to |Q|
      invariant k < |Q|
      invariant forall j :: 0 <= j < i ==> Q[k].cost <= Q[j].cost
    {
      if Q[i].cost < Q[k].cost {
        k := i;
      }
    }
    at := k;
    item, rest := Q[k], Q[..k] + Q[k + 1..];
  }

  lemma PoppedMember(calls: Calls, C: set<Id>, s: Id, ranks: RankMap, Q: seq<Item>, visited: set<Id>, low: nat, at: nat)
    requires Searching(calls, C, s, ranks, Q, visited, low) && at < |Q|
    ensures Q[at].member !in visited && Q[at].member in C
    ensures Queued(ranks, visited, Q[at], low)
  {
    assert Queued(ranks, visited, Q[at], low);
    assert Walk(calls, C, ranks[Q[at].member], s, Q[at].member);
  }

  /** All entries but one still have members of their own. */
  lemma RestMembers(Q: seq<Item>, at: nat)
    requires at < |Q| && forall i, j :: 0 <= i < j < |Q| ==> Q[i].member != Q[j].member
    ensures var rest := Q[..at] + Q[at + 1..];
            && (forall i, j :: 0 <= i < j < |rest| ==> rest[i].member != rest[j].member)
            && forall k :: 0 <= k < |Q| && k != at ==> HasEntry(rest, Q[k].member)
  {
    var rest := Q[..at] + Q[at + 1..];
    forall i, j | 0 <= i < j < |rest|
      ensures rest[i].member != rest[j].member
    {
      assert rest[i] == Q[if i < at then i else i + 1] && rest[j] == Q[if j < at then j else j + 1];
    }
    forall k | 0 <= k < |Q| && k != at
      ensures HasEntry(rest, Q[k].member)
    {
      assert rest[if k < at then k else k - 1] == Q[k];
    }
  }

  /** The popped member is visited: its cost is the new `low`. */
  lemma Popped(calls: Calls, C: set<Id>, s: Id, ranks: RankMap, Q: seq<Item>, visited: set<Id>, low: nat, at: nat)
    requires Searching(calls, C, s, ranks, Q, visited, low) && at < |Q|
    requires forall i :: 0 <= i < |Q| ==> Q[at].cost <= Q[i].cost
    ensures Searching(calls, C, s, ranks, Q[..at] + Q[at + 1..], visited + {Q[at].member}, Q[at].cost)
    ensures Q[at].member !in visited && Q[at].member in C
  {
    hide Walk;
    var m, rest := Q[at].member, Q[..at] + Q[at + 1..];
    PoppedMember(calls, C, s, ranks, Q, visited, low, at);
    forall i | 0 <= i < |rest|
      ensures Queued(ranks, visited + {m}, rest[i], Q[at].cost)
    {
      assert rest[i] == Q[if i < at then i else i + 1];
      assert Queued(ranks, visited, rest[i], low);
    }
    RestMembers(Q, at);
  }

  /** A callee without a rank gets one and is queued. */
  lemma Pushed(calls: Calls, C: set<Id>, s: Id, ranks: RankMap, Q: seq<Item>, visited: set<Id>, low: nat, u: Id, v: Id)
    requires Searching(calls, C, s, ranks, Q, visited, low)
    requires u in visited && u in ranks && ranks[u] == low && Edge(calls, u, v) && v in C && v !in ranks
    ensures Searching(calls, C, s, ranks[v := low + 1], Q + [Item(low + 1, u, v)], visited, low)
  {
    var ranks', Q' := ranks[v := low + 1], Q + [Item(low + 1, u, v)];
    assert Walk(calls, C, low + 1, s, v) by {
      assert Walk(calls, C, low, s, u);
    }
    hide Walk;
    forall i | 0 <= i < |Q'|
      ensures Queued(ranks', visited, Q'[i], low)
    {
      if i < |Q| {
        assert Queued(ranks, visited, Q[i], low);
      }
    }
    forall x | x in ranks' && x !in visited
      ensures exists i :: 0 <= i < |Q'| && Q'[i].member == x
    {
      if x == v {
        assert Q'[|Q|].member == v;
      } else {
        var i :| 0 <= i < |Q| && Q[i].member == x;
        assert Q'[i].member == x;
      }
    }
  }

  /** The callees of the member last visited get ranks; the test for a shorter rank never succeeds. */
  method Expand(calls: Calls, C: set<Id>, ghost s: Id, ranks0: RankMap, Q0: seq<Item>, ghost visited: set<Id>, ghost low: nat, u: Id)
    returns (ranks: RankMap, Q: seq<Item>, ghost pushed: seq<Id>)
    requires Searching(calls, C, s, ranks0, Q0, visited, low)
    requires u in calls && u in visited && u in ranks0 && ranks0[u] == low
    ensures Searching(calls, C, s, ranks, Q, visited, low)
    ensures forall v :: v in ranks0 ==> v in ranks && ranks[v] == ranks0[v]
    ensures forall v :: Edge(calls, u, v) ==> Near(C, ranks, u, v)
    ensures NoDup(pushed) && SetOf(pushed) == ranks.Keys - ranks0.Keys
  {
    ranks, Q, pushed := ranks0, Q0, [];
    hide Searching;
    for i := 0 to |calls[u]|
      invariant Searching(calls, C, s, ranks, Q, visited, low)
      invariant forall v :: v in ranks0 ==> v in ranks && ranks[v] == ranks0[v]
      invariant forall k :: 0 <= k < i ==> Near(C, ranks, u, calls[u][k])
      invariant NoDup(pushed) && SetOf(pushed) == ranks.Keys - ranks0.Keys
    {
      var v := calls[u][i];
      if v != u {
        if v in C {
          if v in ranks {
            assert ranks[v] <= low + 1 by { RankBound(calls, C, s, ranks, Q, visited, low, v); }
            if ranks[v] > 1 + ranks[u] {
              assert false;
            }
          } else {
            Pushed(calls, C, s, ranks, Q, visited, low, u, v);
            Q := Q + [Item(1 + ranks[u], u, v)];
            ranks := ranks[v := 1 + ranks[u]];
            SetOfPlus(pushed, [v]);
            pushed := pushed + [v];
          }
        }
      }
    }
  }

  lemma RankBound(calls: Calls, C: set<Id>, s: Id, ranks: RankMap, Q: seq<Item>, visited: set<Id>, low: nat, v: Id)
    requires Searching(calls, C, s, ranks, Q, visited, low) && v in ranks
    ensures ranks[v] <= low + 1
  {
  }

  lemma ExpandedMore(calls: Calls, C: set<Id>, ranks0: RankMap, ranks: RankMap, visited: set<Id>, u: Id)
    requires Expanded(calls, C, ranks0, visited)
    requires forall v :: v in ranks0 ==> v in ranks && ranks[v] == ranks0[v]
    requires forall v :: Edge(calls, u, v) ==> Near(C, ranks, u, v)
    ensures Expanded(calls, C, ranks, visited + {u})
  {
    forall x, v | x in visited + {u} && Edge(calls, x, v)
      ensures Near(C, ranks, x, v)
    {
      if x != u {
        assert Near(C, ranks0, x, v);
      }
    }
  }

  /** When every visited function is expanded and all are visited, no walk is shorter than a rank. */
  lemma {:induction false} NoShorter(calls: Calls, C: set<Id>, s: Id, ranks: RankMap, k: nat, v: Id)
    requires s in ranks && ranks[s] == 0 && Expanded(calls, C, ranks, ranks.Keys)
    requires Walk(calls, C, k, s, v)
    ensures v in ranks && ranks[v] <= k
  {
    if k > 0 {
      var m :| Walk(calls, C, k - 1, s, m) && Edge(calls, m, v);
      NoShorter(calls, C, s, ranks, k - 1, m);
      assert Near(C, ranks, m, v);
    }
  }

  /**
    * Each member that can be reached from s inside C gets its distance from s. `queued` is what was
    * put on the heap, in order: each of them once, and s never.
    */
  method RankCycleFunction(calls: Calls, C: set<Id>, s: Id) returns (ranks: RankMap, ghost queued: seq<Id>)
    requires s in C && C <= calls.Keys
    ensures Ranked(calls, C, s, ranks)
    ensures NoDup(queued) && SetOf(queued) == ranks.Keys - {s}
  {
    var visited := {s};
    var Q: seq<Item> := [];
    var parent: map<Id, Id> := map[];
    ranks := map[s := 0];
    ghost var low := 0;
    assert Walk(calls, C, 0, s, s);
    ranks, Q, queued := Expand(calls, C, s, ranks, Q, visited, low, s);
    ExpandedMore(calls, C, map[s := 0], ranks, {}, s);
    assert {} + {s} == visited;
    while Q != []
      invariant Searching(calls, C, s, ranks, Q, visited, low)
      invariant Expanded(calls, C, ranks, visited)
      invariant NoDup(queued) && SetOf(queued) == ranks.Keys - {s} && s in ranks
      decreases C - visited, |Q|
    {
      hide Expanded, Searching;
      var item, rest, at := PopLeast(Q);
      Popped(calls, C, s, ranks, Q, visited, low, at);
      var member := item.member;
      Q := rest;
      if member !in visited {
        parent := parent[member := item.parent];
        visited := visited + {member};
        low := item.cost;
        ghost var ranks0, pushed := ranks, [];
        MemberRank(calls, C, s, ranks, Q, visited, low, member);
        ranks, Q, pushed := Expand(calls, C, s, ranks, Q, visited, low, member);
        ExpandedMore(calls, C, ranks0, ranks, visited - {member}, member);
        assert visited - {member} + {member} == visited;
        SetOfPlus(queued, pushed);
        queued := queued + pushed;
      }
    }
    assert visited == ranks.Keys;
    forall v | v in ranks
      ensures IsDistance(calls, C, s, v, ranks[v])
    {
      forall j: nat | j < ranks[v]
        ensures !Walk(calls, C, j, s, v)
      {
        if Walk(calls, C, j, s, v) {
          NoShorter(calls, C, s, ranks, j, v);
        }
      }
    }
    forall v | ReachIn(calls, C, s, v)
      ensures v in ranks
    {
      var k: nat :| Walk(calls, C, k, s, v);
      NoShorter(calls, C, s, ranks, k, v);
    }
  }

  lemma MemberRank(calls: Calls, C: set<Id>, s: Id, ranks: RankMap, Q: seq<Item>, visited: set<Id>, low: nat, m: Id)
    requires Searching(calls, C, s, ranks, Q, visited, low) && m in visited
    ensures m in ranks
  {
  }
}

/** The callees dictionary of Profile._integrate_cycle: the entries of a cycle and their ratios. */
module Collect {
  import opened Paths
  import opened Seqs
  import opened Sums
  import opened Components
  import opened CycleCalls
  import opened Entries

  /** The ratio of the calls to e from outside, in the first i functions and the first j calls of f. */
  ghost function Met(n: Net, c: nat, i: nat, f: Id, j: nat, e: Id): real
    requires i <= |n.functions| && j <= |n.Out(f)|
  {
    Sum(n.functions[..i], OutsideFrom(n, c, e)) + Sum(n.Out(f)[..j], OutsideTerm(n, c, e, f))
  }

  /** e has been called from outside among these. */
  ghost predicate Seen(n: Net, c: nat, i: nat, f: Id, j: nat, e: Id)
    requires i <= |n.functions| && j <= |n.Out(f)|
  {
    n.CompOf(e) == Cyc(c) &&
    (SeenBy(n, c, i, e) || (n.CompOf(f) != Cyc(c) && e in n.Out(f)[..j]))
  }

  ghost predicate SeenBy(n: Net, c: nat, i: nat, e: Id)
    requires i <= |n.functions|
  {
    exists u :: u in n.functions[..i] && n.CompOf(u) != Cyc(c) && e in n.Out(u)
  }

  ghost predicate Collected(n: Net, c: nat, i: nat, f: Id, j: nat, entries: map<Id, real>)
    requires i <= |n.functions| && j <= |n.Out(f)|
  {
    && (forall e :: e in entries <==> Seen(n, c, i, f, j, e))
    && (forall e :: e in entries ==> entries[e] == Met(n, c, i, f, j, e))
  }

  lemma MetStep(n: Net, c: nat, i: nat, f: Id, j: nat, e: Id)
    requires i <= |n.functions| && j < |n.Out(f)|
    ensures Met(n, c, i, f, j + 1, e) == Met(n, c, i, f, j, e) + OutsideTerm(n, c, e, f)(n.Out(f)[j])
    ensures Seen(n, c, i, f, j + 1, e) <==>
            Seen(n, c, i, f, j, e) || (n.CompOf(e) == Cyc(c) && n.CompOf(f) != Cyc(c) && e == n.Out(f)[j])
    ensures Seen(n, c, i, f, j, e) ==> n.CompOf(e) == Cyc(c)
  {
    hide Sum;
    SumStep(n.Out(f), j, OutsideTerm(n, c, e, f));
    assert n.Out(f)[..j + 1] == n.Out(f)[..j] + [n.Out(f)[j]];
  }

  /** Nothing has been met of a function that has not been seen. */
  lemma UnseenZero(n: Net, c: nat, i: nat, f: Id, j: nat, e: Id)
    requires i <= |n.functions| && j <= |n.Out(f)| && !Seen(n, c, i, f, j, e) && n.CompOf(e) == Cyc(c)
    ensures Met(n, c, i, f, j, e) == 0.0
  {
    forall u | u in n.functions[..i]
      ensures OutsideFrom(n, c, e)(u) == 0.0
    {
      SumZero(n.Out(u), OutsideTerm(n, c, e, u));
    }
    SumZero(n.functions[..i], OutsideFrom(n, c, e));
    SumZero(n.Out(f)[..j], OutsideTerm(n, c, e, f));
  }

  lemma CollectCall(n: Net, c: nat, i: nat, f: Id, j: nat, entries: map<Id, real>, entries': map<Id, real>)
    requires i <= |n.functions| && j < |n.Out(f)| && Collected(n, c, i, f, j, entries) && n.CompOf(f) != Cyc(c)
    requires var v := n.Out(f)[j];
             entries' == if n.CompOf(v) == Cyc(c) then entries[v := Get(entries, v) + n.Ratio(f, v)] else entries
    ensures Collected(n, c, i, f, j + 1, entries')
  {
    hide Met, Seen;
    forall e
      ensures e in entries' <==> Seen(n, c, i, f, j + 1, e)
      ensures e in entries' ==> entries'[e] == Met(n, c, i, f, j + 1, e)
    {
      MetStep(n, c, i, f, j, e);
      if n.CompOf(e) == Cyc(c) && e !in entries {
        UnseenZero(n, c, i, f, j, e);
      }
    }
  }

  /** A function of the cycle itself adds nothing. */
  lemma InsiderMeets(n: Net, c: nat, i: nat, f: Id, e: Id)
    requires i <= |n.functions| && n.CompOf(f) == Cyc(c)
    ensures Met(n, c, i, f, |n.Out(f)|, e) == Met(n, c, i, f, 0, e)
    ensures Seen(n, c, i, f, |n.Out(f)|, e) <==> Seen(n, c, i, f, 0, e)
  {
    assert n.Out(f)[..|n.Out(f)|] == n.Out(f);
    SumZero(n.Out(f), OutsideTerm(n, c, e, f));
  }

  lemma CollectInsider(n: Net, c: nat, i: nat, f: Id, entries: map<Id, real>)
    requires i <= |n.functions| && n.CompOf(f) == Cyc(c) && Collected(n, c, i, f, 0, entries)
    ensures Collected(n, c, i, f, |n.Out(f)|, entries)
  {
    hide Met, Seen;
    forall e
      ensures e in entries <==> Seen(n, c, i, f, |n.Out(f)|, e)
      ensures e in entries ==> entries[e] == Met(n, c, i, f, |n.Out(f)|, e)
    {
      InsiderMeets(n, c, i, f, e);
    }
  }

  lemma NextMeets(n: Net, c: nat, i: nat, g: Id, e: Id)
    requires i < |n.functions|
    ensures var f := n.functions[i]; Met(n, c, i + 1, g, 0, e) == Met(n, c, i, f, |n.Out(f)|, e)
  {
    var f := n.functions[i];
    assert n.Out(f)[..|n.Out(f)|] == n.Out(f);
    SumStep(n.functions, i, OutsideFrom(n, c, e));
  }

  lemma NextSeen(n: Net, c: nat, i: nat, g: Id, e: Id)
    requires i < |n.functions|
    ensures var f := n.functions[i]; Seen(n, c, i + 1, g, 0, e) <==> Seen(n, c, i, f, |n.Out(f)|, e)
  {
    var f := n.functions[i];
    assert n.Out(f)[..|n.Out(f)|] == n.Out(f);
    assert n.functions[..i + 1] == n.functions[..i] + [f];
    if n.CompOf(f) != Cyc(c) && e in n.Out(f) {
      assert f in n.functions[..i + 1];
    }
  }

  lemma CollectNext(n: Net, c: nat, i: nat, g: Id, entries: map<Id, real>)
    requires i < |n.functions| && var f := n.functions[i]; Collected(n, c, i, f, |n.Out(f)|, entries)
    ensures Collected(n, c, i + 1, g, 0, entries)
  {
    hide Met, Seen;
    forall e
      ensures e in entries <==> Seen(n, c, i + 1, g, 0, e)
      ensures e in entries ==> entries[e] == Met(n, c, i + 1, g, 0, e)
    {
      NextMeets(n, c, i, g, e);
      NextSeen(n, c, i, g, e);
    }
  }

  lemma CollectStart(n: Net, c: nat, g: Id)
    ensures Collected(n, c, 0, g, 0, map[])
  {
  }

  lemma MeetsSame(n: Net, c: nat, i: nat, g: Id, f: Id, e: Id)
    requires i <= |n.functions|
    ensures Met(n, c, i, g, 0, e) == Met(n, c, i, f, 0, e)
    ensures Seen(n, c, i, g, 0, e) <==> Seen(n, c, i, f, 0, e)
  {
  }

  lemma CollectSame(n: Net, c: nat, i: nat, g: Id, f: Id, entries: map<Id, real>)
    requires i <= |n.functions| && Collected(n, c, i, g, 0, entries)
    ensures Collected(n, c, i, f, 0, entries)
  {
    hide Met, Seen;
    forall e
      ensures e in entries <==> Seen(n, c, i, f, 0, e)
      ensures e in entries ==> entries[e] == Met(n, c, i, f, 0, e)
    {
      MeetsSame(n, c, i, g, f, e);
    }
  }

  lemma AllMet(n: Net, c: nat, g: Id, e: Id)
    ensures Met(n, c, |n.functions|, g, 0, e) == EntryRatio(n, c, e)
  {
    assert n.functions[..|n.functions|] == n.functions;
  }

  lemma AllSeen(n: Net, c: nat, g: Id, e: Id)
    requires Usable(n)
    ensures Seen(n, c, |n.functions|, g, 0, e) <==> e in EntrySet(n, c)
  {
    assert n.functions[..|n.functions|] == n.functions;
    if u :| u in n.functions && n.CompOf(u) != Cyc(c) && e in n.Out(u) {
      assert Edge(n.calls, u, e);
    }
  }

  lemma CollectEnd(n: Net, c: nat, g: Id, entries: map<Id, real>)
    requires Usable(n) && Collected(n, c, |n.functions|, g, 0, entries)
    ensures entries.Keys == EntrySet(n, c)
    ensures forall e :: e in entries ==> entries[e] == EntryRatio(n, c, e)
  {
    hide Met, Seen, EntrySet, EntryRatio, Usable;
    forall e
      ensures e in entries <==> e in EntrySet(n, c)
      ensures e in entries ==> entries[e] == EntryRatio(n, c, e)
    {
      AllMet(n, c, g, e);
      AllSeen(n, c, g, e);
    }
  }

  method CollectCalls(n: Net, c: nat, ghost i: nat, f: Id, entries0: map<Id, real>) returns (entries: map<Id, real>)
    requires Usable(n) && i <= |n.functions| && f in n.calls && n.CompOf(f) != Cyc(c)
    requires Collected(n, c, i, f, 0, entries0)
    ensures Collected(n, c, i, f, |n.Out(f)|, entries)
  {
    hide Collected;
    entries := entries0;
    var callees := n.calls[f];
    for j := 0 to |callees|
      invariant Collected(n, c, i, f, j, entries)
    {
      var v := callees[j];
      ghost var entries1 := entries;
      if n.CompOf(v) == Cyc(c) {
        assert Edge(n.calls, f, v);
        if v in entries {
          entries := entries[v := entries[v] + n.ratio[(f, v)]];
        } else {
          entries := entries[v := n.ratio[(f, v)]];
        }
      }
      CollectCall(n, c, i, f, j, entries1, entries);
    }
  }

  /** The members called from outside the cycle, each with the ratio of all those calls. */
  method CollectEntries(n: Net, c: nat) returns (entries: map<Id, real>)
    requires Usable(n)
    ensures entries.Keys == EntrySet(n, c)
    ensures forall e :: e in entries ==> entries[e] == EntryRatio(n, c, e)
  {
    hide Collected, Usable, EntrySet, EntryRatio;
    entries := map[];
    ghost var none := Id("");
    CollectStart(n, c, none);
    for i := 0 to |n.functions|
      invariant Collected(n, c, i, none, 0, entries)
    {
      var f := n.functions[i];
      CollectSame(n, c, i, none, f, entries);
      if n.CompOf(f) != Cyc(c) {
        UsableFunction(n, f);
        entries := CollectCalls(n, c, i, f, entries);
      } else {
        CollectInsider(n, c, i, f, entries);
      }
      CollectNext(n, c, i, none, entries);
    }
    CollectEnd(n, c, none, entries);
  }

  lemma UsableFunction(n: Net, f: Id)
    requires Usable(n) && f in n.functions
    ensures f in n.calls
  {
    assert f in SetOf(n.functions);
  }
}

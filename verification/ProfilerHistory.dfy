/** Which open calls have a record, read off the events of a run: every one that is due one, and no other. */
module ProfilerHistory {
  import opened Profiler

  /** The positions in the run of the calls made in it that are still open. */
  ghost function Made(run: seq<Event>): (r: seq<nat>)
    ensures forall k :: 0 <= k < |r| ==> r[k] < |run|
  {
    if run == [] then []
    else
      var made, e := Made(run[..|run| - 1]), run[|run| - 1];
      if e.Call? || e.CCall? then made + [|run| - 1]
      else if made != [] then made[..|made| - 1]
      else []
  }

  /** How many of the calls that were open at the start still are. */
  ghost function Left(start: seq<Entry>, run: seq<Event>): nat {
    if run == [] then |start|
    else
      var left, e := Left(start, run[..|run| - 1]), run[|run| - 1];
      if e.Call? || e.CCall? || Made(run[..|run| - 1]) != [] || left == 0 then left else left - 1
  }

  /** The profiler looks at the event: it is of Python, or of C with C events on, and not an exception. */
  ghost predicate Noticed(c: Settings, e: Event) {
    c.active && (e.Call? || e.Return? || (c.traceC && (e.CCall? || e.CReturn?)))
  }

  ghost predicate First(c: Settings, run: seq<Event>, i: nat) {
    i < |run| && Noticed(c, run[i]) && forall j :: 0 <= j < i ==> !Noticed(c, run[j])
  }

  /** The depth of the frame of the event at i. */
  ghost function DepthAt(c: Settings, start: seq<Entry>, run: seq<Event>, i: nat): int
    requires i < |run|
  {
    FrameDepth(After(c, start, run[..i]).open, run[i])
  }

  /** A call in this frame is due a record, given the depth of the first frame noticed. */
  ghost predicate Due(c: Settings, start: seq<Entry>, run: seq<Event>, e: Entry) {
    && c.active && (e.python || c.traceC) && !e.skip && e.tag != ""
    && exists i: nat :: First(c, run, i) && e.depth <= DepthAt(c, start, run, i) + c.maxDepth + 3
  }

  lemma FirstNext(c: Settings, start: seq<Entry>, run: seq<Event>, i: nat)
    requires run != []
    ensures
      var n := |run| - 1;
      First(c, run, i) <==>
        First(c, run[..n], i) || (i == n && Noticed(c, run[n]) && forall j :: 0 <= j < n ==> !Noticed(c, run[..n][j]))
    ensures First(c, run[..|run| - 1], i) ==> i < |run| - 1 && DepthAt(c, start, run[..|run| - 1], i) == DepthAt(c, start, run, i)
  {
    hide Noticed, After, FrameDepth;
    var n := |run| - 1;
    if i < n {
      assert run[..n][..i] == run[..i];
      assert forall j :: 0 <= j <= i ==> run[..n][j] == run[j];
    }
  }

  lemma SomeFirst(c: Settings, run: seq<Event>)
    ensures (exists j :: 0 <= j < |run| && Noticed(c, run[j])) ==> exists i: nat :: First(c, run, i)
  {
    hide Noticed;
    if j :| 0 <= j < |run| && Noticed(c, run[j]) {
      EarliestOf(c, run, j);
    }
  }

  lemma {:induction false} EarliestOf(c: Settings, run: seq<Event>, j: nat)
    requires j < |run| && Noticed(c, run[j])
    ensures exists i: nat :: First(c, run, i)
  {
    hide Noticed;
    if i :| 0 <= i < j && Noticed(c, run[i]) {
      EarliestOf(c, run, i);
    } else {
      assert First(c, run, j);
    }
  }

  lemma OneFirst(c: Settings, run: seq<Event>, i: nat, j: nat)
    requires First(c, run, i) && First(c, run, j)
    ensures i == j
  {
    hide Noticed;
  }

  lemma FirstNoticed(c: Settings, run: seq<Event>, i: nat)
    requires First(c, run, i)
    ensures i < |run| && Noticed(c, run[i])
  {
  }

  lemma CalledBase(c: Settings, s: State, what: What, depth: int, tag: string, skip: bool, record: nat)
    ensures Called(c, s, what, depth, tag, skip, record).base ==
      if Heard(c, what) && s.base < 0 then depth else s.base
  {
  }

  lemma NoticedHeard(c: Settings, e: Event)
    ensures Noticed(c, e) <==> Heard(c, Kind(e))
  {
  }

  lemma FrameAbove(open: seq<Entry>, e: Event)
    requires Stacked(open) && Possible(open, e)
    ensures 0 <= FrameDepth(open, e)
  {
    TopAtLeast(open);
  }

  lemma StacksUp(c: Settings, start: seq<Entry>, run: seq<Event>)
    requires Stacked(start) && Unrecorded(start) && Nested(c, start, run)
    ensures Stacked(After(c, start, run).open)
  {
    Runs(c, start, run);
  }

  lemma StepBase(c: Settings, w: World, e: Event, record: nat)
    ensures Step(c, w, e, record).state.base ==
      if Noticed(c, e) && w.state.base < 0 then FrameDepth(w.open, e) else w.state.base
  {
    hide Called, Noticed, Heard, FrameDepth, FrameSkip;
    NoticedHeard(c, e);
    CalledBase(c, w.state, Kind(e), FrameDepth(w.open, e), e.tag, FrameSkip(w.open, e), record);
  }

  /** The base depth is that of the first frame the profiler noticed. */
  lemma {:induction false} BaseIs(c: Settings, start: seq<Entry>, run: seq<Event>)
    requires Stacked(start) && Unrecorded(start) && Nested(c, start, run)
    ensures (forall j :: 0 <= j < |run| ==> !Noticed(c, run[j])) ==> After(c, start, run).state.base == -1
    ensures forall i: nat :: First(c, run, i) ==>
      After(c, start, run).state.base == DepthAt(c, start, run, i) && 0 <= DepthAt(c, start, run, i)
  {
    hide Noticed, Step, FrameDepth, Possible, Stacked, First;
    if run == [] {
      forall i: nat
        ensures !First(c, run, i)
      {
        NotFirst(c, run, i);
      }
    } else {
      var n := |run| - 1;
      var before, w := run[..n], After(c, start, run[..n]);
      BaseIs(c, start, before);
      SomeFirst(c, before);
      StacksUp(c, start, before);
      FrameAbove(w.open, run[n]);
      StepBase(c, w, run[n], n);
      assert forall j :: 0 <= j < n ==> before[j] == run[j];
      forall i: nat | i < |run| && First(c, run, i)
        ensures After(c, start, run).state.base == DepthAt(c, start, run, i) && 0 <= DepthAt(c, start, run, i)
      {
        FirstNext(c, start, run, i);
      }
      forall i: nat
        ensures First(c, before, i) ==> i < n && Noticed(c, run[i])
        ensures First(c, run, i) ==> i < |run|
      {
        if First(c, before, i) {
          FirstNoticed(c, before, i);
        }
        if First(c, run, i) {
          FirstNoticed(c, run, i);
        }
      }
    }
  }

  lemma NotFirst(c: Settings, run: seq<Event>, i: nat)
    requires run == []
    ensures !First(c, run, i)
  {
  }

  /** A new call gets a record, named by its position, exactly if it is due one. */
  lemma StartedDue(c: Settings, start: seq<Entry>, run: seq<Event>)
    requires Stacked(start) && Unrecorded(start) && run != [] && Nested(c, start, run[..|run| - 1])
    requires run[|run| - 1].Call? || run[|run| - 1].CCall?
    requires Possible(After(c, start, run[..|run| - 1]).open, run[|run| - 1])
    ensures
      var entry := Started(c, After(c, start, run[..|run| - 1]), run[|run| - 1], |run| - 1);
      entry.record == if Due(c, start, run, entry) then [|run| - 1] else []
  {
    hide Nested, Possible, Stacked, After, FrameDepth, FrameSkip, First;
    var n := |run| - 1;
    var before, w, e := run[..n], After(c, start, run[..n]), run[n];
    var entry := Started(c, w, e, n);
    BaseIs(c, start, before);
    SomeFirst(c, before);
    FirstNext(c, start, run, n);
    if i: nat :| First(c, before, i) {
      FirstNext(c, start, run, i);
      forall j: nat | First(c, run, j)
        ensures j == i
      {
        OneFirst(c, run, i, j);
      }
    } else {
      forall j: nat | First(c, run, j)
        ensures j == n
      {
        FirstNext(c, start, run, j);
      }
    }
  }

  /** Whether an open call is due a record does not change later. */
  lemma DueStays(c: Settings, start: seq<Entry>, run: seq<Event>, i: nat, e: Entry)
    requires run != [] && i < |run| - 1 && e.python == run[i].Call? && (run[i].Call? || run[i].CCall?)
    ensures Due(c, start, run, e) <==> Due(c, start, run[..|run| - 1], e)
  {
    hide After, FrameDepth, First, DepthAt;
    var before := run[..|run| - 1];
    assert before[i] == run[i];
    if c.active && (e.python || c.traceC) {
      SomeFirst(c, before);
      var j: nat :| First(c, before, j);
      FirstNext(c, start, run, j);
      forall k: nat | First(c, run, k) || First(c, before, k)
        ensures k == j
      {
        FirstNext(c, start, run, k);
        OneFirst(c, run, k, j);
      }
    }
  }

  /** The entry is that of the call at position i, and has a record, named by the position, exactly if it is due one. */
  ghost predicate AsMade(c: Settings, start: seq<Entry>, run: seq<Event>, i: nat, e: Entry) {
    i < |run| && (run[i].Call? || run[i].CCall?) &&
    e.python == run[i].Call? && e.tag == run[i].tag && (run[i].Call? ==> e.skip == run[i].skip) &&
    e.depth == DepthAt(c, start, run, i) &&
    e.record == if Due(c, start, run, e) then [i] else []
  }

  lemma AsMadeStays(c: Settings, start: seq<Entry>, run: seq<Event>, i: nat, e: Entry)
    requires run != [] && AsMade(c, start, run[..|run| - 1], i, e)
    ensures AsMade(c, start, run, i, e)
  {
    hide After, FrameDepth, Due;
    DueStays(c, start, run, i, e);
    assert run[..|run| - 1][..i] == run[..i] && run[..|run| - 1][i] == run[i];
  }

  lemma AsMadeNew(c: Settings, start: seq<Entry>, run: seq<Event>)
    requires Stacked(start) && Unrecorded(start) && run != [] && Nested(c, start, run[..|run| - 1])
    requires run[|run| - 1].Call? || run[|run| - 1].CCall?
    requires Possible(After(c, start, run[..|run| - 1]).open, run[|run| - 1])
    ensures AsMade(c, start, run, |run| - 1, Started(c, After(c, start, run[..|run| - 1]), run[|run| - 1], |run| - 1))
  {
    hide Nested, Possible, Stacked, After, FrameDepth, Due, Recorded;
    StartedDue(c, start, run);
  }

  /** The open calls are those left from the start, unchanged, and those made in the run, in order. */
  ghost predicate Open(c: Settings, start: seq<Entry>, run: seq<Event>, open: seq<Entry>) {
    var left, made := Left(start, run), Made(run);
    left <= |start| && |open| == left + |made| && open[..left] == start[..left] &&
    forall k :: 0 <= k < |made| ==> AsMade(c, start, run, made[k], open[left + k])
  }

  lemma OpenCall(c: Settings, start: seq<Entry>, run: seq<Event>, open: seq<Entry>, e: Entry)
    requires run != [] && Open(c, start, run[..|run| - 1], open) && (run[|run| - 1].Call? || run[|run| - 1].CCall?)
    requires AsMade(c, start, run, |run| - 1, e)
    ensures Open(c, start, run, open + [e])
  {
    hide AsMade;
    var left, made := Left(start, run), Made(run);
    forall k | 0 <= k < |made| - 1
      ensures AsMade(c, start, run, made[k], (open + [e])[left + k])
    {
      AsMadeStays(c, start, run, made[k], open[left + k]);
    }
  }

  lemma OpenEnd(c: Settings, start: seq<Entry>, run: seq<Event>, open: seq<Entry>)
    requires run != [] && Open(c, start, run[..|run| - 1], open) && !(run[|run| - 1].Call? || run[|run| - 1].CCall?)
    requires open != []
    ensures Open(c, start, run, open[..|open| - 1])
  {
    hide AsMade;
    var left, made := Left(start, run), Made(run);
    assert open[..|open| - 1][..left] == open[..left];
    forall k | 0 <= k < |made|
      ensures AsMade(c, start, run, made[k], open[..|open| - 1][left + k])
    {
      AsMadeStays(c, start, run, made[k], open[left + k]);
    }
  }

  lemma StepOpen(c: Settings, w: World, e: Event, record: nat)
    requires Possible(w.open, e)
    ensures e.Call? || e.CCall? ==> Step(c, w, e, record).open == w.open + [Started(c, w, e, record)]
    ensures !(e.Call? || e.CCall?) ==> w.open != [] && Step(c, w, e, record).open == w.open[..|w.open| - 1]
  {
  }

  /** Over every well nested run the open calls are those left from the start and those made in it, each with the record
      it is due. */
  lemma {:induction false} OpenIs(c: Settings, start: seq<Entry>, run: seq<Event>)
    requires Stacked(start) && Unrecorded(start) && Nested(c, start, run)
    ensures Open(c, start, run, After(c, start, run).open)
  {
    hide AsMade, Step, Possible, Stacked, Unrecorded, Started, Open;
    if run == [] {
      OpenStart(c, start);
    } else {
      var n := |run| - 1;
      var w, e := After(c, start, run[..n]), run[n];
      OpenIs(c, start, run[..n]);
      StepOpen(c, w, e, n);
      if e.Call? || e.CCall? {
        AsMadeNew(c, start, run);
        OpenCall(c, start, run, w.open, Started(c, w, e, n));
      } else {
        OpenEnd(c, start, run, w.open);
      }
    }
  }

  lemma OpenStart(c: Settings, start: seq<Entry>)
    ensures Open(c, start, [], start)
  {
  }

  /**
    * Over every well nested run an open call made in it has a record, of its own, if and only if the profiler is active,
    * the call is of Python or C events are on, its frame is not filtered, its label is not empty, and its frame is at most
    * three more than the limit deeper than the first frame the profiler noticed. Calls open from the start have none.
    */
  lemma RecordedIff(c: Settings, start: seq<Entry>, run: seq<Event>, k: nat)
    requires Stacked(start) && Unrecorded(start) && Nested(c, start, run) && k < |After(c, start, run).open|
    ensures
      var e, left := After(c, start, run).open[k], Left(start, run);
      if k < left then e.record == []
      else
        k - left < |Made(run)| && Made(run)[k - left] < |run| && e.tag == run[Made(run)[k - left]].tag &&
        (e.record == [] || e.record == [Made(run)[k - left]]) &&
        (e.record != [] <==>
           c.active && (e.python || c.traceC) && !e.skip && e.tag != "" &&
           exists i: nat :: First(c, run, i) && e.depth <= DepthAt(c, start, run, i) + c.maxDepth + 3)
  {
    hide After, Nested, Stacked, First, DepthAt, Left, Made;
    OpenIs(c, start, run);
    var open, left := After(c, start, run).open, Left(start, run);
    if k < left {
      assert open[..left][k] == start[..left][k];
    } else {
      assert AsMade(c, start, run, Made(run)[k - left], open[left + (k - left)]);
    }
  }
}

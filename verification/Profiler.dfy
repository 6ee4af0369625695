/** The Python profiler callback: records kept by depth and label must follow one real stack of calls. */
module Profiler {

  /** Fixed settings: whether the profiler is enabled with something to measure, the depth limit, and C events. */
  datatype Settings = Settings(active: bool, maxDepth: int, traceC: bool)

  /** The live records by depth and label, a record being named by a number, and the depth of the first event. */
  datatype State = State(records: map<int, map<string, seq<nat>>>, base: int) {

    function Live(depth: int, tag: string): seq<nat> {
      if depth in records && tag in records[depth] then records[depth][tag] else []
    }
  }

  const INITIAL := State(map[], -1)

  datatype What = CALL | C_CALL | RETURN | C_RETURN | OTHER

  predicate IsCall(what: What) {
    what.CALL? || what.C_CALL?
  }

  predicate IsC(what: What) {
    what.C_CALL? || what.C_RETURN?
  }

  /** The event is not dropped before the depth is looked at. */
  ghost predicate Heard(c: Settings, what: What) {
    c.active && !what.OTHER? && (IsC(what) ==> c.traceC)
  }

  ghost function Based(c: Settings, s: State, what: What, depth: int): State {
    if Heard(c, what) && s.base < 0 then s.(base := depth) else s
  }

  /** A call is recorded when it is heard, not too deep and not filtered out. */
  ghost predicate Recorded(c: Settings, s: State, what: What, depth: int, tag: string, skip: bool) {
    Heard(c, what) && IsCall(what) && depth - Based(c, s, what, depth).base - 3 <= c.maxDepth && !skip && tag != ""
  }

  /** A return is processed at any depth. */
  ghost predicate Processed(c: Settings, what: What, tag: string, skip: bool) {
    Heard(c, what) && !IsCall(what) && !skip && tag != ""
  }

  ghost function Put(s: State, depth: int, tag: string, stack: seq<nat>): State {
    s.(records := s.records[depth := (if depth in s.records then s.records[depth] else map[])[tag := stack]])
  }

  /** What a return takes off its stack. */
  ghost function Stopped(c: Settings, s: State, what: What, depth: int, tag: string, skip: bool): seq<nat> {
    var stack := s.Live(depth, tag);
    if Processed(c, what, tag, skip) && stack != [] then [stack[|stack| - 1]] else []
  }

  ghost function Called(c: Settings, s: State, what: What, depth: int, tag: string, skip: bool, record: nat): State {
    var b := Based(c, s, what, depth);
    var stack := b.Live(depth, tag);
    if Recorded(c, s, what, depth, tag, skip) then Put(b, depth, tag, stack + [record])
    else if Processed(c, what, tag, skip) && stack != [] then Put(b, depth, tag, stack[..|stack| - 1])
    else b
  }

  /** The configuration of one thread. */
  class Config {
    const settings: Settings
    var records: map<int, map<string, seq<nat>>>
    var base: int
    var running: bool

    ghost function Now(): State
      reads this`records, this`base
    {
      State(records, base)
    }

    constructor (settings: Settings)
      ensures this.settings == settings && Now() == INITIAL && !running
    {
      this.settings := settings;
      records, base, running := map[], -1, false;
    }

    method Init()
      modifies this
      ensures running && Now() == if old(running) then old(Now()) else INITIAL
    {
      if running {
        return;
      }
      records := map[];
      base := -1;
      running := true;
    }

    method Finalize()
      modifies this
      ensures !running && Now() == if old(running) then INITIAL else old(Now())
    {
      if !running {
        return;
      }
      running := false;
      base := -1;
      records := map[];
    }

    /** One event of a frame at this depth, with this label, that the filters skip or not. */
    method ProfilerFunction(what: What, depth: int, tag: string, skip: bool, record: nat)
      returns (stopped: seq<nat>)
      modifies this`records, this`base
      ensures Now() == Called(settings, old(Now()), what, depth, tag, skip, record)
      ensures stopped == Stopped(settings, old(Now()), what, depth, tag, skip)
    {
      stopped := [];
      if !settings.active {
        return;
      }
      if what.OTHER? {
        return;
      }
      if !settings.traceC && (what.C_CALL? || what.C_RETURN?) {
        return;
      }
      if base < 0 {
        base := depth;
      }
      var isCall := what.CALL? || what.C_CALL?;
      var sdepth := depth - base - 3;
      if isCall && sdepth > settings.maxDepth {
        return;
      }
      if skip {
        return;
      }
      if tag == "" {
        return;
      }
      if isCall {
        ProfilerCall(depth, tag, record);
      } else {
        stopped := ProfilerReturn(depth, tag);
      }
    }

    method ProfilerCall(depth: int, tag: string, record: nat)
      modifies this`records
      ensures Now() == Put(old(Now()), depth, tag, old(Now()).Live(depth, tag) + [record])
    {
      if depth !in records {
        records := records[depth := map[]];
      }
      var entries := records[depth];
      if tag !in entries {
        entries := entries[tag := []];
      }
      entries := entries[tag := entries[tag] + [record]];
      records := records[depth := entries];
      assert records == old(records)[depth := entries];
      assert entries == (if depth in old(records) then old(records)[depth] else map[])[tag := entries[tag]];
    }

    method ProfilerReturn(depth: int, tag: string) returns (stopped: seq<nat>)
      modifies this`records
      ensures var stack := old(Now()).Live(depth, tag);
        if stack == [] then stopped == [] && Now() == old(Now())
        else stopped == [stack[|stack| - 1]] && Now() == Put(old(Now()), depth, tag, stack[..|stack| - 1])
    {
      stopped := [];
      if depth !in records {
        return;
      }
      if tag !in records[depth] {
        return;
      }
      var stack := records[depth][tag];
      if stack == [] {
        return;
      }
      stopped := [stack[|stack| - 1]];
      records := records[depth := records[depth][tag := stack[..|stack| - 1]]];
    }
  }

  // --- One thread's stack of calls ---

  /** An open call: of Python or C, the depth of its frame, whether the frame is filtered out, the label it was called
      with, and the record it was given, if any. */
  datatype Entry = Entry(python: bool, depth: int, skip: bool, tag: string, record: seq<nat>)

  datatype Event =
    | Call(tag: string, skip: bool)
    | Return(tag: string)
    | CCall(tag: string)
    | CReturn(tag: string)
    | CException(tag: string)

  /** A C call runs in the frame of its caller; a Python call has a frame of its own, one deeper. */
  ghost predicate Stacked(open: seq<Entry>) {
    open == [] ||
    (var rest, e := open[..|open| - 1], open[|open| - 1];
     Stacked(rest) &&
     if e.python then e.depth == Top(rest) + 1
     else rest != [] && e.depth == Top(rest) && e.skip == rest[|rest| - 1].skip)
  }

  /** The depth of the frame that runs. */
  ghost function Top(open: seq<Entry>): int {
    if open == [] then -1 else open[|open| - 1].depth
  }

  datatype World = World(state: State, open: seq<Entry>)

  /** An event can happen: a return is of the innermost call, and C code is called from a frame. */
  ghost predicate Possible(open: seq<Entry>, e: Event) {
    match e
    case Call(tag, skip) => !skip ==> tag != ""
    case CCall(tag) => open != [] && (!open[|open| - 1].skip ==> tag != "")
    case Return(_) => open != [] && open[|open| - 1].python
    case CReturn(_) | CException(_) => open != [] && !open[|open| - 1].python
  }

  function Kind(e: Event): What {
    match e
    case Call(_, _) => CALL
    case CCall(_) => C_CALL
    case Return(_) => RETURN
    case CReturn(_) => C_RETURN
    case CException(_) => OTHER
  }

  /** The depth the profiler finds for the event's frame. */
  ghost function FrameDepth(open: seq<Entry>, e: Event): int {
    if e.Call? then Top(open) + 1 else Top(open)
  }

  ghost predicate FrameSkip(open: seq<Entry>, e: Event) {
    if e.Call? then e.skip else open != [] && open[|open| - 1].skip
  }

  ghost function Started(c: Settings, w: World, e: Event, record: nat): Entry {
    var depth, skip := FrameDepth(w.open, e), FrameSkip(w.open, e);
    Entry(e.Call?, depth, skip, e.tag, if Recorded(c, w.state, Kind(e), depth, e.tag, skip) then [record] else [])
  }

  /** The event as the program and as the profiler see it. */
  ghost function Step(c: Settings, w: World, e: Event, record: nat): World {
    World(
      Called(c, w.state, Kind(e), FrameDepth(w.open, e), e.tag, FrameSkip(w.open, e), record),
      if IsCall(Kind(e)) then w.open + [Started(c, w, e, record)]
      else if w.open == [] then [] else w.open[..|w.open| - 1])
  }

  /** The calls that were open before the profiler was switched on have no record. */
  ghost predicate Unrecorded(open: seq<Entry>) {
    forall i :: 0 <= i < |open| ==> open[i].record == []
  }

  /** After a run; a record is named by the position in the run of the call that started it. */
  ghost function After(c: Settings, start: seq<Entry>, run: seq<Event>): World {
    if run == [] then World(INITIAL, start)
    else Step(c, After(c, start, run[..|run| - 1]), run[|run| - 1], |run| - 1)
  }

  /** Calls and returns of the run are well nested. */
  ghost predicate Nested(c: Settings, start: seq<Entry>, run: seq<Event>) {
    run == [] ||
    (Nested(c, start, run[..|run| - 1]) && Possible(After(c, start, run[..|run| - 1]).open, run[|run| - 1]))
  }

  /** The end of a call stops the record of that call, or nothing if it has none. */
  ghost predicate StopsOwn(c: Settings, w: World, e: Event) {
    w.open != [] && !IsCall(Kind(e)) ==>
      Stopped(c, w.state, Kind(e), FrameDepth(w.open, e), e.tag, FrameSkip(w.open, e)) == w.open[|w.open| - 1].record
  }

  ghost predicate Faithful(c: Settings, start: seq<Entry>, run: seq<Event>) {
    run == [] ||
    (Faithful(c, start, run[..|run| - 1]) && StopsOwn(c, After(c, start, run[..|run| - 1]), run[|run| - 1]))
  }

  /** A recorded call ends by a return, with the label it was called with. */
  ghost predicate EndsAsCalled(w: World, e: Event) {
    w.open != [] && !IsCall(Kind(e)) && w.open[|w.open| - 1].record != [] ==>
      !e.CException? && e.tag == w.open[|w.open| - 1].tag
  }

  ghost predicate Stable(c: Settings, start: seq<Entry>, run: seq<Event>) {
    run == [] ||
    (Stable(c, start, run[..|run| - 1]) && EndsAsCalled(After(c, start, run[..|run| - 1]), run[|run| - 1]))
  }

  // --- The records follow the calls ---

  /** The records of the open calls with this depth and label, in the order of the calls. */
  ghost function Owned(open: seq<Entry>, depth: int, tag: string): seq<nat> {
    if open == [] then []
    else
      var e := open[|open| - 1];
      Owned(open[..|open| - 1], depth, tag) + if e.depth == depth && e.tag == tag then e.record else []
  }

  ghost predicate Follows(s: State, open: seq<Entry>) {
    forall depth, tag :: s.Live(depth, tag) == Owned(open, depth, tag)
  }

  ghost predicate EntryHeard(c: Settings, e: Entry) {
    c.active && (e.python || c.traceC)
  }

  /** An open call was recorded as the settings say; the record is older than n. */
  ghost predicate Fits(c: Settings, s: State, e: Entry, n: nat) {
    e.record != [] ==>
      |e.record| == 1 && e.record[0] < n && s.base >= 0 && e.depth - s.base - 3 <= c.maxDepth && !e.skip &&
      e.tag != "" && EntryHeard(c, e)
  }

  /** Records rise up the stack, and above a recorded call of a frame every call of that frame that is heard is
      recorded. */
  ghost predicate Orderly(c: Settings, s: State, open: seq<Entry>, n: nat) {
    Stacked(open) && (forall i :: 0 <= i < |open| ==> Fits(c, s, open[i], n)) &&
    (forall i, j :: 0 <= i < j < |open| && open[i].record != [] && open[j].record != [] ==>
       open[i].record[0] < open[j].record[0]) &&
    (forall i, j :: 0 <= i < j < |open| ==> Passes(c, open[i], open[j]))
  }

  ghost predicate Passes(c: Settings, lower: Entry, upper: Entry) {
    lower.record != [] && lower.depth == upper.depth && EntryHeard(c, upper) ==> upper.record != []
  }

  /** Frames below are less deep, and calls in one frame are filtered alike. */
  lemma {:induction false} StackedBelow(open: seq<Entry>, i: nat)
    requires Stacked(open) && i < |open|
    ensures open[i].depth <= Top(open)
    ensures open[i].depth == Top(open) ==> open[i].skip == open[|open| - 1].skip
    ensures open[i].depth == Top(open) && i < |open| - 1 ==> !open[|open| - 1].python
  {
    if i < |open| - 1 {
      StackedBelow(open[..|open| - 1], i);
    }
  }

  lemma {:induction false} OwnedNothing(open: seq<Entry>, depth: int, tag: string)
    requires forall i :: 0 <= i < |open| && open[i].depth == depth ==> open[i].record == []
    ensures Owned(open, depth, tag) == []
  {
    if open != [] {
      OwnedNothing(open[..|open| - 1], depth, tag);
    }
  }

  lemma {:induction false} OwnedOlder(c: Settings, s: State, open: seq<Entry>, depth: int, tag: string, n: nat)
    requires forall i :: 0 <= i < |open| && open[i].record != [] ==> |open[i].record| == 1 && open[i].record[0] < n
    ensures forall i :: 0 <= i < |Owned(open, depth, tag)| ==> Owned(open, depth, tag)[i] < n
  {
    if open != [] {
      OwnedOlder(c, s, open[..|open| - 1], depth, tag, n);
    }
  }

  lemma PutLive(s: State, depth: int, tag: string, stack: seq<nat>)
    ensures Put(s, depth, tag, stack).Live(depth, tag) == stack
    ensures forall d, l :: d != depth || l != tag ==> Put(s, depth, tag, stack).Live(d, l) == s.Live(d, l)
    ensures Put(s, depth, tag, stack).base == s.base
  {
  }

  lemma OwnedMore(open: seq<Entry>, e: Entry, depth: int, tag: string)
    ensures Owned(open + [e], depth, tag) ==
      Owned(open, depth, tag) + if e.depth == depth && e.tag == tag then e.record else []
  {
    assert (open + [e])[..|open|] == open;
  }

  /** A call keeps the records in step with the calls. */
  lemma CallFollows(c: Settings, w: World, e: Event, record: nat)
    requires Follows(w.state, w.open) && IsCall(Kind(e))
    ensures Follows(Step(c, w, e, record).state, Step(c, w, e, record).open)
  {
    var t := Step(c, w, e, record);
    var depth, entry := FrameDepth(w.open, e), Started(c, w, e, record);
    PutLive(Based(c, w.state, Kind(e), depth), depth, e.tag, w.state.Live(depth, e.tag) + [record]);
    forall d, l
      ensures t.state.Live(d, l) == Owned(t.open, d, l)
    {
      OwnedMore(w.open, entry, d, l);
    }
  }

  lemma {:induction false} TopAtLeast(open: seq<Entry>)
    requires Stacked(open)
    ensures open != [] ==> Top(open) >= 0
  {
    if open != [] {
      TopAtLeast(open[..|open| - 1]);
    }
  }

  lemma StartedFits(c: Settings, w: World, e: Event, n: nat)
    requires Stacked(w.open) && IsCall(Kind(e)) && Possible(w.open, e)
    ensures Fits(c, Step(c, w, e, n).state, Started(c, w, e, n), n + 1)
    ensures w.state.base >= 0 ==> Step(c, w, e, n).state.base == w.state.base
    ensures Stacked(w.open + [Started(c, w, e, n)])
  {
    TopAtLeast(w.open);
    var open := w.open + [Started(c, w, e, n)];
    assert open[..|open| - 1] == w.open;
  }

  lemma StartedPasses(c: Settings, w: World, e: Event, n: nat, i: nat)
    requires Stacked(w.open) && IsCall(Kind(e)) && Possible(w.open, e)
    requires i < |w.open| && Fits(c, w.state, w.open[i], n)
    ensures Passes(c, w.open[i], Started(c, w, e, n))
  {
    StackedBelow(w.open, i);
  }

  lemma CallOrderly(c: Settings, w: World, e: Event, n: nat)
    requires Orderly(c, w.state, w.open, n) && IsCall(Kind(e)) && Possible(w.open, e)
    ensures Orderly(c, Step(c, w, e, n).state, Step(c, w, e, n).open, n + 1)
  {
    hide Called, Passes, Stacked, Possible, Top, Recorded, EntryHeard, Fits;
    var t, entry := Step(c, w, e, n), Started(c, w, e, n);
    StartedFits(c, w, e, n);
    forall i: nat | i < |w.open|
      ensures Fits(c, t.state, w.open[i], n + 1) && Passes(c, w.open[i], entry)
      ensures w.open[i].record != [] ==> w.open[i].record[0] < n
    {
      StillFits(c, w.state, t.state, w.open[i], n);
      StartedPasses(c, w, e, n, i);
    }
    OrderlyPlus(c, t.state, w.open, entry, n + 1);
  }

  lemma StillFits(c: Settings, s: State, t: State, e: Entry, n: nat)
    requires Fits(c, s, e, n) && (s.base >= 0 ==> t.base == s.base)
    ensures Fits(c, t, e, n + 1)
    ensures e.record != [] ==> e.record[0] < n
  {
  }

  lemma OrderlyPlus(c: Settings, s: State, open: seq<Entry>, e: Entry, n: nat)
    requires Stacked(open + [e]) && Fits(c, s, e, n)
    requires forall i: nat :: i < |open| ==> Fits(c, s, open[i], n) && Passes(c, open[i], e)
    requires forall i, j :: 0 <= i < j < |open| && open[i].record != [] && open[j].record != [] ==>
      open[i].record[0] < open[j].record[0]
    requires forall i, j :: 0 <= i < j < |open| ==> Passes(c, open[i], open[j])
    requires forall i :: 0 <= i < |open| && open[i].record != [] && e.record != [] ==>
      open[i].record[0] < e.record[0]
    ensures Orderly(c, s, open + [e], n)
  {
    hide Passes, Stacked, Fits;
  }

  /** A return that stops its own record keeps the records in step. */
  lemma ReturnFollows(c: Settings, w: World, e: Event, n: nat)
    requires Follows(w.state, w.open) && Orderly(c, w.state, w.open, n)
    requires !IsCall(Kind(e)) && Possible(w.open, e) && StopsOwn(c, w, e) && EndsAsCalled(w, e)
    ensures Follows(Step(c, w, e, n).state, Step(c, w, e, n).open)
  {
    var t := Step(c, w, e, n);
    var last := w.open[|w.open| - 1];
    var depth := Top(w.open);
    var b := Based(c, w.state, Kind(e), depth);
    var stack := w.state.Live(depth, e.tag);
    assert Fits(c, w.state, last, n);
    if stack != [] {
      PutLive(b, depth, e.tag, stack[..|stack| - 1]);
    }
    forall d, l
      ensures t.state.Live(d, l) == Owned(t.open, d, l)
    {
      assert w.state.Live(d, l) == Owned(w.open, d, l);
      assert b.Live(d, l) == w.state.Live(d, l);
      assert Owned(w.open, d, l) == Owned(t.open, d, l) + if last.depth == d && last.tag == l then last.record else [];
    }
  }

  lemma ReturnOrderly(c: Settings, w: World, e: Event, n: nat)
    requires Orderly(c, w.state, w.open, n) && !IsCall(Kind(e)) && w.open != []
    ensures Orderly(c, Step(c, w, e, n).state, Step(c, w, e, n).open, n + 1)
  {
    var t := Step(c, w, e, n);
    forall i | 0 <= i < |t.open|
      ensures Fits(c, t.state, t.open[i], n + 1)
    {
      assert Fits(c, w.state, w.open[i], n);
    }
  }

  lemma OwnNothing(c: Settings, w: World, e: Event, n: nat)
    requires Follows(w.state, w.open) && Orderly(c, w.state, w.open, n)
    requires !IsCall(Kind(e)) && Possible(w.open, e) && w.open[|w.open| - 1].record == []
    ensures StopsOwn(c, w, e)
  {
    hide Follows, Stacked, Fits;
    if Heard(c, Kind(e)) {
      var k := |w.open| - 1;
      forall i | 0 <= i < |w.open| && w.open[i].depth == Top(w.open)
        ensures w.open[i].record == []
      {
        assert i < k ==> Passes(c, w.open[i], w.open[k]);
      }
      OwnedNothing(w.open, Top(w.open), e.tag);
      FollowsAt(w, Top(w.open), e.tag);
    }
  }

  lemma FollowsAt(w: World, depth: int, tag: string)
    requires Follows(w.state, w.open)
    ensures w.state.Live(depth, tag) == Owned(w.open, depth, tag)
  {
  }

  lemma OwnSomething(c: Settings, w: World, e: Event, n: nat)
    requires Follows(w.state, w.open) && Orderly(c, w.state, w.open, n)
    requires !IsCall(Kind(e)) && Possible(w.open, e) && w.open[|w.open| - 1].record != []
    ensures StopsOwn(c, w, e) <==> EndsAsCalled(w, e)
  {
    hide Follows, Stacked, Passes;
    var k := |w.open| - 1;
    var last, rest := w.open[k], w.open[..k];
    assert Fits(c, w.state, last, n);
    forall i | 0 <= i < |rest| && rest[i].record != []
      ensures |rest[i].record| == 1 && rest[i].record[0] < last.record[0]
    {
      assert Fits(c, w.state, w.open[i], n);
    }
    OwnedOlder(c, w.state, rest, last.depth, e.tag, last.record[0]);
    FollowsAt(w, last.depth, e.tag);
  }

  /** With the records in step, the end of a call stops its own record exactly when a recorded call ends as called. */
  lemma OwnIff(c: Settings, w: World, e: Event, n: nat)
    requires Follows(w.state, w.open) && Orderly(c, w.state, w.open, n)
    requires !IsCall(Kind(e)) && Possible(w.open, e)
    ensures StopsOwn(c, w, e) <==> EndsAsCalled(w, e)
  {
    hide Follows, Orderly;
    if w.open[|w.open| - 1].record == [] {
      OwnNothing(c, w, e, n);
    } else {
      OwnSomething(c, w, e, n);
    }
  }

  lemma {:induction false} Runs(c: Settings, start: seq<Entry>, run: seq<Event>)
    requires Stacked(start) && Unrecorded(start) && Nested(c, start, run)
    ensures Faithful(c, start, run) <==> Stable(c, start, run)
    ensures Orderly(c, After(c, start, run).state, After(c, start, run).open, |run|)
    ensures Stable(c, start, run) ==> Follows(After(c, start, run).state, After(c, start, run).open)
  {
    hide Orderly, Follows, StopsOwn, EndsAsCalled, Step;
    if run == [] {
      Beginning(c, start);
    } else {
      var before, e := run[..|run| - 1], run[|run| - 1];
      var w := After(c, start, before);
      Runs(c, start, before);
      if IsCall(Kind(e)) {
        CallOwn(c, w, e);
        CallOrderly(c, w, e, |before|);
        if Stable(c, start, before) {
          CallFollows(c, w, e, |before|);
        }
      } else {
        ReturnOrderly(c, w, e, |before|);
        if Stable(c, start, before) {
          OwnIff(c, w, e, |before|);
          if EndsAsCalled(w, e) {
            ReturnFollows(c, w, e, |before|);
          }
        }
      }
    }
  }

  lemma CallOwn(c: Settings, w: World, e: Event)
    requires IsCall(Kind(e))
    ensures StopsOwn(c, w, e) && EndsAsCalled(w, e)
  {
  }

  lemma Beginning(c: Settings, start: seq<Entry>)
    requires Stacked(start) && Unrecorded(start)
    ensures Orderly(c, INITIAL, start, 0) && Follows(INITIAL, start)
  {
    forall depth, tag
      ensures INITIAL.Live(depth, tag) == Owned(start, depth, tag)
    {
      OwnedNothing(start, depth, tag);
    }
  }

  /** On every well nested run, with C events on or off, the end of every call stops the record of that call, or
      nothing if it was too deep, filtered or older than the profiler, exactly when every recorded call ends by a
      return and with the label it was called with. */
  lemma FaithfulIff(c: Settings, start: seq<Entry>, run: seq<Event>)
    requires Stacked(start) && Unrecorded(start) && Nested(c, start, run)
    ensures Faithful(c, start, run) <==> Stable(c, start, run)
  {
    Runs(c, start, run);
  }

  lemma {:induction false} OwnedOne(c: Settings, open: seq<Entry>, depth: int, tag: string)
    requires Stacked(open) && forall i :: 0 <= i < |open| && open[i].record != [] ==> open[i].python && |open[i].record| == 1
    ensures |Owned(open, depth, tag)| <= 1
    ensures Owned(open, depth, tag) != [] ==>
      forall other :: other != tag ==> Owned(open, depth, other) == []
  {
    if open != [] {
      var rest, e := open[..|open| - 1], open[|open| - 1];
      OwnedOne(c, rest, depth, tag);
      forall other | other != tag
        ensures Owned(open, depth, tag) != [] ==> Owned(open, depth, other) == []
      {
        OwnedOne(c, rest, depth, other);
        if e.depth == depth && e.python {
          OwnedDeeper(rest, depth, tag);
          OwnedDeeper(rest, depth, other);
        }
      }
      if e.depth == depth && e.python {
        OwnedDeeper(rest, depth, tag);
      }
    }
  }

  lemma OwnedDeeper(open: seq<Entry>, depth: int, tag: string)
    requires Stacked(open) && depth == Top(open) + 1
    ensures Owned(open, depth, tag) == []
  {
    forall i | 0 <= i < |open|
      ensures open[i].depth != depth
    {
      StackedBelow(open, i);
    }
    OwnedNothing(open, depth, tag);
  }

  /** When recorded calls end as called and C events are off, no depth has more than one live record. */
  lemma OnePerDepth(c: Settings, start: seq<Entry>, run: seq<Event>, depth: int, tag: string, other: string)
    requires Stacked(start) && Unrecorded(start) && Nested(c, start, run) && Stable(c, start, run) && !c.traceC
    ensures
      var s := After(c, start, run).state;
      |s.Live(depth, tag)| <= 1 && (s.Live(depth, tag) != [] && s.Live(depth, other) != [] ==> tag == other)
  {
    Runs(c, start, run);
    var w := After(c, start, run);
    forall i | 0 <= i < |w.open| && w.open[i].record != []
      ensures w.open[i].python && |w.open[i].record| == 1
    {
      assert Fits(c, w.state, w.open[i], |run|);
    }
    OwnedOne(c, w.open, depth, tag);
  }

  /** When recorded calls end as called, once every call made under the profiler has returned, no record is live. */
  lemma NothingLeftOver(c: Settings, start: seq<Entry>, run: seq<Event>, depth: int, tag: string)
    requires Stacked(start) && Unrecorded(start) && Nested(c, start, run) && Stable(c, start, run)
    requires Unrecorded(After(c, start, run).open)
    ensures After(c, start, run).state.Live(depth, tag) == []
  {
    Runs(c, start, run);
    OwnedNothing(After(c, start, run).open, depth, tag);
  }

  /** With the line number in its label a call is left running when it returns on another line. */
  lemma LineNumbersMislead(c: Settings)
    requires c.active && c.maxDepth >= -3
    ensures
      var run := [Call("f:1", false), Return("f:2")];
      Nested(c, [], run) && !Faithful(c, [], run) && After(c, [], run).open == [] &&
      After(c, [], run).state.Live(0, "f:1") == [0]
  {
    var call, return_ := Call("f:1", false), Return("f:2");
    Next(c, [], [], call);
    var r1: seq<Event> := [] + [call];
    FirstCall(c, call);
    Next(c, [], r1, return_);
    assert r1 + [return_] == [call, return_];
  }

  /** A C call that raises is left running, and the function it was called from ends that record in place of its own. */
  lemma ExceptionsMislead(c: Settings)
    requires c.active && c.traceC && c.maxDepth >= -3
    ensures
      var run := [Call("f", false), CCall("f"), CException("f"), Return("f")];
      var before := run[..3];
      Nested(c, [], run) && !Faithful(c, [], run) && After(c, [], run).open == [] &&
      Stopped(c, After(c, [], before).state, RETURN, 0, "f", false) == [1] && After(c, [], run).state.Live(0, "f") == [0]
  {
    hide After, Nested, Faithful, Step, Called, Stopped, StopsOwn;
    var call, inner, raise, return_ := Call("f", false), CCall("f"), CException("f"), Return("f");
    NoRun(c);
    Next(c, [], [], call);
    var r1: seq<Event> := [] + [call];
    FirstCall(c, call);
    Next(c, [], r1, inner);
    var r2 := r1 + [inner];
    InnerCall(c);
    Next(c, [], r2, raise);
    var r3 := r2 + [raise];
    InnerRaises(c, After(c, [], r2));
    Next(c, [], r3, return_);
    OuterReturns(c, After(c, [], r3));
    assert r3 == [call, inner, raise, return_][..3] && r3 + [return_] == [call, inner, raise, return_];
  }

  lemma NoRun(c: Settings)
    ensures After(c, [], []) == World(INITIAL, []) && Nested(c, [], []) && Faithful(c, [], [])
  {
  }

  lemma InnerRaises(c: Settings, w: World)
    requires w.open == [Entry(true, 0, false, "f", [0]), Entry(false, 0, false, "f", [1])]
    ensures Step(c, w, CException("f"), 2) == World(w.state, w.open[..1]) && !StopsOwn(c, w, CException("f"))
  {
  }

  lemma OuterReturns(c: Settings, w: World)
    requires w.open == [Entry(true, 0, false, "f", [0])] && w.state.Live(0, "f") == [0, 1] && w.state.base == 0 && c.active
    ensures Stopped(c, w.state, RETURN, 0, "f", false) == [1]
    ensures Step(c, w, Return("f"), 3).open == [] && Step(c, w, Return("f"), 3).state.Live(0, "f") == [0]
  {
    assert [0, 1][..1] == [0];
  }

  lemma InnerCall(c: Settings)
    requires c.active && c.traceC && c.maxDepth >= -3
    ensures
      var w := World(State(map[0 := map["f" := [0]]], 0), [Entry(true, 0, false, "f", [0])]);
      var t := Step(c, w, CCall("f"), 1);
      t.state.Live(0, "f") == [0, 1] && t.state.base == 0 &&
      t.open == [Entry(true, 0, false, "f", [0]), Entry(false, 0, false, "f", [1])]
  {
  }

  lemma Next(c: Settings, start: seq<Entry>, run: seq<Event>, e: Event)
    ensures After(c, start, run + [e]) == Step(c, After(c, start, run), e, |run|)
    ensures Nested(c, start, run + [e]) <==> Nested(c, start, run) && Possible(After(c, start, run).open, e)
    ensures Faithful(c, start, run + [e]) <==> Faithful(c, start, run) && StopsOwn(c, After(c, start, run), e)
  {
    var more := run + [e];
    assert more[..|more| - 1] == run && more[|more| - 1] == e;
  }

  lemma FirstCall(c: Settings, e: Event)
    requires e.Call? && c.active && c.maxDepth >= -3 && !e.skip && e.tag != ""
    ensures
      var w := Step(c, World(INITIAL, []), e, 0);
      w == World(State(map[0 := map[e.tag := [0]]], 0), [Entry(true, 0, false, e.tag, [0])])
  {
    var w := Step(c, World(INITIAL, []), e, 0);
    assert w.state.records == map[0 := map[e.tag := [0]]] by {
      assert w.state.records.Keys == {0};
      assert w.state.records[0].Keys == {e.tag} && w.state.records[0][e.tag] == [0];
      assert w.state.records[0] == map[e.tag := [0]];
    }
  }
}

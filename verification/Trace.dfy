/** The trace protocol of one thread: pushes that may be dropped, pops that never are, and throttling. */
module Trace {

  datatype Hash = Hash(value: nat)

  /** The measurement a push starts. */
  datatype Bundle = Bundle(serial: nat)

  /** The clock that runs between a push and a pop of one id, and how many pops it has seen since it was reset. */
  datatype Overhead = Overhead(accum: nat, count: nat)

  /** The throttle settings: how many pops make a window, and the mean time below which an id is throttled. */
  datatype Settings = Settings(window: nat, limit: nat)

  datatype State = State(
    stacks: map<Hash, seq<Bundle>>, overhead: map<Hash, Overhead>, throttled: set<Hash>,
    ready: bool, finished: bool, uses: nat, enabled: bool) {

    function Stack(id: Hash): seq<Bundle> {
      if id in stacks then stacks[id] else []
    }

    function Clock(id: Hash): Overhead {
      if id in overhead then overhead[id] else Overhead(0, 0)
    }
  }

  const INITIAL := State(map[], map[], {}, false, false, 0, true)

  /** What can happen to a thread; managed, free and known are what the rest of the library answers at that moment. */
  datatype Event =
    | Push(id: Hash, managed: bool, free: bool, known: bool, bundle: Bundle)
    | Pop(id: Hash, elapsed: nat)
    | SetEnabled(on: bool)
    | InitLibrary
    | Init(managed: bool)
    | ResetThrottle(id: Hash)
    | Finalize(managed: bool, clears: bool)

  /** After trace_init, which a push calls when the trace is not initialised. */
  ghost function Started(s: State, managed: bool): State {
    if !managed || s.ready then s
    else s.(ready := s.uses == 0, uses := s.uses + 1)
  }

  ghost function Prepared(s: State, managed: bool): State {
    if s.ready && s.uses > 0 then s else Started(s, managed)
  }

  /** A push is kept when the lock is free, the library runs, the id is not throttled and its name is known. */
  ghost predicate Kept(s: State, e: Event)
    requires e.Push?
  {
    var p := Prepared(s, e.managed);
    e.free && p.ready && !p.finished && p.enabled && e.id !in p.throttled && e.known
  }

  ghost function Pushed(s: State, e: Event): State
    requires e.Push?
  {
    var p := Prepared(s, e.managed);
    if Kept(s, e) then
      p.(stacks := p.stacks[e.id := p.Stack(e.id) + [e.bundle]], overhead := p.overhead[e.id := p.Clock(e.id)])
    else p
  }

  /** A pop reaches the clock. */
  ghost predicate Timed(s: State, e: Event, id: Hash) {
    e.Pop? && e.id == id && s.ready && !s.finished && (s.enabled || s.stacks != map[])
  }

  /** A pop counts towards the window. */
  ghost predicate Counted(s: State, e: Event, id: Hash) {
    Timed(s, e, id) && s.Stack(id) != [] && id !in s.throttled
  }

  /** The integer mean time of the pops a clock has counted. */
  function Mean(clock: Overhead): nat
    requires clock.count > 0
  {
    clock.accum / clock.count
  }

  predicate EndsWindow(c: Settings, count: nat)
    requires c.window > 0
  {
    count % c.window == 0
  }

  /** The mean time of a full window is below the limit. */
  ghost predicate TooShort(c: Settings, total: nat) {
    total < c.limit * c.window
  }

  ghost function Popped(c: Settings, s: State, e: Event): State
    requires c.window > 0 && e.Pop?
  {
    var stack := s.Stack(e.id);
    var total := s.Clock(e.id).accum + e.elapsed;
    var count := s.Clock(e.id).count + 1;
    if !Timed(s, e, e.id) then s
    else
      var rest := if stack == [] then [] else stack[..|stack| - 1];
      var clock :=
        if !Counted(s, e, e.id) then Overhead(total, count - 1)
        else if EndsWindow(c, count) then Overhead(0, 0)
        else Overhead(total, count);
      var short := Counted(s, e, e.id) && EndsWindow(c, count) && Mean(Overhead(total, count)) < c.limit;
      s.(stacks := s.stacks[e.id := rest], overhead := s.overhead[e.id := clock],
         throttled := if short then s.throttled + {e.id} else s.throttled)
  }

  ghost function Finalized(s: State, e: Event): State
    requires e.Finalize?
  {
    if s.uses == 0 || !e.managed then s
    else if s.uses > 1 then s.(uses := s.uses - 1)
    else s.(uses := 0, finished := true, enabled := false, stacks := if e.clears then map[] else s.stacks)
  }

  ghost function Step(c: Settings, s: State, e: Event): State
    requires c.window > 0
  {
    match e
    case Push(_, _, _, _, _) => Pushed(s, e)
    case Pop(_, _) => Popped(c, s, e)
    case SetEnabled(on) => s.(enabled := on)
    case InitLibrary => s.(ready := true)
    case Init(managed) => Started(s, managed)
    case ResetThrottle(id) => s.(throttled := s.throttled - {id})
    case Finalize(_, _) => Finalized(s, e)
  }

  ghost function After(c: Settings, run: seq<Event>): State
    requires c.window > 0
  {
    if run == [] then INITIAL else Step(c, After(c, run[..|run| - 1]), run[|run| - 1])
  }

  lemma TimedMeans(s: State, e: Event)
    requires e.Pop?
    ensures Timed(s, e, e.id) <==> s.ready && !s.finished && (s.enabled || s.stacks != map[])
    ensures Counted(s, e, e.id) <==> Timed(s, e, e.id) && s.Stack(e.id) != [] && e.id !in s.throttled
  {
  }

  lemma NotPopped(c: Settings, s: State, e: Event)
    requires c.window > 0 && e.Pop? && !Timed(s, e, e.id)
    ensures Popped(c, s, e) == s
  {
  }

  /** A pop without an entry only stops the clock. */
  lemma NothingStored(c: Settings, s: State, e: Event)
    requires c.window > 0 && e.Pop? && Timed(s, e, e.id) && s.Stack(e.id) == []
    ensures Popped(c, s, e).stacks == s.stacks[e.id := []] && Popped(c, s, e).throttled == s.throttled
    ensures Popped(c, s, e).overhead == s.overhead[e.id := s.Clock(e.id).(accum := s.Clock(e.id).accum + e.elapsed)]
    ensures Popped(c, s, e).(stacks := s.stacks, overhead := s.overhead, throttled := s.throttled) == s
  {
    hide EndsWindow, Mean;
  }

  lemma StoredUncounted(c: Settings, s: State, e: Event)
    requires c.window > 0 && e.Pop? && Timed(s, e, e.id) && s.Stack(e.id) != [] && e.id in s.throttled
    ensures Popped(c, s, e).stacks == s.stacks[e.id := s.Stack(e.id)[..|s.Stack(e.id)| - 1]]
    ensures Popped(c, s, e).throttled == s.throttled
    ensures Popped(c, s, e).overhead == s.overhead[e.id := s.Clock(e.id).(accum := s.Clock(e.id).accum + e.elapsed)]
    ensures Popped(c, s, e).(stacks := s.stacks, overhead := s.overhead, throttled := s.throttled) == s
  {
    hide EndsWindow, Mean;
  }

  /** A pop that counts: its entry goes, and a full window is judged and starts again. */
  lemma StoredCounted(c: Settings, s: State, e: Event)
    requires c.window > 0 && e.Pop? && Counted(s, e, e.id)
    ensures Popped(c, s, e).stacks == s.stacks[e.id := s.Stack(e.id)[..|s.Stack(e.id)| - 1]]
    ensures
      var clock := Overhead(s.Clock(e.id).accum + e.elapsed, s.Clock(e.id).count + 1);
      var ends := EndsWindow(c, clock.count);
      Popped(c, s, e).overhead == s.overhead[e.id := if ends then Overhead(0, 0) else clock] &&
      Popped(c, s, e).throttled == if ends && Mean(clock) < c.limit then s.throttled + {e.id} else s.throttled
    ensures Popped(c, s, e).(stacks := s.stacks, overhead := s.overhead, throttled := s.throttled) == s
  {
    hide EndsWindow, Mean;
  }

  /** One thread's trace, with the library flags it sees. */
  class Tracer {
    const settings: Settings
    var stacks: map<Hash, seq<Bundle>>
    var overhead: map<Hash, Overhead>
    var throttled: set<Hash>
    var ready: bool
    var finished: bool
    var uses: nat
    var enabled: bool

    ghost function Now(): State
      reads this
    {
      State(stacks, overhead, throttled, ready, finished, uses, enabled)
    }

    constructor (settings: Settings)
      ensures this.settings == settings && Now() == INITIAL
    {
      this.settings := settings;
      stacks, overhead, throttled := map[], map[], {};
      ready, finished, uses, enabled := false, false, 0, true;
    }

    predicate IsInitialized()
      reads this
    {
      ready && uses > 0
    }

    method Init(managed: bool)
      modifies this`ready, this`uses
      ensures Now() == Started(old(Now()), managed)
    {
      if !managed {
        return;
      }
      if !ready {
        var first := uses == 0;
        uses := uses + 1;
        if first {
          ready := true;
        }
      }
    }

    method PushTrace(id: Hash, managed: bool, free: bool, known: bool, bundle: Bundle)
      modifies this
      ensures Now() == Pushed(old(Now()), Push(id, managed, free, known, bundle))
    {
      if !IsInitialized() {
        Init(managed);
      }
      if !free {
        return;
      }
      if !ready || finished || !enabled {
        return;
      }
      if id in throttled {
        return;
      }
      if !known {
        return;
      }
      if id !in stacks {
        stacks := stacks[id := []];
      }
      stacks := stacks[id := stacks[id] + [bundle]];
      if id !in overhead {
        overhead := overhead[id := Overhead(0, 0)];
      }
    }

    /** The pop takes the lock but does not look at whether it got it. */
    method PopTrace(id: Hash, elapsed: nat) returns (stopped: seq<Bundle>)
      requires settings.window > 0
      modifies this
      ensures Now() == Popped(settings, old(Now()), Pop(id, elapsed))
      ensures old(Now()).Stack(id) == Now().Stack(id) + stopped && |stopped| <= 1
    {
      hide EndsWindow, Mean, Popped, Counted, Timed;
      ghost var s, e := Now(), Pop(id, elapsed);
      stopped := [];
      TimedMeans(s, e);
      if !ready || finished {
        NotPopped(settings, s, e);
        return;
      }
      if !enabled && stacks == map[] {
        NotPopped(settings, s, e);
        return;
      }
      if id !in stacks {
        stacks := stacks[id := []];
      }
      var offset := |stacks[id]| - 1;
      var clock := if id in overhead then overhead[id] else Overhead(0, 0);
      clock := clock.(accum := clock.accum + elapsed);
      overhead := overhead[id := clock];
      if offset < 0 {
        NothingStored(settings, s, e);
        return;
      }
      stopped := [stacks[id][offset]];
      stacks := stacks[id := stacks[id][..offset]];
      if id in throttled {
        StoredUncounted(settings, s, e);
        return;
      }
      CountPop(id);
      assert overhead == s.overhead[id := overhead[id]];
      StoredCounted(settings, s, e);
    }

    /** One more counted pop: a full window is judged by its mean and starts again. */
    method CountPop(id: Hash)
      requires settings.window > 0 && id in overhead
      modifies this`overhead, this`throttled
      ensures
        var clock := old(overhead)[id].(count := old(overhead)[id].count + 1);
        var ends := EndsWindow(settings, clock.count);
        overhead == old(overhead)[id := if ends then Overhead(0, 0) else clock] &&
        throttled == if ends && Mean(clock) < settings.limit then old(throttled) + {id} else old(throttled)
    {
      hide EndsWindow, Mean;
      var clock := overhead[id].(count := overhead[id].count + 1);
      overhead := overhead[id := clock];
      if EndsWindow(settings, clock.count) {
        if Mean(clock) < settings.limit {
          throttled := throttled + {id};
        }
        overhead := overhead[id := Overhead(0, 0)];
      }
    }

    method Reset(id: Hash)
      modifies this`throttled
      ensures Now() == old(Now()).(throttled := old(throttled) - {id})
    {
      if id in throttled {
        throttled := throttled - {id};
      }
    }

    method FinalizeTrace(managed: bool, clears: bool)
      modifies this
      ensures Now() == Finalized(old(Now()), Finalize(managed, clears))
    {
      if uses == 0 {
        return;
      }
      if !managed {
        return;
      }
      uses := uses - 1;
      if uses > 0 {
        return;
      }
      finished := true;
      if clears {
        stacks := map[];
      }
      enabled := false;
    }
  }

  // --- The stacks never outgrow the program ---

  /** How many calls of id the program has open; a pop without a push opens nothing. */
  ghost function Depth(run: seq<Event>, id: Hash): nat {
    if run == [] then 0
    else
      var d, e := Depth(run[..|run| - 1], id), run[|run| - 1];
      if e.Push? && e.id == id then d + 1
      else if e.Pop? && e.id == id && d > 0 then d - 1
      else d
  }

  /** Before the library is ready nothing is stored. */
  ghost predicate Empty(s: State) {
    !s.ready ==> s.stacks == map[]
  }

  lemma StepEmpty(c: Settings, s: State, e: Event)
    requires c.window > 0 && Empty(s)
    ensures Empty(Step(c, s, e))
  {
  }

  lemma {:induction false} AlwaysEmpty(c: Settings, run: seq<Event>)
    requires c.window > 0
    ensures Empty(After(c, run))
  {
    if run != [] {
      AlwaysEmpty(c, run[..|run| - 1]);
      StepEmpty(c, After(c, run[..|run| - 1]), run[|run| - 1]);
    }
  }

  lemma PushGrows(s: State, e: Event, id: Hash)
    requires e.Push?
    ensures |Pushed(s, e).Stack(id)| <= |s.Stack(id)| + if e.id == id then 1 else 0
  {
  }

  lemma PopShrinks(c: Settings, s: State, e: Event, id: Hash)
    requires c.window > 0 && e.Pop? && Empty(s) && !s.finished
    ensures Popped(c, s, e).Stack(id) == (
      if e.id == id && s.Stack(id) != [] then s.Stack(id)[..|s.Stack(id)| - 1] else s.Stack(id))
  {
  }

  lemma OtherStack(c: Settings, s: State, e: Event, id: Hash)
    requires c.window > 0 && !e.Push? && !e.Pop?
    ensures Step(c, s, e).Stack(id) == s.Stack(id) || Step(c, s, e).Stack(id) == []
    ensures !Step(c, s, e).finished ==> Step(c, s, e).Stack(id) == s.Stack(id)
  {
  }

  /** Before finalisation a stack is never longer than the nesting of calls of its id, whichever pushes were dropped. */
  lemma {:induction false} StacksBounded(c: Settings, run: seq<Event>, id: Hash)
    requires c.window > 0 && !After(c, run).finished
    ensures |After(c, run).Stack(id)| <= Depth(run, id)
  {
    hide Pushed, Popped, Timed, Counted, Kept, Finalized, Started, State.Stack;
    if run == [] {
      NoStack(id);
    } else {
      var before, e := run[..|run| - 1], run[|run| - 1];
      FinishedStays(c, After(c, before), e);
      StacksBounded(c, before, id);
      AlwaysEmpty(c, before);
      if e.Push? {
        PushGrows(After(c, before), e, id);
      } else if e.Pop? {
        PopShrinks(c, After(c, before), e, id);
      } else {
        OtherStack(c, After(c, before), e, id);
      }
    }
  }

  lemma NoStack(id: Hash)
    ensures INITIAL.Stack(id) == []
  {
  }

  lemma FinishedStays(c: Settings, s: State, e: Event)
    requires c.window > 0
    ensures s.finished ==> Step(c, s, e).finished
  {
  }

  ghost function Pushes(run: seq<Event>, id: Hash): nat {
    if run == [] then 0
    else Pushes(run[..|run| - 1], id) + if run[|run| - 1].Push? && run[|run| - 1].id == id then 1 else 0
  }

  ghost function Pops(run: seq<Event>, id: Hash): nat {
    if run == [] then 0
    else Pops(run[..|run| - 1], id) + if run[|run| - 1].Pop? && run[|run| - 1].id == id then 1 else 0
  }

  /** At no time have there been more pops of id than pushes. */
  ghost predicate Nested(run: seq<Event>, id: Hash) {
    run == [] || (Nested(run[..|run| - 1], id) && Pops(run, id) <= Pushes(run, id))
  }

  lemma {:induction false} NestedDepth(run: seq<Event>, id: Hash)
    requires Nested(run, id)
    ensures Pops(run, id) <= Pushes(run, id) && Depth(run, id) == Pushes(run, id) - Pops(run, id)
  {
    if run != [] {
      NestedDepth(run[..|run| - 1], id);
    }
  }

  /** A balanced run leaves the stack empty. */
  lemma BalancedLeavesNothing(c: Settings, run: seq<Event>, id: Hash)
    requires c.window > 0 && !After(c, run).finished
    requires Nested(run, id) && Pushes(run, id) == Pops(run, id)
    ensures After(c, run).Stack(id) == []
  {
    StacksBounded(c, run, id);
    NestedDepth(run, id);
  }

  // --- Which measurement a pop stops ---

  /** The open calls of id as the program sees them, each with the measurement that was started for it, if any. */
  ghost function Open(c: Settings, run: seq<Event>, id: Hash): seq<seq<Bundle>>
    requires c.window > 0
  {
    if run == [] then []
    else
      var open, e := Open(c, run[..|run| - 1], id), run[|run| - 1];
      if e.Push? && e.id == id then open + [if Kept(After(c, run[..|run| - 1]), e) then [e.bundle] else []]
      else if e.Pop? && e.id == id && open != [] then open[..|open| - 1]
      else open
  }

  ghost function Joined(open: seq<seq<Bundle>>): seq<Bundle> {
    if open == [] then [] else Joined(open[..|open| - 1]) + open[|open| - 1]
  }

  /** What an event takes off the stack of id. */
  ghost function Taken(c: Settings, s: State, e: Event, id: Hash): (t: seq<Bundle>)
    requires c.window > 0
  {
    if Timed(s, e, id) && s.Stack(id) != [] then [s.Stack(id)[|s.Stack(id)| - 1]] else []
  }

  /** Every pop of id stopped the measurement of the call it closes, or nothing if there is none. */
  ghost predicate Honest(c: Settings, run: seq<Event>, id: Hash)
    requires c.window > 0
  {
    run == [] ||
    (var before, e := run[..|run| - 1], run[|run| - 1];
     Honest(c, before, id) &&
     (e.Pop? && e.id == id ==>
        var open := Open(c, before, id);
        Taken(c, After(c, before), e, id) == if open == [] then [] else open[|open| - 1]))
  }

  /** No pop of id closed a call that was dropped while an outer call of id was being measured. */
  ghost predicate NoDropInside(c: Settings, run: seq<Event>, id: Hash)
    requires c.window > 0
  {
    run == [] ||
    (var before, e := run[..|run| - 1], run[|run| - 1];
     NoDropInside(c, before, id) &&
     (e.Pop? && e.id == id ==>
        var open := Open(c, before, id);
        open != [] && open[|open| - 1] == [] ==> Joined(open) == []))
  }

  lemma {:induction false} HonestStacks(c: Settings, run: seq<Event>, id: Hash)
    requires c.window > 0 && !After(c, run).finished && Honest(c, run, id)
    ensures After(c, run).Stack(id) == Joined(Open(c, run, id))
  {
    hide Pushed, Popped, Joined, Timed, Counted, Taken, Kept, Finalized, Started;
    if run == [] {
      NothingJoined();
    } else {
      var before, e := run[..|run| - 1], run[|run| - 1];
      FinishedStays(c, After(c, before), e);
      HonestStacks(c, before, id);
      AlwaysEmpty(c, before);
      var s, open := After(c, before), Open(c, before, id);
      if e.Push? && e.id == id {
        HonestPush(s, open, e);
      } else if e.Pop? && e.id == id {
        if open == [] {
          NothingPopped(c, s, e);
        } else {
          HonestPop(c, s, open, e);
        }
      } else {
        ElsewhereStack(c, s, e, id);
      }
    }
  }

  lemma HonestPush(s: State, open: seq<seq<Bundle>>, e: Event)
    requires e.Push? && Empty(s) && s.Stack(e.id) == Joined(open)
    ensures Pushed(s, e).Stack(e.id) == Joined(open + [if Kept(s, e) then [e.bundle] else []])
  {
    var last := if Kept(s, e) then [e.bundle] else [];
    var more := open + [last];
    assert more[..|more| - 1] == open;
    assert Joined(more) == Joined(open) + last;
  }

  lemma HonestPop(c: Settings, s: State, open: seq<seq<Bundle>>, e: Event)
    requires c.window > 0 && e.Pop? && Empty(s) && !s.finished && s.Stack(e.id) == Joined(open) && open != []
    requires Taken(c, s, e, e.id) == open[|open| - 1]
    ensures Popped(c, s, e).Stack(e.id) == Joined(open[..|open| - 1])
  {
    var last := open[|open| - 1];
    var rest := Joined(open[..|open| - 1]);
    assert Joined(open) == rest + last;
    if last == [] {
      assert rest + last == rest;
    } else {
      assert (rest + last)[..|rest + last| - 1] == rest;
    }
  }

  lemma NothingJoined()
    ensures Joined([]) == []
  {
  }

  lemma NothingPopped(c: Settings, s: State, e: Event)
    requires c.window > 0 && e.Pop? && s.Stack(e.id) == Joined([])
    ensures Popped(c, s, e).Stack(e.id) == Joined([])
  {
  }

  lemma ElsewhereStack(c: Settings, s: State, e: Event, id: Hash)
    requires c.window > 0 && Empty(s) && !s.finished && !Step(c, s, e).finished
    requires !((e.Push? || e.Pop?) && e.id == id)
    ensures Step(c, s, e).Stack(id) == s.Stack(id)
  {
    if !e.Push? && !e.Pop? {
      OtherStack(c, s, e, id);
    }
  }

  lemma {:induction false} OneEach(c: Settings, run: seq<Event>, id: Hash)
    requires c.window > 0
    ensures forall i :: 0 <= i < |Open(c, run, id)| ==> |Open(c, run, id)[i]| <= 1
  {
    if run != [] {
      OneEach(c, run[..|run| - 1], id);
    }
  }

  lemma TakenIff(c: Settings, s: State, open: seq<seq<Bundle>>, e: Event)
    requires c.window > 0 && e.Pop? && Empty(s) && !s.finished && s.Stack(e.id) == Joined(open)
    requires open != [] ==> |open[|open| - 1]| <= 1
    ensures Taken(c, s, e, e.id) == (if open == [] then [] else open[|open| - 1]) <==>
      (open != [] && open[|open| - 1] == [] ==> Joined(open) == [])
  {
    if open != [] {
      assert Joined(open) == Joined(open[..|open| - 1]) + open[|open| - 1];
    }
  }

  /** Pops stop the right measurements exactly when no dropped call was closed inside a measured call of the same id. */
  lemma {:induction false} HonestIff(c: Settings, run: seq<Event>, id: Hash)
    requires c.window > 0 && !After(c, run).finished
    ensures Honest(c, run, id) <==> NoDropInside(c, run, id)
  {
    hide Pushed, Popped, Joined, Timed, Counted, Taken, Kept, Finalized, Started;
    if run != [] {
      var before, e := run[..|run| - 1], run[|run| - 1];
      FinishedStays(c, After(c, before), e);
      HonestIff(c, before, id);
      if Honest(c, before, id) && e.Pop? && e.id == id {
        HonestStacks(c, before, id);
        AlwaysEmpty(c, before);
        OneEach(c, before, id);
        TakenIff(c, After(c, before), Open(c, before, id), e);
      }
    }
  }

  /** One more event: the definitions over runs, unrolled once. */
  lemma Next(c: Settings, run: seq<Event>, e: Event, id: Hash)
    requires c.window > 0
    ensures After(c, run + [e]) == Step(c, After(c, run), e)
    ensures Depth(run + [e], id) == (
      if e.Push? && e.id == id then Depth(run, id) + 1
      else if e.Pop? && e.id == id && Depth(run, id) > 0 then Depth(run, id) - 1
      else Depth(run, id))
    ensures e.Push? && e.id == id ==>
      Open(c, run + [e], id) == Open(c, run, id) + [if Kept(After(c, run), e) then [e.bundle] else []]
    ensures !((e.Push? || e.Pop?) && e.id == id) ==> Open(c, run + [e], id) == Open(c, run, id)
    ensures Pushes(run + [e], id) == Pushes(run, id) + if e.Push? && e.id == id then 1 else 0
    ensures Pops(run + [e], id) == Pops(run, id) + if e.Pop? && e.id == id then 1 else 0
    ensures Nested(run, id) && Pops(run + [e], id) <= Pushes(run + [e], id) ==> Nested(run + [e], id)
  {
    var more := run + [e];
    assert more[..|more| - 1] == run && more[|more| - 1] == e;
  }

  lemma Dishonest(c: Settings, run: seq<Event>, e: Event, id: Hash)
    requires c.window > 0 && e.Pop? && e.id == id && Open(c, run, id) != []
    requires Taken(c, After(c, run), e, id) != Open(c, run, id)[|Open(c, run, id)| - 1]
    ensures !Honest(c, run + [e], id)
  {
    hide After, Open, Taken;
    var more := run + [e];
    assert more[..|more| - 1] == run && more[|more| - 1] == e;
  }

  /** Whether a push is kept, and what it leaves, seen from the library's flags alone. */
  lemma Running(c: Settings, s: State, e: Event)
    requires c.window > 0 && e.Push? && e.free && e.known && s.ready && s.uses > 0 && !s.finished
    requires e.id !in s.throttled
    ensures Kept(s, e) <==> s.enabled
    ensures s.enabled ==> Step(c, s, e).Stack(e.id) == s.Stack(e.id) + [e.bundle]
    ensures s.enabled ==> Step(c, s, e).(stacks := s.stacks, overhead := s.overhead) == s
    ensures !s.enabled ==> Step(c, s, e) == s
  {
  }

  /** It can go wrong: a recursive call made while the library is disabled ends the outer call's measurement. */
  lemma DropInsideMisleads(c: Settings, id: Hash, b: Bundle, other: Bundle)
    requires c.window > 0
    ensures
      var run := [Init(true), Push(id, true, true, true, b), SetEnabled(false), Push(id, true, true, true, other),
                  Pop(id, 0)];
      Nested(run, id) && !After(c, run).finished && Depth(run, id) == 1 && After(c, run).Stack(id) == [] &&
      !Honest(c, run, id)
  {
    hide After, Depth, Open, Pushes, Pops, Nested, Honest, Pushed, Kept;
    var push, inner, off, pop := Push(id, true, true, true, b), Push(id, true, true, true, other), SetEnabled(false),
      Pop(id, 0);
    NothingYet(c, id);
    Next(c, [], Init(true), id);
    var r1: seq<Event> := [] + [Init(true)];
    Running(c, After(c, r1), push);
    Next(c, r1, push, id);
    var r2 := r1 + [push];
    Next(c, r2, off, id);
    var r3 := r2 + [off];
    Running(c, After(c, r3), inner);
    Next(c, r3, inner, id);
    var r4 := r3 + [inner];
    Next(c, r4, pop, id);
    Dishonest(c, r4, pop, id);
    assert r4 + [pop] == [Init(true), push, off, inner, pop];
  }

  lemma NothingYet(c: Settings, id: Hash)
    requires c.window > 0
    ensures After(c, []) == INITIAL && Depth([], id) == 0 && Open(c, [], id) == [] && Nested([], id)
    ensures Pushes([], id) == 0 && Pops([], id) == 0
  {
  }

  // --- Throttling ---

  /** How many pops of id have counted since the start. */
  ghost function Tally(c: Settings, run: seq<Event>, id: Hash): nat
    requires c.window > 0
  {
    if run == [] then 0
    else Tally(c, run[..|run| - 1], id) + if Counted(After(c, run[..|run| - 1]), run[|run| - 1], id) then 1 else 0
  }

  /** The time the clock of id has collected since its last full window. */
  ghost function Spent(c: Settings, run: seq<Event>, id: Hash): nat
    requires c.window > 0
  {
    if run == [] then 0
    else
      var before, e := run[..|run| - 1], run[|run| - 1];
      if Counted(After(c, before), e, id) && Tally(c, run, id) % c.window == 0 then 0
      else Spent(c, before, id) + if Timed(After(c, before), e, id) then e.elapsed else 0
  }

  lemma NextModulo(n: nat, w: nat)
    requires w > 0
    ensures (n + 1) % w == (if n % w + 1 == w then 0 else n % w + 1)
  {
    var q := n / w;
    assert n == q * w + n % w;
    if n % w + 1 == w {
      Modulo(q + 1, w, 0);
      assert n + 1 == (q + 1) * w;
    } else {
      Modulo(q, w, n % w + 1);
    }
  }

  lemma Modulo(q: nat, w: nat, r: nat)
    requires r < w
    ensures (q * w + r) % w == r
  {
    var n := q * w + r;
    var d := n / w - q;
    assert d * w == r - n % w;
    Multiple(d, w);
  }

  lemma Multiple(d: int, w: nat)
    ensures d == 0 || d * w >= w || d * w <= -(w as int)
  {
    if d > 0 {
      assert (d - 1) * w >= 0;
    } else if d < 0 {
      assert (-1 - d) * w >= 0;
    }
  }

  lemma TimesAtMost(a: nat, b: nat, w: nat)
    requires a <= b
    ensures a * w <= b * w
  {
    assert (b - a) * w >= 0;
  }

  lemma BelowModulo(k: nat, w: nat)
    requires 0 < k <= w
    ensures k % w == 0 <==> k == w
  {
    if k < w {
      Modulo(0, w, k);
    }
  }

  lemma MeanBelow(total: nat, w: nat, limit: nat)
    requires w > 0
    ensures total / w < limit <==> total < limit * w
  {
    var q := total / w;
    assert total == q * w + total % w;
    if q < limit {
      TimesAtMost(q + 1, limit, w);
    } else {
      TimesAtMost(limit, q, w);
    }
  }

  /** One pop on the clock: its count stays below the window, and the end of a window is judged by the total. */
  lemma PopClock(c: Settings, s: State, e: Event, id: Hash)
    requires c.window > 0 && e.Pop? && s.Clock(e.id).count < c.window
    ensures Popped(c, s, e).Clock(id).count == (
      if !Counted(s, e, id) then s.Clock(id).count
      else if s.Clock(id).count + 1 == c.window then 0
      else s.Clock(id).count + 1)
    ensures Popped(c, s, e).Clock(id).accum == (
      if Counted(s, e, id) && s.Clock(id).count + 1 == c.window then 0
      else s.Clock(id).accum + if Timed(s, e, id) then e.elapsed else 0)
    ensures id in Popped(c, s, e).throttled <==>
      (id in s.throttled ||
       (Counted(s, e, id) && s.Clock(id).count + 1 == c.window && TooShort(c, s.Clock(id).accum + e.elapsed)))
  {
    BelowModulo(s.Clock(e.id).count + 1, c.window);
    MeanBelow(s.Clock(e.id).accum + e.elapsed, c.window, c.limit);
  }

  lemma NoClockYet(c: Settings, id: Hash)
    requires c.window > 0
    ensures After(c, []).Clock(id) == Overhead(Spent(c, [], id), Tally(c, [], id) % c.window)
  {
    Modulo(0, c.window, 0);
  }

  lemma OtherClock(c: Settings, s: State, e: Event, id: Hash)
    requires c.window > 0 && !(e.Pop? && e.id == id)
    ensures Step(c, s, e).Clock(id) == s.Clock(id)
    ensures id in Step(c, s, e).throttled <==> id in s.throttled && e != ResetThrottle(id)
    ensures !Timed(s, e, id) && !Counted(s, e, id)
  {
  }

  /** The stored count and time are those of the window under way, whatever has happened. */
  lemma {:induction false} Windows(c: Settings, run: seq<Event>, id: Hash)
    requires c.window > 0
    ensures After(c, run).Clock(id) == Overhead(Spent(c, run, id), Tally(c, run, id) % c.window)
  {
    hide Pushed, Popped, Timed, Counted, Kept, Finalized, Started, State.Clock, State.Stack;
    if run == [] {
      NoClockYet(c, id);
    } else {
      var before, e := run[..|run| - 1], run[|run| - 1];
      Windows(c, before, id);
      NextModulo(Tally(c, before, id), c.window);
      if e.Pop? && e.id == id {
        PopClock(c, After(c, before), e, id);
      } else {
        OtherClock(c, After(c, before), e, id);
      }
    }
  }

  /** An id is throttled by nothing but the last pop of a window that took too little time, and freed by a reset only. */
  lemma ThrottledExactly(c: Settings, run: seq<Event>, e: Event, id: Hash)
    requires c.window > 0
    ensures id in Step(c, After(c, run), e).throttled <==>
      (id in After(c, run).throttled && e != ResetThrottle(id)) ||
      (Counted(After(c, run), e, id) && (Tally(c, run, id) + 1) % c.window == 0 &&
       TooShort(c, Spent(c, run, id) + e.elapsed))
  {
    hide Pushed, Popped, Timed, Counted, Kept, Finalized, Started, State.Clock, State.Stack, After, Tally, Spent;
    Windows(c, run, id);
    NextModulo(Tally(c, run, id), c.window);
    if e.Pop? && e.id == id {
      PopClock(c, After(c, run), e, id);
    } else {
      OtherClock(c, After(c, run), e, id);
    }
  }

  lemma PrefixOf<T>(a: seq<T>, b: seq<T>, c: seq<T>)
    requires a <= b && b <= c
    ensures a <= c
  {
  }

  lemma ThrottledPush(s: State, e: Event, id: Hash)
    requires e.Push? && id in s.throttled
    ensures id in Pushed(s, e).throttled && Pushed(s, e).Stack(id) == s.Stack(id)
  {
  }

  lemma ThrottledPop(c: Settings, s: State, e: Event, id: Hash)
    requires c.window > 0 && e.Pop? && id in s.throttled
    ensures id in Popped(c, s, e).throttled && Popped(c, s, e).Stack(id) <= s.Stack(id)
  {
    hide EndsWindow, Mean;
  }

  lemma StepThrottled(c: Settings, s: State, e: Event, id: Hash)
    requires c.window > 0 && id in s.throttled && e != ResetThrottle(id)
    ensures id in Step(c, s, e).throttled && Step(c, s, e).Stack(id) <= s.Stack(id)
  {
    hide Pushed, Popped, State.Stack;
    if e.Push? {
      ThrottledPush(s, e, id);
    } else if e.Pop? {
      ThrottledPop(c, s, e, id);
    } else {
      OtherStack(c, s, e, id);
    }
  }

  /** A throttled id stays so until it is reset, and its stack only shrinks. */
  lemma {:induction false} StaysThrottled(c: Settings, run: seq<Event>, more: seq<Event>, id: Hash)
    requires c.window > 0 && id in After(c, run).throttled && ResetThrottle(id) !in more
    ensures id in After(c, run + more).throttled
    ensures After(c, run + more).Stack(id) <= After(c, run).Stack(id)
  {
    hide Step, State.Stack;
    if more == [] {
      assert run + more == run;
    } else {
      var before, e := more[..|more| - 1], more[|more| - 1];
      assert (run + more)[..|run + more| - 1] == run + before;
      StaysThrottled(c, run, before, id);
      StepThrottled(c, After(c, run + before), e, id);
      PrefixOf(After(c, run + more).Stack(id), After(c, run + before).Stack(id), After(c, run).Stack(id));
    }
  }

  // --- A loop of calls ---

  ghost function Sum(times: seq<nat>): nat {
    if times == [] then 0 else Sum(times[..|times| - 1]) + times[|times| - 1]
  }

  /** The library runs, and id is between windows with no call open. */
  ghost predicate Fresh(s: State, id: Hash) {
    s.ready && !s.finished && s.enabled && id !in s.throttled && s.Stack(id) == [] && s.Clock(id) == Overhead(0, 0)
  }

  ghost predicate Within(s: State, id: Hash, total: nat, count: nat) {
    s.ready && !s.finished && s.enabled && id !in s.throttled && s.Stack(id) == [] &&
    s.Clock(id) == Overhead(total, count)
  }

  /** One call: a push with the lock free and the name known, then the pop; and whether it was measured. */
  ghost function Call(c: Settings, s: State, id: Hash, time: nat, b: Bundle): (r: (State, nat))
    requires c.window > 0
  {
    var push := Push(id, true, true, true, b);
    (Step(c, Step(c, s, push), Pop(id, time)), if Kept(s, push) then 1 else 0)
  }

  /** Calls of id one after the other, taking these times; and how many were measured. */
  ghost function Calls(c: Settings, s: State, id: Hash, times: seq<nat>, b: Bundle): (r: (State, nat))
    requires c.window > 0
  {
    if times == [] then (s, 0)
    else
      var (t, n) := Calls(c, s, id, times[..|times| - 1], b);
      var (u, k) := Call(c, t, id, times[|times| - 1], b);
      (u, n + k)
  }

  lemma CallWithin(c: Settings, s: State, id: Hash, total: nat, count: nat, time: nat, b: Bundle)
    requires c.window > 0 && Within(s, id, total, count) && count < c.window
    ensures
      var (t, n) := Call(c, s, id, time, b);
      n == 1 && t.ready && !t.finished && t.enabled && t.Stack(id) == [] &&
      t.Clock(id) == (if count + 1 == c.window then Overhead(0, 0) else Overhead(total + time, count + 1)) &&
      (id in t.throttled <==> count + 1 == c.window && TooShort(c, total + time))
  {
    var push := Push(id, true, true, true, b);
    var p := Step(c, s, push);
    assert Kept(s, push) && p.Stack(id) == [b] && p.Clock(id) == Overhead(total, count);
    PopClock(c, p, Pop(id, time), id);
  }

  lemma {:induction false} CallsWithin(c: Settings, s: State, id: Hash, times: seq<nat>, b: Bundle)
    requires c.window > 0 && Fresh(s, id) && |times| < c.window
    ensures Calls(c, s, id, times, b).1 == |times|
    ensures Within(Calls(c, s, id, times, b).0, id, Sum(times), |times|)
  {
    if times != [] {
      var n := |times| - 1;
      CallsWithin(c, s, id, times[..n], b);
      CallWithin(c, Calls(c, s, id, times[..n], b).0, id, Sum(times[..n]), n, times[n], b);
    }
  }

  lemma OneWindow(c: Settings, s: State, id: Hash, times: seq<nat>, b: Bundle)
    requires c.window > 0 && Fresh(s, id) && |times| == c.window
    ensures Calls(c, s, id, times, b).1 == c.window
    ensures if TooShort(c, Sum(times)) then Halted(Calls(c, s, id, times, b).0, id)
            else Fresh(Calls(c, s, id, times, b).0, id)
  {
    var n := |times| - 1;
    CallsWithin(c, s, id, times[..n], b);
    CallWithin(c, Calls(c, s, id, times[..n], b).0, id, Sum(times[..n]), n, times[n], b);
  }

  ghost predicate Halted(s: State, id: Hash) {
    id in s.throttled && s.Stack(id) == []
  }

  lemma {:induction false} HaltedCalls(c: Settings, s: State, id: Hash, times: seq<nat>, b: Bundle)
    requires c.window > 0 && Halted(s, id)
    ensures Calls(c, s, id, times, b).1 == 0 && Halted(Calls(c, s, id, times, b).0, id)
  {
    if times != [] {
      HaltedCalls(c, s, id, times[..|times| - 1], b);
    }
  }

  lemma {:induction false} CallsPlus(c: Settings, s: State, id: Hash, first: seq<nat>, then_: seq<nat>, b: Bundle)
    requires c.window > 0
    ensures
      var (t, n) := Calls(c, s, id, first, b);
      var (u, k) := Calls(c, t, id, then_, b);
      Calls(c, s, id, first + then_, b) == (u, n + k)
  {
    hide Call;
    if then_ == [] {
      assert first + then_ == first;
    } else {
      assert (first + then_)[..|first + then_| - 1] == first + then_[..|then_| - 1];
      CallsPlus(c, s, id, first, then_[..|then_| - 1], b);
    }
  }

  /** How many calls of a loop are measured: whole windows up to the first that is too short, or all of them. */
  ghost function Measured(c: Settings, times: seq<nat>): nat
    requires c.window > 0
    decreases |times|
  {
    if |times| < c.window then |times|
    else if TooShort(c, Sum(times[..c.window])) then c.window
    else c.window + Measured(c, times[c.window..])
  }

  ghost predicate SomeWindowTooShort(c: Settings, times: seq<nat>)
    requires c.window > 0
    decreases |times|
  {
    |times| >= c.window && (TooShort(c, Sum(times[..c.window])) || SomeWindowTooShort(c, times[c.window..]))
  }

  /** A loop of calls is measured up to the end of its first window that is too short, and then no more. */
  lemma {:induction false} LoopMeasured(c: Settings, s: State, id: Hash, times: seq<nat>, b: Bundle)
    requires c.window > 0 && Fresh(s, id)
    ensures Calls(c, s, id, times, b).1 == Measured(c, times)
    ensures id in Calls(c, s, id, times, b).0.throttled <==> SomeWindowTooShort(c, times)
    decreases |times|
  {
    if |times| < c.window {
      CallsWithin(c, s, id, times, b);
    } else {
      var first, rest := times[..c.window], times[c.window..];
      assert times == first + rest;
      CallsPlus(c, s, id, first, rest, b);
      OneWindow(c, s, id, first, b);
      var t := Calls(c, s, id, first, b).0;
      if TooShort(c, Sum(first)) {
        HaltedCalls(c, t, id, rest, b);
      } else {
        LoopMeasured(c, t, id, rest, b);
      }
    }
  }
}

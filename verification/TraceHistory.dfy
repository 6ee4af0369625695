/** When the trace is ready, in use, over, enabled, and when an id is throttled, read off the events that have happened. */
module TraceHistory {
  import opened Trace

  /** An event after which the library is ready: its own initialisation, or a trace initialisation or push with a manager. */
  ghost predicate MakesReady(e: Event) {
    e.InitLibrary? || (e.Init? && e.managed) || (e.Push? && e.managed)
  }

  ghost predicate IsReady(run: seq<Event>) {
    exists i :: 0 <= i < |run| && MakesReady(run[i])
  }

  /** The trace itself made the library ready, by its initialisation or a push: that is its one use. */
  ghost predicate FirstUse(run: seq<Event>, i: nat) {
    i < |run| && MakesReady(run[i]) && !run[i].InitLibrary? && forall j :: 0 <= j < i ==> !MakesReady(run[j])
  }

  ghost predicate Ends(e: Event) {
    e.Finalize? && e.managed
  }

  ghost predicate InUse(run: seq<Event>) {
    exists i: nat :: FirstUse(run, i) && forall j :: i < j < |run| ==> !Ends(run[j])
  }

  /** The finalisation at i ends the trace: the first with a manager after its use began. */
  ghost predicate Closing(run: seq<Event>, i: nat) {
    i < |run| && Ends(run[i]) && InUse(run[..i])
  }

  ghost predicate IsOver(run: seq<Event>) {
    exists i: nat :: Closing(run, i)
  }

  /** The last event to say so switched the library on, or nothing has switched it off; ending it does. */
  ghost predicate IsEnabled(run: seq<Event>) {
    forall i: nat :: i < |run| && SwitchesOff(run, i) ==> OnAfter(run, i)
  }

  ghost predicate SwitchesOff(run: seq<Event>, i: nat)
    requires i < |run|
  {
    run[i] == SetEnabled(false) || Closing(run, i)
  }

  ghost predicate OnAfter(run: seq<Event>, i: nat) {
    exists j :: i < j < |run| && run[j] == SetEnabled(true)
  }

  lemma ReadyNext(run: seq<Event>)
    requires run != []
    ensures IsReady(run) <==> IsReady(run[..|run| - 1]) || MakesReady(run[|run| - 1])
  {
    var n := |run| - 1;
    if i :| 0 <= i < n && MakesReady(run[..n][i]) {
      assert MakesReady(run[i]);
    }
    if i :| 0 <= i < n + 1 && MakesReady(run[i]) {
      assert i < n ==> MakesReady(run[..n][i]);
    }
  }

  lemma FirstUseBefore(run: seq<Event>, n: nat, i: nat)
    requires i < n <= |run|
    ensures FirstUse(run[..n], i) <==> FirstUse(run, i)
  {
    if FirstUse(run[..n], i) {
      assert forall j :: 0 <= j < i ==> !MakesReady(run[..n][j]);
    }
  }

  lemma FirstUseLast(run: seq<Event>)
    requires run != []
    ensures FirstUse(run, |run| - 1) <==>
      !IsReady(run[..|run| - 1]) && MakesReady(run[|run| - 1]) && !run[|run| - 1].InitLibrary?
  {
    var n := |run| - 1;
    if !IsReady(run[..n]) {
      assert forall j :: 0 <= j < n ==> !MakesReady(run[..n][j]);
    }
  }

  lemma InUseNext(run: seq<Event>)
    requires run != []
    ensures
      var before, e := run[..|run| - 1], run[|run| - 1];
      InUse(run) <==> (!Ends(e) && InUse(before)) || (!IsReady(before) && MakesReady(e) && !e.InitLibrary?)
  {
    hide IsReady, MakesReady, Ends, FirstUse;
    var n := |run| - 1;
    FirstUseLast(run);
    if i: nat :| FirstUse(run[..n], i) && forall j :: i < j < n ==> !Ends(run[..n][j]) {
      UseBounds(run[..n], i);
      FirstUseBefore(run, n, i);
      if !Ends(run[n]) {
        assert forall j :: i < j < n ==> run[j] == run[..n][j];
      }
    }
    if i: nat :| FirstUse(run, i) && forall j :: i < j < |run| ==> !Ends(run[j]) {
      UseBounds(run, i);
      if i < n {
        FirstUseBefore(run, n, i);
      }
    }
  }

  lemma UseBounds(run: seq<Event>, i: nat)
    requires FirstUse(run, i)
    ensures i < |run| && MakesReady(run[i]) && IsReady(run)
  {
  }

  lemma ClosingBefore(run: seq<Event>, i: nat)
    requires i < |run| - 1
    ensures Closing(run[..|run| - 1], i) <==> Closing(run, i)
  {
    assert run[..|run| - 1][..i] == run[..i];
  }

  lemma OverNext(run: seq<Event>)
    requires run != []
    ensures
      var before, e := run[..|run| - 1], run[|run| - 1];
      IsOver(run) <==> IsOver(before) || (Ends(e) && InUse(before))
  {
    hide InUse;
    var n := |run| - 1;
    if i: nat :| Closing(run[..n], i) {
      ClosingBefore(run, i);
    }
    if i: nat :| Closing(run, i) {
      if i < n {
        ClosingBefore(run, i);
      }
    }
    assert Ends(run[n]) && InUse(run[..n]) ==> Closing(run, n);
  }

  lemma OnAfterNext(run: seq<Event>, i: nat)
    requires i < |run| - 1
    ensures OnAfter(run, i) <==> OnAfter(run[..|run| - 1], i) || run[|run| - 1] == SetEnabled(true)
    ensures SwitchesOff(run, i) <==> SwitchesOff(run[..|run| - 1], i)
  {
    hide Closing;
    var n := |run| - 1;
    ClosingBefore(run, i);
    if j :| i < j < n && run[..n][j] == SetEnabled(true) {
      assert run[j] == SetEnabled(true);
    }
    if j :| i < j < |run| && run[j] == SetEnabled(true) {
      assert j < n ==> run[..n][j] == SetEnabled(true);
    }
  }

  lemma OffLast(run: seq<Event>)
    requires run != []
    ensures SwitchesOff(run, |run| - 1) <==>
      run[|run| - 1] == SetEnabled(false) || (Ends(run[|run| - 1]) && InUse(run[..|run| - 1]))
    ensures !OnAfter(run, |run| - 1)
  {
  }

  lemma EnabledNext(run: seq<Event>)
    requires run != []
    ensures
      var before, e := run[..|run| - 1], run[|run| - 1];
      IsEnabled(run) <==> e == SetEnabled(true) || (IsEnabled(before) && e != SetEnabled(false) && !(Ends(e) && InUse(before)))
  {
    hide SwitchesOff, OnAfter, InUse;
    OffLast(run);
    forall i: nat | i < |run| - 1
      ensures OnAfter(run, i) <==> OnAfter(run[..|run| - 1], i) || run[|run| - 1] == SetEnabled(true)
      ensures SwitchesOff(run, i) <==> SwitchesOff(run[..|run| - 1], i)
    {
      OnAfterNext(run, i);
    }
    var before, e := run[..|run| - 1], run[|run| - 1];
    if IsEnabled(run) && e != SetEnabled(true) {
      forall i: nat | i < |before| && SwitchesOff(before, i)
        ensures OnAfter(before, i)
      {
        assert SwitchesOff(run, i);
      }
      assert !SwitchesOff(run, |before|);
    }
  }

  lemma PushFlags(s: State, e: Event)
    requires e.Push? && s.uses <= 1 && (s.uses == 1 ==> s.ready)
    ensures Pushed(s, e).ready <==> s.ready || e.managed
    ensures Pushed(s, e).uses == if !s.ready && e.managed then 1 else s.uses
    ensures Pushed(s, e).finished == s.finished && Pushed(s, e).enabled == s.enabled
  {
  }

  lemma PopFlags(c: Settings, s: State, e: Event)
    requires c.window > 0 && e.Pop?
    ensures Popped(c, s, e).(stacks := s.stacks, overhead := s.overhead, throttled := s.throttled) == s
  {
    hide EndsWindow, Mean;
  }

  lemma StepFlags(c: Settings, s: State, e: Event)
    requires c.window > 0 && s.uses <= 1 && (s.uses == 1 ==> s.ready)
    ensures Step(c, s, e).ready <==> s.ready || MakesReady(e)
    ensures Step(c, s, e).uses == (
      if Ends(e) then 0 else if !s.ready && MakesReady(e) && !e.InitLibrary? then 1 else s.uses)
    ensures Step(c, s, e).finished <==> s.finished || (Ends(e) && s.uses == 1)
    ensures Step(c, s, e).enabled <==>
      e == SetEnabled(true) || (s.enabled && e != SetEnabled(false) && !(Ends(e) && s.uses == 1))
  {
    hide Pushed, Popped;
    if e.Push? {
      PushFlags(s, e);
    } else if e.Pop? {
      PopFlags(c, s, e);
    }
  }

  lemma UseReady(run: seq<Event>)
    ensures InUse(run) ==> IsReady(run)
  {
    if i: nat :| FirstUse(run, i) && forall j :: i < j < |run| ==> !Ends(run[j]) {
      UseBounds(run, i);
    }
  }

  /**
    * Over every run the library is ready once it, or the trace with a manager, was initialised or pushed to; the trace
    * counts one use if it was the one to do that and has not been finalised since; it is over once it has been; and it is
    * enabled unless something switched it off after it was last switched on.
    */
  lemma {:induction false} FlagsTell(c: Settings, run: seq<Event>)
    requires c.window > 0
    ensures
      var s := After(c, run);
      (s.ready <==> IsReady(run)) && s.uses == (if InUse(run) then 1 else 0) && (s.finished <==> IsOver(run)) &&
      (s.enabled <==> IsEnabled(run))
  {
    hide Step, IsReady, InUse, IsOver, IsEnabled, MakesReady, Ends;
    if run == [] {
      NothingTold();
    } else {
      var before, e := run[..|run| - 1], run[|run| - 1];
      FlagsTell(c, before);
      UseReady(before);
      StepFlags(c, After(c, before), e);
      ReadyNext(run);
      InUseNext(run);
      OverNext(run);
      EnabledNext(run);
      EndsNotReady(e);
    }
  }

  lemma EndsNotReady(e: Event)
    ensures Ends(e) ==> !MakesReady(e)
  {
  }

  lemma NothingTold()
    ensures !IsReady([]) && !InUse([]) && !IsOver([]) && IsEnabled([])
  {
  }

  /** The pop at i of the run ends a window of id that took too little time. */
  ghost predicate Judges(c: Settings, run: seq<Event>, i: nat, id: Hash)
    requires c.window > 0
  {
    i < |run| && run[i].Pop? && Counted(After(c, run[..i]), run[i], id) &&
    (Tally(c, run[..i], id) + 1) % c.window == 0 && Spent(c, run[..i], id) + run[i].elapsed < c.limit * c.window
  }

  ghost predicate IsThrottled(c: Settings, run: seq<Event>, id: Hash)
    requires c.window > 0
  {
    exists i: nat :: Judges(c, run, i, id) && forall j :: i < j < |run| ==> run[j] != ResetThrottle(id)
  }

  lemma JudgesBefore(c: Settings, run: seq<Event>, i: nat, id: Hash)
    requires c.window > 0 && i < |run| - 1
    ensures Judges(c, run[..|run| - 1], i, id) <==> Judges(c, run, i, id)
  {
    assert run[..|run| - 1][..i] == run[..i];
  }

  lemma JudgesLast(c: Settings, run: seq<Event>, id: Hash)
    requires c.window > 0 && run != []
    ensures
      var before, e := run[..|run| - 1], run[|run| - 1];
      Judges(c, run, |run| - 1, id) <==>
        Counted(After(c, before), e, id) && (Tally(c, before, id) + 1) % c.window == 0 &&
        TooShort(c, Spent(c, before, id) + e.elapsed)
  {
    hide After, Tally, Spent;
  }

  lemma JudgesBounds(c: Settings, run: seq<Event>, i: nat, id: Hash)
    requires c.window > 0 && Judges(c, run, i, id)
    ensures i < |run| && run[i].Pop?
  {
  }

  /** An id is throttled exactly if some pop of it ended a window that took too little time, and no reset came after. */
  lemma {:induction false} ThrottledIff(c: Settings, run: seq<Event>, id: Hash)
    requires c.window > 0
    ensures id in After(c, run).throttled <==> IsThrottled(c, run, id)
  {
    hide Judges, Step, Tally, Spent, Counted, TooShort;
    if run == [] {
      if i: nat :| Judges(c, run, i, id) {
        JudgesBounds(c, run, i, id);
      }
    } else {
      var n := |run| - 1;
      var before, e := run[..n], run[n];
      ThrottledIff(c, before, id);
      ThrottledExactly(c, before, e, id);
      JudgesLast(c, run, id);
      if IsThrottled(c, before, id) && e != ResetThrottle(id) {
        var i: nat :| Judges(c, before, i, id) && forall j :: i < j < n ==> before[j] != ResetThrottle(id);
        JudgesBounds(c, before, i, id);
        JudgesBefore(c, run, i, id);
        assert forall j :: i < j < n ==> run[j] == before[j];
      }
      if i: nat :| Judges(c, run, i, id) && forall j :: i < j < |run| ==> run[j] != ResetThrottle(id) {
        JudgesBounds(c, run, i, id);
        if i < n {
          JudgesBefore(c, run, i, id);
          assert forall j :: i < j < n ==> run[j] == before[j];
        }
      }
    }
  }

  lemma PushStacks(s: State, e: Event)
    requires e.Push? && s.uses <= 1 && (s.uses == 1 ==> s.ready)
    ensures
      var stored := e.free && e.known && (s.ready || e.managed) && !s.finished && s.enabled && e.id !in s.throttled;
      Pushed(s, e).Stack(e.id) == if stored then s.Stack(e.id) + [e.bundle] else s.Stack(e.id)
    ensures forall id :: id != e.id ==> Pushed(s, e).Stack(id) == s.Stack(id)
  {
  }

  /**
    * Over every run a push puts its bundle on the stack of its id if and only if the lock is free, the name is known, the
    * library was or can be made ready, is neither over nor switched off, and the id is not throttled; otherwise, and for
    * every other id, the stack stays.
    */
  lemma PushExactly(c: Settings, run: seq<Event>, e: Event)
    requires c.window > 0 && e.Push?
    ensures After(c, run + [e]).Stack(e.id) == After(c, run).Stack(e.id) + [e.bundle] <==>
      e.free && e.known && (IsReady(run) || e.managed) && !IsOver(run) && IsEnabled(run) && !IsThrottled(c, run, e.id)
    ensures After(c, run + [e]).Stack(e.id) != After(c, run).Stack(e.id) ==>
      After(c, run + [e]).Stack(e.id) == After(c, run).Stack(e.id) + [e.bundle]
    ensures forall id :: id != e.id ==> After(c, run + [e]).Stack(id) == After(c, run).Stack(id)
  {
    hide After, Pushed, IsReady, IsOver, IsEnabled, IsThrottled, State.Stack, InUse;
    FlagsTell(c, run);
    UseReady(run);
    ThrottledIff(c, run, e.id);
    Next(c, run, e, e.id);
    PushStacks(After(c, run), e);
  }

  lemma {:induction false} QuietBefore(c: Settings, run: seq<Event>)
    requires c.window > 0 && !IsReady(run)
    ensures After(c, run).stacks == map[] && After(c, run).throttled == {} && After(c, run).uses == 0
  {
    hide Pushed, IsReady, MakesReady;
    FlagsTell(c, run);
    UseReady(run);
    AlwaysEmpty(c, run);
    if run != [] {
      var before, e := run[..|run| - 1], run[|run| - 1];
      ReadyNext(run);
      QuietBefore(c, before);
      FlagsTell(c, before);
      if e.Push? {
        QuietPush(After(c, before), e);
      }
    }
  }

  lemma QuietPush(s: State, e: Event)
    requires e.Push? && !s.ready && !MakesReady(e)
    ensures Pushed(s, e) == s
  {
  }

  /**
    * The first push with a manager, in a program that has initialised nothing: with the lock free, the name known and the
    * library not switched off it makes the library ready, counts as its one use, and stores exactly its bundle.
    */
  lemma FirstPush(c: Settings, run: seq<Event>, id: Hash, b: Bundle)
    requires c.window > 0 && !IsReady(run) && IsEnabled(run)
    ensures
      var s := After(c, run + [Push(id, true, true, true, b)]);
      s.ready && s.uses == 1 && !s.finished && s.Stack(id) == [b] && forall other :: other != id ==> s.Stack(other) == []
  {
    hide After, Pushed, IsReady, IsEnabled, IsOver, InUse;
    var e := Push(id, true, true, true, b);
    QuietBefore(c, run);
    FlagsTell(c, run);
    NotOver(run);
    Next(c, run, e, id);
    PushFlags(After(c, run), e);
    PushStacks(After(c, run), e);
  }

  lemma ReadyMore(run: seq<Event>, i: nat)
    requires i <= |run|
    ensures IsReady(run[..i]) ==> IsReady(run)
  {
    if j :| 0 <= j < i && MakesReady(run[..i][j]) {
      assert MakesReady(run[j]);
    }
  }

  lemma NotOver(run: seq<Event>)
    requires !IsReady(run)
    ensures !IsOver(run)
  {
    hide IsReady, InUse;
    forall i: nat
      ensures Closing(run, i) ==> IsReady(run)
    {
      if i < |run| {
        UseReady(run[..i]);
        ReadyMore(run, i);
      }
    }
  }

  /**
    * A finalisation ends a trace in use: it is over and switched off, and the stacks are cleared if the manager still
    * runs. Any other leaves everything as it is.
    */
  lemma FinalizeExactly(c: Settings, run: seq<Event>, managed: bool, clears: bool)
    requires c.window > 0
    ensures
      var s, t := After(c, run), After(c, run + [Finalize(managed, clears)]);
      if managed && InUse(run) then
        t.finished && !t.enabled && t.uses == 0 && t.ready && t.stacks == (if clears then map[] else s.stacks) &&
        t.overhead == s.overhead && t.throttled == s.throttled
      else t == s
  {
    hide After, InUse, IsReady, IsOver, IsEnabled;
    FlagsTell(c, run);
    UseReady(run);
    Next(c, run, Finalize(managed, clears), Hash(0));
  }

  lemma PopStacks(c: Settings, s: State, e: Event)
    requires c.window > 0 && e.Pop? && Empty(s)
    ensures
      var stack := s.Stack(e.id);
      Popped(c, s, e).Stack(e.id) == if s.ready && !s.finished && stack != [] then stack[..|stack| - 1] else stack
    ensures forall id :: id != e.id ==> Popped(c, s, e).Stack(id) == s.Stack(id)
  {
    hide EndsWindow, Mean;
    if !s.finished {
      PopShrinks(c, s, e, e.id);
    }
  }

  /** Over every run a pop takes the newest bundle of its id off, lock or no lock, switched off or not, while the trace is
      ready and not over; otherwise, and for every other id, the stack stays. */
  lemma PopExactly(c: Settings, run: seq<Event>, id: Hash, elapsed: nat)
    requires c.window > 0
    ensures
      var stack := After(c, run).Stack(id);
      After(c, run + [Pop(id, elapsed)]).Stack(id) ==
      if IsReady(run) && !IsOver(run) && stack != [] then stack[..|stack| - 1] else stack
    ensures forall other :: other != id ==> After(c, run + [Pop(id, elapsed)]).Stack(other) == After(c, run).Stack(other)
  {
    hide After, Popped, IsReady, IsOver, IsEnabled, State.Stack, InUse;
    FlagsTell(c, run);
    AlwaysEmpty(c, run);
    Next(c, run, Pop(id, elapsed), id);
    PopStacks(c, After(c, run), Pop(id, elapsed));
  }

  lemma ClockStep(c: Settings, s: State, id: Hash, elapsed: nat)
    requires c.window > 0 && s.Clock(id).count < c.window
    ensures
      var timed := s.ready && !s.finished && (s.enabled || s.stacks != map[]);
      var counted := timed && s.Stack(id) != [] && id !in s.throttled;
      var clock := s.Clock(id);
      Popped(c, s, Pop(id, elapsed)).Clock(id) == (
        if !timed then clock
        else if !counted then Overhead(clock.accum + elapsed, clock.count)
        else if clock.count + 1 == c.window then Overhead(0, 0)
        else Overhead(clock.accum + elapsed, clock.count + 1))
  {
    hide EndsWindow, Mean, Popped, State.Clock;
    PopClock(c, s, Pop(id, elapsed), id);
  }

  /**
    * Over every run a pop stops the clock of its id while the trace is ready, not over, and either switched on or ever
    * used by the thread; with an entry of an id that is not throttled it also counts, and the last of a window starts the
    * clock again. Until a pop comes nothing else touches the clock.
    */
  lemma ClockExactly(c: Settings, run: seq<Event>, id: Hash, e: Event)
    requires c.window > 0
    ensures
      var s := After(c, run);
      var timed := IsReady(run) && !IsOver(run) && (IsEnabled(run) || s.stacks != map[]);
      var counted := timed && s.Stack(id) != [] && !IsThrottled(c, run, id);
      var clock := s.Clock(id);
      After(c, run + [e]).Clock(id) == (
        if !(e.Pop? && e.id == id && timed) then clock
        else if !counted then Overhead(clock.accum + e.elapsed, clock.count)
        else if clock.count + 1 == c.window then Overhead(0, 0)
        else Overhead(clock.accum + e.elapsed, clock.count + 1))
  {
    hide After, Pushed, Popped, Started, Finalized, IsReady, IsOver, IsEnabled, IsThrottled, State.Clock, State.Stack, InUse,
         Tally, Spent;
    FlagsTell(c, run);
    ThrottledIff(c, run, id);
    Windows(c, run, id);
    Next(c, run, e, id);
    if e.Pop? && e.id == id {
      ClockStep(c, After(c, run), id, e.elapsed);
    } else {
      OtherClock(c, After(c, run), e, id);
    }
  }
}

/** The record and region protocol of one thread, under pause and resume, and its stack of component sets. */
module Regions {
  import Seqs

  const WORD: nat := 0x1_0000_0000_0000_0000

  /** The id that stands for no record, the largest 64-bit number. */
  const SENTINEL: nat := WORD - 1

  datatype Component = Component(index: nat)

  /** A running toolset: the name it was created with, and the components it measures. */
  datatype Record = Record(name: string, components: seq<Component>)

  /** What the thread sees; nextId, enabled and defaults are shared with the other threads. */
  datatype State = State(
    records: map<nat, Record>, regions: map<string, seq<nat>>, components: seq<seq<Component>>,
    nextId: nat, enabled: bool, defaults: seq<Component>, locked: bool) {

    function Region(name: string): seq<nat> {
      if name in regions then regions[name] else []
    }
  }

  const INITIAL := State(map[], map[], [], 0, true, [], false)

  datatype Event =
    | PushRegion(name: string)
    | PopRegion(name: string)
    | Pause
    | Resume
    | BeginRecord(name: string)
    | EndRecord(id: nat)
    | PushComponents(set_: seq<Component>)
    | PopComponents
    | AddComponents(set_: seq<Component>)
    | RemoveComponents(set_: seq<Component>)
    | SetDefault(set_: seq<Component>)
    | OtherThreadBegins
    | EnterLibrary
    | LeaveLibrary

  /** The stack gets the default set when somebody asks for the current one and there is none. */
  ghost function Seeded(s: State): State {
    if s.components == [] then s.(components := [s.defaults]) else s
  }

  /** What get_begin_record hands out. */
  ghost function Given(s: State): nat {
    if s.locked || !s.enabled then SENTINEL else s.nextId
  }

  ghost function Begun(s: State, name: string): State {
    if s.locked || !s.enabled then s
    else
      var p := Seeded(s);
      var r := Record(name, p.components[|p.components| - 1]);
      p.(records := if p.nextId in p.records then p.records else p.records[p.nextId := r],
         nextId := (p.nextId + 1) % WORD)
  }

  ghost function Ended(s: State, id: nat): State {
    if s.locked || id == SENTINEL then s else s.(records := s.records - {id})
  }

  ghost function RegionPushed(s: State, name: string): State {
    if s.locked then s
    else
      var b := Begun(s, name);
      b.(regions := b.regions[name := b.Region(name) + [Given(s)]])
  }

  ghost function RegionPopped(s: State, name: string): State {
    var stack := s.Region(name);
    if s.locked || stack == [] then s
    else Ended(s, stack[|stack| - 1]).(regions := s.regions[name := stack[..|stack| - 1]])
  }

  function Without(s: seq<Component>, c: Component): (r: seq<Component>)
    ensures forall x :: x in r <==> x in s && x != c
  {
    if s == [] then []
    else (if s[0] == c then [] else [s[0]]) + Without(s[1..], c)
  }

  function WithoutAll(s: seq<Component>, cs: seq<Component>): (r: seq<Component>)
    ensures forall x :: x in r <==> x in s && x !in cs
  {
    if cs == [] then s else Without(WithoutAll(s, cs[..|cs| - 1]), cs[|cs| - 1])
  }

  /** The stack of component sets after an event. */
  ghost function Components(s: State, e: Event): seq<seq<Component>> {
    var top := |s.components| - 1;
    match e
    case PushComponents(cs) => s.components + [cs]
    case PopComponents => if top > 0 then s.components[..top] else s.components
    case AddComponents(cs) =>
      var p := Seeded(s).components;
      p[|p| - 1 := p[|p| - 1] + cs]
    case RemoveComponents(cs) =>
      var p := Seeded(s).components;
      p[|p| - 1 := WithoutAll(p[|p| - 1], cs)]
    case SetDefault(cs) => if top < 0 then [cs] else s.components
    case _ => s.components
  }

  ghost function Step(s: State, e: Event): State {
    match e
    case PushRegion(name) => RegionPushed(s, name)
    case PopRegion(name) => RegionPopped(s, name)
    case Pause => s.(enabled := false)
    case Resume => s.(enabled := true)
    case BeginRecord(name) => Begun(s, name)
    case EndRecord(id) => Ended(s, id)
    case SetDefault(cs) => s.(defaults := cs, components := Components(s, e))
    case OtherThreadBegins => s.(nextId := (s.nextId + 1) % WORD)
    case EnterLibrary => s.(locked := true)
    case LeaveLibrary => s.(locked := false)
    case _ => s.(components := Components(s, e))
  }

  ghost function After(run: seq<Event>): State {
    if run == [] then INITIAL else Step(After(run[..|run| - 1]), run[|run| - 1])
  }

  /** The thread's maps and stacks; the lock is the thread's own, so it is refused only inside a locked call. */
  class Library {
    var records: map<nat, Record>
    var regions: map<string, seq<nat>>
    var components: seq<seq<Component>>
    var nextId: nat
    var enabled: bool
    var defaults: seq<Component>
    var locked: bool

    ghost function Now(): State
      reads this
    {
      State(records, regions, components, nextId, enabled, defaults, locked)
    }

    constructor ()
      ensures Now() == INITIAL
    {
      records, regions, components, defaults := map[], map[], [], [];
      nextId, enabled, locked := 0, true, false;
    }

    /** Measurement stops being started; nothing else changes, with or without the lock. */
    method Pause()
      modifies this`enabled
      ensures !enabled && Now() == Step(old(Now()), Event.Pause)
    {
      enabled := false;
    }

    method Resume()
      modifies this`enabled
      ensures enabled && Now() == Step(old(Now()), Event.Resume)
    {
      enabled := true;
    }

    method GetUniqueId() returns (id: nat)
      modifies this`nextId
      ensures id == old(nextId) && nextId == (id + 1) % WORD
    {
      id := nextId;
      nextId := (nextId + 1) % WORD;
    }

    method CurrentComponents() returns (current: seq<Component>)
      modifies this`components
      ensures Now() == Seeded(old(Now()))
      ensures components != [] && current == components[|components| - 1]
    {
      if components == [] {
        components := [defaults];
      }
      current := components[|components| - 1];
    }

    method CreateRecord(name: string, cs: seq<Component>) returns (id: nat)
      modifies this`nextId, this`records
      ensures id == old(nextId) && nextId == (id + 1) % WORD
      ensures records == if id in old(records) then old(records) else old(records)[id := Record(name, cs)]
    {
      id := GetUniqueId();
      if id !in records {
        records := records[id := Record(name, cs)];
      }
    }

    method DeleteRecord(id: nat)
      modifies this`records
      ensures records == old(records) - {id}
    {
      if id in records {
        records := records - {id};
      }
    }

    method GetBeginRecord(name: string) returns (id: nat)
      modifies this
      ensures id == Given(old(Now())) && Now() == Begun(old(Now()), name)
    {
      if locked || !enabled {
        return SENTINEL;
      }
      locked := true;
      var current := CurrentComponents();
      id := CreateRecord(name, current);
      locked := false;
    }

    method EndRecord(id: nat)
      modifies this
      ensures Now() == Ended(old(Now()), id)
    {
      if locked || id == SENTINEL {
        return;
      }
      locked := true;
      DeleteRecord(id);
      locked := false;
    }

    /** The lock is given back for the inner call, which takes it again. */
    method PushRegion(name: string)
      modifies this
      ensures Now() == RegionPushed(old(Now()), name)
    {
      if locked {
        return;
      }
      var id := GetBeginRecord(name);
      locked := true;
      regions := regions[name := (if name in regions then regions[name] else []) + [id]];
      locked := false;
    }

    method PopRegion(name: string) returns (found: bool)
      modifies this
      ensures Now() == RegionPopped(old(Now()), name)
      ensures !old(locked) ==> (found <==> old(Now()).Region(name) != [])
    {
      found := true;
      if locked {
        return;
      }
      if name !in regions || regions[name] == [] {
        found := false;
      } else {
        var id := regions[name][|regions[name]| - 1];
        EndRecord(id);
        locked := true;
        regions := regions[name := regions[name][..|regions[name]| - 1]];
        locked := false;
      }
    }

    method PushComponents(cs: seq<Component>)
      modifies this`components
      ensures Now() == Step(old(Now()), Event.PushComponents(cs))
    {
      components := components + [cs];
    }

    method PopComponents()
      modifies this`components
      ensures Now() == Step(old(Now()), Event.PopComponents)
    {
      if |components| > 1 {
        components := components[..|components| - 1];
      }
    }

    method AddComponents(cs: seq<Component>)
      modifies this`components
      ensures Now() == Step(old(Now()), Event.AddComponents(cs))
    {
      var current := CurrentComponents();
      var i := 0;
      while i < |cs|
        invariant i <= |cs| && current == old(Seeded(Now())).components[|components| - 1] + cs[..i]
      {
        current := current + [cs[i]];
        i := i + 1;
      }
      assert cs[..i] == cs;
      components := components[|components| - 1 := current];
    }

    method RemoveComponents(cs: seq<Component>)
      modifies this`components
      ensures Now() == Step(old(Now()), Event.RemoveComponents(cs))
    {
      var current := CurrentComponents();
      var i := 0;
      while i < |cs|
        invariant i <= |cs| && current == WithoutAll(old(Seeded(Now())).components[|components| - 1], cs[..i])
      {
        current := Without(current, cs[i]);
        i := i + 1;
        assert cs[..i][..i - 1] == cs[..i - 1];
      }
      assert cs[..i] == cs;
      components := components[|components| - 1 := current];
    }

    method SetDefault(cs: seq<Component>)
      modifies this`components, this`defaults
      ensures Now() == Step(old(Now()), Event.SetDefault(cs))
    {
      defaults := cs;
      if components == [] {
        components := [defaults];
      }
    }
  }

  // --- What has happened ---

  /** Somebody paused the library and nobody resumed it since. */
  ghost predicate Paused(run: seq<Event>) {
    exists i :: 0 <= i < |run| && run[i].Pause? && forall j :: i < j < |run| ==> !run[j].Resume?
  }

  /** The thread is inside a locked call. */
  ghost predicate Inside(run: seq<Event>) {
    exists i :: 0 <= i < |run| && run[i].EnterLibrary? && forall j :: i < j < |run| ==> !run[j].LeaveLibrary?
  }

  lemma PausedNext(run: seq<Event>)
    requires run != []
    ensures Paused(run) <==> run[|run| - 1].Pause? || (Paused(run[..|run| - 1]) && !run[|run| - 1].Resume?)
  {
    var n := |run| - 1;
    if i :| 0 <= i < n && run[..n][i].Pause? && forall j :: i < j < n ==> !run[..n][j].Resume? {
      assert run[i].Pause? && forall j :: i < j < n ==> run[j] == run[..n][j];
    }
    if i :| 0 <= i < |run| && run[i].Pause? && forall j :: i < j < |run| ==> !run[j].Resume? {
      assert i < n ==> run[..n][i].Pause?;
    }
  }

  lemma InsideNext(run: seq<Event>)
    requires run != []
    ensures Inside(run) <==> run[|run| - 1].EnterLibrary? || (Inside(run[..|run| - 1]) && !run[|run| - 1].LeaveLibrary?)
  {
    var n := |run| - 1;
    if i :| 0 <= i < n && run[..n][i].EnterLibrary? && forall j :: i < j < n ==> !run[..n][j].LeaveLibrary? {
      assert run[i].EnterLibrary? && forall j :: i < j < n ==> run[j] == run[..n][j];
    }
    if i :| 0 <= i < |run| && run[i].EnterLibrary? && forall j :: i < j < |run| ==> !run[j].LeaveLibrary? {
      assert i < n ==> run[..n][i].EnterLibrary?;
    }
  }

  lemma StepFlags(s: State, e: Event)
    ensures Step(s, e).enabled <==> e.Resume? || (s.enabled && !e.Pause?)
    ensures Step(s, e).locked <==> e.EnterLibrary? || (s.locked && !e.LeaveLibrary?)
    ensures Step(s, e).defaults == if e.SetDefault? then e.set_ else s.defaults
  {
  }

  /** Over every run measurement is enabled unless the last of its pauses and resumptions is a pause, and the lock is held
      exactly inside a locked call. */
  lemma {:induction false} EnabledIff(run: seq<Event>)
    ensures After(run).enabled <==> !Paused(run)
    ensures After(run).locked <==> Inside(run)
  {
    hide Step, Paused, Inside;
    if run == [] {
      NeverPaused();
    } else {
      EnabledIff(run[..|run| - 1]);
      StepFlags(After(run[..|run| - 1]), run[|run| - 1]);
      PausedNext(run);
      InsideNext(run);
    }
  }

  lemma NeverPaused()
    ensures !Paused([]) && !Inside([])
  {
  }

  /** The default set is the one last chosen, and empty if none was. */
  lemma {:induction false} DefaultsAre(run: seq<Event>)
    ensures forall i :: 0 <= i < |run| && run[i].SetDefault? && (forall j :: i < j < |run| ==> !run[j].SetDefault?) ==>
      After(run).defaults == run[i].set_
    ensures (forall i :: 0 <= i < |run| ==> !run[i].SetDefault?) ==> After(run).defaults == []
  {
    hide Step;
    if run != [] {
      var n := |run| - 1;
      var before := run[..n];
      DefaultsAre(before);
      StepFlags(After(before), run[n]);
      assert forall i :: 0 <= i < n ==> run[i] == before[i];
    }
  }

  // --- Regions ---

  /** The positions in the run of the pushes of name that are still open. */
  ghost function Open(run: seq<Event>, name: string): (r: seq<nat>)
    ensures forall i :: 0 <= i < |r| ==> r[i] < |run|
  {
    if run == [] then []
    else
      var before, e := run[..|run| - 1], run[|run| - 1];
      var open := Open(before, name);
      if After(before).locked then open
      else if e == PushRegion(name) then open + [|run| - 1]
      else if e == PopRegion(name) && open != [] then open[..|open| - 1]
      else open
  }

  /** What the event at position i of the run was given. */
  ghost function GivenAt(run: seq<Event>, i: nat): nat
    requires i < |run|
  {
    Given(After(run[..i]))
  }

  /** The stack of a name holds what its open pushes were given, in their order. */
  ghost predicate Holds(run: seq<Event>, name: string) {
    var open, stack := Open(run, name), After(run).Region(name);
    |stack| == |open| && forall k :: 0 <= k < |open| ==> stack[k] == GivenAt(run, open[k])
  }

  lemma RegionStep(s: State, e: Event, name: string)
    ensures Step(s, e).Region(name) == (
      if s.locked then s.Region(name)
      else if e == PushRegion(name) then s.Region(name) + [Given(s)]
      else if e == PopRegion(name) && s.Region(name) != [] then s.Region(name)[..|s.Region(name)| - 1]
      else s.Region(name))
  {
  }

  lemma GivenBefore(run: seq<Event>, i: nat)
    requires i < |run| - 1
    ensures GivenAt(run, i) == GivenAt(run[..|run| - 1], i)
  {
    assert run[..i] == run[..|run| - 1][..i];
  }

  lemma {:induction false} StackHolds(run: seq<Event>, name: string)
    ensures Holds(run, name)
  {
    hide Step, Given, GivenAt, State.Region;
    if run == [] {
      NothingOpen(name);
    } else {
      var before, e := run[..|run| - 1], run[|run| - 1];
      StackHolds(before, name);
      RegionStep(After(before), e, name);
      forall i: nat | i < |before|
        ensures GivenAt(run, i) == GivenAt(before, i)
      {
        GivenBefore(run, i);
      }
      GivenLast(run);
    }
  }

  lemma NothingOpen(name: string)
    ensures INITIAL.Region(name) == []
  {
  }

  lemma GivenLast(run: seq<Event>)
    requires run != []
    ensures GivenAt(run, |run| - 1) == Given(After(run[..|run| - 1]))
  {
  }

  /** Pushes of a name that the lock let through, and pops of it that found an open region. */
  ghost function Pushes(run: seq<Event>, name: string): nat {
    if run == [] then 0
    else
      var before := run[..|run| - 1];
      Pushes(before, name) + if run[|run| - 1] == PushRegion(name) && !After(before).locked then 1 else 0
  }

  ghost function Pops(run: seq<Event>, name: string): nat {
    if run == [] then 0
    else
      var before := run[..|run| - 1];
      Pops(before, name) +
      if run[|run| - 1] == PopRegion(name) && !After(before).locked && After(before).Region(name) != [] then 1 else 0
  }

  lemma {:induction false} StackLength(run: seq<Event>, name: string)
    ensures |After(run).Region(name)| == Pushes(run, name) - Pops(run, name)
  {
    if run != [] {
      StackLength(run[..|run| - 1], name);
      StackHolds(run[..|run| - 1], name);
      StackHolds(run, name);
    }
  }

  /** Place k of the stack of name holds a record's id. */
  ghost predicate HeldAt(s: State, name: string, k: int) {
    0 <= k < |s.Region(name)| && s.Region(name)[k] != SENTINEL
  }

  /** Ids come from below the next one; they rise up each stack and no two places hold the same. */
  ghost predicate Sound(s: State) {
    (forall id :: id in s.records ==> id < s.nextId) &&
    (forall n, k {:trigger HeldAt(s, n, k)} :: HeldAt(s, n, k) ==> s.Region(n)[k] < s.nextId) &&
    (forall n, j, k {:trigger HeldAt(s, n, j), HeldAt(s, n, k)} ::
       j < k && HeldAt(s, n, j) && HeldAt(s, n, k) ==> s.Region(n)[j] < s.Region(n)[k]) &&
    (forall m, n, j, k {:trigger HeldAt(s, m, j), HeldAt(s, n, k)} ::
       m != n && HeldAt(s, m, j) && HeldAt(s, n, k) ==> s.Region(m)[j] != s.Region(n)[k])
  }

  lemma BegunFacts(s: State, name: string)
    requires s.nextId < SENTINEL && Sound(s)
    ensures Begun(s, name).regions == s.regions
    ensures Given(s) == SENTINEL ==> Begun(s, name) == s
    ensures Given(s) != SENTINEL ==> Given(s) == s.nextId && Begun(s, name).nextId == s.nextId + 1
    ensures Given(s) != SENTINEL ==> Begun(s, name).records.Keys == s.records.Keys + {s.nextId}
    ensures Given(s) != SENTINEL ==> Begun(s, name).records[s.nextId].name == name
    ensures forall id :: id in s.records ==> id in Begun(s, name).records && Begun(s, name).records[id] == s.records[id]
  {
  }

  lemma PushSound(s: State, name: string)
    requires Sound(s) && s.nextId < SENTINEL
    ensures Sound(RegionPushed(s, name))
  {
    BegunFacts(s, name);
    hide Begun, Given;
    var t := RegionPushed(s, name);
    if !s.locked {
      forall n, k | HeldAt(t, n, k)
        ensures (HeldAt(s, n, k) && t.Region(n)[k] == s.Region(n)[k]) ||
          (n == name && k == |s.Region(n)| && t.Region(n)[k] == s.nextId && t.nextId == s.nextId + 1)
      {
      }
    }
  }

  lemma PopSound(s: State, name: string)
    requires Sound(s)
    ensures Sound(RegionPopped(s, name))
  {
    var t := RegionPopped(s, name);
    forall n, k | HeldAt(t, n, k)
      ensures HeldAt(s, n, k) && t.Region(n)[k] == s.Region(n)[k]
    {
    }
  }

  lemma SameRegions(s: State, t: State)
    requires Sound(s) && t.regions == s.regions && s.nextId <= t.nextId
    requires forall id :: id in t.records ==> id < t.nextId
    ensures Sound(t)
  {
    forall n, k | HeldAt(t, n, k)
      ensures HeldAt(s, n, k) && t.Region(n)[k] == s.Region(n)[k]
    {
    }
  }

  lemma StepSound(s: State, e: Event)
    requires Sound(s) && s.nextId < SENTINEL
    ensures Sound(Step(s, e)) && Step(s, e).nextId <= s.nextId + 1
  {
    if e.PushRegion? {
      PushSound(s, e.name);
      BegunFacts(s, e.name);
    } else if e.PopRegion? {
      PopSound(s, e.name);
    } else {
      if e.BeginRecord? {
        BegunFacts(s, e.name);
      }
      SameRegions(s, Step(s, e));
    }
  }

  /** As long as 64 bits last, ids are never handed out twice and the stacks stay in order. */
  lemma {:induction false} AlwaysSound(run: seq<Event>)
    requires |run| < SENTINEL
    ensures Sound(After(run)) && After(run).nextId <= |run|
  {
    if run != [] {
      AlwaysSound(run[..|run| - 1]);
      StepSound(After(run[..|run| - 1]), run[|run| - 1]);
    }
  }

  /** Some region holds the id. */
  ghost predicate Held(s: State, id: nat) {
    exists n, k :: HeldAt(s, n, k) && s.Region(n)[k] == id
  }

  /** The ids begun by hand and not ended. */
  ghost function ByHand(run: seq<Event>): set<nat> {
    if run == [] then {}
    else
      var before, e := run[..|run| - 1], run[|run| - 1];
      var s := After(before);
      if e.BeginRecord? && Given(s) != SENTINEL then ByHand(before) + {Given(s)}
      else if e.EndRecord? && !s.locked then ByHand(before) - {e.id}
      else ByHand(before)
  }

  /** Nobody ends by hand a record that a region holds. */
  ghost predicate Fair(run: seq<Event>) {
    run == [] ||
    (Fair(run[..|run| - 1]) &&
     (run[|run| - 1].EndRecord? ==> !Held(After(run[..|run| - 1]), run[|run| - 1].id)))
  }

  /** The live records are those the regions hold, under the region's name, and those begun by hand. */
  ghost predicate Kept(s: State, hand: set<nat>) {
    (forall n, k {:trigger HeldAt(s, n, k)} :: HeldAt(s, n, k) ==>
       s.Region(n)[k] in s.records && s.Region(n)[k] !in hand && s.records[s.Region(n)[k]].name == n) &&
    (forall id :: id in hand ==> id in s.records) &&
    (forall id :: id in s.records ==> id in hand || Held(s, id))
  }

  lemma PushPlaces(s: State, name: string, n: string, k: int)
    requires Sound(s) && s.nextId < SENTINEL && !s.locked && HeldAt(RegionPushed(s, name), n, k)
    ensures
      var t := RegionPushed(s, name);
      (HeldAt(s, n, k) && t.Region(n)[k] == s.Region(n)[k]) ||
      (n == name && k == |s.Region(n)| && t.Region(n)[k] == s.nextId && Given(s) == s.nextId)
  {
    hide Begun, Sound;
    BegunFacts(s, name);
  }

  lemma PushPlace(s: State, name: string, n: string, k: int)
    requires Sound(s) && s.nextId < SENTINEL && !s.locked && HeldAt(s, n, k)
    ensures HeldAt(RegionPushed(s, name), n, k) && RegionPushed(s, name).Region(n)[k] == s.Region(n)[k]
  {
    hide Begun, Given, Sound;
    BegunFacts(s, name);
  }

  lemma PushNew(s: State, name: string)
    requires Sound(s) && s.nextId < SENTINEL && !s.locked && Given(s) != SENTINEL
    ensures Held(RegionPushed(s, name), s.nextId)
  {
    hide Begun, Sound;
    BegunFacts(s, name);
    assert HeldAt(RegionPushed(s, name), name, |s.Region(name)|);
  }

  lemma PushRecords(s: State, name: string)
    ensures !s.locked ==> RegionPushed(s, name).records == Begun(s, name).records
    ensures s.locked ==> RegionPushed(s, name) == s
  {
  }

  lemma HeldKept(s: State, hand: set<nat>, n: string, k: int)
    requires Kept(s, hand) && HeldAt(s, n, k)
    ensures s.Region(n)[k] in s.records && s.Region(n)[k] !in hand && s.records[s.Region(n)[k]].name == n
  {
  }

  lemma PushKept(s: State, name: string, hand: set<nat>)
    requires Sound(s) && Kept(s, hand) && s.nextId < SENTINEL
    ensures Kept(RegionPushed(s, name), hand)
  {
    hide Begun, Given, RegionPushed, Held;
    BegunFacts(s, name);
    PushRecords(s, name);
    var t := RegionPushed(s, name);
    if !s.locked {
      forall n, k | HeldAt(t, n, k)
        ensures t.Region(n)[k] in t.records && t.Region(n)[k] !in hand && t.records[t.Region(n)[k]].name == n
      {
        PushPlaces(s, name, n, k);
        if HeldAt(s, n, k) {
          HeldKept(s, hand, n, k);
        }
      }
      forall id | id in t.records && id !in hand
        ensures Held(t, id)
      {
        if id in s.records {
          PushHeld(s, name, id);
        } else {
          PushNew(s, name);
        }
      }
    }
  }

  lemma PushHeld(s: State, name: string, id: nat)
    requires Sound(s) && s.nextId < SENTINEL && !s.locked && Held(s, id)
    ensures Held(RegionPushed(s, name), id)
  {
    hide Sound, RegionPushed;
    var n, k :| HeldAt(s, n, k) && s.Region(n)[k] == id;
    PushPlace(s, name, n, k);
  }

  lemma PopElsewhere(s: State, name: string, n: string, k: int)
    requires Sound(s) && !s.locked && s.Region(name) != [] && HeldAt(RegionPopped(s, name), n, k)
    ensures HeldAt(s, n, k) && RegionPopped(s, name).Region(n)[k] == s.Region(n)[k]
    ensures s.Region(n)[k] != s.Region(name)[|s.Region(name)| - 1]
  {
    var last := |s.Region(name)| - 1;
    assert s.Region(name)[last] != SENTINEL ==> HeldAt(s, name, last);
    assert n == name ==> k < last;
    assert HeldAt(s, n, k);
  }

  lemma PopKept(s: State, name: string, hand: set<nat>)
    requires Sound(s) && Kept(s, hand)
    ensures Kept(RegionPopped(s, name), hand)
  {
    var t := RegionPopped(s, name);
    var last := |s.Region(name)| - 1;
    if !s.locked && last >= 0 {
      forall n, k | HeldAt(t, n, k)
        ensures HeldAt(s, n, k) && t.Region(n)[k] == s.Region(n)[k] && s.Region(n)[k] != s.Region(name)[last]
      {
        PopElsewhere(s, name, n, k);
      }
      forall id | id in hand
        ensures id in t.records
      {
        if s.Region(name)[last] != SENTINEL {
          assert HeldAt(s, name, last);
        }
      }
      forall id | id in t.records && id !in hand
        ensures Held(t, id)
      {
        var n, k :| HeldAt(s, n, k) && s.Region(n)[k] == id;
        assert HeldAt(t, n, k) && t.Region(n)[k] == id;
      }
    }
  }

  lemma SameHeld(s: State, t: State)
    requires t.regions == s.regions
    ensures forall n, k {:trigger HeldAt(t, n, k)} :: HeldAt(t, n, k) <==> HeldAt(s, n, k)
    ensures forall n :: t.Region(n) == s.Region(n)
    ensures forall id :: Held(t, id) <==> Held(s, id)
  {
    forall id | Held(s, id)
      ensures Held(t, id)
    {
      var n, k :| HeldAt(s, n, k) && s.Region(n)[k] == id;
      assert HeldAt(t, n, k);
    }
    forall id | Held(t, id)
      ensures Held(s, id)
    {
      var n, k :| HeldAt(t, n, k) && t.Region(n)[k] == id;
      assert HeldAt(s, n, k);
    }
  }

  lemma BeginKept(s: State, name: string, hand: set<nat>)
    requires Sound(s) && Kept(s, hand) && s.nextId < SENTINEL
    ensures Kept(Begun(s, name), if Given(s) != SENTINEL then hand + {Given(s)} else hand)
  {
    BegunFacts(s, name);
    SameHeld(s, Begun(s, name));
    hide Begun, Given, HeldAt, Held;
  }

  lemma EndKept(s: State, id: nat, hand: set<nat>)
    requires Sound(s) && Kept(s, hand) && s.nextId < SENTINEL && !Held(s, id)
    ensures Kept(Ended(s, id), if s.locked then hand else hand - {id})
  {
    SameHeld(s, Ended(s, id));
    assert SENTINEL !in hand;
    forall n, k | HeldAt(s, n, k)
      ensures s.Region(n)[k] != id
    {
    }
  }

  lemma OtherKept(s: State, t: State, hand: set<nat>)
    requires Kept(s, hand) && t.regions == s.regions && t.records == s.records
    ensures Kept(t, hand)
  {
    SameHeld(s, t);
  }

  lemma NothingHeld()
    ensures Kept(INITIAL, {})
  {
  }

  /** Over every fair run the live records are the regions' and those begun by hand. */
  lemma {:induction false} AlwaysKept(run: seq<Event>)
    requires |run| < SENTINEL && Fair(run)
    ensures Kept(After(run), ByHand(run))
  {
    hide Begun, Ended, RegionPushed, RegionPopped, Sound, Given, Held, Components;
    if run == [] {
      NothingHeld();
    } else {
      var before, e := run[..|run| - 1], run[|run| - 1];
      var s, hand := After(before), ByHand(before);
      AlwaysKept(before);
      AlwaysSound(before);
      if e.PushRegion? {
        PushKept(s, e.name, hand);
      } else if e.PopRegion? {
        PopKept(s, e.name, hand);
      } else if e.BeginRecord? {
        BeginKept(s, e.name, hand);
      } else if e.EndRecord? {
        EndKept(s, e.id, hand);
      } else {
        OtherKept(s, Step(s, e), hand);
      }
    }
  }

  /** Once every region is closed nothing is left running but what was begun by hand. */
  lemma ClosedLeavesNothing(run: seq<Event>)
    requires |run| < SENTINEL && Fair(run) && forall name :: Open(run, name) == []
    ensures After(run).records.Keys == ByHand(run)
  {
    AlwaysKept(run);
    forall id | id in After(run).records
      ensures id in ByHand(run)
    {
      if Held(After(run), id) {
        var n, k :| HeldAt(After(run), n, k) && After(run).Region(n)[k] == id;
        StackHolds(run, n);
      }
    }
  }

  /** An open push was given a record unless the library had been paused and not resumed by then. */
  lemma {:induction false} OpenGiven(run: seq<Event>, name: string, k: nat)
    requires |run| < SENTINEL && k < |Open(run, name)|
    ensures GivenAt(run, Open(run, name)[k]) == SENTINEL <==> Paused(run[..Open(run, name)[k]])
  {
    hide Paused, Step, Sound;
    EnabledIff(run[..Open(run, name)[k]]);
    var before, e := run[..|run| - 1], run[|run| - 1];
    var i := Open(run, name)[k];
    assert i < |before| ==> run[..i] == before[..i];
    if k < |Open(before, name)| && Open(before, name)[k] == i {
      OpenGiven(before, name, k);
    } else {
      assert run[..i] == before;
      AlwaysSound(before);
    }
  }

  lemma NeverSentinel(s: State)
    requires Sound(s) && s.nextId <= SENTINEL
    ensures SENTINEL !in s.records
  {
  }

  /** A pop closes the latest open push of its name: it ends the record that push began, which bears that name and is
      still running, and no other; or none if at the push the library had been paused and not resumed. */
  lemma PopEndsOwn(run: seq<Event>, name: string)
    requires |run| < SENTINEL && Fair(run) && !Inside(run) && Open(run, name) != []
    ensures
      var open := Open(run, name);
      var push := open[|open| - 1];
      var own := GivenAt(run, push);
      var t := Step(After(run), PopRegion(name));
      t.records == After(run).records - {own} &&
      (if Paused(run[..push]) then t.records == After(run).records
       else own in After(run).records && After(run).records[own].name == name)
  {
    hide Sound, After, Given, Open, Paused, Inside;
    EnabledIff(run);
    var open := Open(run, name);
    var k := |open| - 1;
    StackHolds(run, name);
    OpenGiven(run, name, k);
    AlwaysSound(run);
    AlwaysKept(run);
    var s := After(run);
    assert s.Region(name)[k] == GivenAt(run, open[k]);
    NeverSentinel(s);
    if s.Region(name)[k] != SENTINEL {
      assert HeldAt(s, name, k);
    } else {
      assert s.records - {SENTINEL} == s.records;
    }
  }

  // --- The stack of component sets ---

  lemma {:induction false} WithoutIs(s: seq<Component>, c: Component, S: set<Component>)
    requires forall x :: x in s ==> (x in S <==> x != c)
    ensures Without(s, c) == Seqs.Kept(s, S)
  {
    hide Seqs.Kept;
    Seqs.KeptOne(c, S);
    if s != [] {
      WithoutIs(s[1..], c, S);
      Seqs.KeptPlus([s[0]], s[1..], S);
      Seqs.KeptOne(s[0], S);
      assert [s[0]] + s[1..] == s;
    }
  }

  /** Removing components one after the other keeps exactly the others, in their order. */
  lemma {:induction false} WithoutAllIs(s: seq<Component>, cs: seq<Component>)
    ensures WithoutAll(s, cs) == Seqs.Kept(s, Seqs.SetOf(s) - Seqs.SetOf(cs))
  {
    var S := Seqs.SetOf(s) - Seqs.SetOf(cs);
    if cs == [] {
      Seqs.KeptAll(s, S);
    } else {
      var n := |cs| - 1;
      var S0 := Seqs.SetOf(s) - Seqs.SetOf(cs[..n]);
      WithoutAllIs(s, cs[..n]);
      assert forall x :: x in cs <==> x in cs[..n] || x == cs[n];
      WithoutIs(Seqs.Kept(s, S0), cs[n], S);
      Seqs.KeptTwice(s, S0, S);
    }
  }

  /** The stack of sets as anybody who asks for the current set finds it: with the default set if it was empty. */
  ghost function Asked(s: State): seq<seq<Component>> {
    if s.components == [] then [s.defaults] else s.components
  }

  lemma Unroll(run: seq<Event>, e: Event)
    ensures After(run + [e]) == Step(After(run), e)
  {
    assert (run + [e])[..|run|] == run;
  }

  lemma SetsPushed(s: State, cs: seq<Component>)
    ensures Step(s, PushComponents(cs)).components == s.components + [cs]
    ensures Step(s, PopComponents).components ==
      if |s.components| > 1 then s.components[..|s.components| - 1] else s.components
    ensures Step(s, SetDefault(cs)).components == if s.components == [] then [cs] else s.components
  {
  }

  lemma SetsChanged(s: State, cs: seq<Component>)
    ensures
      var last := |Asked(s)| - 1;
      Step(s, AddComponents(cs)).components == Asked(s)[..last] + [Asked(s)[last] + cs] &&
      Step(s, RemoveComponents(cs)).components == Asked(s)[..last] + [WithoutAll(Asked(s)[last], cs)]
  {
    hide WithoutAll;
    var sets := Asked(s);
    assert Seeded(s).components == sets;
  }

  /** What the events on sets do: a push adds a set, a pop takes one away unless it is the last, an addition and a removal
      change the current one, and choosing a default set fills an empty stack. */
  lemma SetsAfter(run: seq<Event>, cs: seq<Component>)
    ensures
      var sets, asked := After(run).components, Asked(After(run));
      var last := |asked| - 1;
      After(run + [PushComponents(cs)]).components == sets + [cs] &&
      After(run + [PopComponents]).components == (if |sets| > 1 then sets[..|sets| - 1] else sets) &&
      After(run + [AddComponents(cs)]).components == asked[..last] + [asked[last] + cs] &&
      After(run + [RemoveComponents(cs)]).components ==
        asked[..last] + [Seqs.Kept(asked[last], Seqs.SetOf(asked[last]) - Seqs.SetOf(cs))] &&
      After(run + [SetDefault(cs)]).components == if sets == [] then [cs] else sets
  {
    hide After, Step, WithoutAll, Seqs.Kept;
    var s, asked := After(run), Asked(After(run));
    Unroll(run, PushComponents(cs));
    Unroll(run, PopComponents);
    Unroll(run, AddComponents(cs));
    Unroll(run, RemoveComponents(cs));
    Unroll(run, SetDefault(cs));
    SetsPushed(s, cs);
    SetsChanged(s, cs);
    WithoutAllIs(asked[|asked| - 1], cs);
  }

  lemma BegunMeasures(s: State, name: string)
    requires Sound(s) && s.nextId < SENTINEL && s.enabled && !s.locked
    ensures s.nextId !in s.records
    ensures Begun(s, name).records == s.records[s.nextId := Record(name, Asked(s)[|Asked(s)| - 1])]
    ensures Begun(s, name).components == Asked(s)
  {
  }

  /** A record begun, by hand or for a region, while the library is not paused measures exactly the current set, and its
      id is one that no live record has. */
  lemma RecordMeasures(run: seq<Event>, name: string)
    requires |run| < SENTINEL && !Paused(run) && !Inside(run)
    ensures
      var s, id := After(run), GivenAt(run + [BeginRecord(name)], |run|);
      var current := Asked(s)[|Asked(s)| - 1];
      id !in s.records &&
      After(run + [BeginRecord(name)]).records == s.records[id := Record(name, current)] &&
      After(run + [PushRegion(name)]).records == s.records[id := Record(name, current)] &&
      After(run + [BeginRecord(name)]).components == After(run + [PushRegion(name)]).components == Asked(s)
  {
    hide After, Begun, Paused, Inside, Sound;
    EnabledIff(run);
    AlwaysSound(run);
    Unroll(run, BeginRecord(name));
    Unroll(run, PushRegion(name));
    BegunMeasures(After(run), name);
    assert (run + [BeginRecord(name)])[..|run|] == run;
  }

  /** Pushing a set and popping it gives back the stack, unless the stack was empty: then the pushed set stays. */
  lemma PopUndoesPush(s: State, cs: seq<Component>)
    ensures Step(Step(s, PushComponents(cs)), PopComponents).components == s.components <==> s.components != []
  {
    assert s.components != [] ==> (s.components + [cs])[..|s.components|] == s.components;
  }

  /** How far a run of pushes and pops of sets is above where it began. */
  ghost function Level(run: seq<Event>): int {
    if run == [] then 0
    else
      Level(run[..|run| - 1]) +
      match run[|run| - 1]
      case PushComponents(_) => 1
      case PopComponents => -1
      case _ => 0
  }

  /** It never goes below. */
  ghost predicate Above(run: seq<Event>) {
    run == [] || (Above(run[..|run| - 1]) && Level(run) >= 0)
  }

  ghost function From(s: State, run: seq<Event>): State {
    if run == [] then s else Step(From(s, run[..|run| - 1]), run[|run| - 1])
  }

  lemma StepComponents(s: State, e: Event)
    requires s.components != []
    ensures
      var n, t := |s.components|, Step(s, e).components;
      match e
      case PushComponents(_) => |t| == n + 1 && t[..n] == s.components
      case PopComponents => |t| >= n - 1 && t == s.components[..|t|] && t != []
      case _ => |t| == n && t[..n - 1] == s.components[..n - 1]
  {
  }

  /** Whatever pushes, pops, additions, removals and records happen in between, as long as no more sets are popped than
      were pushed the sets below the current one are untouched, and there are as many as the pushes and pops say. */
  lemma {:induction false} SetsBelowKept(s: State, run: seq<Event>)
    requires s.components != [] && Above(run)
    ensures
      var n := |s.components|;
      |From(s, run).components| == n + Level(run) &&
      From(s, run).components[..n - 1] == s.components[..n - 1]
  {
    if run != [] {
      var before, e := run[..|run| - 1], run[|run| - 1];
      SetsBelowKept(s, before);
      var mid := From(s, before);
      StepComponents(mid, e);
      assert e.PopComponents? ==> |mid.components| > |s.components|;
      assert forall i :: 0 <= i < |s.components| - 1 ==> Step(mid, e).components[i] == mid.components[..|s.components| - 1][i];
    }
  }

  /** Once there is a set there always is one. */
  lemma {:induction false} NeverEmpty(s: State, run: seq<Event>)
    requires s.components != []
    ensures From(s, run).components != []
  {
    if run != [] {
      NeverEmpty(s, run[..|run| - 1]);
      StepComponents(From(s, run[..|run| - 1]), run[|run| - 1]);
    }
  }
}

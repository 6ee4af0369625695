/** The profile: its functions, their calls, its cycles, and the events stored on each of them. */
module Profiles {
  import opened Paths
  import opened Seqs

  /**
    * Attributes of the source's Function, Call and Cycle objects are maps from the object's key;
    * an absent key is the source's None or undefined event. A cycle is known by its place in
    * `cycleFunctions`, which holds the member set of every Cycle object made so far.
    */
  class Profile {
    var functions: seq<Id>               // keys of the functions dictionary, in iteration order
    var calls: Calls                     // keys of each function's calls, in iteration order
    var cycle: map<Id, nat>              // function.cycle
    var cycleFunctions: seq<set<Id>>     // cycle.functions
    var cycles: seq<nat>                 // profile.cycles

    var samples: map<Id, nat>            // function[SAMPLES]
    var totalSamples: map<Id, nat>       // function[TOTAL_SAMPLES]
    var profileSamples: nat              // profile[SAMPLES]
    var callWeight: map<Arrow, real>     // call[event] of call_ratios
    var callRatio: map<Arrow, real>      // call.ratio
    var selfTime: map<Id, real>          // function[inevent]
    var totalTime: map<Id, real>         // function[outevent]
    var callTime: map<Arrow, real>       // call[outevent]
    var cycleTime: map<nat, real>        // cycle[outevent]
    var profileSelf: map<(), real>       // profile[inevent]
    var profileTotal: map<(), real>      // profile[outevent]

    constructor ()
      ensures functions == [] && calls == map[] && cycle == map[] && cycleFunctions == [] && cycles == []
      ensures samples == map[] && totalSamples == map[] && profileSamples == 0
      ensures callWeight == map[] && callRatio == map[] && selfTime == map[] && totalTime == map[]
      ensures callTime == map[] && cycleTime == map[] && profileSelf == map[] && profileTotal == map[]
    {
      functions, calls, cycle, cycleFunctions, cycles := [], map[], map[], [], [];
      samples, totalSamples, profileSamples := map[], map[], 0;
      callWeight, callRatio, selfTime, totalTime := map[], map[], map[], map[];
      callTime, cycleTime, profileSelf, profileTotal := map[], map[], map[], map[];
    }

    /** The functions and calls are dictionaries over one set of functions. */
    ghost predicate Shaped()
      reads `functions, `calls
    {
      && NoDup(functions)
      && calls.Keys == SetOf(functions)
      && (forall f :: f in calls ==> NoDup(calls[f]))
    }

    /** Calls of undefined functions are dropped; everything else stays. */
    method Validate()
      requires Shaped()
      modifies this`calls
      ensures Shaped() && Closed(calls)
      ensures forall f :: f in functions ==> calls[f] == Kept(old(calls)[f], SetOf(functions))
    {
      for i := 0 to |functions|
        invariant Shaped()
        invariant forall k :: 0 <= k < i ==> calls[functions[k]] == Kept(old(calls)[functions[k]], SetOf(functions))
        invariant forall k :: i <= k < |functions| ==> calls[functions[k]] == old(calls)[functions[k]]
      {
        var f := functions[i];
        var all := calls[f];
        var kept := [];
        for j := 0 to |all|
          invariant kept == Kept(all[..j], SetOf(functions))
          invariant calls == calls[f := all]
        {
          assert all[..j + 1] == all[..j] + [all[j]];
          if all[j] in calls {
            kept := kept + [all[j]];
          }
        }
        assert all[..|all|] == all;
        calls := calls[f := kept];
      }
    }

    /**
      * The function joins the cycle and now names it as its own. A cycle it named before keeps its
      * members and none of them follow, because the test for them looks at the function just added.
      */
    method AddToCycle(c: nat, f: Id)
      requires c < |cycleFunctions| && f !in cycleFunctions[c]
      modifies this`cycle, this`cycleFunctions
      ensures cycleFunctions == old(cycleFunctions)[c := old(cycleFunctions)[c] + {f}]
      ensures cycle == old(cycle)[f := c]
    {
      cycleFunctions := cycleFunctions[c := cycleFunctions[c] + {f}];
      // the loop over the members of the cycle f named before has a test that f, now a member, never passes
      cycle := cycle[f := c];
    }
  }
}

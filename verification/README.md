# Profiles, traces, regions and profiler events: a verified model

This project models the parts of the repository where correctness is least obvious and proves what they are for.

**The call-graph profile** (`scripts/gprof2dot.py`). A profile goes through validation, cycle finding, call ratios and
integration. The model keeps that order and the code's branches:

- `Paths`, `TarjanSpec`, `FindCycles`: the recursive depth-first search with its stack and low links finds exactly the
  strongly connected components with two or more members.
- `CallRatios`, `Normalisation`, `ZeroWeights`: call weights become ratios. With positive weights the ratios hand out
  every total exactly once; with weights that may be zero or missing, it is proved what is handed out again by the
  rule that nothing divided by nothing is one and what is lost with calls that have no weight, and that where only one
  of the two can occur the totals are conserved exactly if it does not. `TwoCallers` holds an input for each.
- `Components`, `Flow`, `Bounds`, `Supply`: the plain recursive definition of a component's total, over the graph of
  components, which has no cycles; conservation, bounds and positivity for it.
- `Ranks`, `Rings`, `CycleCalls`, `CycleTime`, `Entries`, `Collect`, `ZeroRatios`, `Diamond`: time inside a cycle is
  handed out again along shortest-path ranks, once for every member through which the cycle is entered. The first check
  the code makes of the result never fails. The second never fails with positive ratios inside cycles, when the hand-out
  is exact; for ratios that may be zero it is proved exactly when the hand-out is exact and when the check fails, and
  `Diamond` is an input on which it does.
- `Books`, `Integrate`, `Results`, `Ledger`: the memoised mutual recursion, which writes into the profile, terminates. For
  any ratios it either stops because an entry fails its check or computes the plain definition, whatever the order of the
  functions; and then the stored numbers add up, call by call.
- `Samples`, `Outermost`, `Perf`, `StackTotals`: counting sampled call chains, and the whole way from samples to totals, by
  call ratios and by call stacks; and from any counters and weights.
- `Search`, `Prune`: the worklist of pruning, for every order in which pairs may be taken from it.
- `Names`, `Escape`: stripping brackets from C++ names, and quoting labels for DOT.

**Three protocols of a running thread.** `Trace`, `TraceHistory` (`source/trace.cpp`): pushes may be dropped and pops
are not, and quick functions get throttled. `Regions` (`source/library.cpp`): named regions and records under pause and
resume, and the stack of component sets. `Profiler`, `ProfilerHistory` (`source/python/libpytimemory-profile.cpp`):
records indexed by depth and label must follow one real stack of calls. Each is a class whose methods are proved against
a step function; the theorems are about every run of steps, and say what holds after a run by the events that have
happened in it.

Conventions. Functions are known by an id that is only compared. Numbers of the profile are `real`. Attributes of the
source's `Function`, `Call` and `Cycle` objects are maps of the class `Profile`, keyed by the object, an absent key
being `None` or an undefined event. Sums over functions are `Sums.Sum`, and a product in a contract is written
`Sums.Times`. Where the source iterates over a dictionary or a set, the order is that of a sequence the theorems
quantify over, or an arbitrary choice. Label is spelled `tag` in `Profiler`, since the former is a keyword.

Two places where the code and its comments part, and the model follows the code: integration announces that it
aggregates the input for each cycle, but every turn of that loop sums all functions of the profile and stores the sum
on the profile (lines 503-508); and when a function joins a second cycle, the loop over the members of its first one
tests the function itself instead of the other member, so nobody follows it (lines 281-286). The second cannot happen
when cycles are found on a profile that has none, which is how every parser modelled here calls it.

## Model

| member | source | states |
|---|---|---|
| Profiles.Profile.Validate | scripts/gprof2dot.py:305-313 | after it every call leads to a function of the profile, and each function has exactly the calls it had to such functions, in their order |
| Seqs.KeptPlus | scripts/gprof2dot.py:305-313 | what validation keeps of a list is what it keeps of its parts, in their order |
| Profiles.Profile.AddToCycle | scripts/gprof2dot.py:279-286 | the function is added to the members and names the cycle as its own; nobody else changes, even if it named another cycle before |
| TarjanSpec.SeenCallee | scripts/gprof2dot.py:419-423 | following a call to a function seen before keeps the invariant of the search: low links name live functions that are reached, and no followed call goes below them |
| TarjanSpec.NewCallee | scripts/gprof2dot.py:424-428 | following a call to a new function, given what its visit promises, keeps that invariant |
| TarjanSpec.ComponentFound | scripts/gprof2dot.py:429-432 | when a visit ends with the low link equal to its number, the live functions from it on are exactly those mutually reachable with it |
| TarjanSpec.CloseComponent | scripts/gprof2dot.py:429-440 | taking that component off the stack keeps the invariant |
| FindCycles.Settle | scripts/gprof2dot.py:433-440 | all members leave the stack; two or more become one new cycle that holds exactly them, a single one gets none |
| FindCycles.Tarjan | scripts/gprof2dot.py:402-441 | a visit numbers the function, finishes whole components only, groups each of them by mutual reachability, and keeps every earlier record and the stack below it |
| FindCycles.CollectCycles | scripts/gprof2dot.py:322-328 | the list of cycles holds each cycle of some function once |
| FindCycles.FindCycles | scripts/gprof2dot.py:315-328 | two distinct functions share a cycle exactly when each reaches the other, and a function has no cycle exactly when no other function is mutually reachable with it, self-call or not |
| FindCycles.OrderDoesNotMatter | scripts/gprof2dot.py:315-328 | two results for the same calls listed in any two orders group the functions alike |
| CallRatios.Aggregate | scripts/gprof2dot.py:445-462 | the first pass gives each function the weight of all calls from other functions, and each cycle that of all calls from outside it |
| CallRatios.CallRatios | scripts/gprof2dot.py:443-482 | exactly the calls between two functions get a ratio: the call's part of its callee's or, across into a cycle, of the cycle's weight; zero without a weight |
| CallRatios.RatioMeans | scripts/gprof2dot.py:466-482 | whatever the weights, a call's ratio is zero without a weight; else one if the weight of all calls of its callee by others (from outside into a cycle: of all calls into that) is nothing, and otherwise its part of that, kept between zero and one |
| Normalisation.RatioAcross | scripts/gprof2dot.py:475-479 | with positive weights, the ratio of a call between components is the exact quotient and lies above zero and at most at one, so neither clamp nor the zero case applies |
| Normalisation.RatioInside | scripts/gprof2dot.py:477-479 | the same for calls inside a cycle |
| Normalisation.RatiosNormalised | scripts/gprof2dot.py:466-482 | with positive weights, the ratios of the outside calls into every called component, a function or a cycle, add up to one |
| Normalisation.InsideAtMostOne | scripts/gprof2dot.py:466-482 | with positive weights, the ratios of the calls inside a cycle into one member add up to at most one |
| ZeroWeights.Accounting | scripts/gprof2dot.py:484-552 | whatever the ratios, the totals of the components nobody calls from outside are all the self time plus, for every called component, its total times what its incoming ratios exceed one by |
| ZeroWeights.IntoIs | scripts/gprof2dot.py:466-482 | with weights that are not negative, where there are any, the ratios into a component add up to one if any weight enters it, else to the number of calls with a weight that enter it: a call without one gets no ratio |
| Supply.DrawsIff | scripts/gprof2dot.py:517-552 | a component draws time exactly when some chain of calls with positive ratios from component to component, of any length, leads from it to a function with self time |
| Supply.SuppliedIs | scripts/gprof2dot.py:542-548 | the definition leaves nothing out for termination: a member is supplied exactly when it has self time or calls, with a positive ratio, another component that draws time |
| Supply.TotalPositive | scripts/gprof2dot.py:517-552 | with ratios and self times that are not negative, a component's total is positive exactly when it draws time |
| ZeroWeights.AccountingWeighed | scripts/gprof2dot.py:443-552 | with weights that are not negative, where there are any, the totals nobody calls for and the totals of components called only without a weight are all the self time and, for every component that only calls of weight zero enter, its total once for each such call beyond the first |
| ZeroWeights.ConservedIff | scripts/gprof2dot.py:75-89 | with such weights and self times that are not negative: if no component that draws time is called without a weight only, the totals nobody calls for are at least all the self time, and exactly that if and only if no component that two or more calls enter, all of weight zero, draws time; if no component of the second kind draws time they are at most that, and exactly that if and only if none of the first does |
| TwoCallers.CallersGetMore | scripts/gprof2dot.py:75-89 | two callers whose calls weigh nothing together get more than all the self time there is |
| TwoCallers.CallersGetLess | scripts/gprof2dot.py:480-482 | two callers whose calls have no weight together get less than all the self time there is |
| Components.Lower | scripts/gprof2dot.py:529-552 | a call that leaves its component leads to one that reaches strictly fewer functions: the measure on which integration terminates |
| Components.SubtotalIs | scripts/gprof2dot.py:542-548 | the plain definition of a member's subtotal is its self time and its shares of the components it calls, with no case left out for termination |
| Components.TotalOfFunction | scripts/gprof2dot.py:521-526 | the plain total of a function without a cycle is its self time and its share of every other function it calls |
| Components.TotalsFlow | scripts/gprof2dot.py:517-552 | the totals solve the flow equation over the graph of components |
| Components.Conservation | scripts/gprof2dot.py:443-552 | with normalised ratios the totals of the components that nobody calls from outside add up to exactly the self time of all functions |
| Bounds.TotalBounded | scripts/gprof2dot.py:517-552 | with normalised ratios and self times that are not negative, a component's total is between zero and the self time of the functions it reaches, and so at most that of the whole profile |
| Ranks.PopLeast | scripts/gprof2dot.py:605-606 | some entry of least cost is taken off the heap and no other |
| Ranks.RankCycleFunction | scripts/gprof2dot.py:582-629 | every member reached from the start inside the cycle gets its least number of calls from it, nothing else gets a rank, and each such member other than the start is put on the heap exactly once |
| Ranks.RanksUnique | scripts/gprof2dot.py:582-629 | ranks that are shortest distances are unique, so the order of the heap's equal entries is of no consequence |
| CycleCalls.AllRanked | scripts/gprof2dot.py:570-571 | from any member of a cycle all members get a rank |
| CycleCalls.CallRatiosCycle | scripts/gprof2dot.py:631-640 | one visit adds, for every member it visits and once each, the ratios of its rank-raising calls to the sums of their callees |
| CycleCalls.SumsAreArrivals | scripts/gprof2dot.py:631-640 | started at the entry, the sums are those of all rank-raising calls of the cycle |
| Rings.FractionIs | scripts/gprof2dot.py:654 | with positive ratios the fraction a rank-raising call gets is the exact quotient, never clamped |
| Rings.InflowIs | scripts/gprof2dot.py:652-655 | with ratios that are not negative, a member other than the entry is handed out once if any ratio arrives at it, else once for every call that rises to it, and the entry not at all |
| Rings.RingInflow | scripts/gprof2dot.py:652-655 | with positive ratios the fractions into every member other than the entry add up to one, and into the entry to zero |
| Rings.EntryGets | scripts/gprof2dot.py:642-666 | with ratios that are not negative, the entry has all that the members put in, and for each member handed out more than once its time for every time beyond the first |
| Rings.EntryGetsAll | scripts/gprof2dot.py:642-666 | with positive ratios whatever is put into the members arrives whole at the entry |
| Rings.EntryGetsMost | scripts/gprof2dot.py:574-576 | with ratios that are not negative, no member has more than the entry |
| CycleTime.IntegrateCycleFunction | scripts/gprof2dot.py:642-666 | the memoised visit returns the plain recursive partial time, and adds to every member visited its partial and to every rank-raising call its share, each once |
| Entries.DistancesExist | scripts/gprof2dot.py:582-629 | shortest distances inside a finite cycle exist, so the plain partial time does not depend on the code |
| Entries.EntryExceeds | scripts/gprof2dot.py:572-578 | with ratios that are not negative, the entry's partial is its entry ratio times the cycle's total and the excess, which is not negative |
| Entries.EntryGreatest | scripts/gprof2dot.py:574-576 | with ratios that are not negative, the entry's partial is the greatest, so the first check always succeeds |
| Entries.EntryExact | scripts/gprof2dot.py:572-578 | with positive ratios inside cycles and self times that are not negative, the entry's partial is exactly its entry ratio times the cycle's total and the greatest of all partials |
| Entries.LivelyPasses | scripts/gprof2dot.py:572-578 | with positive ratios inside cycles no entry of any cycle fails a check |
| ZeroRatios.PartialPositive | scripts/gprof2dot.py:642-666 | a member has partial time exactly when the cycle is entered with some ratio and the member reaches supplied members along rank-raising calls that hand something on |
| ZeroRatios.EntryExactIff | scripts/gprof2dot.py:572-578 | with ratios that may be zero, the entry's partial is never less than its part of the cycle's total, and equal to it if and only if no member that two or more calls rise to, all without ratio, carries time to an entry that is called with some ratio |
| ZeroRatios.EntryPassesIff | scripts/gprof2dot.py:578 | the tolerance check fails exactly when the time handed out again is more than a thousandth of the entry's part |
| ZeroRatios.UndoubledPasses | scripts/gprof2dot.py:572-578 | no entry of a cycle fails a check if no member that two or more calls rise to, all without ratio, carries time to an entry that is called with some ratio |
| ZeroRatios.EntryFailsIff | scripts/gprof2dot.py:578 | with how much ratio an entry is called makes no difference to its check, if it is called with any: it fails exactly when what would be handed out again at a ratio of one is more than a thousandth of the cycle's total |
| Diamond.DiamondFails | scripts/gprof2dot.py:578 | an input of integration, with its weights, on which it stops: the entry's partial is at least twice its part of the cycle's total, which is positive, and that check fails |
| Entries.ServeEntry | scripts/gprof2dot.py:566-578 | for any ratios that are not negative, one turn for an entry adds that entry's partials and call shares to those already there; the check of the greatest never fails, and the turn succeeds exactly if the entry stands the tolerance check |
| Entries.ServeEntries | scripts/gprof2dot.py:563-578 | for any ratios that are not negative, it succeeds exactly if all entries stand the check, in any order; then each member has the sum of its partials over the entries, and each inner call the sum of its shares |
| Collect.CollectEntries | scripts/gprof2dot.py:551-561 | the entries are exactly the members called from outside, each with the sum of the ratios of those calls |
| Results.EntryRatioIs | scripts/gprof2dot.py:551-561 | an entry's ratio is the sum, over the functions outside the cycle that call it, of the ratios of their calls to it |
| Integrate.IntegrateCall | scripts/gprof2dot.py:529-535 | the call had no time before, gets the ratio times its callee's plain total, and that is what is returned, unless a check fails below |
| Integrate.IntegrateFunction | scripts/gprof2dot.py:517-527 | returns the plain total of the function's component, unless a check fails; everything written belongs to components below it or is its own, and what was written before stays |
| Integrate.IntegrateCycle | scripts/gprof2dot.py:537-580 | the same for a cycle, whose members and inner calls get the times due to them |
| Integrate.AggregateInput | scripts/gprof2dot.py:503-508 | for every cycle the sum of all self times is stored on the profile |
| Integrate.Integrate | scripts/gprof2dot.py:484-515 | for any ratios that are not negative it comes to its end exactly if no entry of any cycle fails its check; then every function, call and cycle has exactly the value of the plain definition, whatever the order, and the profile the sum of all self times |
| Ledger.SettledAddsUp | scripts/gprof2dot.py:484-580 | what integration stores adds up, whatever the ratios: a call into another component has its ratio of what is stored for that; a cycle has the self times and outgoing calls of its members; a function outside cycles has its self time and the times of its calls; a member has its self time and outgoing calls once for every ratio into its cycle, and the times of its calls inside |
| Ledger.SettledPaysAll | scripts/gprof2dot.py:484-580 | with normalised ratios every function, in a cycle that somebody calls or outside cycles, has its self time and the times of all its calls; and the callers of a function outside cycles have its total between them |
| Results.EntryRatiosSum | scripts/gprof2dot.py:551-561 | the entry ratios of a cycle add up to the ratios of all calls into it |
| Results.PartialBounds | scripts/gprof2dot.py:642-666 | with ratios that are not negative, one entry gives a member at least its ratio of the member's self time and at most what it has itself, which with positive ratios inside is its ratio of the cycle's total |
| Results.MemberBounded | scripts/gprof2dot.py:563-578 | with normalised ratios, positive inside cycles, and self times that are not negative, a member's total is between zero and its cycle's total; it is at least its self time if the cycle has an outside caller, and zero if not |
| Results.MemberNearlyBounded | scripts/gprof2dot.py:563-578 | with normalised ratios, whatever they are inside, and self times that are not negative, if the cycle's entries stand their checks, the same up to a thousandth of the cycle's total |
| Samples.ParseEvent | scripts/gprof2dot.py:1998-2028 | all counters are those of the events so far; what that means place by place is the next row |
| Samples.TalliedMeans | scripts/gprof2dot.py:1998-2028 | u calls v exactly if in some chain u stands right after v, and the call weighs as many such places as there are; a function's samples are the chains it stands first in, its total samples those it stands in at all, and the profile's those that are not empty |
| Samples.SampleBounds | scripts/gprof2dot.py:2011-2028 | a function runs in no more samples than it is on the stack for, recursion or not, and those are no more than were taken |
| Samples.RunningSum | scripts/gprof2dot.py:2011-2013 | the samples of all functions add up to the samples of the profile |
| Outermost.OuterUncalled | scripts/gprof2dot.py:2015-2023 | a function seen at the outer end of chains only has no caller |
| Outermost.MainHasAll | scripts/gprof2dot.py:2015-2023 | when all chains that are not empty end with one function that stands nowhere else, its total is that of all components nobody calls |
| Perf.TimeRatio | scripts/gprof2dot.py:679-690 | every function gets its part of all samples, and the profile one |
| Perf.RatedReady | scripts/gprof2dot.py:443-482 | whatever the weights, positive, zero or missing, the ratios they get make a profile that can be integrated |
| Perf.Derive | scripts/gprof2dot.py:890-893 | for any counters and weights: calls of undefined functions are gone, the cycles are the components, the self times and call ratios are those of the code |
| Perf.DeriveAndIntegrate | scripts/gprof2dot.py:890-894 | for any counters and weights integration comes to its end exactly if no check fails; then exactly the functions have totals, those due to them, and the stored numbers add up; with weights that are not negative, where there are any, the totals nobody calls for and what is lost are all the self time and what is counted again, and conservation holds under the two conditions above |
| Perf.Assemble | scripts/gprof2dot.py:1976-1979 | what the samples give makes every ratio positive and normalised, and the self times add up to one |
| Perf.TotalsBounded | scripts/gprof2dot.py:484-580 | after integration with normalised ratios, positive inside cycles, each function has a total between zero and all self time: its component's, or its member total, which is at most its cycle's |
| Perf.ParseSamples | scripts/gprof2dot.py:1966-1979 | for every list of call chains: the functions are those seen, the calls their adjacent places, the cycles the components, and self times and ratios those of the counters, positive and normalised |
| Perf.ParsePerf | scripts/gprof2dot.py:1966-1982 | for every list of call chains: exactly the functions seen have totals, between zero and one; calls lead from a place to the one before it; self times are the exact parts of the samples; all stored numbers add up and every call is paid for; the components nobody calls from outside divide exactly the whole profile, and a function that all chains end with, and that stands nowhere else, has all of it |
| StackTotals.StackRatio | scripts/gprof2dot.py:1983-1986 | with at least one sample the self and stack ratios are the exact quotients, ordered and between zero and one, so nothing is clamped |
| StackTotals.ParsePerfStacks | scripts/gprof2dot.py:1983-1992 | each function's total is its exact part of the samples it is on the stack for and no less than its self time; exactly the calls between two functions get a time, their ratio of their callee's total; the calls of a function outside cycles get exactly its total between them, and the ratios of the calls into a cycle add up to one |
| Search.TakeInv | scripts/gprof2dot.py:338-345 | taking any pair from the worklist keeps its invariant |
| Search.TakeEnds | scripts/gprof2dot.py:338-345 | the worklist gets empty: each turn visits a new node, or removes a pair of a visited node and adds none |
| Search.EndExact | scripts/gprof2dot.py:335-345 | without a depth limit, or with one no simple chain can exceed, exactly the reachable nodes are visited |
| Search.EndShallow | scripts/gprof2dot.py:335-345 | with a limit of at most one, exactly the nodes within the limit are visited |
| Search.DeepMisses | scripts/gprof2dot.py:335-345 | for every limit of two or more, a graph and an order of taking pairs that miss a node within the limit |
| Search.ExactIffShallow | scripts/gprof2dot.py:335-345 | for a limit that is not negative, all runs on all graphs visit exactly the nodes within it if and only if it is at most one |
| Search.OneLengthMissesNothing | scripts/gprof2dot.py:335-345 | whatever the limit, no run misses a node within it if within it all chains to one node have one length |
| Prune.VisitDown | scripts/gprof2dot.py:336-345 | the search from the roots, for any order, is a run of the worklist to its end |
| Prune.CallersOf | scripts/gprof2dot.py:358-361 | the reversed graph holds exactly the callers of each function |
| Prune.PruneRoot | scripts/gprof2dot.py:335-355 | without a limit, or with one that no simple chain exceeds, exactly what the roots reach is kept, with exactly the calls among it; with one, nothing beyond it, and exactly what is within it if it is at most one or if all chains within it to one function have one length |
| Prune.PruneLeaf | scripts/gprof2dot.py:357-384 | the same for what reaches the leaves, of which those that are no functions make no difference |
| Prune.PruneRootThenLeaf | scripts/gprof2dot.py:3337-3348 | exactly the functions on some path from a chosen root to a chosen leaf of the graph before are kept, with exactly the calls among them |
| Names.SubFeeds | scripts/gprof2dot.py:250-252 | one pass that removes the innermost pairs does not change what a one-pass matcher makes of the name |
| Names.NothingLeft | scripts/gprof2dot.py:253-254 | a pass that removes nothing leaves the name alone, and then no opening bracket stands before a closing one |
| Names.OrderedMeans | scripts/gprof2dot.py:253-254 | in such a name no opening bracket stands anywhere before a closing one |
| Names.StripPairs | scripts/gprof2dot.py:249-254 | the passes end, and leave exactly the name without its matched regions, as a matcher that reads once with a stack finds them |
| Names.DropConstIs | scripts/gprof2dot.py:256-257 | a name that ends in white space, const and perhaps a newline loses the first two, whatever stands before |
| Names.DropConstOnly | scripts/gprof2dot.py:256-257 | a name that loses anything there is of that form |
| Names.SpacesAre | scripts/gprof2dot.py:256-257 | the characters that count as white space before a trailing const, one by one |
| Names.StrippedName | scripts/gprof2dot.py:244-266 | regions in round brackets go, then a trailing const, then regions in angle brackets; in the end no ( stands before a ) and no < before a > |
| Escape.EscapeIsSubstitution | scripts/gprof2dot.py:3150-3154 | the four replacements in a row are one substitution, character by character |
| Escape.EscapeOne | scripts/gprof2dot.py:3150-3154 | what each of the four special characters becomes; any other stays as it is |
| Escape.ReadExactly | scripts/gprof2dot.py:3147-3154 | a reader that goes once through the quoted text and refuses raw newlines, tabs, bare quotes and other escapes reads s from a text if and only if the text is s escaped |
| Trace.Tracer.PushTrace | source/trace.cpp:448-521 | the state after a push: initialised if it can be; one more entry if the lock is free, the library runs, the id is not throttled and its name is known, else nothing |
| Trace.Tracer.PopTrace | source/trace.cpp:525-614 | the state after a pop, lock or no lock: at most the newest entry goes, the clock stops, and the window is judged when it is full |
| Trace.Tracer.Init | source/trace.cpp:682-808 | only the first initialisation makes the library ready, and each attempt before that counts |
| Trace.Tracer.FinalizeTrace | source/trace.cpp:814-879 | only the last finalisation ends the library |
| Trace.Tracer.Reset | source/trace.cpp:382-388 | the id is throttled no longer, and nothing else changes |
| TraceHistory.FlagsTell | source/trace.cpp:448-521 | over every run the library is ready once it, or the trace with a manager, was initialised or pushed to; the trace counts one use if it did that and was not finalised since; it is over once it was; it is enabled unless something switched it off after it was last switched on |
| TraceHistory.FirstPush | source/trace.cpp:448-521 | the first push in a program that initialised nothing, with a manager present, the lock free, the name known and nothing switched off, leaves the library ready with one use and stores exactly its bundle |
| TraceHistory.PushExactly | source/trace.cpp:448-521 | over every run a push puts its bundle on the stack of its id if and only if the lock is free, the name is known, the library was ready or can be made so, is neither over nor switched off, and the id is not throttled; otherwise, and for every other id, the stack stays |
| TraceHistory.PopExactly | source/trace.cpp:525-570 | over every run a pop takes the newest entry of its id, lock or no lock, switched off or not, while the library is ready and not over; otherwise, and for every other id, the stack stays |
| TraceHistory.ClockExactly | source/trace.cpp:525-612 | over every run what one more event does to the clock of an id: only a pop of it adds to the time, only one with an entry of an id that is not throttled counts, and the last of a window starts the clock again |
| TraceHistory.FinalizeExactly | source/trace.cpp:814-879 | over every run a finalisation with a manager ends a trace in use, switches it off and clears the stacks unless the manager is finalised already; any other changes nothing |
| Trace.StacksBounded | source/trace.cpp:448-570 | before finalisation, over every run, the stack of an id is no longer than the program's nesting of it, whichever pushes were dropped |
| Trace.BalancedLeavesNothing | source/trace.cpp:448-570 | a run whose pops of an id never outnumber its pushes, and in the end equal them, leaves its stack empty |
| Trace.HonestIff | source/trace.cpp:448-570 | over every run before finalisation, each pop ends the measurement of its own call, or none if that was dropped, if and only if no dropped call was closed inside a measured call of the same id |
| Trace.DropInsideMisleads | source/trace.cpp:448-570 | a nested run in which a recursive call made while the library is disabled ends the outer call's measurement |
| Trace.Windows | source/trace.cpp:569-612 | over every run the stored count is the number of counted pops modulo the window, hence below it, and the stored time is what the clock collected since the last full window |
| Trace.ThrottledExactly | source/trace.cpp:480-487 | an id gets throttled by the last counted pop of a window whose collected time is below limit times window, and by nothing else; only a reset frees it |
| TraceHistory.ThrottledIff | source/trace.cpp:569-612 | over every run an id is throttled exactly if some counted pop of it ended a window in less than limit times window, and no reset came after |
| Trace.StaysThrottled | source/trace.cpp:374-388 | without a reset a throttled id stays throttled, and its stack is only ever cut |
| Trace.LoopMeasured | source/tests/throttle_tests.cpp:174-215 | a loop of calls is measured up to the end of its first window that is too quick and no further, and the id is throttled in the end exactly if there is such a window |
| Regions.Library.GetUniqueId | source/library.cpp:144-151 | hands out the counter and moves it on, within 64 bits |
| Regions.Library.GetBeginRecord | source/library.cpp:482-499 | a new record of the current components under the next id, or the sentinel and no change when paused or locked |
| Regions.Library.EndRecord | source/library.cpp:557-561 | the record goes, unless the id is the sentinel or the lock is held |
| Regions.Library.PushRegion | source/library.cpp:573-583 | the id handed out, or the sentinel, goes on the name's stack |
| Regions.Library.PopRegion | source/library.cpp:587-604 | the record on top of the name's stack ends and the stack gets shorter; without an open region nothing happens |
| Regions.Library.Pause | source/library.cpp:313 | collection is disabled and nothing else changes |
| Regions.Library.Resume | source/library.cpp:318 | collection is enabled and nothing else changes |
| Regions.EnabledIff | source/library.cpp:313-318 | over every run collection is enabled unless the last pause came after the last resumption, and the lock is held exactly inside a locked call |
| Regions.StackHolds | source/library.cpp:573-604 | over every run the stack of a name holds exactly what its open pushes were given, in their order |
| Regions.StackLength | source/library.cpp:573-604 | over every run its length is the number of pushes less that of the pops that found an open region |
| Regions.AlwaysSound | source/library.cpp:144-173 | over every run, with any use of ids by other threads and as long as 64 bits last, ids that are not the sentinel rise up each stack and are distinct across names |
| Regions.AlwaysKept | source/library.cpp:156-190 | over every run in which nobody ends a region's record by hand, the live records are exactly those that regions hold, each under its region's name, and those begun by hand |
| Regions.OpenGiven | source/library.cpp:482-499 | an open push was given no record exactly if by then the library had been paused and not resumed since |
| Regions.PopEndsOwn | source/library.cpp:587-604 | on such runs a pop ends exactly the record its own push began, which is still running and bears the name; or none if at that push the library had been paused and not resumed, whatever it is at the pop |
| Regions.ClosedLeavesNothing | source/library.cpp:573-604 | on such runs, once every region is closed, nothing is left running but what was begun by hand |
| Regions.DefaultsAre | source/library.cpp:322-331 | the default set is the one last chosen, and empty if none was |
| Regions.RecordMeasures | source/library.cpp:482-499 | over every run a record begun while nothing is paused or locked, by hand or for a region, bears the name under an id no live record has, and measures the current set, which is the default one if there was none |
| Regions.SetsAfter | source/library.cpp:348-405 | over every run what each event on sets does: a push adds a set, a pop takes one away unless it is the last, an addition appends to the current one, a removal leaves exactly its other components in their order, and choosing a default fills an empty stack |
| Regions.Library.AddComponents | source/library.cpp:348-354 | the components are appended to the current set, which is the default one if there was none |
| Regions.Library.RemoveComponents | source/library.cpp:358-364 | exactly the named components go from the current set |
| Regions.Library.PopComponents | source/library.cpp:399-405 | the current set goes unless it is the only one |
| Regions.PopUndoesPush | source/library.cpp:368-405 | pushing a set and popping it restores the stack if and only if the stack was not empty |
| Regions.SetsBelowKept | source/library.cpp:348-405 | over any run that pops no more sets than it pushed, the sets below the current one are untouched and their number is what pushes and pops say |
| Regions.NeverEmpty | source/library.cpp:399-405 | once there is a set there always is one |
| Profiler.Config.Init | source/python/libpytimemory-profile.cpp:408-425 | starting clears the records and the base depth, unless the profiler runs already |
| Profiler.Config.Finalize | source/python/libpytimemory-profile.cpp:427-433 | stopping does the same, if it runs |
| Profiler.Config.ProfilerFunction | source/python/libpytimemory-profile.cpp:153-388 | the state after one event, and the record it stopped: the depth limit is for calls only, the filters for both, and a return without a record does nothing |
| ProfilerHistory.BaseIs | source/python/libpytimemory-profile.cpp:204-211 | over every well nested run the base depth is the depth of the first frame the profiler noticed, or none |
| ProfilerHistory.OpenIs | source/python/libpytimemory-profile.cpp:179-388 | over every well nested run the open calls are those left from the start and those made in it, in order, each with the label, the frame and the record of its own event |
| ProfilerHistory.RecordedIff | source/python/libpytimemory-profile.cpp:179-213 | over every well nested run an open call made in it has a record, its own, if and only if the profiler is active, the call is of Python or C events are on, its frame is not filtered, its label is not empty, and its frame is at most three more than the limit deeper than the first one noticed |
| Profiler.OwnIff | source/python/libpytimemory-profile.cpp:363-374 | while the records follow the calls, the end of a call stops its own record, or nothing if there is none, exactly when a recorded call ends by a return and with its label |
| Profiler.FaithfulIff | source/python/libpytimemory-profile.cpp:179-388 | on every well nested run, with C events on or off, C calls that raise, and any calls already open at the start, all ends do so if and only if every recorded call ends by a return and with the label it was called with |
| Profiler.OnePerDepth | source/python/libpytimemory-profile.cpp:355-374 | on well nested runs with C events off, in which every recorded call ends by a return and with the label it was called with, no depth has two live records, under one label or two |
| Profiler.NothingLeftOver | source/python/libpytimemory-profile.cpp:355-374 | on well nested runs in which recorded calls end so, once every recorded call has ended no record is live |
| Profiler.LineNumbersMislead | source/python/libpytimemory-profile.cpp:256-281 | a call whose label changes before it returns, as with line numbers in labels, is left running |
| Profiler.ExceptionsMislead | source/python/libpytimemory-profile.cpp:179-195 | with C events on, a C call that raises is left running, and the return of the function that made it stops that record in place of its own |

## Left out

- Regions.AlwaysSound: bounds the run by the range of 64 bits; after a wrap-around the counter hands out ids again.
- Regions.Library.GetUniqueId: the increment is one step; in the source two threads may read the counter before either writes it.
- Round-off in the profile's numbers: they are exact reals, so the first check of integration cannot fail; the second is modelled with its tolerance.
- Aliasing between `Function`, `Call` and `Cycle` objects: attributes are maps of the profile, and local dictionaries are passed and returned. A call's callee id and its key in the dictionary of calls are one thing.
- The heap of the ranking is a sequence from which any entry of least cost is taken; the decrease-key branch is written as the dead branch it is proved to be.
- Sample counts that are negative or not whole; the weights of calls may be any real number.
- Recursion limits of the interpreter.
- What is left written on the profile when integration stops at a check that fails: the model says when it stops.
- Integration for other pairs of events than one self time and one total time; inclusive events and those that fail to aggregate.
- `Profile.prune` by node and edge thresholds and by path, and the rescaling of weights for colours.
- The parsers' text, XML and zip input, and cycles that a gprof or AXE file brings along: those need not be components.
- Regular expressions other than the three that strip names; `fnmatch` for choosing roots and leaves.
- DOT layout, themes and colours; the command line.
- Clocks, bundles and toolsets: a bundle is a number, a record its name and components, and the time a stopped clock adds is a parameter.
- The trace and library locks: for a trace push whether the lock was free is a parameter of the step; the library's lock belongs to the thread, so it is refused only inside a locked call.
- Settings that change while the profiler runs, its filters' regular expressions (a frame is filtered or not), the depth computation along the frame's parents, and the switching off of profiling at shutdown.
- Hash collisions, the copying of hash ids between threads, MPI and signal handlers, user-supplied record functions, and finalisation of the record library.
- A worker thread's first stack of component sets, which is a copy of the main thread's.

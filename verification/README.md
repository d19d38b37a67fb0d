# KeelS2 in Dafny

KeelS2 is a native plugin host for Source 2 game servers. This project models the parts of it where
re-entrancy, dropped locks and partial failure meet, and proves what they promise. `dafny verify
dfyconfig.toml` checks everything.

**Hook dispatch.** `HookDispatch` says what one call of a hooked function does, as a re-entrant interpreter
over arbitrary callbacks. `HookEngine` is the same in the service's own form, with thread-local stacks and
loops that update one control record, proved equal to the interpreter. `HookLaws` proves what a dispatch
promises, `HookTrace` that its ledger counts the calls that can be seen, `HookFrames` what every callback
finds in its frame and what the original is called with, `HookFlags` that callbacks which only look change
nothing. `HookConduct` says which callbacks a recall can go
unnoticed by, `HookRecall` proves that recalling is then transparent, `HookDepth` that this needs room on the
target stack and how much, and `HookControls` that the law covers the callback of the repository's own tests.

**Hook registry and vtables.** `HookRegistry` and `HookRegistrySafety` are the target registry as steps that
any threads interleave wherever the lock is dropped, `HookRegistryUse` who leases and lists a target and when
its key is free again; `HookTeardown` says when native code goes away under a dispatch. `Vtables` has the
compare-and-swap and the two kinds of virtual hooks under it. `Aggregates` is the memoised canonicaliser of
aggregate types, `AggregateBounds` what an accepted type is good for.

**Plugin host.** `HostProtocol`, `HostSafety` and `HostRuns` are the life of plugins and their services as
interleaved steps, `HostLeases` the history of every lease. `PublishedServices` is the service registry,
`PluginStartup` the fixpoint of start-up, `PluginUnload` and `UnloadRounds` the unloading of everything.
`Quiescence`, `ConVarRelease` and `ConstructionTokens` are the three small protocols of the services beside
it. `HostEffects`, `QuiescenceEffects`, `ConVarEffects` and `ConstructionEffects` say of each part of those
states which steps change it, and into what.

**Compatibility tool.** `PatternText` and `PatternScan` compare the two parsers and scanners of byte patterns,
`PatternTokens` says which texts are which patterns. `RecordText`, `Profiles`, `Numerals` and `Sorting` are
the text format of profiles, `RecordReading` and `ProfileReading` say which texts are profiles, and of what.
`ModuleImages` has the executable ranges of ELF and PE files, `ModuleFiles` what files of the published
layouts give; `CaptureReview` is capture and validation, `CaptureMeaning` what a captured
profile says of the files, `FingerprintLaws` what a fingerprint shows.

Methods stand where the source has a loop or changes an object; each is proved against a function. The
interleaved protocols are state machines over steps, one step for what happens under one hold of a lock.

## Where the code falls short of the promise

- A plugin that names itself as a dependency is rejected and committed before the check for duplicate
  names (`host/src/plugin_manager.cpp:437-466`). When two discoveries overlap, such a record can stand
  earlier in the list than a running plugin of the same name and take the name over, so that a plugin
  runs without its dependency. `HostSafety.StepDependencies` and `HostRuns.RunDependencies` give the exact
  condition, `HostRuns.OverlapBreaksDependencies` a run, `HostRuns.DependenciesAlwaysRun` the promise
  for discoveries one at a time.
- An unload that fails after the plugin's services were released gives its leases up but is not counted
  as progress (`host/src/plugin_manager.cpp:1517-1573`), so unloading everything can stop with a plugin that
  is no longer blocked. `UnloadRounds.StillBlockedIff` gives the exact condition on the state before the
  call, `UnloadRounds.LeftOverIsBlocked` a simple one, `PluginUnload.LateFailureLeavesUnblocked` a call.
- Restoring the dispatch of a plugin (`host/src/lifecycle_service.cpp:122-140`) switches on a subscription
  whose removal is still waiting. Once that is erased it stays switched on for dispatches that listed
  it, and runs after a later deactivation returned OK. `QuiescenceSafety.StepGone` and
  `RunKeepsGoneOff` give the exact condition, `RevivedRuns` a run.
- A failed enable tears down entry code without waiting for native dispatches inside it
  (`host/src/keelhook_service.cpp:2655-2774`). `HookTeardown.RunTorn` shows that nothing else does,
  `HookTeardown.FailedEnableTearsInside` a run.
- The two scanners differ on executable ranges that touch: `PatternScan.ScannersAgreeIff` gives the exact
  condition, `PatternScan.TouchingRangesDiffer` an image. The runtime parser checks the length limit after
  byte tokens only, so a pattern that ends in wildcards may be longer: `PatternText.ParsersDifferIff`
  and `PatternText.ParsersDiffer`.
- A disable of an object's last slot that fails at the object puts the shadow entry back, and ignores
  whether that worked (`hooking/src/vtable.cpp:455-463`). If not, the slot counts as enabled with the
  original in place, and no enable or disable changes it: `Vtables.StrandedStays`.
- A recall uses up an entry of the target stack, so close to the limit of 64 it can be seen:
  `HookDepth.BoundIsTight`.

## Model

| member | source | states |
|---|---|---|
| HookLaws.OriginalRunsOnce | host/src/keelhook_service.cpp:3289-3416 | in one dispatch and all the recalls nested in it, the original runs exactly once, or not at all when a SUPERSEDE came before any call of it; for every callback list, every callback behaviour and every depth |
| HookTrace.OriginalSeenOnce | host/src/keelhook_service.cpp:3289-3416 | the same of the calls that can be seen: when no callback of the target calls another hooked function, the dispatch and its recalls add to the trace exactly one call of the original, or none after a SUPERSEDE, and as many as the ledger counts |
| HookLaws.ResultIsLastDecision | host/src/keelhook_service.cpp:3289-3486 | the final result is the last POST override; without one, the last of accepted OVERRIDE, SUPERSEDE, explicit original call or recall; without one, the implicit original |
| HookLaws.CallbackOrder | host/src/keelhook_service.cpp:3272-3488 | PRE callbacks are asked in sorted order up to the first that recalls, POST callbacks in exactly the opposite order, and none when a recall ended the dispatch |
| HookLaws.SortedOrdered | host/src/keelhook_service.cpp:3233-3237 | the order is priority descending, then sequence ascending, and a permutation of the registered callbacks |
| HookFrames.FramesAreTold | host/src/keelhook_service.cpp:3289-3486 | every PRE callback finds the native arguments as last legally left by those before it, each under its own kind, and the result and the CALLED flag their decisions give; if none called, recalled or superseded, the original runs on the arguments so left, its value is what the original gives on exactly those, and that, or an override, is what POST starts from; POST callbacks find what the POST callbacks before them left |
| HookFrames.LimitRunsOriginal | host/src/keelhook_service.cpp:3198-3208 | a dispatch at the depth limit is one call of the original on the native bits under the prototype's kinds |
| HookFlags.LookersPass | host/src/keelhook_service.cpp:3214-3516 | when every callback leaves its frame alone and continues, the call is the original's own: value, effect and every visible call are exactly the callbacks in order, each with the same frame, the original on the native arguments in between, and the callbacks in reverse |
| HookFlags.FlagsAreTold | host/src/keelhook_service.cpp:3240-3488 | every callback finds the RECALLED flag as the one before it left it, the first of a dispatch set exactly when the dispatch is a recall |
| HookFlags.PreReturns | host/src/keelhook_service.cpp:3289-3390 | a PRE callback that asks for nothing changes exactly this: each argument it left legal counts unless its action is invalid, its result if it supersedes, or overrides before any SUPERSEDE, and is legal |
| HookFlags.PostReturns | host/src/keelhook_service.cpp:3418-3486 | a POST callback that asks for nothing: its legal arguments count if it continues or overrides, its legal result if it overrides |
| HookRecall.RecallIsTransparent | host/src/keelhook_service.cpp:3609-3665 | a dispatch in which callbacks recall, on some calls or all, after other requests or at once, has the same calls with the same arguments, the same final result and leaves the same memory as the one where they merely changed the arguments and continued; at every depth if no callback calls a hooked function, otherwise with one stack entry left over per callback that can be granted a recall |
| HookRecall.DepthIsIrrelevant | host/src/keelhook_service.cpp:3198-3214 | with that much room, a dispatch gives the same outcome at every depth |
| HookRecall.KnownExtends | host/src/keelhook_service.cpp:3198-3214 | a function whose callbacks call only functions with depth-independent outcomes has a depth-independent outcome itself |
| HookRecall.RecallIsTransparentInLayers | host/src/keelhook_service.cpp:3198-3214 | recall is transparent in any family of hooked functions whose callbacks call earlier ones, as long as the stack holds the recalls of a function and of all before it |
| HookDepth.RecallsCostDepth | host/src/keelhook_service.cpp:3198-3214 | with n recalls and n + 1 stack entries left, the next callback reaches the function it calls at the limit, where only the original runs; without the recalls it does not |
| HookDepth.BoundIsTight | host/src/keelhook_service.cpp:3198-3214 | so the room the law asks for is needed: for every n there are dispatches that meet all its other conditions, have one entry less and differ in the result; the code's stack of 64 entries has the n + 2 asked for when n is at most 62 |
| HookControls.ControllerConforms | tests/keelhook_target_plugin.cpp:458-515 | the test callback that calls the original, recalls, supersedes or continues by its first argument, and asks twice each time, is one the law covers; its error counters are left out |
| HookConduct.QuitsBody | host/src/keelhook_service.cpp:3568-3665 | requests after a recall are refused and leave the dispatch as it is |
| HookRecall.BodiesAlike | host/src/keelhook_service.cpp:3518-3551 | followed move by move, a callback does the same to two alike dispatches, up to the point where a recall is granted |
| HookEngine.HookThread.Dispatch | host/src/keelhook_service.cpp:3124-3516 | the imperative dispatch, with its thread-local stacks and the record shared with its callbacks, computes what the interpreter says, about which HookFrames, HookLaws and HookRecall say what every callback and the original are given, and leaves every stack as it found it |
| HookEngine.HookThread.Hooked | host/src/keelhook_service.cpp:3214-3516 | the same for a dispatch that has a slot of the target stack |
| HookEngine.HookThread.RunChains | host/src/keelhook_service.cpp:3272-3488 | PRE chain, the original if still owed, POST chain unless a recall did it all |
| HookEngine.HookThread.PreChain | host/src/keelhook_service.cpp:3289-3390 | the PRE loop equals the interpreter's, for any callback behaviour |
| HookEngine.HookThread.PostChain | host/src/keelhook_service.cpp:3418-3487 | the POST loop, in reverse, equals the interpreter's |
| HookEngine.HookThread.Settle | host/src/keelhook_service.cpp:3311-3384 | after a PRE callback: illegal frame values are put back, and the action table decides result, flags and arguments |
| HookEngine.HookThread.SettlePost | host/src/keelhook_service.cpp:3444-3484 | after a POST callback: only OVERRIDE changes the result |
| HookEngine.HookThread.ImplicitOriginal | host/src/keelhook_service.cpp:3393-3421 | the original runs now unless it ran or was superseded; an override keeps its result; what it is called with is HookFrames.FramesAreTold |
| HookEngine.HookThread.InvokeCallback | host/src/keelhook_service.cpp:3518-3551 | a disabled callback is skipped; the branch for a full callback stack is unreachable; the stack is restored |
| HookEngine.HookThread.CurrentControl | host/src/keelhook_service.cpp:3553-3566 | gives the innermost dispatch for its own frame and the owner of the callback on top, and nothing for another plugin's handle or the frame of an interrupted dispatch |
| HookEngine.HookThread.CallOriginalControl | host/src/keelhook_service.cpp:3568-3607 | an explicit original call is refused for any other plugin or frame, in POST, and after the original ran or was superseded; else it runs once |
| HookEngine.HookThread.RecallControl | host/src/keelhook_service.cpp:3609-3665 | a recall is refused for any other plugin or frame, in POST, without a closure, after the original or a SUPERSEDE and at the depth limit; else it dispatches from the next callback on, handing on an overridden result |
| HookRegistrySafety.StepSafe | host/src/keelhook_service.cpp:453-621 | every step of authorise, register, add, remove, release, enable, disable, collect, direct call and native dispatch keeps: key index and records inverse, callbacks the disjoint union of the lists, owners of callbacks hold leases, bindings equal leases, scopes exclusive, hooked iff callbacks exist while at rest |
| HookRegistrySafety.RunSafe | host/src/keelhook_service.cpp:1510-1792 | and so does every interleaving of such steps, with failing enables and disables |
| HookRegistrySafety.OneHookPerKey | host/src/keelhook_service.cpp:1510-1564 | at most one hooked target per key; a target at rest is hooked exactly when it has callbacks; a hooked target is listed |
| HookRegistrySafety.RegisterSafe | host/src/keelhook_service.cpp:1510-1587 | registering a target, for a new key or a known one, keeps the invariant |
| HookRegistrySafety.ReleaseLeavesNothing | host/src/keelhook_service.cpp:453-621 | a release that restored everything leaves the plugin no owner entry, lease, binding or callback |
| HookRegistryUse.ListedMeansLeased | host/src/keelhook_service.cpp:4551-4568 | in every reachable state a listed target is leased by some plugin, so none that the last plugin returned stays listed |
| HookRegistryUse.ListedIff | host/src/keelhook_service.cpp:4551-4568 | a step takes a target off the list exactly when the only plugin that leases it returns it, by itself or in a release that restored the target, and lists exactly the one it registers |
| HookRegistryUse.KeyIsFree | host/src/keelhook_service.cpp:1510-1587 | after that step the key is free, and any plugin that may act can register it with its slot unless another target has the slot |
| HookRegistryUse.LeaseIff | host/src/keelhook_service.cpp:1566-1623 | a plugin leases a target after a step exactly when it registered it then, or leased it and did not return it |
| HookRegistryUse.BoundIff | host/src/keelhook_service.cpp:1566-1623 | and the binding of a lease after a step is the one given in that step, or the one it had |
| HookRegistryUse.CallbackIff | host/src/keelhook_service.cpp:1625-1792 | a callback is there, for its plugin and on its target, from the end of an addition that succeeded until a removal or release that did |
| HookRegistryUse.HookIff | host/src/keelhook_service.cpp:2655-2774 | a target stays until it is collected, and a step changes whether it is hooked, built, torn down or inside native code only as that step says |
| HookRegistryUse.TransitionIff | host/src/keelhook_service.cpp:453-621 | a target is in transition exactly while one operation has hold of it: a first addition, a removal, or the release of a plugin that leases it |
| HookRegistrySafety.PrunedSafe | host/src/keelhook_service.cpp:4551-4568 | pruning keeps the invariant; that it unlists what nobody uses, and nothing else, is HookRegistryUse.ListedIff |
| HookRegistrySafety.DroppedSafe | host/src/keelhook_service.cpp:1703-1713 | taking a callback out of its list and the table together keeps the invariant |
| HookRegistrySafety.TornWhenIdle | host/src/keelhook_service.cpp:4632-4690 | native code is torn down only with no direct call on it and, except when an enable fails, no dispatch inside it |
| HookRegistrySafety.ChosenCodeStands | host/src/keelhook_service.cpp:4755-4871 | in every reachable state the native code a direct call chose still stands until that call returns |
| HookTeardown.TornInsideIff | host/src/keelhook_service.cpp:2655-2774 | a step tears down entry code under a dispatch exactly when it is an enable that fails and frees the code while a dispatch is inside |
| HookTeardown.RunTorn | host/src/keelhook_service.cpp:2655-2774 | a run never does so exactly when no enable of the run fails that way |
| HookTeardown.FailedEnableTearsInside | host/src/keelhook_service.cpp:2655-2774 | a run that does |
| Vtables.Exchange | hooking/src/vtable.cpp:89-157 | compare-and-swap with page protection: the exact result and the exact cell in every case, including the roll-back when protection cannot be restored and foreign writes in between |
| Vtables.SharedVtableHook.Enable | hooking/src/vtable.cpp:244-259 | succeeds exactly on the original in an accessible, restorable slot; failure changes nothing |
| Vtables.SharedVtableHook.Disable | hooking/src/vtable.cpp:261-276 | succeeds exactly on the replacement; failure changes nothing |
| Vtables.InstanceVtable.Enable | hooking/src/vtable.cpp:380-425 | equals the specification: first slot swaps the object's table, a conflict changes nothing |
| Vtables.InstanceVtable.Disable | hooking/src/vtable.cpp:427-469 | equals the specification: the last slot gives the original table back; if that fails the shadow entry is rolled back, which can fail too |
| Vtables.InstanceVtable.Restore | hooking/src/vtable.cpp:471-501 | equals the specification: all slots off, the original table back |
| Vtables.InstanceVtable.Intact | hooking/src/vtable.cpp:515-526 | holds exactly when the object points at the table the number of enabled slots calls for |
| Vtables.FailureChangesNothing | hooking/src/vtable.cpp:308-501 | a failed operation changes no replacement, the object only as foreign code does, and the shadow table only in a disable whose roll-back failed as well |
| Vtables.ForeignTableSurvives | hooking/src/vtable.cpp:87-157 | a table pointer that is neither of the two is never overwritten |
| Vtables.Settled | hooking/src/vtable.cpp:380-501 | without foreign writes, after any operations that may fail, the object points at the table the count of enabled slots calls for |
| Vtables.StrandedStays | hooking/src/vtable.cpp:427-501 | an entry of the shadow table holds the original although its slot counts as enabled exactly after a disable of the last slot that failed at the object and in its roll-back; no enable or disable ever changes that, restoring the object does |
| Vtables.TableFollows | hooking/src/vtable.cpp:380-501 | while roll-backs succeed, the shadow table holds the replacements of the enabled slots and the originals elsewhere |
| Vtables.BalanceCounts | hooking/src/vtable.cpp:380-469 | the count of enabled slots is what the successful calls add up to |
| Vtables.RoundTrip | hooking/src/vtable.cpp:380-526 | enabling and disabling any slots in any order, balanced, ends with the original table and a shadow equal to it |
| Vtables.SuccessSetsSlot | hooking/src/vtable.cpp:380-501 | a successful operation sets its own slot, to the replacement or back to the original, and no other |
| Vtables.SucceedsIff | hooking/src/vtable.cpp:380-469 | without foreign writes in between, an enable or disable succeeds exactly when the slot is free, or has this replacement, memory allows it and the object points at the table the count calls for |
| Aggregates.BuildContext.CanonicalAggregate | host/src/keelhook_service.cpp:1850-1997 | terminates on any descriptor graph; what it accepts, memoised or not, is the tree unfolding with that tree's identity string; everything within the limits is accepted |
| Aggregates.BuildContext.CanonicalFields | host/src/keelhook_service.cpp:1887-1949 | the same for the fields of one descriptor |
| Aggregates.UnfoldsOnce | host/src/keelhook_service.cpp:1863-1867 | the unfolding of a descriptor is unique, so a remembered answer is the unremembered one |
| Aggregates.ChainsEnd | host/src/keelhook_service.cpp:1857-1878 | every chain of descriptors from an accepted one is no longer than its tree is high |
| Aggregates.NoCycle | host/src/keelhook_service.cpp:1869-1878 | no descriptor reached from an accepted one reaches itself: no chain meets a descriptor twice |
| Aggregates.IdentityInjective | host/src/keelhook_service.cpp:1880-1951 | two layouts have the same identity string exactly when they are equal |
| Aggregates.ArrayFits | host/src/keelhook_service.cpp:1931-1938 | the division in the bounds check means exactly that the field array ends inside the object, without overflow |
| AggregateBounds.ScalarsInside | host/src/keelhook_service.cpp:1880-1951 | every scalar of every element of every array in an accepted object, however deeply nested, has 1, 2, 4 or 8 bytes that lie inside the object |
| AggregateBounds.OffsetsAscend | host/src/keelhook_service.cpp:1887-1905 | the fields of an accepted object begin inside it, in the order of their offsets |
| PatternText.ParsersAgree | host/src/keelhook_service.cpp:2496-2551 | the tool's parser accepts exactly what the runtime's accepts at up to 4096 bytes, and reads the same pattern |
| PatternText.ParsersDifferIff | host/src/keelhook_service.cpp:2496-2551 | the parsers differ exactly on texts of readable tokens, more than 4096 of them, with wildcards only after the first 4096 |
| PatternText.ParsersDiffer | host/src/keelhook_service.cpp:2496-2551 | 4097 wildcards are such a text: the runtime takes them, the tool does not |
| PatternText.ParsePatternRuntime | host/src/keelhook_service.cpp:2496-2551 | the runtime parser's loop; its length check follows byte tokens only |
| PatternText.ParsePatternTool | tools/compatibility_review.cpp:442-512 | the tool parser's loop and the normal form it writes |
| PatternText.NormalFormReads | tools/compatibility_review.cpp:442-512 | reading a normal form gives the pattern back in both parsers: normalising is a fixed point |
| PatternTokens.PrintIs | tools/compatibility_review.cpp:442-512 | a normal form has one item at every third place, two upper-case digits or two question marks, and one space between them |
| PatternTokens.ParsesTokenwise | tools/compatibility_review.cpp:442-512 | however a text is spaced, the tool reads a pattern from it exactly when that pattern has one item for each token, and not more than 4096; what the runtime reads is so too |
| PatternTokens.TokenMeans | host/src/keelhook_service.cpp:2509-2543 | two hexadecimal digits, of either case, are their byte, high digit first, one or two question marks a wildcard, and nothing else is a token |
| PatternScan.MergedApart | host/src/keelhook_service.cpp:2583-2600 | merged ranges are sorted, disjoint and not even adjacent |
| PatternScan.MergedStretches | host/src/keelhook_service.cpp:2564-2600 | merging covers exactly the addresses the kept ranges cover |
| PatternScan.MergeRanges | host/src/keelhook_service.cpp:2588-2600 | the merging loop |
| PatternScan.RuntimeMatchesAt | host/src/keelhook_service.cpp:2602-2625 | the merged scan finds a place exactly when the pattern lies there in covered memory |
| PatternScan.RuntimeMatchesAscend | host/src/keelhook_service.cpp:2602-2632 | it finds them in ascending order |
| PatternScan.RuntimeAnswers | host/src/keelhook_service.cpp:2634-2652 | for 0: the address if it is the only place where the pattern lies in covered memory, NOT_FOUND if there is none, AMBIGUOUS if there are two; for k: the place with k - 1 lower ones, NOT_FOUND if there are fewer than k |
| PatternScan.SelectAnswers | tools/compatibility_review.cpp:554-588 | the same for any ascending list of the places: an answer is found, missing or ambiguous by the places alone |
| PatternScan.ScanPattern | host/src/keelhook_service.cpp:2553-2653 | the answer over places where the pattern lies in covered memory: for 0 the only one, NOT_FOUND without one, AMBIGUOUS with two; for k the one with k - 1 lower ones, NOT_FOUND if there are fewer than k |
| PatternScan.Scan | tools/compatibility_review.cpp:514-552 | the tool lists every place within one range, ascending, without repeats, and reads the image at legal offsets only |
| PatternScan.SelectMatch | tools/compatibility_review.cpp:554-588 | gives a match exactly when it is the only one for 0, or has k - 1 lower ones for k, and nothing otherwise |
| PatternScan.ToolSubset | tools/compatibility_review.cpp:514-552 | whatever the tool finds, the runtime finds |
| PatternScan.SeparatedAgree | tools/compatibility_review.cpp:514-588 | on ranges that do not touch both list and choose the same places |
| PatternScan.ScannersAgreeIff | tools/compatibility_review.cpp:514-552 | the two scanners find the same places for every pattern of n bytes exactly when every n bytes the ranges cover between them lie within one range |
| PatternScan.TouchingRangesDiffer | host/src/keelhook_service.cpp:2588-2600 | two ranges of a four-byte image that touch: a pattern across the border is found by the runtime only |
| HostSafety.StepSafe | host/src/plugin_manager.cpp:476-669 | every step of discovery, start, pause, resume, unload, reload and service traffic keeps: records claimed by one thread, load order, names, service indexes and leases; steps of others may come between any two |
| HostSafety.StepDependencies | host/src/plugin_manager.cpp:671-769 | a step leaves every running plugin with its dependencies running exactly when it does not let a record take over a running plugin's name |
| HostSafety.ReadyAvoidsLeaving | host/src/plugin_manager.cpp:671-704 | a plugin found ready depends on no plugin that is leaving |
| HostSafety.ReleaseNeverBusy | host/src/plugin_manager.cpp:1166-1178 | nobody leases a service of a plugin that fails to start or is unloaded, so the release inside an unload cannot be refused |
| HostProtocol.FirstGained | host/src/plugin_manager.cpp:675-677 | which record answers to a name when one more begins to answer |
| HostProtocol.SatisfiesIff | host/src/plugin_manager.cpp:2245-2270 | with every component below N, AT_LEAST holds exactly when major*N*N + minor*N + patch of the running version is not less than that of the required one, EXACT when they are equal |
| HostProtocol.LaterSatisfies | host/src/plugin_manager.cpp:2245-2270 | a version that is late enough stays so for every later one |
| HostEffects.LoadedIff | host/src/plugin_manager.cpp:476-669 | a plugin runs after a step exactly when a start of it succeeded then, with its dependencies still running, or it was resumed, or it ran and was not paused; steps of others never change that |
| HostEffects.LeavingAlone | host/src/plugin_manager.cpp:722-769 | no plugin is paused while one that runs names it, or unloaded while one whose module is open does |
| HostEffects.CleanupStays | host/src/plugin_manager.cpp:1060-1250 | a plugin put aside for clean-up stays so until an unload of it ends |
| HostRuns.RunSafe | host/src/plugin_manager.cpp:476-669 | the invariant in every reachable state |
| HostRuns.LeasesPinProviders | host/src/published_service_registry.cpp:235-340 | in every reachable state a leased service has a loaded, steady provider, the release inside an unload is never refused, and the two indexes are inverse |
| HostLeases.LeaseIff | host/src/published_service_registry.cpp:202-340 | a plugin holds a lease after a step exactly when the step granted it, or it held it and the step was neither its own return nor the release of its services or the provider's |
| HostLeases.LeaseHistory | host/src/published_service_registry.cpp:202-340 | so in every reachable state it holds a lease exactly when it was granted and not given up since |
| HostLeases.OfferIff | host/src/published_service_registry.cpp:118-200 | a publication is on offer after a step exactly when it was published then, or was and was not taken back, and what it offers never changes |
| HostRuns.RunDependencies | host/src/plugin_manager.cpp:306-474 | dependencies run in every state of a run exactly when no step of the run takes over a running plugin's name |
| HostRuns.DependenciesAlwaysRun | host/src/plugin_manager.cpp:476-769 | with discoveries one at a time, every loaded plugin has every dependency loaded in a matching version in every reachable state, under every interleaving |
| HostRuns.OverlapBreaksDependencies | host/src/plugin_manager.cpp:437-466 | with overlapping discoveries it is false: a run that leaves a running plugin with a dependency that does not run |
| PublishedServices.PublishedServiceRegistry.Publish | host/src/published_service_registry.cpp:118-166 | publishes under a fresh handle exactly when allowed and the name and version are free; indexes stay inverse |
| PublishedServices.PublishedServiceRegistry.Withdraw | host/src/published_service_registry.cpp:168-200 | refused to others and while leased; else both index entries go |
| PublishedServices.PublishedServiceRegistry.Release | host/src/published_service_registry.cpp:202-233 | ends one lease of the caller, and no other lease or publication changes |
| PublishedServices.PublishedServiceRegistry.Query | host/src/published_service_registry.cpp:235-281 | leases the service to the caller only while its provider is loaded and not in a transition; field by field, the caller is added to that publication's consumers and nothing else changes |
| PublishedServices.PublishedServiceRegistry.HasLeasedPublication | host/src/published_service_registry.cpp:283-304 | whether another plugin leases a service of this one |
| PublishedServices.PublishedServiceRegistry.ReleasePlugin | host/src/published_service_registry.cpp:306-340 | refused while leased by others; else everything of the plugin goes, and nothing else |
| PluginStartup.Manager.StartDiscoveredPlugins | host/src/plugin_manager.cpp:156-255 | ends with nobody waiting; a plugin runs exactly when it is in the least set closed under dependencies present, of the right version and running, and own load succeeding; the load order is topological; if every plugin still loading is among the discovered, the cycle branch is taken only on a real cycle |
| PluginStartup.Manager.StartPlugin | host/src/plugin_manager.cpp:476-669 | loads exactly when the dependencies run and the load succeeds; a failed start is rolled back |
| PluginStartup.Manager.DependenciesReady | host/src/plugin_manager.cpp:671-704 | true exactly when every dependency names a loaded plugin, not itself and not in a transition, of a version that satisfies it, which HostProtocol.SatisfiesIff gives as an order of numbers |
| PluginStartup.OldVersionBlocks | host/src/plugin_manager.cpp:671-704 | a plugin is not ready while a dependency that it wants at least at some version answers with a lower one, whatever else runs |
| PluginStartup.Manager.RollBack | host/src/plugin_manager.cpp:560-652 | what a failed start leaves |
| PluginStartup.Manager.PassOver | host/src/plugin_manager.cpp:165-231 | one pass of the fixpoint loop keeps the least-set invariant |
| PluginStartup.Manager.RejectDeadlocked | host/src/plugin_manager.cpp:238-250 | the cycle branch rejects what still waits, and nothing else |
| PluginStartup.LeastReached | host/src/plugin_manager.cpp:156-255 | when nothing that waits can move, what runs is the least closed set |
| PluginStartup.DeadlockIsCycle | host/src/plugin_manager.cpp:238-250 | if every plugin still loading is among the discovered, what still waits when nothing can move contains a dependency cycle |
| PluginStartup.CyclesNeverStart | host/src/plugin_manager.cpp:238-250 | no plugin on a cycle of the discovered starts |
| PluginStartup.OutcomeIgnoresDiscoveryOrder | host/src/plugin_manager.cpp:156-255 | two runs of start-up, with the plugins discovered and listed in two orders, leave every plugin in the same state, if no two plugins answer to one name |
| PluginStartup.TriedIsBlocks | host/src/plugin_manager.cpp:476-669 | one undisturbed start is what the steps of the interleaved protocol do |
| PluginUnload.Manager.UnloadAllPlugins | host/src/plugin_manager.cpp:1517-1573 | terminates and does what the specification over passes says; the number reported is the number gone |
| PluginUnload.Manager.UnloadPlugin | host/src/plugin_manager.cpp:917-1250 | one attempt: refused while blocked; else gone, or failed before or after its services went |
| PluginUnload.Manager.HasRunningDependent | host/src/plugin_manager.cpp:722-769 | held, named by a plugin whose library is open, or leased |
| PluginUnload.BlockedIff | host/src/plugin_manager.cpp:722-769 | a plugin is blocked exactly when it is held, when another plugin that runs or has its module open names it, or when it lends a service to anyone |
| PluginUnload.UnloadAllStops | host/src/plugin_manager.cpp:1517-1573 | each plugin attempted once at most, dependents before what they name; who was attempted and stayed failed; who was not was held after the last unload, or is named, or was leased, by one that stays; who is held may change with every attempt |
| UnloadRounds.StillBlockedIff | host/src/plugin_manager.cpp:1517-1573 | everything left unattempted is still blocked at the end exactly when no pass, worked out from the state before the call, unloads nothing and yet makes room for another attempt |
| UnloadRounds.LeftOverIsBlocked | host/src/plugin_manager.cpp:1517-1573 | in particular when no attempt lets go of a held plugin and no consumer whose unload fails late stands behind its provider in the order of unloading |
| UnloadRounds.AllRounds | host/src/plugin_manager.cpp:1517-1573 | the passes try the plugins those sets say, up to the first pass that unloads nothing |
| PluginUnload.NoneLeft | host/src/plugin_manager.cpp:1517-1573 | if names and leases are acyclic, nothing else holds a plugin and every attempt succeeds, none remains |
| PluginUnload.LateFailureLeavesUnblocked | host/src/plugin_manager.cpp:1517-1573 | the other case: an attempt that fails after giving up its leases is no progress, so a plugin no longer blocked is left |
| UnloadRounds.LateStartStalls | host/src/plugin_manager.cpp:1517-1573 | the call of that case is one of those that stall |
| QuiescenceSafety.StepSafe | host/src/lifecycle_service.cpp:369-447 | every step of dispatch, activate, deactivate, release with its erasing, subscribe and unsubscribe keeps the counters equal to the frames that hold them, and deactivated plugins quiet, unless it switches on a subscription being removed |
| QuiescenceSafety.RunSafe | host/src/lifecycle_service.cpp:122-187 | and so does every interleaving |
| QuiescenceSafety.StepGone | host/src/lifecycle_service.cpp:122-140 | a step keeps erased subscriptions off exactly when it is not such a switch |
| QuiescenceSafety.RunKeepsGoneOff | host/src/lifecycle_service.cpp:334-367 | and a run exactly when none of its steps is |
| QuiescenceSafety.QuietPluginsDoNotRun | host/src/lifecycle_service.cpp:142-171 | from a deactivation that returned OK until dispatch is restored, no callback of the plugin runs or is enabled, even from dispatches that listed it earlier |
| QuiescenceSafety.WaitersHoldNothing | host/src/lifecycle_service.cpp:484-495 | each counter is the number of places that hold it, and no thread waits for a counter it holds |
| QuiescenceSafety.RevivedRuns | host/src/lifecycle_service.cpp:122-140 | without the condition it is false: a run in which a callback of a quiet plugin runs |
| QuiescenceEffects.RunShallow | host/src/lifecycle_service.cpp:428-433 | so a thread is never inside more callbacks than its stack holds, however calls nest |
| ConVarRelease.StepSafe | host/src/convar_service.cpp:1320-1380 | every step of create, find, dispatch, invoke and release keeps counters, stages and definitions right |
| ConVarRelease.RunSafe | host/src/convar_service.cpp:1320-1380 | and so does every interleaving |
| ConVarRelease.ReleasedOnce | host/src/convar_service.cpp:1320-1380 | a handle is given back at most once and by one thread; after an OK the record is unlisted, in state 2, and nobody is inside it |
| ConVarRelease.StateGrows | host/src/convar_service.cpp:1320-1380 | the release state moves 0, 1, 2 only |
| ConVarRelease.StepStarts | host/src/convar_service.cpp:1236-1279 | no dispatch or invoke body starts on a record once its release has begun |
| ConVarRelease.StepDefined | host/src/convar_service.cpp:839-969 | a definition's active handle is non-zero exactly when one live created record has the name, and then it is that record's |
| ConstructionTokens.StepSafe | host/src/entity_construction_service.cpp:307-640 | every step of create, change, spawn, observe, cancel, prune and the entity releases keeps every token accounted for |
| ConstructionTokens.RunSafe | host/src/schema_entity_service.cpp:1188-1293 | and so does every run, with re-entrant adapter calls |
| ConstructionTokens.TokensNeverLeak | host/src/entity_construction_service.cpp:603-639 | every token create returned is held by a live owner, was cancelled, was consumed by a spawn, or is about to be cancelled by a running release; none is cancelled twice |
| ConstructionEffects.UsedUpOnce | host/src/entity_construction_service.cpp:451-538 | in every reachable state a token that a spawn used up is with no construction, so none is used twice |
| RecordText.WriteReads | tools/compatibility_review.cpp:70-164 | clean records written as lines are read back unchanged |
| RecordReading.ReadIs | tools/compatibility_review.cpp:70-164 | a text is read as these records exactly when its lines, without comments, empty lines and carriage returns, are the header and then the records written out |
| RecordReading.CommentsIgnored | tools/compatibility_review.cpp:93-164 | a comment or an empty line anywhere changes nothing |
| RecordReading.ReturnsIgnored | tools/compatibility_review.cpp:93-164 | nor does a carriage return at the end of a line |
| RecordReading.LinesAre | tools/compatibility_review.cpp:93-164 | the lines of a text hold no line ends, and writing them out gives the text, its last line ended |
| RecordReading.SplitIs | tools/compatibility_review.cpp:70-91 | the fields of a line hold no tabs, and writing them out gives the line |
| RecordReading.NumeralReads | tools/compatibility_review.cpp:175-195 | a number is read off its decimal numeral, with zeros before it or not, if it fits the type, and off nothing else |
| RecordReading.HexNumeralReads | tools/compatibility_review.cpp:197-215 | a fingerprint is read off its sixteen hexadecimal digits, of either case, and off nothing else |
| RecordText.SplitLine | tools/compatibility_review.cpp:70-91 | the splitting loop |
| RecordText.ReadRecords | tools/compatibility_review.cpp:93-174 | the reading loop: header, comments, carriage returns, bad lines |
| Profiles.RoundTrip | tools/compatibility_review.cpp:912-1120 | for every well-formed profile, reading what was written gives it back with each list sorted by key |
| Profiles.CanonicalForm | tools/compatibility_review.cpp:1027-1120 | two well-formed profiles are written alike exactly when they differ in the order of their lists only |
| ProfileReading.ParseIs | tools/compatibility_review.cpp:912-1025 | a text is read as this profile exactly when the profile is well formed and the text spells records that say it: one for each scalar, one for each item in order, and no other |
| Profiles.ValidateStructure | tools/compatibility_review.cpp:611-682 | accepts exactly the well-formed profiles |
| Profiles.ReadProfile | tools/compatibility_review.cpp:912-1025 | the reading loop gives exactly the parse of the text |
| Profiles.WriteProfile | tools/compatibility_review.cpp:1027-1120 | writes exactly the text of a well-formed profile, and never over an existing file |
| Sorting.SortIgnoresOrder | tools/compatibility_review.cpp:1068-1086 | sorting by distinct keys forgets the order of the list |
| ModuleImages.RangesInFile | tools/compatibility_review.cpp:249-379 | whatever an ELF or PE file says, the executable ranges taken from it are not empty and lie in the file |
| ModuleFiles.ElfFileRanges | tools/compatibility_review.cpp:264-315 | an ELF64 file for x86-64 laid out as the standard says gives the ranges of its loadable executable segments, in order |
| ModuleFiles.PeFileRanges | tools/compatibility_review.cpp:317-379 | a PE32+ file for x86-64 gives those of its executable sections |
| ModuleImages.ReadRanges | tools/compatibility_review.cpp:381-429 | the reading loops, ELF first, then PE |
| CaptureReview.HashBytes | platform/src/file_fingerprint.cpp:11-49 | the fingerprint loop computes 64-bit FNV-1a of the whole file |
| FingerprintLaws.OneByteShows | platform/src/file_fingerprint.cpp:11-49 | changing one byte of a file always changes its fingerprint |
| FingerprintLaws.PublishedValues | platform/src/file_fingerprint.cpp:11-49 | the published FNV-1a values of no bytes and of the letter a |
| CaptureReview.ResolveMeans | tools/compatibility_review.cpp:1175-1196 | the captured offset is the place asked for, as the scanner answers it, and the count the number of places |
| CaptureReview.ResolvePattern | tools/compatibility_review.cpp:1175-1196 | parse, scan and select; the scan stays in the image |
| CaptureReview.Capture | tools/compatibility_review.cpp:1122-1233 | gives exactly the captured profile, or an error |
| CaptureMeaning.CapturedIff | tools/compatibility_review.cpp:1122-1233 | a capture gives this profile exactly when it is well formed, untrusted, has the name, size and FNV-1a fingerprint of every file asked for, and for every pattern its normal form, the number of places it has in its module's executable ranges and the place asked for |
| CaptureReview.Validate | tools/compatibility_review.cpp:1434-1572 | reports no error exactly when structure, bindings, file names, fingerprints, images, match counts and offsets all agree |
| CaptureReview.ValidateModule | tools/compatibility_review.cpp:1476-1512 | one module: file name, fingerprint, image, in that order |
| CaptureReview.CaptureValidates | tools/compatibility_review.cpp:1122-1233 | whatever capture gives, validation against the same files accepts |
| CaptureReview.ValidatedIsCaptured | tools/compatibility_review.cpp:1434-1572 | validation accepts a profile exactly when capturing the bound files again, asked for the same things, gives that profile, up to its trust |

## Left out

- HookRecall.RecallIsTransparent: a callback may not look at the RECALLED flag before it recalls; after asking for a recall it may ask further only in vain, must leave its arguments and state alone and return CONTINUE, and in POST it may not recall. Where a callback does otherwise the two dispatches may differ. Handles are distinct.
- HookEngine.HookThread.Dispatch: aggregate and object storage, formatted varargs, deferred completions, the missing-binding branch and the handler for internal exceptions are not part of this model; a value is its kind, its reserved field and its bits. One thread at a time; the callback list is the one taken at the start, as in the source.
- HookEngine.HookThread.RunBody: a callback makes finitely many requests, bounded by a number of its own; an exception it throws is a return of CONTINUE.
- HookRegistrySafety.StepSafe: callback lists are sets (their order is the business of the dispatch); native enabling, disabling and tearing down succeed or fail by choice; shutdown of the service is not part of this model.
- HookRegistrySafety.TornWhenIdle: the failed enable is the exception, as the code has it.
- Vtables.InstanceVtable.Enable: whether memory is accessible, and what foreign code writes, is one choice per operation; page protection is its success or failure.
- Aggregates.BuildContext.CanonicalAggregate: failure to allocate a native aggregate description is not part of this model.
- HostSafety.StepSafe: the registry, lifecycle, ConVar and token protocols are state machines on values, not classes, because their steps interleave between threads; what plugin code does inside a callback is any sequence of such steps.
- HostRuns.RunSafe: running out of handles, diagnostics texts, staging copies of libraries, console output and the rollback of a reload are not part of this model; a reload is an unload, a discovery and a start.
- PublishedServices.PublishedServiceRegistry.Publish: names and versions come in already checked and folded.
- PluginStartup.Manager.StartDiscoveredPlugins: which loads and clean-ups succeed is fixed beforehand by an oracle; no other thread steps in (that is HostProtocol's subject).
- PluginUnload.Manager.UnloadAllPlugins: an oracle says of each plugin how its one attempt ends, and who is held by commands or callbacks once any set of plugins was attempted; no other thread steps in.
- HookLaws.OriginalRunsOnce: an original is a function of its arguments and the shared state that calls no hooked function and makes no request; the source notes that the original ran only after it returned (`host/src/keelhook_service.cpp:3392-3403` and `3590-3604`), so one that re-entered and used the frame could run twice.
- QuiescenceSafety.StepSafe: the host lets nobody restore a plugin's dispatch between the deactivation inside a release and the erasing of its subscriptions.
- PluginStartup.OutcomeIgnoresDiscoveryOrder: handles are the same in both runs; a plugin's handle is only its name in this model.
- QuiescenceSafety.QuietPluginsDoNotRun: weak memory orderings and the liveness of waits are not part of this model; steps are sequentially consistent.
- ConVarRelease.StepSafe: value reads and queued writes are not part of this model; a provider of a found ConVar runs in invocations of its own.
- ConstructionTokens.TokensNeverLeak: an adapter is present throughout; what entities hold besides tokens is not part of this model.
- Profiles.RoundTrip: numbers fit their machine types, as they do in the source.
- CaptureReview.Validate: files do not change while they are read, and a path either names readable bytes or does not; diagnostics are reduced to whether there is an error.
- PatternScan.Scan: ranges are not sorted by offset first, which the result does not depend on.
- Reading capture requests and binding files, and comparing two profiles: the same loops over records again, with field checks settled by one branch each.
- Console menus, file staging, dynamic libraries, crash monitoring, dyncall closures, detours and the service entry wrappers: native or pass-through.

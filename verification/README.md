# Signal K server: models and proofs

A Dafny model of the stateful engines of a Signal K server written in Rust, with proofs
of what they keep over every run. `dafny verify dfyconfig.toml` checks everything.

| part of the server | modules |
|---|---|
| derived-data plugin: change-driven re-evaluation of calculators, five rounds at most | `DerivedData`, `DerivedDataLimits`, `DerivedDataPairs`, `DerivedDataCourses`, `DerivedDataDepth`, `DerivedDataDelivery` |
| vessel data: flat path map to nested JSON and back | `FullModel`, `VesselRoundTrip` |
| data store: priorities, lazy expiry, per-source index, broadcast, source registry | `Store`, `StoreRuns`, `StoreSuccession`, `SourcesHierarchy` |
| subscriptions and path patterns | `Subscriptions`, `SubscriptionRuns`, `Paths` |
| AIS targets: life cycle, closest approach, collision alarm | `AisTracker`, `AisRuns`, `AisLifecycle`, `AisAlarm`, `AisEcho`, `Cpa`, `CpaProjection` |
| autopilot: control algorithms, filters, provider, control loop against concurrent calls | `AutopilotControl`, `AutopilotFilter`, `AutopilotProvider`, `AutopilotInputs`, `AutopilotLoop`, `AutopilotDecisions`, `AutopilotSensing`, `AutopilotSteering`, `AutopilotAim`, `AutopilotRuns`, `AutopilotPause`, `AutopilotTravel` |
| configuration store: cache and table | `ConfigStore`, `ConfigRuns`, `ConfigSettings` |
| shared vocabulary | `Basics`, `Angles`, `JsonModel`, `Deltas` |

Objects the server updates in place are classes. Each of their methods is proved equal to
a function on values, and what the server promises is proved about those functions, over
all runs. Wherever the server iterates over a hash map, the order is arbitrary: either the
loop picks elements at will or an order is a parameter. Tasks that share a lock are state
machines whose steps are the stretches between lock operations and emissions. `f64` is
`real`, an instant is a whole number of nanoseconds of a monotone clock, a timestamp a
whole number, and sine, cosine, arc tangent and powers of two are parameters.

Rows below name methods and lemmas; the functions they are stated in terms of follow the
same source lines branch by branch.

## What does not hold

Some expected properties fail in the code. The code is modelled as it is; the member named
proves exactly when the property holds, or that it fails at a given input.

- The two registered course calculators read each other's output and may stop in
  mid-oscillation (`DerivedDataCourses.CogPairFixpointIffInputsAgree`, for every snapshot
  and delta; `VariationAloneOscillatesIff`).
- Two registered calculators write `environment.depth.belowKeel`, which the general fixpoint
  theorem does not allow (`DerivedDataDepth.WritersOverlap`). This pair reaches a fixpoint
  all the same (`DepthPairReachesFixpoint`).
- A chain of more than five calculators is cut off (`ChainFixpointIffDepthAtMostFive`).
- A comment says that prefix inputs subscribe with a wildcard suffix
  (`crates/plugins/derived-data/src/lib.rs:91-93`); the code subscribes the plain path. Values
  below such an input are not delivered unless the delta also carries a declared input
  (`DerivedDataDelivery.AffectingDeltaReachesCallbackIff`, `VoltageAloneIsNotHeard`).
- The comment on patterns says that `**` and a trailing `.*` match any number of remaining
  segments (`crates/signalk-types/src/path.rs:28-30`); the code matches exactly one segment
  with a trailing `*`, and `**` also matches none (`Paths.MatchesPartsMeaning`).
- Eviction in the store does not ask whether the index belongs to the vessel written to
  (`ForeignEvictionClearsSelfIndex`), and a stale source that returns evicts itself
  (`ReturningStaleSourceLeavesIndex`). `ActiveIndexedIffNotApart` says after which histories
  the active value is in the index.
- An Ideal subscription remembers one last value, not one for each path. A client with a
  wildcard pattern can miss a value that equals the last one at another path; it always has
  every last value if and only if its pattern matches no two paths or its period is zero
  (`SubscriptionRuns.IdealStaysCurrentIff`).
- The sources object depends on the iteration order when a source is named like another's
  label and disagrees with it (`RefOrderIndependentIffAgree`).
- Removing an AIS target whose alarm is set sends no clear (`AllLifetimesMatchIffNoneDropped`,
  `RaiseAfterDrop`); `LatchedTargetIsRemoved` is a run in which it happens.
- It happens only if the plugin's own status deltas come back late or not at all. If they come
  back before the next tick, a reported loss undoes itself and no confirmed target is ever
  removed (`AisEcho.LossUndoesItself`, `ConfirmedStaysForever`).
- A comment takes `remove_after` for the time a target spends lost
  (`crates/plugins/ais-status/src/tracker.rs:20`); the code adds it to `lost_after` and counts
  from the last message, so a late loss leaves less time (`AisLifecycle.SilentTargetFades`).
- Shortly after the clock's epoch the confirmation window forgets messages (`UnderflowForgets`).
- The sign of a zero integral counts as positive, so from zero a saturated controller winds up
  for negative errors only (`PidIsOddFromZeroIffUnsaturated`).
- A rudder command under way while the autopilot is disengaged restores the time of the last
  tick, and the first time step after the pause is the whole pause
  (`AutopilotPause.DisengageForgetsTickIffNothingSteers`, `PauseBecomesTimeStep`).
- After `set_vessel_uuid("")` the cache no longer survives a restart, and a database without a
  UUID row gets a different UUID at every start (`ReopeningRestoresIffUuidSet`).

## Model

| member | source | states |
|---|---|---|
| `DerivedData.CallbackReachesFixpoint` | `crates/plugins/derived-data/src/lib.rs:126-180` | Calculators that depend only on what their declared inputs match, write disjoint outputs no delta writes, and layer at most five deep: after a callback from a consistent snapshot, re-running any enabled calculator changes nothing |
| `DerivedData.EveryRunReachesFixpoint` | `crates/plugins/derived-data/src/lib.rs:113-201` | The same after every sequence of deltas, starting from the empty snapshot |
| `DerivedData.CallbackRefinesNaive` | `crates/plugins/derived-data/src/lib.rs:141-180` | The change-driven callback leaves exactly the snapshot that five rounds of running every calculator leave; no assumption on depth or cycles |
| `DerivedData.RefinesNaive` | `crates/plugins/derived-data/src/lib.rs:149-180` | Skipping unaffected calculators and stopping early never changes the snapshot, for any number of rounds |
| `DerivedData.RoundKeepsInvariant` | `crates/plugins/derived-data/src/lib.rs:153-178` | After a round, every calculator not affected by the new `changed_paths` is consistent |
| `DerivedData.RoundSettlesOneLevel` | `crates/plugins/derived-data/src/lib.rs:149-180` | Each round makes one further level of the dependency graph consistent for good |
| `DerivedData.DedupAgrees` | `crates/plugins/derived-data/src/lib.rs:183-193` | The one emitted delta holds each derived path once, with the value the snapshot ends with |
| `DerivedData.LatestIsTakenIn` | `crates/plugins/derived-data/src/lib.rs:127-139` | After taking a delta in, each path holds the value with the greatest update and value index among updates not labelled `derived-data`, and its former value if there is none |
| `DerivedData.CallbackKeepsLatest` | `crates/plugins/derived-data/src/lib.rs:125-201` | So does the whole callback, at every path no calculator writes |
| `DerivedData.EveryRunHoldsLatest` | `crates/plugins/derived-data/src/lib.rs:113-201` | After every run each such path holds the value that came in last, in the order of deltas, updates and values |
| `DerivedData.Engine.OnDelta` | `crates/plugins/derived-data/src/lib.rs:125-201` | The imperative callback computes the specified snapshot, and emits the deduplicated derived values (nothing when there are none); each path no calculator writes ends with the last foreign value of the delta |
| `DerivedData.Engine.TakeIn` | `crates/plugins/derived-data/src/lib.rs:127-139` | Each path takes the last value among the updates not labelled `derived-data`, later updates winning over earlier ones; `changed_paths` lists the values in order |
| `DerivedData.Engine.RunCalculators` | `crates/plugins/derived-data/src/lib.rs:150-164` | One round: outputs, in order, of exactly the calculators some changed path affects |
| `DerivedData.Engine.Converge` | `crates/plugins/derived-data/src/lib.rs:145-180` | The bounded loop with its early exit and clear-and-refill of `changed_paths` equals the recursive rounds |
| `DerivedData.Engine.FeedBack` | `crates/plugins/derived-data/src/lib.rs:170-178` | Derived values are written in order and become the next changed paths |
| `DerivedDataLimits.ChainFixpointIffDepthAtMostFive` | `crates/plugins/derived-data/src/lib.rs:147-180` | The five-round cap is exact: a chain of n copying calculators ends in a fixpoint if and only if n is at most 5 |
| `DerivedDataLimits.ChainIsWellBehaved` | `crates/plugins/derived-data/src/lib.rs:149-180` | The chain meets every hypothesis of the fixpoint theorem but the depth |
| `DerivedDataCourses.CogPairFixpointIffInputsAgree` | `crates/plugins/derived-data/src/calculators/course_over_ground_true.rs:17-36` | The registered pair of course calculators reads each other's output. For every snapshot and every delta, with courses and variation read after the incoming values are written: the callback ends in a fixpoint if and only if there is no variation, or no course, or a single course that is recomputed from, or two courses of which one is recomputed, or both and they differ by the variation (modulo whole turns), or none and they fit already |
| `DerivedDataCourses.VariationAloneOscillatesIff` | `crates/plugins/derived-data/src/calculators/course_over_ground_magnetic.rs:17-34` | A delta with the variation alone, over two known courses, ends in mid-oscillation if and only if they do not differ by it |
| `DerivedDataDepth.DepthPairReachesFixpoint` | `crates/plugins/derived-data/src/calculators/transducer_to_keel.rs:27-55` | The two calculators that both write the depth below the keel reach a fixpoint on every run of deltas that write neither of their outputs |
| `DerivedDataDepth.PairCallback` | `crates/plugins/derived-data/src/lib.rs:126-180` | One callback of that pair from a consistent snapshot, with any delta that writes neither output |
| `DerivedDataDepth.WritersOverlap` | `crates/plugins/derived-data/src/calculators/depth_below_keel.rs:27-49` | No footprints make that pair disjoint, so the general theorem does not cover it |
| `DerivedDataDelivery.AffectingDeltaReachesCallbackIff` | `crates/signalk-server/src/plugins/host.rs:243-259` | A delta of the own vessel that affects a calculator reaches the callback if and only if one of its values lies at a declared input exactly; with the wildcard suffix the comment speaks of it always would |
| `DerivedDataDelivery.DeliveredIffCarriesInput` | `crates/signalk-server/src/plugins/host.rs:249-259` | The host delivers exactly the deltas of context `vessels.self` that carry a declared input |
| `DerivedDataDelivery.SuffixDeliversExactlyConcerns` | `crates/plugins/derived-data/src/lib.rs:91-102` | With the suffix it would deliver exactly those with a value at or below an input |
| `DerivedDataDelivery.BelowAnInputIsNotHeard` | `crates/plugins/derived-data/src/lib.rs:119-120` | A single value strictly below an input, at no input itself, affects the calculator and is not delivered |
| `DerivedDataDelivery.VoltageAloneIsNotHeard` | `crates/plugins/derived-data/src/calculators/battery_power.rs:16-31` | The failing input: a battery voltage alone affects the battery power and leaves the snapshot as it was |
| `DerivedDataDelivery.HostRunReachesFixpoint` | `crates/signalk-server/src/plugins/host.rs:241-264` | What is delivered leaves a fixpoint after every run, under the hypotheses of the fixpoint theorem |
| `VesselRoundTrip.RoundTripIffSafe` | `crates/signalk-types/src/full.rs:84-179` | For every map order, deserializing a serialized vessel gives back the flat map and identity fields if and only if the keys do not start with a dot, have no reserved first segment, are prefix-free by segment, and no interior node has all three marker keys |
| `VesselRoundTrip.PrintedOrderIndependent` | `crates/signalk-types/src/full.rs:118-124` | For such keys the nested object is the same for every iteration order |
| `VesselRoundTrip.SafeRoundTrips` | `crates/signalk-types/src/full.rs:104-179` | Sufficiency of the condition |
| `VesselRoundTrip.UnsafeLosesKey` | `crates/signalk-types/src/full.rs:134-157` | Necessity: keys violating it lose at least one of them, in every order |
| `VesselRoundTrip.EmptyKeyIsSafe` | `crates/signalk-types/src/full.rs:147-153` | A vessel holding just the empty key round-trips, because of how the empty prefix is joined |
| `VesselRoundTrip.InsertRepresents` | `crates/signalk-types/src/full.rs:84-102` | Inserting a key unrelated to the others extends the represented flat map by exactly that key |
| `VesselRoundTrip.RepresentsUnique` | `crates/signalk-types/src/full.rs:68-76` | A prefix-free flat map has only one nested form |
| `FullModel.ParseOfLeaf` | `crates/signalk-types/src/full.rs:23-43` | A printed leaf parses to the same value, with optional meta and per-source values, and carries all three marker keys |
| `FullModel.Serialize` | `crates/signalk-types/src/full.rs:105-125` | The serializing loop, in an arbitrary order, builds the identity fields and then inserts each key |
| `FullModel.FlattenInto` | `crates/signalk-types/src/full.rs:134-157` | The recursion files exactly the leaves below a node, or fails only if one of them does not parse; earlier entries are overwritten |
| `FullModel.Deserialize` | `crates/signalk-types/src/full.rs:160-178` | Identity fields come from the reserved keys, everything else from the leaves under the other keys |
| `Paths.MatchesPartsMeaning` | `crates/signalk-types/src/path.rs:36-51` | A pattern matches if and only if it agrees pointwise (`*` with anything) up to its first `**`, which takes the rest, possibly empty; without `**` the lengths are equal |
| `Paths.JoinOfSplit` | `crates/signalk-types/src/path.rs:7-14` | Joining undoes splitting for every path |
| `Paths.SplitOfJoin` | `crates/signalk-types/src/path.rs:7-14` | Splitting undoes joining if and only if there is at least one segment and none contains a dot |
| `Paths.PlainPatternIsExact` | `crates/signalk-types/src/path.rs:36-51` | A pattern without wildcards matches its own path and no other |
| `Paths.OpenPatternMatchesBelow` | `crates/signalk-types/src/path.rs:36-51` | With `.**` appended it matches its own path and every path below |
| `Paths.SplitIsDotFree` | `crates/signalk-types/src/path.rs:7-9` | Segments contain no dot |
| `StoreRuns.LastMinimalPriorityWins` | `crates/signalk-store/src/store.rs:197-243` | With fixed priorities and no time to live, the active value is the last write among those of minimal priority over the whole history of the path, on every vessel; on the self vessel it equals the index entry of its source |
| `StoreRuns.DeltaRunsAreArbitrated` | `crates/signalk-store/src/store.rs:137-263` | The same for every run of deltas through the store |
| `StoreSuccession.WriteReplacesIff` | `crates/signalk-store/src/store.rs:201-242` | A write replaces the active value if and only if its source has equal or better priority (100 if not configured) or the active source has a time to live of T seconds and T + 1 seconds have passed since the value's time stamp; T from 2^63 on wraps to a negative limit |
| `StoreSuccession.ContextNamesVessel` | `crates/signalk-store/src/store.rs:137-158` | Which vessel a delta's context names, and when it names none |
| `StoreSuccession.WorseWriterWaits` | `crates/signalk-store/src/store.rs:208-231` | Without a time to live a worse source never takes over; with T below 2^63 it does if and only if the value is at least T + 1 seconds old |
| `StoreSuccession.WriteIndexes` | `crates/signalk-store/src/store.rs:189-239` | What a write does to every index entry, by the age of the active value |
| `StoreSuccession.SuccessionDecides` | `crates/signalk-store/src/store.rs:189-243` | After every run, with any changes of priorities and times to live in between, the active value is the last of the succession: the first write, then each time the first later write that ousts its predecessor under the settings in force |
| `StoreSuccession.SuccessionUnique` | `crates/signalk-store/src/store.rs:208-231` | There is exactly one succession |
| `StoreSuccession.DeltaRunsFollowSuccession` | `crates/signalk-store/src/store.rs:137-263` | The same for every run of deltas and configuration calls |
| `StoreRuns.AlwaysCurrent` | `crates/signalk-store/src/store.rs:189-243` | Under any time-to-live and any mid-run change of priorities or time-to-live, each active value and each index entry is its own source's latest write to that path |
| `StoreRuns.ReplicaEqualsStore` | `crates/signalk-store/src/store.rs:137-263` | A last-write-wins replica fed by the broadcast always equals the store's values on every vessel, through deltas and configuration changes, although rejected values are withheld |
| `StoreRuns.BroadcastIsSubDelta` | `crates/signalk-store/src/store.rs:245-262` | A broadcast vessel delta keeps the context and is an order-preserving sub-delta without empty updates |
| `StoreRuns.ActiveIndexedIffNotApart` | `crates/signalk-store/src/store.rs:189-243` | After any run, with any configuration changes, the self vessel's active value is in the index if and only if no write separated the two since they were last joined: on the self vessel one that evicts its own source, on another vessel one that evicts the source active on the self vessel |
| `StoreRuns.DeltaRunsIndexedIffNotApart` | `crates/signalk-store/src/store.rs:137-263` | The same for every run of deltas and configuration calls |
| `StoreRuns.ActiveIndexedUnlessEvicted` | `crates/signalk-store/src/store.rs:208-240` | Exactly which writes separate the active value of the self vessel from the index, told from the state before the write |
| `StoreRuns.ReturningStaleSourceLeavesIndex` | `crates/signalk-store/src/store.rs:233-241` | A stale source that returns itself is active but dropped from the index |
| `StoreRuns.ForeignEvictionClearsSelfIndex` | `crates/signalk-store/src/store.rs:235-239` | An eviction on another vessel deletes the self vessel's index entry of that source, since the eviction does not ask which vessel it is on |
| `StoreRuns.ExecuteIsRun` | `crates/signalk-store/src/store.rs:137-263` | Every run of deltas and configuration calls is a run of the per-value events the invariants are about |
| `StoreRuns.StepLookup` | `crates/signalk-store/src/store.rs:201-242` | A write changes the active value at its own vessel and path only, and only if accepted |
| `StoreRuns.StepIndexed` | `crates/signalk-store/src/store.rs:189-239` | A write sets or evicts index entries of its own path only |
| `StoreRuns.CountersCountUpdates` | `crates/signalk-store/src/store.rs:172-177` | Each label's counter grows by the number of its updates, stored or not |
| `Store.SignalKStore.ApplyDelta` | `crates/signalk-store/src/store.rs:137-263` | The imperative method: new state, registered sources, counters and broadcast are those specified, on every branch including non-vessel contexts; `DeltaRunsFollowSuccession` says which values that leaves active |
| `Store.SignalKStore.ApplyUpdates` | `crates/signalk-store/src/store.rs:160-252` | The loop over updates |
| `Store.SignalKStore.ApplyUpdate` | `crates/signalk-store/src/store.rs:165-251` | One update, left out of the broadcast if nothing of it was stored |
| `Store.SignalKStore.ApplyValues` | `crates/signalk-store/src/store.rs:182-243` | The loop over values collects exactly the accepted ones |
| `Store.SignalKStore.ApplyValue` | `crates/signalk-store/src/store.rs:183-242` | Index insertion, stale check, priority check, eviction and insertion, in the order of the source; `WriteReplacesIff` and `WriteIndexes` say by which ages and ranks |
| `Store.SignalKStore.RegisterSource` | `crates/signalk-store/src/store.rs:167-177` | The source is registered once under its reference; the label counter is incremented |
| `Store.SignalKStore.SetSourcePriorities` | `crates/signalk-store/src/store.rs:102-104` | Replaces the priorities and nothing else |
| `Store.SignalKStore.SetSourceTtls` | `crates/signalk-store/src/store.rs:126-128` | Replaces the times to live and nothing else |
| `Store.SignalKStore.GetSelfPath` | `crates/signalk-store/src/store.rs:266-268` | Reads the active value of the self vessel |
| `SourcesHierarchy.RefOrderIndependentIffAgree` | `crates/signalk-store/src/store.rs:505-530` | The sources object is the same for every iteration order of the registry if and only if every nested source agrees with the field of the source named like its label, if there is one |
| `SourcesHierarchy.OrderIndependentIffCompatible` | `crates/signalk-store/src/store.rs:508-526` | The same on references split into label and suffix |
| `SourcesHierarchy.PlacesFromRefs` | `crates/signalk-store/src/store.rs:508-514` | Every order of the split references comes from an order of the references |
| `SourcesHierarchy.BuildsWhatIsMeant` | `crates/signalk-store/src/store.rs:505-530` | Compatible sources give, in every order, each flat source under its name and each label exactly its suffixes |
| `SourcesHierarchy.HoldsUnique` | `crates/signalk-store/src/store.rs:493-504` | There is only one such object |
| `SourcesHierarchy.FindDotFindsFirst` | `crates/signalk-store/src/store.rs:511-511` | A reference is split at its first dot |
| `SourcesHierarchy.PlaceDeterminesRef` | `crates/signalk-store/src/store.rs:511-514` | Label and suffix determine the reference |
| `SourcesHierarchy.PlacesInRegistry` | `crates/signalk-store/src/store.rs:508-514` | An iteration over the references is one over their places, none twice |
| `SourcesHierarchy.BuildSourcesHierarchy` | `crates/signalk-store/src/store.rs:505-530` | The loop builds the specified object |
| `SourcesHierarchy.AddSource` | `crates/signalk-store/src/store.rs:509-526` | One source, nested or flat; a nested one is dropped if its label is no object |
| `Subscriptions.SendRateIsBounded` | `crates/signalk-store/src/subscription.rs:37-129` | Over every run of the filter, every map order and all clock readings, one subscription is marked sent at most w / g + 1 times in any window of length w, g being its policy's smallest gap |
| `Subscriptions.SendsAreSpaced` | `crates/signalk-store/src/subscription.rs:43-86` | Consecutive sends of one subscription are at least g apart |
| `SubscriptionRuns.PoliciesDecide` | `crates/signalk-store/src/subscription.rs:37-86` | At every point of every run, whatever the other subscriptions: a matching value is kept if the subscription was never served or last served long enough ago, and it is never served sooner or out of its pattern. Long enough is the minimum period for Instant, the period for Fixed, and for Ideal the minimum period if the value differs from the last one served and the period if not |
| `SubscriptionRuns.FilteredValuesArePoliced` | `crates/signalk-store/src/subscription.rs:93-129` | The same for every value of a filtered delta, after any earlier deltas |
| `SubscriptionRuns.IdealStaysCurrentIff` | `crates/signalk-store/src/subscription.rs:54-72` | A client whose only subscription is Ideal without minimum period always has the last value offered at each of its paths if and only if its pattern matches no two paths or its period is zero |
| `SubscriptionRuns.EqualValueIsDropped` | `crates/signalk-store/src/subscription.rs:54-86` | The run in which a first value at one path is dropped because it equals the last one at another |
| `Subscriptions.EagerFilterIsExact` | `crates/signalk-store/src/subscription.rs:93-129` | With instant policies and zero minimum period the result is exactly the values some pattern matches, in order, for every map order |
| `Subscriptions.RunsConcat` | `crates/signalk-store/src/subscription.rs:93-129` | Filtering several deltas one after the other is one run |
| `Subscriptions.SettingsFixed` | `crates/signalk-store/src/subscription.rs:83-86` | Filtering never changes patterns, policies or the set of subscriptions |
| `Subscriptions.FilterDelta` | `crates/signalk-store/src/subscription.rs:93-129` | Result and new subscription states are those of a legal run; no empty update, none at all gives no delta; `FilteredValuesArePoliced` says which values that keeps |
| `Subscriptions.FilterUpdate` | `crates/signalk-store/src/subscription.rs:99-119` | One update's values in order |
| `Subscriptions.OfferValue` | `crates/signalk-store/src/subscription.rs:102-110` | A value goes to one subscription that wants it, if any does, in an arbitrary order; only that one is marked |
| `Subscriptions.ActiveSubscription.ShouldDeliver` | `crates/signalk-store/src/subscription.rs:37-81` | Whether a value is due under the three policies; `PoliciesDecide` says when that is |
| `Subscriptions.ActiveSubscription.MarkSent` | `crates/signalk-store/src/subscription.rs:83-86` | Time and value of the last send |
| `AisRuns.TransitionsAlternate` | `crates/plugins/ais-status/src/tracker.rs:161-377` | For each MMSI, over every interleaving of messages and ticks and across removals and re-creations, the reported statuses strictly alternate Tracking, Lost; the last agrees with a live confirmed target |
| `AisLifecycle.TicksJudgeByLastMessage` | `crates/plugins/ais-status/src/tracker.rs:337-377` | After every run, a tick reports a target lost if and only if it is tracked and its last message is more than lost-after ago; it removes a lost one if and only if that is more than lost-after plus remove-after ago, and an unconfirmed one if and only if it is more than the confirmation window ago; else nothing changes |
| `AisLifecycle.DefaultTicks` | `crates/plugins/ais-status/src/tracker.rs:38-63` | The same in seconds, without configured thresholds: 180, 900 and 3600 for MMSIs beginning with 97, 10, 30 and 180 for those beginning with 00 or 111, and 180, 360 and 540 for all others |
| `AisLifecycle.ConfiguredLimits` | `crates/plugins/ais-status/src/tracker.rs:38-60` | Each configured threshold takes the place of its default |
| `AisLifecycle.SilentTargetFades` | `crates/plugins/ais-status/src/tracker.rs:337-377` | A tracked target that is heard no more stays tracked until the first tick more than lost-after past its last message, which reports the loss once; the next tick more than lost-after plus remove-after past it removes the target, for every sequence of ticks |
| `AisLifecycle.LastHeardIsSeen` | `crates/plugins/ais-status/src/tracker.rs:161-163` | A target's last-seen time is that of the last message addressed to it |
| `AisLifecycle.LastValuesAreTold` | `crates/plugins/ais-status/src/tracker.rs:204-233` | A message leaves the last complete position and the last speed and course it carries; the latter two are forgotten if they are no numbers |
| `AisLifecycle.AddressedIff` | `crates/plugins/ais-status/src/tracker.rs:304-322` | Which contexts address a target, and which one |
| `AisRuns.WindowIsExact` | `crates/plugins/ais-status/src/tracker.rs:161-184` | The pruned list is the whole history since creation or re-acquisition cut to the window; so a target is Acquiring if and only if no message of its life completed the count |
| `AisRuns.UnderflowForgets` | `crates/plugins/ais-status/src/tracker.rs:167-170` | When the clock shows less than one window, the subtraction underflows and earlier messages are forgotten: the list keeps them if and only if they carry the very same time |
| `AisRuns.ApplyIsPointwise` | `crates/plugins/ais-status/src/tracker.rs:310-377` | A message or tick affects each target by that target's own state alone |
| `AisRuns.TickReports` | `crates/plugins/ais-status/src/tracker.rs:341-376` | Whatever order a tick visits the targets in, it reports the same transition for each |
| `AisTracker.TrackedTarget.Record` | `crates/plugins/ais-status/src/tracker.rs:161-201` | A message updates counters, prunes the list and makes the specified transition |
| `AisTracker.TrackedTarget.UpdateFromValues` | `crates/plugins/ais-status/src/tracker.rs:204-233` | Position, speed and course follow the delta's values in order |
| `AisTracker.TrackedTarget.CheckAge` | `crates/plugins/ais-status/src/tracker.rs:341-369` | A target's part in a tick; `TicksJudgeByLastMessage` says at which ages it is lost and removed |
| `AisTracker.Tracker.Update` | `crates/plugins/ais-status/src/tracker.rs:310-333` | Own and foreign contexts are ignored, unknown targets created, all other targets unchanged |
| `AisTracker.Tracker.TickAll` | `crates/plugins/ais-status/src/tracker.rs:337-377` | A tick in any visiting order removes exactly the expired targets and reports each lost one once; `TicksJudgeByLastMessage` and `DefaultTicks` say at which ages |
| `AisTracker.Tracker.TargetsForCpa` | `crates/plugins/ais-status/src/tracker.rs:380-397` | Lists each confirmed target with a position once |
| `AisTracker.Tracker.UpdateTargetCpa` | `crates/plugins/ais-status/src/tracker.rs:400-406` | Sets one live target's alarm latch, if it still exists |
| `AisAlarm.LifetimeAlternates` | `crates/plugins/ais-status/src/lib.rs:439-502` | Within one lifetime of a target, raise and clear strictly alternate starting with a raise and the latch equals the last, although callbacks run between snapshot and update |
| `AisAlarm.AllLifetimesMatchIffNoneDropped` | `crates/plugins/ais-status/src/lib.rs:263-305` | Over all lifetimes the notifications match the latch throughout if and only if no tick removes a target whose latch is set: removal sends no clear |
| `AisAlarm.RaiseAfterDrop` | `crates/plugins/ais-status/src/lib.rs:479-492` | Once a tick has removed a target whose latch was set, its notifications end with a raise and its latch is clear, and the next notification about it, whatever happens in between, is a second raise |
| `AisAlarm.DropLeavesRaise` | `crates/plugins/ais-status/src/tracker.rs:364-374` | Right after the removal: no notification, log ending with a raise, latch clear |
| `AisAlarm.LatchedTargetIsRemoved` | `crates/plugins/ais-status/src/lib.rs:263-305` | A legal run with the default thresholds in which that happens, and whose log shows two raises in a row |
| `AisEcho.LossUndoesItself` | `crates/plugins/ais-status/src/lib.rs:334-364` | The plugin subscribes to every path of every vessel, its own status deltas included: when the one reporting a loss comes back, the target counts as heard and its re-acquisition is reported |
| `AisEcho.ConfirmedStaysForever` | `crates/plugins/ais-status/src/lib.rs:213-249` | If status deltas come back before the next tick, a confirmed target is never removed and is being tracked at every tick, over every interleaving, however long nobody else speaks of it |
| `AisEcho.AlwaysUnderWay` | `crates/plugins/ais-status/src/lib.rs:263-284` | While a target is lost, the delta that reports it is still under way |
| `AisAlarm.AlwaysAccurate` | `crates/plugins/ais-status/src/lib.rs:439-502` | What is still to be examined agrees with the live latches at every step |
| `AisAlarm.NextKeepsLog` | `crates/plugins/ais-status/src/lib.rs:479-501` | Exactly the removal of a latched target breaks agreement of log and latch |
| `Cpa.ApproachIsVertex` | `crates/plugins/ais-status/src/cpa.rs:71-111` | Away from equal velocities, squared distance at every t is v^2 (t - TCPA)^2 + CPA^2 |
| `Cpa.ApproachIsLeast` | `crates/plugins/ais-status/src/cpa.rs:83-111` | The CPA is never undercut, and is attained at TCPA only |
| `Cpa.NearlyEqualVelocities` | `crates/plugins/ais-status/src/cpa.rs:85-97` | In the near-equal-velocity branch the distance after t seconds differs from the reported one by at most 0.001 abs(t) |
| `Cpa.SwapInvariant` | `crates/plugins/ais-status/src/cpa.rs:71-111` | Exchanging the vessels changes neither result |
| `CpaProjection.ProjectionKeepsCircles` | `crates/plugins/ais-status/src/cpa.rs:71-82` | Lengths along meridians and along parallels are kept, the latter shrunk by the cosine of the latitude; elsewhere the difference in longitude is taken at the middle latitude |
| `CpaProjection.MeetingOnMeridian` | `crates/plugins/ais-status/src/cpa.rs:44-119` | Two vessels bound north and south on one meridian reach distance zero when their relative speed has covered the arc between them |
| `Cpa.ClassifyMeaning` | `crates/plugins/ais-status/src/lib.rs:381-400` | A level is raised if and only if the vessels will be closest within the horizon and within that level's distance; alarm takes precedence |
| `AutopilotControl.NormalizeByLoop` | `crates/plugins/autopilot/src/pd.rs:17-26` | The loops terminate with the wrapped angle |
| `AutopilotControl.NormalizeAngleWraps` | `crates/plugins/autopilot/src/pd.rs:17-26` | It lies in [-pi, pi], is congruent modulo 2 pi, and leaves angles in range alone |
| `AutopilotControl.WrapsUnique` | `crates/plugins/autopilot/src/pd.rs:17-26` | These properties determine the result, at the seam too |
| `AutopilotControl.PidController.Compute` | `crates/plugins/autopilot/src/pd.rs:92-119` | New integral and rudder as specified, both within their limits, no rudder in the dead zone; the three lemmas below say what each term adds |
| `AutopilotControl.RuddersDifferByTerms` | `crates/plugins/autopilot/src/pd.rs:107-118` | Outside the dead zone unsaturated rudders at equal new integrals differ by the proportional gain times the difference of the errors plus the derivative gain times that of the derivatives |
| `AutopilotControl.IntegralActsAlone` | `crates/plugins/autopilot/src/pd.rs:107-118` | Without proportional and derivative gain the rudder is the integral gain times the new integral, clamped |
| `AutopilotControl.DerivativeDamps` | `crates/plugins/autopilot/src/pd.rs:107-118` | Through saturation and anti-windup a smaller derivative never gives a larger rudder |
| `AutopilotControl.AntiWindup` | `crates/plugins/autopilot/src/pd.rs:107-115` | A saturated controller never winds further towards the error, and always unwinds once the error changes sides |
| `AutopilotControl.PidBounds` | `crates/plugins/autopilot/src/pd.rs:112-118` | Integral and rudder stay within their limits for every input |
| `AutopilotControl.PidIsOdd` | `crates/plugins/autopilot/src/pd.rs:92-119` | Away from zero, mirrored inputs give mirrored integral and rudder |
| `AutopilotControl.PidIsOddFromZeroIffUnsaturated` | `crates/plugins/autopilot/src/pd.rs:107-115` | From an integral of zero they do so if and only if the output is not saturated |
| `AutopilotControl.ScalingKeepsProduct` | `crates/plugins/autopilot/src/pd.rs:131-142` | Gain scheduling scales the proportional gain with the speed within factors 0.3 and 3, and keeps the product of P and D and the ratio of P and I |
| `AutopilotControl.RecoveryIsBounded` | `crates/plugins/autopilot/src/pd.rs:177-193` | Recovery is never active for `max_ticks` ticks in a row; the countdown and the streak add up |
| `AutopilotControl.RecoverySwitchesIff` | `crates/plugins/autopilot/src/pd.rs:177-192` | Recovery starts if and only if the error is above the threshold and more than one tick is granted, and goes on if and only if the error is at least three tenths of it and ticks remain |
| `AutopilotAim.RecoveryDropsIntegral` | `crates/plugins/autopilot/src/pd.rs:195-205` | While recovering the rudder is the clamped sum of the other two terms, each times the recovery factor |
| `AutopilotControl.RecoveryState.Update` | `crates/plugins/autopilot/src/pd.rs:177-193` | One tick of recovery mode |
| `AutopilotControl.AlarmIffEnoughMismatches` | `crates/plugins/autopilot/src/pd.rs:255-282` | The rudder alarm is on if and only if the feedback readings mismatched often enough in a row, ticks without feedback not counting |
| `AutopilotControl.RudderFeedbackMonitor.Update` | `crates/plugins/autopilot/src/pd.rs:255-282` | Reports exactly the changes of the alarm |
| `AutopilotControl.FailureIffLimitReached` | `crates/plugins/autopilot/src/pd.rs:334-362` | Sensor failure is reported if and only if the rejects since the last accept reach the limit |
| `AutopilotControl.PassedOnHeadingIsSlow` | `crates/plugins/autopilot/src/pd.rs:334-362` | The heading passed on (accepted or held) moves by at most max rate times dt per tick, modulo whole turns |
| `AutopilotControl.HeadingPlausibility.CheckHeading` | `crates/plugins/autopilot/src/pd.rs:334-362` | One sample: verdict and new state |
| `AutopilotControl.RateLimitBounds` | `crates/plugins/autopilot/src/pd.rs:413-419` | The limited rudder lies between current and target, within rate times dt, and reaches the target if and only if that suffices |
| `AutopilotFilter.OutputWithinInputs` | `crates/plugins/autopilot/src/filter.rs:52-59` | After any run since reset the low-pass output lies between least and greatest input |
| `AutopilotFilter.ErrorDecaysGeometrically` | `crates/plugins/autopilot/src/filter.rs:52-59` | A constant input leaves exactly (1 - alpha)^n of the initial error |
| `AutopilotFilter.StaysInUnitDisc` | `crates/plugins/autopilot/src/filter.rs:104-108` | Filtered sine and cosine never leave the unit disc |
| `AutopilotFilter.DetectedRateIsBounded` | `crates/plugins/autopilot/src/filter.rs:153-161` | A signal that never changes faster than a limit is never detected as faster |
| `AutopilotFilter.LowPassFilter.Update` | `crates/plugins/autopilot/src/filter.rs:52-59` | One sample |
| `AutopilotFilter.CircularFilter.Update` | `crates/plugins/autopilot/src/filter.rs:104-108` | Sine and cosine are filtered separately and recombined |
| `AutopilotFilter.RateDetector.Update` | `crates/plugins/autopilot/src/filter.rs:153-161` | Difference quotient, smoothed; zero for the first sample or a non-positive step |
| `AutopilotProvider.CallEffects` | `crates/plugins/autopilot/src/provider.rs:125-272` | Which calls switch the autopilot on and off; no call touches rudder or sensors; a failing call changes nothing; a change of mode restarts timing |
| `AutopilotProvider.TackSemantics` | `crates/plugins/autopilot/src/provider.rs:187-207` | A tack is refused if and only if already within 0.01 of it; otherwise it takes the wanted side at the old angle off the wind, at least 0.1 |
| `AutopilotProvider.TackBackRestores` | `crates/plugins/autopilot/src/provider.rs:187-207` | Tacking over and back restores the target if and only if it was at least 0.1 off the wind |
| `AutopilotInputs.TargetEffects` | `crates/plugins/autopilot/src/provider.rs:125-272` | What each call makes of target, dodge and mode: only five calls move the target; an adjustment wraps it within half a turn |
| `AutopilotInputs.AdjustmentsAddUp` | `crates/plugins/autopilot/src/provider.rs:168-173` | Any number of adjustments lead to their sum, up to whole turns and within half a turn |
| `AutopilotInputs.DeltaIsSensed` | `crates/plugins/autopilot/src/lib.rs:131-155` | After a delta each path shows the last number that counts there, seen now, and else what it showed before; the plugin's own rudder readings do not count |
| `AutopilotProvider.ParseIffName` | `crates/plugins/autopilot/src/state.rs:28-74` | Mode names and modes correspond one to one |
| `AutopilotProvider.AutopilotState.UpdateSensor` | `crates/plugins/autopilot/src/state.rs:123-127` | Value and time of a sensor path |
| `AutopilotProvider.AutopilotState.SensorTimedOut` | `crates/plugins/autopilot/src/state.rs:135-140` | Timed out when missing or older than the limit in whole seconds |
| `AutopilotProvider.AutopilotState.OnDelta` | `crates/plugins/autopilot/src/lib.rs:131-155` | The subscription callback: numeric values in order; the plugin's own rudder values are no feedback |
| `AutopilotProvider.ProviderHandle.SetState` | `crates/plugins/autopilot/src/provider.rs:125-142` | Enables, disables, or fails for an unknown state |
| `AutopilotProvider.ProviderHandle.SetMode` | `crates/plugins/autopilot/src/provider.rs:148-157` | Enters a known mode and restarts timing, or fails |
| `AutopilotProvider.ProviderHandle.SetTarget` | `crates/plugins/autopilot/src/provider.rs:163-166` | Sets the target only |
| `AutopilotProvider.ProviderHandle.AdjustTarget` | `crates/plugins/autopilot/src/provider.rs:168-173` | Moves the target, wrapped |
| `AutopilotProvider.ProviderHandle.Engage` | `crates/plugins/autopilot/src/provider.rs:175-178` | Switches on only |
| `AutopilotProvider.ProviderHandle.Disengage` | `crates/plugins/autopilot/src/provider.rs:180-185` | Switches off and forgets the last tick |
| `AutopilotProvider.ProviderHandle.Tack` | `crates/plugins/autopilot/src/provider.rs:187-207` | As specified, with both errors |
| `AutopilotProvider.ProviderHandle.Gybe` | `crates/plugins/autopilot/src/provider.rs:209-231` | As specified, with both errors |
| `AutopilotProvider.ProviderHandle.Dodge` | `crates/plugins/autopilot/src/provider.rs:233-236` | Sets or clears the offset only |
| `AutopilotProvider.ProviderHandle.CourseCurrentPoint` | `crates/plugins/autopilot/src/provider.rs:238-257` | Steers the stored bearing in route mode, or fails without changing anything |
| `AutopilotProvider.ProviderHandle.CourseNextPoint` | `crates/plugins/autopilot/src/provider.rs:259-270` | Enters route mode if needed and switches on |
| `AutopilotLoop.ControlLoop.StepComputing` | `crates/plugins/autopilot/src/lib.rs:223-544` | From sleep, or with a snapshot in hand, running the loop to its next lock operation or emission is the transition function of the state machine |
| `AutopilotLoop.ControlLoop.StepActing` | `crates/plugins/autopilot/src/lib.rs:320-600` | So it is with an outcome to write back or a command to emit |
| `AutopilotLoop.ControlLoop.WakeUp` | `crates/plugins/autopilot/src/lib.rs:223-292` | Tick count and snapshot under the read lock |
| `AutopilotLoop.ControlLoop.Compute` | `crates/plugins/autopilot/src/lib.rs:303-544` | From snapshot to outcome: skip, disengage or steer |
| `AutopilotLoop.ControlLoop.DecideOn` | `crates/plugins/autopilot/src/lib.rs:305-398` | Mode change, timeout, missing target, time step, heading plausibility, in this order |
| `AutopilotLoop.ControlLoop.SteerOn` | `crates/plugins/autopilot/src/lib.rs:400-544` | Gains, recovery, dispatch, feedforward, clamp and rate limit |
| `AutopilotLoop.ControlLoop.DispatchMode` | `crates/plugins/autopilot/src/lib.rs:437-514` | The control law of each mode |
| `AutopilotLoop.ControlLoop.FeedForward` | `crates/plugins/autopilot/src/lib.rs:516-533` | Heel and gust terms |
| `AutopilotLoop.ControlLoop.ResetForMode` | `crates/plugins/autopilot/src/lib.rs:309-318` | Every controller and filter is reset when the mode changes |
| `AutopilotLoop.ControlLoop.WriteStop` | `crates/plugins/autopilot/src/lib.rs:322-330` | The disengagement is written under the write lock |
| `AutopilotLoop.ControlLoop.Write` | `crates/plugins/autopilot/src/lib.rs:546-551` | The command is written back under the write lock |
| `AutopilotLoop.ControlLoop.Emit` | `crates/plugins/autopilot/src/lib.rs:553-600` | The command is emitted when due; the feedback monitor sees every command |
| `AutopilotDecisions.OutcomeIff` | `crates/plugins/autopilot/src/lib.rs:303-510` | The loop disengages itself if and only if it is on and the active mode's sensor is stale, or it has a target and the heading was rejected once too often; it steers if and only if neither holds and target and inputs of the mode are present |
| `AutopilotDecisions.ModeChangeForgets` | `crates/plugins/autopilot/src/lib.rs:309-318` | In the first pass after a change of mode, nothing of the former controllers, filters and monitors influences outcome or state |
| `AutopilotDecisions.ErrorLeadsToTarget` | `crates/plugins/autopilot/src/lib.rs:437-514` | In every mode the reported error is the shorter turn, modulo whole turns, from the held angle to the wanted one |
| `AutopilotAim.ErrorLeadsToAim` | `crates/plugins/autopilot/src/lib.rs:347-510` | The same with the aim spelled out: target plus dodge, or in route mode the bearing plus the arc tangent of cross-track error over lookahead |
| `AutopilotAim.SteadyWindIsHeld` | `crates/plugins/autopilot/src/filter.rs:104-108` | The circular filter passes a steady angle on unchanged from the first sample |
| `AutopilotAim.ErrorChangeStandsForTurn` | `crates/plugins/autopilot/src/lib.rs:462-465` | Without a believed rate of turn the controller sees the rate that changed the error since the last tick |
| `AutopilotAim.QualityFadesDerivative` | `crates/plugins/autopilot/src/pd.rs:382-391` | The age of the heading touches the derivative gain only: full when fresh, half at the half-life, none without a heading |
| `AutopilotAim.OutputEveryIsNearest` | `crates/plugins/autopilot/src/lib.rs:204-206` | The rates' quotient rounded to the nearest whole number, at least one |
| `AutopilotAim.OneDueInEachCycle` | `crates/plugins/autopilot/src/lib.rs:224-227` | Of as many wakings in a row exactly one is to emit |
| `AutopilotSteering.FasterTurnTakesRudderOff` | `crates/plugins/autopilot/src/lib.rs:401-544` | In every mode, through gain scheduling, recovery, anti-windup, feedforward, clamp and rate limit, a pass that believes a larger rate of turn never commands a larger rudder, all else equal |
| `AutopilotSteering.UnbelievedTurnIsIgnored` | `crates/plugins/autopilot/src/pd.rs:399-406` | A rate of turn beyond the plausible one counts as missing |
| `AutopilotSteering.HeelAndGustAnswered` | `crates/plugins/autopilot/src/lib.rs:516-544` | A pass whose heel and wind speed each ask for no more rudder, by the signs of their gains, commands no larger one, all else equal |
| `AutopilotSteering.WokenLoopDecidesIff` | `crates/plugins/autopilot/src/lib.rs:224-412` | From the shared state at waking: the loop disengages if and only if it is on and the mode's own sensor was never heard or is at least limit + 1 seconds old, or the heading is rejected once too often; it steers if and only if neither, with a target and the mode's sensors present |
| `AutopilotSensing.SensedReachesLoop` | `crates/plugins/autopilot/src/lib.rs:131-295` | The last number a delta shows at a path is what the next pass finds in its place, with its age, for every path the loop reads |
| `AutopilotRuns.AtMostOneCommandWhileOff` | `crates/plugins/autopilot/src/lib.rs:229-343` | For every interleaving of the loop's steps with provider calls and sensor deltas: between switching off, by a call or by the loop itself, and the next enabling call, at most one rudder command is emitted |
| `AutopilotRuns.OffEmitsOnlyInFlight` | `crates/plugins/autopilot/src/lib.rs:229-300` | While off, no more commands are emitted than the one in flight: none if the loop sleeps or holds a snapshot taken while off |
| `AutopilotRuns.AlwaysBounded` | `crates/plugins/autopilot/src/lib.rs:516-551` | In every reachable state the rudder, every command on its way and every command emitted lie in [-max, max], and the integral within its limit |
| `AutopilotRuns.RudderMovesSlowly` | `crates/plugins/autopilot/src/lib.rs:535-551` | Over any stretch without self-disengagement the rudder moves by at most rate times the sum of the time steps |
| `AutopilotTravel.RudderMovesWithClock` | `crates/plugins/autopilot/src/lib.rs:351-356` | In clock time: over such a stretch the rudder moves by at most rate times the time on the clock, a millisecond per command and a nominal step per command without a last tick |
| `AutopilotTravel.AlwaysWithinClock` | `crates/plugins/autopilot/src/lib.rs:351-356` | The time steps accounted for telescope, over every schedule |
| `AutopilotPause.DisengageForgetsTickIffNothingSteers` | `crates/plugins/autopilot/src/provider.rs:180-185` | Under every schedule of loop steps, sensor deltas and calls that leave the timing alone: the last tick is forgotten if and only if the pass under way had not computed a command and does not get by its guards (on, sensor fresh, target set, heading plausible, inputs present) at its next step; otherwise it is that command's |
| `AutopilotPause.PauseBecomesTimeStep` | `crates/plugins/autopilot/src/lib.rs:351-356` | Once switched on again, the first time step is the nominal one in the first case, and in the other the whole time since the late command, however long the pause |
| `AutopilotPause.UnlimitedIffStepIsLong` | `crates/plugins/autopilot/src/pd.rs:413-419` | The rate limit binds for no command at all if and only if the time step suffices to cross from the present rudder to the far stop |
| `ConfigRuns.ReopeningRestoresIffUuidSet` | `crates/signalk-server/src/config_store.rs:41-330` | Open any database, run any setters: reopening it with any seed and any generated UUID restores exactly the cache if and only if the UUID last set, or stored at the start, is not empty |
| `ConfigRuns.FreshDatabaseSurvivesRestart` | `crates/signalk-server/src/config_store.rs:41-64` | From a fresh database with a non-empty UUID, and no setter call with an empty one, the UUID row stays and reopening restores everything |
| `ConfigRuns.AlwaysAgrees` | `crates/signalk-server/src/config_store.rs:219-330` | After every run of setters the cache holds what the table says |
| `ConfigRuns.SetterKeepsAgreement` | `crates/signalk-server/src/config_store.rs:219-330` | Every setter changes cache and table alike and never deletes the UUID row |
| `ConfigRuns.OtherRowsStay` | `crates/signalk-server/src/config_store.rs:219-330` | Rows outside a setter's own keys stay, unknown ones included |
| `ConfigRuns.LoadAgrees` | `crates/signalk-server/src/config_store.rs:121-185` | A loaded cache agrees with its table |
| `ConfigRuns.AgreeingIsLoaded` | `crates/signalk-server/src/config_store.rs:178-182` | An agreeing cache is the loaded one if and only if a UUID is stored or happens to be the generated one |
| `ConfigRuns.EntryRoundTrip` | `crates/signalk-server/src/config_store.rs:13-22` | A plugin entry survives storing |
| `ConfigRuns.NumberRoundTrip` | `crates/signalk-server/src/config_store.rs:155-164` | A priority or time to live survives storing, within its width |
| `ConfigRuns.SeedStoresUuid` | `crates/signalk-server/src/config_store.rs:66-109` | Seeding stores the seed's UUID |
| `ConfigSettings.FreshStoreHoldsSeed` | `crates/signalk-server/src/config_store.rs:41-185` | A store opened on an empty database holds every part of its seed: identity, priorities, times to live, and the last entry of each plugin |
| `ConfigSettings.PluginsHoldLastSettings` | `crates/signalk-server/src/config_store.rs:298-330` | After every run of setters a plugin is enabled as it was last switched and configured as it was last configured, else as before, else enabled with an empty object |
| `ConfigSettings.OthersHoldLastSettings` | `crates/signalk-server/src/config_store.rs:219-296` | Vessel, priorities and times to live are the last ones set, as a whole |
| `ConfigStore.ReadCache` | `crates/signalk-server/src/config_store.rs:121-185` | The loading loop gives the table's meaning for every row order, ignoring unknown and undecodable rows |
| `ConfigStore.SeedFromConfig` | `crates/signalk-server/src/config_store.rs:66-109` | The rows of a seed; of two plugins with one id the later wins |
| `ConfigStore.SeedIfEmpty` | `crates/signalk-server/src/config_store.rs:47-54` | Only an empty table is seeded |
| `ConfigStore.PutNumbers` | `crates/signalk-server/src/config_store.rs:260-279` | Upserting a map in any order |
| `ConfigStore.ConfigStore.constructor` | `crates/signalk-server/src/config_store.rs:41-63` | Opening: table and cache |
| `ConfigStore.ConfigStore.SetVessel` | `crates/signalk-server/src/config_store.rs:219-250` | Name and MMSI are stored or deleted |
| `ConfigStore.ConfigStore.SetVesselUuid` | `crates/signalk-server/src/config_store.rs:252-258` | The UUID row is replaced |
| `ConfigStore.ConfigStore.SetSourcePriorities` | `crates/signalk-server/src/config_store.rs:260-279` | The namespace is replaced as a whole |
| `ConfigStore.ConfigStore.SetSourceTtls` | `crates/signalk-server/src/config_store.rs:281-296` | The namespace is replaced as a whole |
| `ConfigStore.ConfigStore.SetPluginConfig` | `crates/signalk-server/src/config_store.rs:298-313` | The entry keeps its flag, or starts enabled |
| `ConfigStore.ConfigStore.SetPluginEnabled` | `crates/signalk-server/src/config_store.rs:315-330` | The entry keeps its configuration, or starts with an empty object |

## Left out

- Rounding, NaN and infinities: `f64` is modelled as `real`, so branches that only reject non-finite numbers are absent, and `normalize_angle` terminates for every input, which it need not do for huge floats.
- Square roots: distances of closest approach are kept squared, or given by their square.
- Sine, cosine, arc tangent and powers of two: arbitrary functions; that a direction lies on the unit circle is a hypothesis of `StaysInUnitDisc`.
- JSON text, serde and SQL: documents are values, a stored cell is a text with what it parses to, and storing a document and reading it back are assumed inverse; failing SQL statements are not modelled.
- Timestamps inside vessel data are opaque texts and metadata an opaque document that always parses.
- `&mut` map parameters of `insert_nested` and `flatten_into` are results of functions or methods instead; the update in place is not captured.
- Calculator formulas other than those of the two pairs studied: calculators are arbitrary functions of the snapshot.
- Calculators with a memory: `windShift` keeps the previous direction between calls, so it is no function of the snapshot and outside the model.
- Lagging subscribers, which miss deltas, and the order of deltas under way from different plugins.
- The order in which spawned tasks hand over emitted deltas, and the capacity and lag of the broadcast channel: emissions are an unbounded log in program order.
- Vessel identity, metadata and `set_self_path` of the store, and fields of a source other than label, type, talker and PGN.
- Counters are unbounded; `u64` wrap-around is not modelled.
- The target's name, callsign, heading and last CPA figures, which no transition depends on.
- `run_cpa_tick` as one method: it is the step sequence of `AisAlarm`, with arbitrary readings in place of own position and course; the CPA data deltas it emits are not logged, and heard back they are messages like any other.
- Autopilot: status deltas and alarm notifications, device id and action list, and configuration parsing. The `experimental` feature is taken as switched on, which adds one mode.
- AtMostOneCommandWhileOff: does not cover a control rate of exactly zero, whose reciprocal, the nominal time step, is infinite; negative rates are covered.
- OffEmitsOnlyInFlight: does not cover a control rate of exactly zero either.
- AlwaysBounded: does not cover a control rate of exactly zero either.
- FasterTurnTakesRudderOff: assumes that derivative gain and recovery factor are not negative; a negative one turns damping into its opposite.
- Concurrent setters of the configuration store: cache and table are locked separately, so agreement is claimed for calls one after the other.
- Row keys of the configuration table are split into the known namespaces and an unknown rest.
- HTTP, WebSocket, NMEA decoding, PGN building, plugins bridged to other runtimes, the simulator, the webapp registry and the managers for courses, notifications, resources and tracks.

# plaklet, modelled and proved in Dafny

plaklet runs one task and ends: it reads one payload, dispatches an operation, and streams
replies that end in a success or a failure. This project models the logic plaklet itself owns and
proves what that logic is for, on all inputs, all runs and all schedules.

`dafny verify dfyconfig.toml` checks the whole project.

| file | component |
|---|---|
| `Prelude.dfy` | options, results, Go's uint64, filtering and subsequences |
| `TaskConfig.dfy` | the flattened string lists of a task config |
| `SnapshotIds.dfy`, `RmPool.dfy`, `Rm.dfy` | identifier decoding, the worker pool as a state machine, the rm operation |
| `Decimation.dfy`, `Samplers.dfy` | the self-decimating series and the three samplers fed by the state sampler |
| `RecentPaths.dfy`, `EventFold.dfy` | the bounded recency window and the event fold it is part of |
| `EventLaws.dfy` | what a folded trace shows, field by field, in terms of its events |
| `RunProtocol.dfy` | dispatch, sampler, signal watcher, listener and main goroutine around one reply stream |
| `Inventory.dfy` | inventory streaming between a provider, an encoder and the caller |
| `InventoryRun.dfy` | an inventory operation as a whole: the listing inside the run protocol |
| `Locate.dfy` | locate options from the flat config |
| `Registry.dfy` | the plugin registry and its joined keys |
| `Sync.dfy` | the sync driver loop |

Concurrent code is a state machine: an `Enabled` predicate and a `Next` function over labelled steps, one
step for each channel operation, lock section, close or join, taken in any order. Theorems speak of whole runs
(`IsRun`) and rest on an inductive invariant, a measure that falls with every step, and a lemma that
a step is always possible until the end. Code that updates objects or loops is a class or a method
proved equal to a function on values, and the theorems are about that function.
What a run did is read off the labels of its steps, and what a state, an option or a reply shows off the raw data
it comes from, so that theorems do not rest on the functions they are about.

Some promises hold only under a condition. Each condition below is proved to be exact:

- The thinned series stays on its grid for an even cap; of all caps from 2 up, exactly the even ones do
  (`Decimation.ClosedFormIffEven`).
- The resource and network series hold samples of the same emissions, for however long reads succeed from
  some point on, exactly when every read before it succeeded too and the operation has a network scope
  (`Samplers.AlignedIff`).
- The recent-paths window is the top of the unbounded list after every operation of a trace exactly when
  every settle finds what it needs in view (`RecentPaths.AlwaysExactIff`, one settle in
  `RecentPaths.SettleExactIff`); with more paths in flight than it holds it drifts
  (`RecentPaths.CrowdedTraceDrifts`).
- Unregistering a manifest undoes registering it exactly when none of its keys was taken before
  (`Registry.UnregisterRestoresIff`).
- A plugin key belongs to one name, version, type and protocol only, and a lookup under it is safe in every
  reachable registry, exactly when there is no colon in the name, the version, the type or the protocol the
  key keeps (`Registry.UnambiguousIff`, `Registry.TypedLookupIff`). The one exception is a type made of two
  protocol-dropping types, such as `inventory:inventory`, with a protocol after it: that key is unambiguous
  all the same.
- A restore that returned a report and no error is failed exactly when its number of entry errors is not a
  multiple of 2^64 (`RunProtocol.RestoreVerdict`).
- The last streamed state has the error sum of the verdict exactly when no entry error was still on the bus
  at the final reading, which is taken before the bus is drained, and each of its event counters is final
  exactly when no event of that kind was (`RunProtocol.LastStateCurrentIff`). Any split of any trace into
  events read and events missed happens in some complete run (`RunProtocol.LastStateCanLag`).
- A second sync attempts exactly what failed unless one id was selected twice with different outcomes
  (`Sync.SecondRun`).
- A listing whose provider never closes its channel ends with the caller's return exactly when some entry
  did not encode; otherwise it hangs (`Inventory.UnclosedChannel`).
- Locate options flattened back and resolved again, at whatever time, come out the same exactly when no time
  has gone by or no window is relative to the clock (`Locate.ResolveIdempotentIff`); otherwise only those
  windows move, by the time gone by (`Locate.ResolveFixpoint`).

The comments and documentation of the repository agree with its code on everything modelled, with one
nuance: state.go calls the sample buffers rolling windows or ring buffers, while the code thins the whole
run and keeps its first sample; the model follows the code.

## Model

| member | source | states |
|---|---|---|
| TaskConfig.ReadIndexedList | plaklet.go:41-50 | the open loop ends on every config and returns exactly the maximal run of consecutive indices from 0 |
| TaskConfig.MaximalRunUnique | plaklet.go:38-50 | at most one list is such a maximal run, so the reader is fully specified by it |
| TaskConfig.RunFits | plaklet.go:41-50 | n consecutive indices need n entries in the config: the bound behind the loop's termination |
| TaskConfig.IndexKeyInjective | plaklet.go:44 | distinct keys or indices always render to distinct strings, whatever characters the keys hold |
| TaskConfig.IndexKeyText | plaklet.go:44 | an index key is the list key, a dot and the index in decimal, without leading zeros |
| TaskConfig.RoundTrip | plaklet.go:38-50 | flattening then reading gives a list back if and only if no older entry continues it |
| TaskConfig.PutAllRoundTrip | plaklet.go:38-50 | any number of lists flattened into one config are all given back |
| TaskConfig.OtherListUntouched | plaklet.go:38-50 | flattening one list never shows in the reading of another |
| SnapshotIds.ParseSnapshotIds | rm.go:17-32 | all identifiers decoded in order, or the error of the first bad one |
| SnapshotIds.AcceptedIds | rm.go:17-28 | accepted identifiers are exactly those of 64 hex digits, and formatting a MAC yields one that decodes to it |
| SnapshotIds.AcceptedAs | rm.go:17-28 | an identifier is accepted as the MAC whose bytes its pairs of digits spell, the higher digit first, and as no other |
| SnapshotIds.FormattedBytes | listener.go:134-136 | formatting spells each byte by its two digits, in lower case |
| RmPool.StepConserves | rm.go:64-98 | no step loses or duplicates an id among feeder, buffer, workers, collector, report and failures |
| RmPool.StepDecreases | rm.go:64-98 | every step of every goroutine lowers an explicit measure |
| RmPool.NoDeadlock | rm.go:64-103 | with at least one worker, some goroutine can always step until the run has returned |
| RmPool.StuckWithoutWorkers | rm.go:64-93 | with no worker the pool is stuck from the start exactly when there is something to delete |
| RmPool.RunInv | rm.go:64-103 | in every state of every run the full invariant holds, and no run has more steps than the initial measure |
| RmPool.NoSendOnClosed | rm.go:65-97 | once `removed` is closed every worker has exited, so none sends on it |
| RmPool.TakenInOrder | rm.go:62-94 | the queue is first in, first out: workers take the ids in the order named |
| RmPool.FailedAnswers | rm.go:79-83 | the failures of a run are exactly the ids whose deletion was answered by a failure, read off its steps |
| RmPool.RemovedAnswers | rm.go:79-86 | at every moment what is on its way to the report or in it is what deletions were answered with success |
| RmPool.HandedInOrder | rm.go:67-72 | the collector appends ids in the order they are handed to it |
| RmPool.EveryRunAccounts | rm.go:64-103 | every run that cannot go on has returned; its report names the ids whose deletions succeeded, counts those that failed, splits the input between them, and still equals what the collector holds |
| RmPool.EveryOutcomeHappens | rm.go:64-103 | for every choice of which deletions fail some run reports exactly that, so the accounting is not of impossible runs |
| Rm.RunPool | rm.go:64-103 | under an arbitrary scheduler and arbitrary deletion outcomes the pool ends, and reports what the deletions of its run answered |
| Rm.Run | rm.go:37-104 | refused exactly for a missing source, a first bad identifier or an unavailable store; naming nothing succeeds without the store; otherwise the report is that of a run of the pool on every identifier |
| Rm.Concurrency | plaklet.go:88-91 | the concurrency handed to the pool is never 0 and is the flag when that is positive |
| Decimation.OnlineIsOffline | resources.go:53-73 | after n inputs the series holds inputs 0, s, 2s, ... for the least power of two s that fits the cap, and was thinned log2(s) times, for every even cap |
| Decimation.OfflineUnique | resources.go:53-73 | that offline description has a single answer |
| Decimation.Bounds | resources.go:53-73 | length between half the cap and the cap once thinned, first input kept, fewer than stride inputs after the last kept one |
| Decimation.OverflowKeepsGrid | resources.go:60-72 | overflowing an even cap keeps the newest sample, on the doubled grid |
| Decimation.OddCapLosesGrid | resources.go:60-72 | on any odd cap from 3 the grid is lost three inputs past the cap |
| Decimation.ClosedFormIffEven | resources.go:53-73 | of all caps from 2 up, the series stays on its grid on every input exactly for the even ones |
| Samplers.Decimated | resources.go:66-73 | the thinning loop keeps exactly the even positions |
| Samplers.ResourceSampler.Record | resources.go:53-64 | one recorded input is one step of the value-level series, at cap 120 |
| Samplers.ResourceSampler.Sample | resources.go:32-51 | a failed process read admits nothing, a failed memory read counts as 0 bytes |
| Samplers.NetworkSampler.Sample | network.go:39-74 | every call with a configured scope is one step of the series over the operation's read and write throughput |
| Samplers.LatencySampler.Sample | latency.go:28-64 | only calls with observations in a configured scope are admitted, each one step of the series |
| Samplers.StateSampler.Emit | plaklet.go:188-200 | each emission carries the state and the three series thinned from all inputs admitted so far, as the run protocol sends it |
| Samplers.SeriesShape | resources.go:53-73 | at cap 120: on the grid, 1 to 120 samples, at least 61 once thinned, 60 strides fit the run |
| Samplers.NetworkReadings | network.go:24-57 | for each operation, the scopes measured, and that a reading is the wall-clock read rate and the active write rate in the last IO reports naming them, 0 without one |
| Samplers.LatencyReadings | latency.go:17-52 | backups and syncs sample the storage's write latency in its last IO report, if that counts any; no other operation does |
| Samplers.ResourceReadings | resources.go:32-51 | a resource reading is the process's own, memory 0 when unreadable |
| Samplers.ResourceAndNetworkAligned | plaklet.go:188-196 | when every process read succeeds and the operation has a network scope, samples at equal positions come from the same emission |
| Samplers.FailedReadMisaligns | plaklet.go:188-196 | with a failed first read the two series start at different emissions, whatever follows |
| Samplers.KeptSamples | resources.go:53-73 | the i-th stored sample is what the i-th kept emission gave, so comparing kept emissions compares the series |
| Samplers.FailureDrifts | plaklet.go:188-196 | after any failed read some number of good ones leaves 100 resource samples beside 101 network samples |
| Samplers.AlignedIff | plaklet.go:188-196 | the two series stay aligned through all continuations whose reads succeed if and only if every read so far succeeded and the operation has a network scope |
| RecentPaths.WindowSubsequence | listener.go:312-349 | on every trace the window is ordered, capped and a subsequence of the uncapped recency list |
| RecentPaths.WindowMembers | listener.go:312-349 | on every trace each entry shown is one of the uncapped list |
| RecentPaths.SettleExactIff | listener.go:326-349 | a settle keeps an exact window exact if and only if what it removes and what is hidden allow it |
| RecentPaths.StartExact | listener.go:312-324 | a start always keeps an exact window exact |
| RecentPaths.AlwaysExactIff | listener.go:312-349 | on every trace the window is exact after each operation if and only if every settle finds what it needs in view |
| RecentPaths.CrowdedWindowDrifts | listener.go:326-349 | settling the newest of more paths in progress than the window holds makes an exact window inexact |
| RecentPaths.CrowdedTraceDrifts | listener.go:312-349 | starting any cap + 1 or more distinct paths and settling the newest is a trace that ends with an inexact window |
| RecentPaths.VisibleExact | listener.go:312-349 | along any trace whose settles all find what they need in view the window is the top of the uncapped list |
| RecentPaths.UncappedIs | listener.go:312-342 | the uncapped list is the starts not settled since, then the last settle of every path, each newest first |
| RecentPaths.DisciplinedExact | listener.go:312-349 | with fresh paths, at most five in flight and settles of in-flight paths only, the window is the first five entries of the uncapped list |
| RecentPaths.WindowTruthful | listener.go:312-349 | on every trace: at most cap entries, in-progress first, one settled entry a path, each in-progress one in flight, each settled one with its path's latest status |
| RecentPaths.NothingInProgress | listener.go:312-349 | if every start was settled later nothing is shown in progress |
| RecentPaths.InFlightMeaning | listener.go:140-155 | in flight means started and not settled since |
| RecentPaths.LastSettleMeaning | listener.go:144-155 | the status shown is that of the latest settle |
| EventFold.EventListener.StartRecentPath | listener.go:312-324 | the partition loop is one capped step of the recency list |
| EventFold.EventListener.SettleRecentPath | listener.go:326-342 | the filter-and-partition loop is one capped step of the recency list |
| EventFold.EventListener.HandleEvent | listener.go:132-266 | handling an event changes the live state as the value-level fold does |
| EventFold.CountersAreTallies | listener.go:140-217 | every counter is the number, or the summed bytes, of the events of its kind, modulo 2^64 |
| EventFold.CountersIgnoreOrder | listener.go:140-217 | counters and sizes are the same for any permutation of a trace |
| EventFold.CountersNeverDecrease | listener.go:140-217 | along the prefixes of a trace of fewer than 2^64 events no event count goes down |
| EventFold.CounterFinalIff | listener.go:140-217 | a prefix of a trace gives an event counter its final value if and only if no event of that kind follows |
| EventFold.IoIsTheLast | listener.go:242-256 | per-scope IO is that of the last event naming the scope, and absent if none does |
| EventFold.RecentIsWindow | listener.go:140-155 | the streamed recent paths are the window of the trace's path events |
| EventLaws.PathOpIs | listener.go:140-155 | a path event starts its path; its ok, error and cached forms settle it, as an error for the error form only |
| EventLaws.LastSettleEvents | listener.go:144-155 | a path was last settled as its last ok, error or cached event says, and never without one |
| EventLaws.InFlightEvents | listener.go:140-155 | a path is in flight when an event starts it and none ends it afterwards |
| EventLaws.RecentEntries | listener.go:140-155 | on every trace at most five paths are shown, in progress first, and each as its own events left it |
| EventLaws.RecentExact | listener.go:312-349 | with the documented discipline the five shown are the first of the open starts and final settles, newest first |
| EventLaws.CounterFields | listener.go:140-217 | the counter of a class is the streamed field of that name |
| EventLaws.SizesAreReported | listener.go:167-191 | sizes are the bytes reported in file infos and xattr sizes, modulo 2^64; other classes have none |
| EventLaws.PhaseIsTheLast | listener.go:228-259 | the phase is the one the last phase event opens, and none after one that closes it or before any |
| EventLaws.SummaryIsTheLast | listener.go:219-226 | the summary is that of the last scan event, its paths being files, directories, symlinks and xattrs together |
| EventLaws.ResultIsTheLast | listener.go:258-265 | result size and errors are those of the last result event |
| EventLaws.TimeIsTheLast | listener.go:262-264 | the duration is that of the last result event that gives one |
| EventLaws.SnapshotIsTheLast | listener.go:134-136 | the snapshot id is that of the last workflow start whose id is not all zeros |
| EventLaws.NamesScope | listener.go:246-249 | an event names a scope when it is an IO report with that text, not empty, under "scope" |
| EventLaws.ScopeIsTheLast | listener.go:242-308 | a scope shows the last report naming it: reads under "r", writes under "w", figure by figure |
| EventLaws.TruncateDrops | listener.go:283 | a byte total given as a float loses its fraction, toward zero |
| EventFold.ErrorSumCounts | plaklet.go:236-237 | the sum the verdict uses is the number of path, file, directory, symlink and xattr error events, modulo 2^64 |
| EventFold.ErrorSumFinalIff | plaklet.go:236-237 | a prefix of a trace gives the verdict's sum if and only if no entry error follows |
| RunProtocol.InvStep | plaklet.go:114-212 | every step of every actor keeps the ordering, fold, sampling and output invariants, streamed series included |
| RunProtocol.TraceIsEmitted | listener.go:55-75 | the trace is the events dispatch emitted, in order, none lost, added or changed |
| RunProtocol.ChatterIsSaid | plaklet.go:122-128 | the log and inventory replies sent are what dispatch said and the watcher logged, in order |
| RunProtocol.DispatchReturned | plaklet.go:152 | report and error are those of dispatch's one return |
| RunProtocol.TicksAreRead | plaklet.go:188-196 | process readings and clocks behind the series are those read, one for each emission |
| RunProtocol.StreamShape | plaklet.go:152-177 | every finished stream is streaming replies and then the ending decided on the fold of every event emitted; nothing can follow |
| RunProtocol.EndingShapes | plaklet.go:162-177 | an ending is one failure, one success, or report then success; never a report with a failure |
| RunProtocol.CrashIff | plaklet.go:236-240 | a run ends without a verdict if and only if a restore returned no error, a report lacking its restore section (restore.go:96 always fills it) and entry errors not 0 modulo 2^64 |
| RunProtocol.RestoreVerdict | plaklet.go:230-241 | a restore with a report and no error is failed exactly when its entry errors are not 0 modulo 2^64, and the failure carries their number, however the run interleaves |
| RunProtocol.LastReply | plaklet.go:162-250 | every finished run of every operation ends with dispatch's error, or the count in its backup or sync report or of its entry errors, or success after its report |
| RunProtocol.RestoreCountWritten | plaklet.go:236-240 | a failed restore leaves its count in the report and changes nothing else there |
| RunProtocol.ReportVerdict | plaklet.go:217-250 | a run of any other operation succeeds exactly when dispatch did and a backup or sync report counts no error |
| RunProtocol.ReportPosition | plaklet.go:171-176 | a report in a finished stream is the one dispatch returned and comes right before the closing success |
| RunProtocol.StreamedStates | plaklet.go:188-212 | the streamed states are folds of ever longer prefixes of the trace, and there is at least one |
| RunProtocol.StreamedSeries | plaklet.go:188-200 | the series sent with the k-th state are thinned from k + 1 readings whose network and latency inputs are those of the k + 1 states streamed so far |
| RunProtocol.StreamedReadings | plaklet.go:188-196 | in a backup the k-th network reading is that of the last IO reports of source and storage among the events folded then |
| RunProtocol.StreamedCountersGrow | plaklet.go:188-200 | no event counter goes down from one streamed state to a later one |
| RunProtocol.FinalRead | plaklet.go:154-212 | the last emission is read at one step after the stop; what it misses of the trace is what was on the bus then |
| RunProtocol.LastStateCurrentIff | plaklet.go:154-164 | the last streamed state has the verdict's error sum if and only if no entry error was on the bus at the final reading, the one that gave the last cut, and a final event counter if and only if no event of that kind was |
| RunProtocol.LastStateCanLag | plaklet.go:154-164 | for every trace, split anywhere, and every report and error that do not crash the run, a complete run streams the fold of the first part only and is judged on the whole |
| RunProtocol.TickAnyTime | plaklet.go:203-211 | from any reachable state whose sampler waits, a tick can be read and emitted |
| RunProtocol.SignalAnyTime | plaklet.go:282-295 | from any reachable state whose watcher waits, a signal can come, logged once |
| RunProtocol.LateErrorUnseen | plaklet.go:154-169 | a restore whose single entry error is read too late streams no error and is failed for one |
| RunProtocol.NoDeadlock | plaklet.go:154-177 | once dispatch has returned, a step other than a tick is possible until the process exits |
| RunProtocol.OnlyTicksLeft | plaklet.go:154-177 | a run that nothing but the ticker could carry on is over |
| RunProtocol.ShutdownBound | plaklet.go:154-177 | the steps after dispatch are bounded by what was pending plus three for each tick |
| Inventory.WireOf | inventory.go:75-97 | the endpoint loop builds the wire form of the entry |
| Inventory.WireInjective | inventory.go:75-97 | the wire form loses nothing: two entries with the same one are equal |
| Inventory.WireRoundTrip | inventory.go:75-97 | reading a wire entry field by field, each under its own name, gives the entry back |
| Inventory.InvStep | inventory.go:45-73 | every step keeps the replies those of a sequential reference on what was delivered |
| Inventory.ReferenceMeaning | inventory.go:53-65 | the reference replies with the images of all entries, or of those before the first that does not encode |
| Inventory.ReturnedResult | inventory.go:68-72 | on return the replies are the reference's and each reads back as the entry listed, an encode error takes precedence, and nil means the provider returned nil and everything encoded |
| Inventory.DeliveredAreOffered | inventory.go:49-72 | entries offered and not given up are delivered, in order and unchanged |
| Inventory.ListReturned | inventory.go:68 | the provider's error is the one its listing returned |
| Inventory.EveryListingHappens | inventory.go:45-73 | whatever a provider that closes its channel lists and returns, some run delivers all of it and answers accordingly |
| Inventory.NothingAfterReturn | inventory.go:51-72 | after the return no step adds a reply or changes the result |
| Inventory.OfferAccepted | inventory.go:53-65 | a provider blocked on a send is let go, by the consumer alone, draining included |
| Inventory.OfferBound | inventory.go:53-65 | no run keeps a provider blocked on a send for more than three steps, draining included |
| Inventory.BusyFalls | inventory.go:53-65 | within at most three steps: each consumer step before the next receive lowers a rank of at most three |
| Inventory.NoDeadlock | inventory.go:45-73 | with a provider that closes its channel a step is possible until the caller has returned, and a blocked send is always taken, never given up, to get there |
| Inventory.CallerReleased | inventory.go:68-72 | once the provider has returned at most five steps can follow, and when no more can the caller has its answer |
| Inventory.ClosedChannel | inventory.go:45-73 | with a provider that closes its channel every run that cannot go on has returned, even if no send is ever given up |
| Inventory.UnclosedChannel | inventory.go:49-72 | with a provider that never closes, a run that cannot go on, other than by giving up a send, has returned if and only if some entry did not encode; otherwise caller and consumer wait for each other |
| InventoryRun.InvStep | plaklet.go:275-276 | every step of the listing and of the run around it keeps both invariants and the streamed inventory replies equal to the listing's |
| InventoryRun.StreamedInventory | inventory.go:24-73 | every finished inventory stream carries the entries of a sequential listing, each reading back as listed, and ends in success if and only if the listing was begun, the provider returned nil and every entry encoded; else in the listing's error |
| InventoryRun.StreamedSoFar | inventory.go:53-65 | at every moment the inventory replies streamed are a prefix of that |
| Locate.LocateOptions.Load | locate.go:27-119 | the ordered field writes leave, in each field, the value of its last writer |
| Locate.ResolvedTimes | locate.go:50-116 | a relative window wins over the absolute time and is that many seconds before now; "before" and "after" bound opposite sides |
| Locate.ResolvedTexts | locate.go:52-68 | each text filter and the grouping is the text under its own key, else the default |
| Locate.ResolvedLists | locate.go:58-103 | each list is the one flattened under its key; labels win over tags, a snapshot id over ids and "latest" over its filter |
| Locate.ResolvedPeriods | locate.go:70-94 | each of the thirteen periods takes keep and cap from its own keys |
| Locate.OnlyDocumentedKeysMatter | locate.go:27-119 | two configs that agree on the documented keys resolve to the same options |
| Locate.ResolveFixpoint | locate.go:27-119 | flattening the resolved filters back into any config and resolving again, at any other time, gives the same options with the relative windows moved by the time gone by |
| Locate.ResolveIdempotentIff | locate.go:90-116 | exactly the same options come back if and only if no time has gone by or neither window is relative |
| Registry.MakePluginKey | plugin/plugin.go:36-53 | the builder writes the four parts, dropping the protocol of inventories and secret providers |
| Registry.KeyCells | plugin/plugin.go:36-53 | without colons in its parts a key reads name, version, type and kept protocol, in this order |
| Registry.SharedKeyIff | plugin/plugin.go:45-52 | two protocols of a plugin share a key if and only if they are equal or the type is inventory or secret_provider |
| Registry.KeyInjective | plugin/plugin.go:36-57 | for names, versions and types without colons equal keys mean equal parts, up to the dropped protocol |
| Registry.ColonMakesKeysClash | plugin/plugin.go:36-57 | all other parts share their key with different ones, wherever the colon is: name, version, type or kept protocol |
| Registry.UnambiguousIff | plugin/plugin.go:36-57 | a key belongs to one name, version, type and kept protocol if and only if none holds a colon, bar a type of two protocol-dropping types before a protocol |
| Registry.Registry.RegisterPlugins | plugin/registry.go:55-78 | the nested loops add the manifest's plugins in order, skipping taken keys |
| Registry.ManifestOrder | plugin/registry.go:59-75 | those plugins are one for each protocol of each connector, in order, each made of its connector's type, flags, executable and arguments |
| Registry.Registry.UnregisterPlugins | plugin/registry.go:80-93 | the nested loops remove exactly the manifest's keys |
| Registry.Registry.GetPlugin | plugin/registry.go:43-53 | a lookup returns what is stored under the joined key, or the error |
| Registry.FirstRegistrationWins | plugin/registry.go:95-104 | after registering, a key holds what it held before, else the first plugin of that key in manifest order |
| Registry.FirstPluginMeaning | plugin/registry.go:59-75 | first means no earlier plugin of the manifest has the key |
| Registry.RegisterIdempotent | plugin/registry.go:55-78 | registering twice is registering once |
| Registry.UnregisterRestoresIff | plugin/registry.go:80-114 | unregistering right after registering restores the registry if and only if none of the manifest's keys was present |
| Registry.InventoryProtocolsCollapse | plugin/plugin.go:45-50 | all protocols of an inventory connector share one key |
| Registry.AlwaysWellKeyed | plugin/registry.go:95-114 | in every reachable registry each plugin is stored under its own key |
| Registry.TypedLookup | plugin/registry.go:43-53 | in every registry reached without colons a lookup returns a plugin of exactly the requested name, version and type |
| Registry.TypedLookupIff | plugin/registry.go:43-53 | in every reachable registry, whatever was registered, a lookup answers with a plugin of exactly its parts if and only if those parts are unambiguous |
| Sync.Target.Synchronize | sync.go:44-76 | the loop attempts the selected ids not listed at the start, in order, reports each outcome, and the target grows by exactly the copies |
| Sync.Accounting | sync.go:61-75 | skipped, failed and copied ids add up to the selection, and the logical size is that of the copies |
| Sync.ReportOfOutcomes | sync.go:65-72 | the report lists the successful attempts in order with their own ids and sizes, adds those sizes up and counts the failures, modulo 2^64 |
| Sync.SecondRun | sync.go:44-73 | a second run attempts exactly the ids that failed, in order, if and only if no repeated id had mixed outcomes |
| Sync.SecondRunOfDistinct | sync.go:44-73 | on a selection without repetitions it always does |

## Left out

- The kloset side of backup, restore, create, check, test, maintenance and prune: their logic is calls into kloset, which is not part of this model; dispatch is any sequence of emissions and replies followed by any report or error.
- Process spawning, gRPC connections, package loading, flags, cache setup and JSON decoding of the payload.
- JSON encoding of states and reports is taken to succeed; encoding of inventory entries may fail on any entry.
- The event bus is an unbounded FIFO queue with close, and nothing is emitted after dispatch has returned.
- Event types are an enumeration instead of strings, and the status of a recent path is one instead of the strings "in-progress", "ok" and "error".
- Floats are exact reals, so rounding and the precision of large integers passing through a float are not captured; times are integers.
- Clocks, process readings, time and integer parsing are arbitrary inputs; ParseBool is written out.
- The log lines of the listener's handleEvent, the registry and the signal watcher are left out, except that the watcher sends one log reply, its text shortened.
- The processed counters and State.Equal: field-by-field reads of the state.
- Samplers.StateSampler.Emit: the number of CPUs sent with each state is a constant of the machine and left out.
- RunProtocol.ShutdownBound: a ticker that fires for ever against an already closed stop channel is not excluded, because Go's select may keep choosing it; the bound counts such ticks.
- Samplers.ResourceSampler.Record: strides and ticks are unbounded integers; they stay below the number of inputs.
- Inventory.ClosedChannel: a provider that lists for ever has only runs that go on; that it ends its listing is its own affair.
- InventoryRun.StreamedInventory: the wording of errors is an arbitrary function, and checking the source and starting the plugin is one yes-or-no step.
- Rm.Run: opening the store and the repository is one yes-or-no input.
- Registry.Registry.RegisterPlugins: joining the package directory and the executable is an arbitrary function; the mutex is not modelled, each method being one critical section.
- Sync.Target.Synchronize: listing the target and locating the source ids are inputs and are taken to succeed; timing is left out.

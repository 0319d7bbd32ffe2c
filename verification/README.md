# Sticky speaker discovery, verified

STR's desktop app keeps one picture of the speakers on the network: which there
are, where they answer, whether the STR agent runs on them. Discovery is
unreliable, so the picture is sticky, and it is rewritten in place by one
function, `mergeDiscoveryCacheWith`, that runs seven loops over six maps. This
project models that function and the code around it in Dafny and proves what the
app relies on over whole runs: what is never lost, when a label may flip, what
lifts a pin, how long a memory lasts. Four smaller cores of the app are modelled
in the same way.

`dafny verify dfyconfig.toml` checks everything.

## The discovery core

- `BoxRecords`, `FieldPolicy`, `SameCycleMerge`: the speaker record with its
  forty-three fields and the table of merge rules, applied by a loop over the
  rows. A rule that follows another field is resolved through the table.
- `DiscoveryRules`: what one cycle does at one address, branch by branch.
- `DiscoveryCache`: the app object. Each loop is a `while` loop that takes its
  keys in an arbitrary order, as a Go `range` over a map does, and rewrites the
  five maps and the list.
- `DiscoveryStep`: the same cycle as a function of the orders its loops took.
  `DiscoverySpec`: the cycle key by key, with no order at all.
  `DiscoveryOrder` and `DiscoveryInvariant` prove the two equal.
- `DiscoveryScan`, `DiscoveryRun`: what a cycle leaves at one address and of one
  device's memory, whatever orders its loops take and whatever else it sights.
- `DiscoveryEvents`: the other things the app does to the state (updates,
  uninstalls, manual additions), a full discovery with the collapse of duplicates
  that ends it, runs of all of them, and what they keep.
- `AgentSilence`, `Latch`, `Knowledge`, `StockPin`, `OTAPin`, `Retention`,
  `IdentityMemory`: the theorems over runs. `PinnedCollapse`, `CycleOrder`: exactly
  when the collapse gives up a pinned address, and where the order of a cycle shows.
- `Scenarios`: runs from the empty state that reach what the comments rule out.
- `SightingFold`, `DiscoverySources`: where sightings come from, the fold of a full
  discovery and the re-probe of the known speakers.
  `SortedStrings`, `UnionFind`, `SpeakerGroups`: the collapse of a speaker that
  answers at several addresses. `Text`: the string operations underneath, each tied
  to what it means (`TrimSpaceIs`, `ReportedExactly`, `EqualFoldIs`).

A run is any sequence of events in which a sighting is filed under the address it
names and the loops of a cycle visit the keys there are, in any order
(`DiscoveryEvents.Admissible`); both callers build their map that way. Such a run
may sight one speaker at several addresses, as a full discovery of a speaker on
cable and Wi-Fi does before it collapses them. What that means is stated, not
assumed away:

- every cycle serves whatever it caches under one id (`StepServed`), and a full
  discovery leaves no id at two addresses (`CollapseRestores`);
- the invariant that no id is cached or pinned at two addresses survives a cycle
  alone exactly if it sights no speaker at two (`InvStep`), and a full discovery
  exactly unless its collapse drops an address a live pin names a speaker at and
  keeps another one of that speaker (`InvCollapseExactlyWhen`, on what the collapse
  is handed);
- the orders of the loops do not show where no speaker was sighted at two addresses
  (`StepAnyOrder`, `RunAnyOrder`), and they do where the agent of one answered at two
  (`CycleOrderMatters`, `RunOrderMatters`).

The theorems about one speaker (its silence, its retention, its memory, its pins)
ask of a run at most that this speaker is known and sighted at one address
(`DiscoveryRun.Alone`, `Stays`; its silence less, `AgentSilence.Remains`: it may
change between its two ids) and that the collapse does not drop its record
(`Spared`, `UnlinkedSpared`), whatever happens to the others. The latch is about
every marked record at once; it runs over sound runs (`DiscoveryEvents.Sound`) and
asks that no marked speaker is sighted twice. Time is whole seconds and comes in
with each event.

## The other cores

- `AgentTransport`: port fallback for a request to the agent. What a port does is
  a function handed in; responses are objects whose bodies are closed.
- `KeyCopy`: chosen preset keys copied to a target that carries out a request
  whole or not at all, but may do so and lose the answer. A ghost log of requests
  and answers accounts for every key reported as copied or skipped.
- `SshCache`, `SshCommand`: the connection cache as a state machine whose steps
  are what a goroutine does between two mutex operations, and the execution of one
  command over the native client and its fallback chain.
- `AttrMask`: masking log attributes, over the matches of a key pattern.

## Where the code and its comments differ

The model follows the code.

- The retention times run from the first missed cycle; the comment on
  `discoveryStickyTTL` speaks of the last genuine sighting.
- `strKnownTTL` is meant to run from the last STR sighting. The record loop also
  sees boxes the cycle only re-added, so a missed STR box renews its memory:
  exactly while it is still listed as STR, or while a pin that names it is held
  (`RenewsExactlyWhen`). A speaker that only misses is remembered until a day after
  the last cycle within a day of its first miss (`MemoryWhileMissing`).
- "The cached record itself stays clean" holds of the miss loop, and two later loops
  undo it. The reconcile loop caches the served copy of a missed stock record whose
  device the memory holds: unreachable, greyed if the miss was past its grace, and
  with its miss streak gone, so that its day of retention starts over
  (`MissedStaysCleanExactlyUnless`; reachable with no pin at all,
  `RelabelCachesMiss`, `RelabelCachesOffline`). The pin loop caches the greyed mark of
  a miss it bridges, and the pending mark of a memory it starts from
  (`PinCachesMarksExactlyWhen`; reachable, `PinCachesOffline`, `PinCachesPending`),
  and later misses serve them when the pin is gone (`MarksOutliveThePin`).
- The collapse is meant to leave one record per speaker. Where it drops the address
  of a live update pin, the pin stays, and a cycle that misses the speaker caches a
  second record of it there (`PinSplitsSpeaker`, `PinCachesPending`).
- The post-uninstall pin takes its host for the speaker STR was removed from. Another
  remembered STR speaker that takes the address is served as stock too, exactly until
  its agent answers or comes there; its memory stays (`PinHidesSTRExactlyUnless`), and
  a run gets there (`PinHidesAnother`).
- `mergeSameKind` says the order of its arguments does not matter; for a live
  probe that reports nothing for a field it does (`SameInEitherOrder`,
  `EmptyVersionDependsOnOrder`).
- "STR not running" is meant as a latch. A speaker that reports a second id, with
  that id still remembered as STR, breaks it (`LatchHoldsExactlyWhen`), and a run
  gets there (`LatchBreaks`).
- An old address is meant to hand its knowledge over to the new one. When another
  speaker takes the old address in the same cycle it does not (`SwapForgets`).
- A degraded record is said to keep none of the agent-only warning flags; the
  recent key refusals stay (`DegradedRecord` names what it rewrites).
- A complaint about an option is taken to precede any connection. It is looked for
  in the whole output, the command's own included (`ExecutedAgainExactlyWhen`).
- A slot that `forgetHost` drops can still hand out a transport that was closed in
  the meantime (`OrphanHandsOutClosed`): exactly a slot the cache no longer lists
  can (`HandedClosedExactlyWhen`).

## Model

| member | source | states |
|---|---|---|
| DiscoveryCache.App.MergeDiscoveryCacheWith | desktop-app/discovery_cache.go:95-458 | one cycle rewrites the five maps and the list in place; its result is the composition of the seven loops for the orders in which it happened to visit the keys |
| DiscoveryCache.App.RefreshSighted | desktop-app/discovery_cache.go:116-173 | every sighting is merged with the record of the same speaker, restarts its entry, and a completed silence forgets the device |
| DiscoveryCache.App.SightedEntry | desktop-app/discovery_cache.go:117-170 | the body at one address: another speaker inherits nothing, a presence-only STR sighting extends the streak, the third one over two minutes degrades |
| DiscoveryCache.App.FreshDevices | desktop-app/discovery_cache.go:180-185 | the address each sighted device id was found at, the last visited one where there are two |
| DiscoveryCache.App.ReaddMissed | desktop-app/discovery_cache.go:188-249 | a missed entry is re-served, greyed or dropped by the age of its first miss; a speaker found elsewhere hands its record over and loses the old address |
| DiscoveryCache.App.HoldOTAPins | desktop-app/discovery_cache.go:254-336 | every pin is held or dropped as its body says, with the cache, the pins and the list changed at pinned hosts alone |
| DiscoveryCache.App.HoldOTAPin | desktop-app/discovery_cache.go:255-335 | the body at one pinned host: dropped exactly if expired, moved, named elsewhere or taken over, else it serves STR, pending and unmarked, from its own record, the memory or a minimal one |
| DiscoveryCache.App.CorrectStockPins | desktop-app/discovery_cache.go:346-379 | every post-uninstall pin is lifted, left or used to correct its host, and nothing else changes |
| DiscoveryCache.App.CorrectStockPin | desktop-app/discovery_cache.go:347-371 | the body at one host: expiry, an update or a verified agent lifts the pin; anything but a stock record is corrected to a plain stock one of the speaker sighted |
| DiscoveryCache.App.RecordKnown | desktop-app/discovery_cache.go:396-403 | every listed STR record that is more than a presence renews the memory of its device |
| DiscoveryCache.App.RelabelKnown | desktop-app/discovery_cache.go:409-451 | a stock record of a remembered device becomes the remembered STR record, the memory keeping its age; an overdue memory goes |
| DiscoveryCache.App.ExpireKnown | desktop-app/discovery_cache.go:453-457 | exactly the memories not renewed for a day go |
| DiscoveryCache.App.NotePostOTA | desktop-app/discovery_cache.go:16-41 | an update pins the host for the speaker cached there and lifts a post-uninstall pin |
| DiscoveryCache.App.ClearPostOTA | desktop-app/discovery_cache.go:47-60 | a failed update drops the pin and its speaker |
| DiscoveryCache.App.MarkHostStock | desktop-app/discovery_cache.go:708-756 | an uninstall makes one plain stock record of all that are filed under the host or name it, forgets their devices and the host's own memories, drops the update pin and pins the host |
| DiscoveryCache.App.TakeRecordsAt | desktop-app/discovery_cache.go:717-729 | every record filed under the host or naming it leaves the cache and its device the memory; the record filed under the host is the one kept |
| DiscoveryCache.App.ForgetSTRDeviceByHost | desktop-app/discovery_cache.go:676-696 | forgetting a host takes every record filed under it or naming it, and every memory of it or of its device |
| DiscoveryCache.App.DedupeByDeviceID | desktop-app/discovery_cache.go:479-504 | the list keeps one record per speaker, and exactly the dropped addresses leave the cache |
| DiscoveryCache.App.MergeAndDedupe | desktop-app/discovery_scan.go:236-243 | a full discovery in place: the cycle, then the collapse, after which no id is left at two addresses of the list or the cache whatever was sighted |
| DiscoveryInvariant.StepAnyOrder | desktop-app/discovery_cache.go:95-458 | with every device id at one address, a cycle equals the per-key specification whatever orders its loops iterate in |
| DiscoveryOrder.ReaddAnyOrder | desktop-app/discovery_cache.go:191-249 | the re-add loop reaches the per-key result in any order, moves included |
| DiscoveryOrder.RecordAnyOrder | desktop-app/discovery_cache.go:396-403 | so does the record loop |
| DiscoveryOrder.RelabelAnyOrder | desktop-app/discovery_cache.go:409-451 | so does the reconcile loop |
| DiscoveryOrder.RecordOrderMatters | desktop-app/discovery_cache.go:396-403 | with one device confirmed at two addresses two orders of the record loop leave two different memories: the hypothesis is needed |
| CycleOrder.CycleOrderMatters | desktop-app/discovery_cache.go:95-458 | so it is for the whole cycle: where the agent of one device answered at two addresses there is an order that ends with it remembered at the one and an order that ends with it remembered at the other, whatever pins and records that move are about |
| Scenarios.RunOrderMatters | desktop-app/discovery_cache.go:386-403 | two first cycles of an empty app that differ in the order of the record loop alone reach two states |
| DiscoveryEvents.RunAnyOrder | desktop-app/discovery_cache.go:95-458 | two runs of cycles, collapses, pins, uninstalls and additions that differ in the orders of their loops alone reach one state, as long as no cycle sights a speaker at two addresses |
| DiscoveryRun.StepServed | desktop-app/discovery_cache.go:95-458 | any cycle, with whatever it sights and in any order, serves everything it caches, under its own address and one device id |
| DiscoveryRun.TwiceServed | desktop-app/discovery_cache.go:188-336 | a cycle serves one device at two addresses only where it was sighted at both |
| DiscoveryRun.InvStep | desktop-app/discovery_cache.go:95-458 | the invariant (records keyed by address, one address per device, pins naming distinct speakers cached nowhere else, memories filed under their own id as STR) survives a cycle exactly if it sights no speaker at two addresses |
| DiscoveryEvents.CollapseRestores | desktop-app/discovery_scan.go:236-243 | a full discovery over any sightings and in any order leaves everything cached served under its id, and no id at two addresses of the list or the cache |
| DiscoveryEvents.UnlinkedSpared | desktop-app/discovery_cache.go:479-494 | a record that shares no device id and no reported address with another one is never dropped as a duplicate |
| PinnedCollapse.InvCollapseExactlyWhen | desktop-app/discovery_scan.go:236-243 | a full discovery keeps the whole invariant exactly unless a live update pin names a speaker that was sighted at the pinned address, and last there, and the collapse drops that address while it keeps another one the speaker was sighted at |
| PinnedCollapse.DropsPinnedExactlyWhen | desktop-app/discovery_scan.go:236-243 | for one pin: whether the finished state has it naming a dropped address, told from what the collapse is handed |
| DiscoveryEvents.InvBaseRun | desktop-app/discovery_cache.go:16-60 | every admissible run, ambiguous sightings and all, keeps records and memories filed as they name themselves and pins that are pins |
| DiscoveryEvents.InvRun | desktop-app/discovery_cache.go:16-60 | every admissible run whose cycles alone sight no speaker twice and whose collapses give up no pinned address keeps the whole invariant |
| DiscoveryEvents.FailedUpdateUndone | desktop-app/discovery_cache.go:16-60 | a failed update leaves nothing of the pin it set, only a post-uninstall pin of the host stays lifted |
| FieldPolicy.MergeByPolicy | desktop-app/discovery_merge.go:304-322 | the loop over the table with its memory of picked sides computes the record that takes each field from the side its rule names |
| FieldPolicy.MergedField | desktop-app/discovery_merge.go:217-300 | each of the forty-three fields of a merge is the one of the side its rule, resolved through followers, names |
| FieldPolicy.CacheIdentity | desktop-app/discovery_merge.go:217-300 | the cache column of the identity fields, with the verified port and its flag moving together and STR sticky |
| FieldPolicy.CacheAgent | desktop-app/discovery_merge.go:231-297 | a version and its row count come from one record |
| FieldPolicy.CacheHealth | desktop-app/discovery_merge.go:256-262 | a verdict and its reason come from one record |
| FieldPolicy.CacheLeavesMarks | desktop-app/discovery_merge.go:245-291 | marks, warnings and events of a cached record are never carried into this cycle |
| FieldPolicy.CacheMergeIdentity | desktop-app/discovery_merge.go:328-349 | a name, a model, an id and a serial number are kept where this cycle has none, also through a degrade |
| FieldPolicy.CacheMergeKind | desktop-app/discovery_merge.go:328-349 | a marked record merges to a marked stock one unless the result is STR on a verified port |
| FieldPolicy.DegradedRecord | desktop-app/discovery_merge.go:367-396 | field by field: the named fields become those of a stock record with the mark, every other field is as it was; degrading twice changes nothing |
| FieldPolicy.DegradeRewritesExactly | desktop-app/discovery_merge.go:367-396 | those named fields are exactly the ones some degrade changes |
| SameCycleMerge.SameInEitherOrder | desktop-app/discovery_merge.go:351-365 | merging a verified and an unverified sighting gives a field in either order exactly when a stated condition on the two values holds, for every field of the table |
| SameCycleMerge.ProbeWinsInEitherOrder | desktop-app/discovery_merge.go:351-365 | port, id, agent group and readings of a live probe that reports them are the result in either order |
| SameCycleMerge.ReasonWithVerdict | desktop-app/discovery_merge.go:150-158 | in both merges a reason, an age or a slot comes from the record its verdict came from |
| SameCycleMerge.EmptyVersionDependsOnOrder | desktop-app/discovery_merge.go:84-100 | a live probe without a version: the order decides, against the comment that it does not matter |
| SameCycleMerge.SameKindNames | desktop-app/discovery_merge.go:217-245 | the same-cycle column of the names, spelled out: a real friendly name beats a generic one and the longer of two real ones wins, a specific model beats none or "SoundTouch", name, second id and serial number are the first reported, the id is the live probe's |
| SameCycleMerge.SameKindAgent | desktop-app/discovery_merge.go:231-297 | of the agent group: the live probe's value where it has one and the other none, the row count from the side of the version |
| SameCycleMerge.SameKindReadings | desktop-app/discovery_merge.go:245-291 | of the health group: the live probe's reading verbatim, reasons beside their verdicts; the marks are the base's |
| SameCycleMerge.SameKindWarnings | desktop-app/discovery_merge.go:262-291 | of the warnings, the rival cloud apart: the live probe's, so that an empty reading clears a stale one |
| SameCycleMerge.SameKindEvents | desktop-app/discovery_merge.go:262-297 | of the events, with age, kind and slot beside their event |
| FieldPolicy.GenericNameIs | desktop-app/discovery_merge.go:401-404 | a name is generic exactly if it is white space throughout or, after it, "Bose SoundTouch " and more |
| SightingFold.UpsertSighting | desktop-app/discovery_scan.go:272-312 | one sighting folded in: one record at its address, STR as soon as any sighting there was, no other address touched |
| SightingFold.FoldSightings | desktop-app/discovery_scan.go:272-312 | the sources of a cycle folded one after the other, in the order they came in |
| SightingFold.FoldedAt | desktop-app/discovery_scan.go:272-312 | folding any list leaves at an address the merge of its STR sightings if there is one, else of its stock ones, in order |
| SightingFold.FoldedKind | desktop-app/discovery_scan.go:289-298 | an address is listed exactly if sighted, and as STR exactly if some sighting was |
| SightingFold.FoldedProbe | desktop-app/discovery_scan.go:299-311 | an STR speaker is listed with the port and every reading of its first live probe |
| SightingFold.FoldedNames | desktop-app/discovery_scan.go:272-312 | an address where some sighting that counts had a real name is listed under a real name of one of them, the longest, and so with a specific model, the first |
| SightingFold.FoldedFirstSaid | desktop-app/discovery_scan.go:272-312 | and with the first name, second id, serial number and rival cloud any of them reported |
| DiscoverySources.FoldedProbed | desktop-app/discovery_scan.go:272-312 | a full discovery hands the cache records under their own addresses, none marked, no stock one on a verified port |
| DiscoverySources.ConfirmedExactlyIfProbed | desktop-app/discovery_scan.go:223-236 | a sighting counts as a confirmation exactly if a live agent probe answered at its address |
| DiscoverySources.ProbeKnownBox | desktop-app/discovery_cache.go:793-838 | a known speaker is asked at its address and, if it counts as STR, at the other addresses it reported, in order, until an agent answers; a nameless answer is filed under the id the app had |
| DiscoverySources.RefreshKnownBoxes | desktop-app/discovery_cache.go:765-857 | in whatever order the probes end: an address is sighted exactly if some known speaker was reached there, with one such outcome, and present only exactly if one was reached there without its agent |
| DiscoverySources.ClassifiedIs | desktop-app/discovery_cache.go:793-935 | the outcome is a confirmation exactly if the agent answered at the address or one the speaker reported, and then that answer, under the known id where it names none; else it is the cached record with the readings of a live probe gone and nothing else changed |
| DiscoverySources.RefreshedProbed | desktop-app/discovery_cache.go:765-857 | a refresh hands the cache sightings filed under their own addresses that the latch allows, present only exactly where no agent answered, and there the cached record of that very address |
| DiscoverySources.AlternativeMoves | desktop-app/discovery_cache.go:804-838 | a speaker silent at its address that answers at another one it reported is cached and served there under the id the app had, and no longer at the old address, whatever pins are on either |
| Text.ReportedExactly | desktop-app/discovery_cache.go:574-582 | the addresses of a report are exactly the non-empty stretches between its commas, without the white space at their ends |
| Text.ReportedInOrder | desktop-app/discovery_cache.go:574-582 | in the order of the report |
| Text.SplitJoins | desktop-app/discovery_cache.go:574-582 | no piece of a list holds a comma, and joined by commas the pieces are the list |
| AgentSilence.DegradesExactlyWhenComplete | desktop-app/discovery_cache.go:139-172 | over any run a tracked STR speaker, sighted under either of its ids, is degraded exactly in the cycle that completes three presence-only sightings over two minutes with no pin entry; a confirmed sighting or a live pin restarts the count, a missed cycle does not |
| AgentSilence.CountedNext | desktop-app/discovery_cache.go:139-172 | one event moves the streak as the event says, whatever the other loops do, also where the record gains an id or changes to its second one |
| AgentSilence.AloneRemains | desktop-app/discovery_cache.go:116-173 | the one speaker of an id, sighted under that id, meets the hypothesis |
| Latch.LatchHoldsExactlyWhen | desktop-app/discovery_merge.go:328-349 | with no pin on a marked record and no marked speaker sighted twice, "marked implies stock and forgotten" survives a cycle exactly when no memory and no moved record of the same id contradicts it |
| Latch.SettledUncontradicted | desktop-app/discovery_cache.go:116-173 | speakers that keep the id they are cached under contradict nothing |
| Scenarios.LatchBreaks | desktop-app/discovery_cache.go:409-451 | a run from the empty state: three silent sightings under one id degrade the speaker and forget that id alone, one under its second id, remembered as STR, ends as an STR record with the mark on |
| Latch.LatchRun | desktop-app/discovery_cache.go:95-458 | along such runs a marked record is stock, on no verified port, and its device is in no memory |
| Latch.OnlyTheAgentLifts | desktop-app/discovery_merge.go:337-348 | an unpinned mark survives a miss, and a sighting exactly unless the agent itself answered on a verified port |
| Latch.MarkStays | desktop-app/discovery_merge.go:337-348 | over a run stock sightings and unverified announcements never take the mark off |
| Knowledge.NeverForgets | desktop-app/discovery_cache.go:116-217 | over any run a real name, a specific model, the ids and the serial number of a listed speaker are never lost, at its address or the one it moved to |
| Knowledge.KnownStep | desktop-app/discovery_cache.go:188-217 | one cycle carries them along, cached and served, through all loops |
| Knowledge.SwapForgets | desktop-app/discovery_cache.go:118-128 | a speaker whose address is taken in the same cycle: its new record knows exactly what the sighting, the record the new address was cached under and the memory that takes it for STR say |
| Knowledge.RemembersExactlyWhen | desktop-app/discovery_cache.go:409-442 | the memory takes such an arrival for STR exactly if the refresh leaves a stock record there, no live pin has a say, and the id is remembered within its day and not degraded by this sighting |
| Knowledge.LeaseSwapLosesNames | desktop-app/discovery_cache.go:118-128 | two speakers that swap leases and are sighted without names lose them, in whatever order |
| StockPin.UninstalledWithinGrace | desktop-app/discovery_cache.go:346-379 | for fifteen minutes after an uninstall every cycle that finds no agent at the host serves whoever answers there as stock, against every unverified STR label, every memory and every record that moves there |
| StockPin.PinnedStep | desktop-app/discovery_cache.go:346-417 | one such cycle, through the pin, the record and the reconcile loop |
| StockPin.ServedSTRExactlyWhen | desktop-app/discovery_cache.go:346-417 | under a live pin a sighted host is served as STR exactly if the agent answered there or a record with one came there |
| StockPin.PinHidesSTRExactlyUnless | desktop-app/discovery_cache.go:346-417 | a remembered STR speaker that answers at the pinned address keeps its id and its memory and is served as stock exactly unless its agent answered or came there |
| Scenarios.PinHidesAnother | desktop-app/discovery_cache.go:346-417 | a run from the empty state to a cycle that serves a remembered STR speaker as stock because STR was removed from another one at that address |
| StockPin.UninstalledStaysStock | desktop-app/discovery_cache.go:346-379 | and once the pin has run out: as long as the host's speaker claims nothing else the app knows, it is served as plain stock with its id in no memory |
| StockPin.StockStep | desktop-app/discovery_cache.go:346-417 | one cycle of that, through the pin, the record and the reconcile loop |
| StockPin.SameSpeakerUnclaimed | desktop-app/discovery_cache.go:346-417 | a sighting of the speaker the app had there meets the theorem's hypothesis on ids |
| StockPin.ForgottenStaysStock | desktop-app/discovery_cache.go:676-696 | the same after the host was forgotten: its record and every memory of its speaker are gone, and over a run the stock speaker found there is served as plain stock |
| StockPin.PinLiftedExactlyWhen | desktop-app/discovery_cache.go:361-367 | a live pin is lifted exactly when an agent answered at the host or a record with one came there, or the missed record of the host is an agent's |
| StockPin.UpdateLiftsPin | desktop-app/discovery_cache.go:346-379 | a host whose update pin is held loses its post-uninstall pin in that cycle |
| StockPin.PinKeepsStreak | desktop-app/discovery_cache.go:346-379 | a miss under a live pin keeps the first miss of the corrected record |
| OTAPin.UpdatedStaysSTR | desktop-app/discovery_cache.go:254-336 | from the start of an update every cycle within four minutes serves the host as STR, pending, unless the collapse takes it for a duplicate, or drops the pin; a speaker found elsewhere is not brought back |
| OTAPin.OTAPinStep | desktop-app/discovery_cache.go:254-336 | the pin is kept exactly while the speaker is still there, the version served is its own or none, and an address moved away from is neither served nor cached |
| OTAPin.NamedElsewhereIs | desktop-app/discovery_cache.go:264-276 | where the pinned speaker was sighted at one address only, it counts as elsewhere exactly if that is another one, whatever the order |
| OTAPin.PinCachesMarksExactlyWhen | desktop-app/discovery_cache.go:293-333 | which marks a held pin caches at an unsighted host, exactly: over a missed record the greyed mark by the age of the miss and the pending mark as cached; from nothing a record if the pin names a speaker, pending if its memory is |
| OTAPin.SightedPinMarksExactlyWhen | desktop-app/discovery_cache.go:287-333 | at a sighted host, with or without a record that moves there, no greyed mark is cached, and the pending one exactly if the sighting carried it and no merge with a record marked "STR not running" took it |
| OTAPin.MarksOutliveThePin | desktop-app/discovery_cache.go:218-248 | a missed cycle after the pin has run out serves those marks as they were cached |
| Scenarios.PinCachesOffline | desktop-app/discovery_cache.go:314-333 | a run from the empty state after which the cached record of a pinned host is a greyed one |
| Scenarios.PinCachesPending | desktop-app/discovery_cache.go:303-333 | a run from the empty state to two records of one speaker, one cached as pending, and the cycle after the pin that serves the mark |
| Scenarios.PinSplitsSpeaker | desktop-app/discovery_cache.go:303-336 | a pin whose speaker is cached at another address caches a second record of it in a cycle that misses both |
| Retention.RetainedForADay | desktop-app/discovery_cache.go:189-249 | a speaker that only misses keeps its entry and record, stamped with the first missed cycle, until a cycle more than a day after that one |
| Retention.ServedWhileMissing | desktop-app/discovery_cache.go:226-248 | and is served all that time, greyed exactly when the streak is older than the grace of its kind |
| Retention.SightingEndsStreak | desktop-app/discovery_cache.go:116-173 | a cycle that sights a speaker, in any way and through all seven loops, leaves it cached with no miss streak and stamped with this cycle |
| Retention.RetainedAfterSighting | desktop-app/discovery_cache.go:116-249 | whatever streak the entry had before a sighting, misses after it keep the speaker until a cycle more than a day after the first of them |
| Retention.ServedAfterSighting | desktop-app/discovery_cache.go:139-248 | and serve it, greyed by the age of that new streak |
| Retention.RefreshedEntryIs | desktop-app/discovery_cache.go:117-170 | every entry a sighting writes, field by field: no first miss, no marks of a miss, the silence counted on, started or, at three sightings over two minutes, ended by the degrade |
| DiscoveryRules.DifferentDevicesIs | desktop-app/discovery_cache.go:66-71 | two records are different speakers exactly if both have an id and no id of the one is, but for case, an id of the other |
| DiscoveryRun.MemoryStep | desktop-app/discovery_cache.go:386-457 | a memory is renewed exactly by a confirmed STR record, else keeps its age and goes exactly after a day or at the degrade, in any order |
| IdentityMemory.UnconfirmedMemory | desktop-app/discovery_cache.go:386-457 | over a run of presence-only sightings the age never advances and the memory is gone for good at the first of: a day, the degrade, an uninstall |
| IdentityMemory.PresenceRenewsNothing | desktop-app/discovery_cache.go:396-399 | a device sighted on its stock port alone is not renewed, whatever label its record carries |
| IdentityMemory.RelabelRestores | desktop-app/discovery_cache.go:426-442 | a relabelled stock sighting is the remembered speaker at the address it answered on: the memory's version and agent port, this cycle's address, id and marks |
| IdentityMemory.MissedStaysCleanExactlyUnless | desktop-app/discovery_cache.go:409-451 | the cached record of a missed speaker with no pin on it stays as it was, its miss streak running, exactly unless it is a stock one whose device the memory holds in this cycle; then the served copy is cached: STR, unreachable, greyed if the miss was past its grace, with no streak |
| Scenarios.RelabelCachesMiss | desktop-app/discovery_cache.go:427-440 | a run from the empty state, with no pin, after which a missed record is cached as unreachable |
| Scenarios.RelabelCachesOffline | desktop-app/discovery_cache.go:427-440 | another after which it is cached as greyed, with its miss streak gone |
| IdentityMemory.RenewsExactlyWhen | desktop-app/discovery_cache.go:396-403 | a device sighted nowhere is renewed exactly by a missed record that stays listed as STR, through either pin, or by a held pin that names it at an address with nothing left |
| IdentityMemory.MissRenewsExactlyWhen | desktop-app/discovery_cache.go:396-403 | with no pin involved: exactly while some cached STR record of it is still within its day |
| IdentityMemory.SightingRenewsExactlyWhen | desktop-app/discovery_cache.go:396-403 | a sighting of the one speaker there renews it exactly if it is more than a presence and the sighting or the record counts as STR |
| IdentityMemory.MemoryWhileMissing | desktop-app/discovery_cache.go:386-457 | over a run of misses the memory is as old as the last cycle within a day of the first miss, and goes in the first cycle a day after that one |
| SpeakerGroups.SameSpeakerGroups | desktop-app/discovery_cache.go:512-571 | the groups are exactly the connected components of two keys or more under "same device id, or one report names the other's address", each sorted, in order |
| SpeakerGroups.GroupsUnique | desktop-app/discovery_cache.go:564-570 | there is one such list: no map order shows in it |
| SpeakerGroups.PartitionIs | desktop-app/discovery_cache.go:520-561 | two keys are in one class of the finished forest exactly if a chain of links connects them |
| UnionFind.Forest.Find | desktop-app/discovery_cache.go:520-527 | the walk ends, flattens its path, and changes no class |
| UnionFind.Forest.Union | desktop-app/discovery_cache.go:529-534 | exactly the two classes become one |
| SpeakerGroups.PickLiveBoxKey | desktop-app/discovery_cache.go:617-640 | the survivor beats every other address of its group |
| SpeakerGroups.ScoreIsOrder | desktop-app/discovery_cache.go:625-637 | the 4/2/1 score orders addresses as reachable, then wired, then STR |
| SpeakerGroups.HostIsWired | desktop-app/discovery_cache.go:588-601 | whether any record of the group names the address as the cable |
| SpeakerGroups.WiredExactly | desktop-app/discovery_cache.go:588-601 | what is computed is exactly whether some record of the group reports the host of that key, or the key where it names none, as a cable address |
| SpeakerGroups.LinkedExactly | desktop-app/discovery_cache.go:512-561 | what links two addresses: one device id, or one of the two is named in the report of the other |
| SpeakerGroups.WinnerMeans | desktop-app/discovery_cache.go:617-640 | the survivor answers if any address of its group does; among those that do alike it is on the cable if any is, then STR, then the first by name |
| SpeakerGroups.CollapsedApart | desktop-app/discovery_cache.go:460-504 | after the collapse no two listed records share a device id or name each other's address |
| SpeakerGroups.CollapsedUnreported | desktop-app/discovery_cache.go:460-504 | no survivor is named in the report of another one, at whatever place of the list |
| SpeakerGroups.CollapsedKeepsOne | desktop-app/discovery_cache.go:479-494 | every speaker keeps one record, unchanged |
| SpeakerGroups.UnreachableLoses | desktop-app/discovery_cache.go:617-640 | an address that does not answer is never kept over one of its speaker that does |
| AgentTransport.Transport.BoxDo | desktop-app/app_transport.go:217-304 | one call hands back the answer or error of the stated port, tried ports in order, left the stated port cached, closed every response it opened but the returned one, and let no Bose port into the cache |
| AgentTransport.DeliveredOnce | desktop-app/app_transport.go:278-287 | any request but GET, HEAD and OPTIONS reaches at most one port that is no recognised stranger |
| AgentTransport.TakenStands | desktop-app/app_transport.go:255-304 | and where a port took it and then failed, no further port is tried, that error is returned and that port cached |
| AgentTransport.ReadIsRepeated | desktop-app/app_transport.go:309-315 | a GET, HEAD or OPTIONS that met a port not ready goes to the next one |
| AgentTransport.PassedExactly | desktop-app/app_transport.go:96-120 | a port is passed over exactly if it answers an agent path with 404 or an empty 4xx, or was not ready and took no request that must not be repeated |
| AgentTransport.HealsTo | desktop-app/app_transport.go:230-304 | if the agent answers on one candidate and the earlier ones pass, the call returns that answer and caches that port |
| AgentTransport.CachedExactlyWhen | desktop-app/app_transport.go:255-304 | which port is cached after a call, exactly |
| AgentTransport.NextCallStartsThere | desktop-app/app_transport.go:142-174 | the next call to the host tries that port first |
| AgentTransport.DedupInPlace | desktop-app/app_transport.go:165-173 | the in-place squeeze keeps each port where it first occurs |
| AgentTransport.CandidatesAre | desktop-app/app_transport.go:142-174 | the list outright: the cached port first, then the caller's (17008 for none and the Bose ports), then the other agent port, none twice |
| KeyCopy.PutChosenKeys | desktop-app/app_presets_keycopy.go:142-188 | the log of requests and answers is that of a trace: first the whole set, then each time the last set without the one key its refusal was about; key by key exactly after a missing endpoint or a refusal about no key; copied is the set last accepted, each skip its refusal; the input stays and nothing else is written unless an answer was lost |
| KeyCopy.SkippedWasRefused | desktop-app/app_presets_keycopy.go:142-188 | every key reported as skipped was asked for and refused: in its round with that slot, alone, or with all that were left |
| KeyCopy.CopiedWasTaken | desktop-app/app_presets_keycopy.go:142-188 | every key reported as copied was in the set the target accepted, or accepted alone |
| KeyCopy.OneKeyLeftOut | desktop-app/app_presets_keycopy.go:142-188 | a target that refuses exactly the sets with one key gets all the others |
| KeyCopy.AboutWhich | desktop-app/app_presets_keycopy.go:194-215 | a refusal is about one key at most: the first on the slot it names, the only one asked for, else the only one of its name |
| KeyCopy.PutKeysPerSlot | desktop-app/app_presets_keycopy.go:220-240 | key by key, every key gets its own answer |
| KeyCopy.ConflictIndex | desktop-app/app_presets_keycopy.go:194-215 | the key a refusal is about, exactly: the named slot, the only key, or the only one of that name; none otherwise |
| KeyCopy.ChosenKeys | desktop-app/app_presets_keycopy.go:97-114 | the loop over the named presets keeps the chosen ones the target has room for and reports the others |
| KeyCopy.ChosenPartition | desktop-app/app_presets_keycopy.go:97-114 | the chosen keys that go across and those reported as not kept are exactly the named presets on chosen slots, split at the target's last slot |
| KeyCopy.CopiedIsSource | desktop-app/app_presets_keycopy.go:142-188 | with the source's keys on distinct slots a copied slot holds the source's preset |
| KeyCopy.Target.PutBulk | desktop-app/app_presets.go:549-574 | a bulk request leaves the target as it was or with the whole set written, and logs what was sent and answered |
| KeyCopy.BulkResultIs | desktop-app/app_presets.go:549-574 | accepted exactly below 400, no endpoint exactly at 404 and 405, a conflict exactly at a 409 that names one |
| SshCache.NoClosedTransportListed | desktop-app/boxssh.go:537-631 | under every interleaving a transport sits in at most one slot, and the slot listed for a host holds no transport the cache closed |
| SshCache.RememberedReuseIsOpen | desktop-app/boxssh.go:537-631 | where no uninstall forgets the host, every command for it that reuses a transport is handed an open one |
| SshCache.HandedClosedExactlyWhen | desktop-app/boxssh.go:552-631 | a command holding a slot with an open transport can be handed it closed, with no further uninstall of the host, exactly if the cache no longer lists the slot |
| SshCache.OrphanHandsOutClosed | desktop-app/boxssh.go:616-631 | a command that looked its slot up before an uninstall dropped it can be handed a closed transport |
| SshCache.EvictedOnlyBy | desktop-app/boxssh.go:581-593 | a transport leaves its slot only by its own failure, a reboot or an uninstall: a stale failure evicts nothing newer |
| SshCache.OneDial | desktop-app/boxssh.go:552-573 | while one command dials, no other step touches the slot |
| SshCache.OperationsEnd | desktop-app/boxssh.go:552-631 | in any interleaving a goroutine takes at most three steps of its own for each operation it begins, and nobody else moves it on |
| SshCache.RetryIsFresh | desktop-app/boxssh.go:581-593 | a command that has dropped a transport it doubted is never handed that one again, whatever the others do in between |
| SshCache.HostIsForgotten | desktop-app/boxssh.go:599-631 | a reboot or an uninstall empties the host's slot, and the transport that was in it is never handed out from there again, whatever the others do in between and after |
| SshCommand.FlagCache.TrySSHFlagSets | desktop-app/boxssh.go:250-264 | the chain starts at the accepted set, stops at the first output that is no complaint, and keeps the first accepted set |
| SshCommand.NativeSSHRun | desktop-app/boxssh.go:677-700 | the native client executes the command exactly once or not at all, and drops every connection it has reason to doubt |
| SshCommand.BoxSSHOutput | desktop-app/boxssh.go:266-278 | the whole call executes the command at most once if a complaint is never the command's own output |
| SshCommand.ExecutedAgainExactlyWhen | desktop-app/boxssh.go:744-750 | with a client that knows every flag the command is executed again exactly if its own first output contains the complaint and a set is left |
| SshCommand.BadOptionIs | desktop-app/boxssh.go:748-750 | an output is a complaint exactly if "bad configuration option" stands in it somewhere, in whatever case |
| SshCommand.ExecutionsExactly | desktop-app/boxssh.go:250-264 | with such a client the command is executed exactly once by each set up to the first whose output lacks the complaint |
| SshCommand.EchoExecutesThrice | desktop-app/boxssh.go:103-137 | a command that prints the complaint is executed by all three sets |
| AttrMask.MaskAttrValues | anonymise/anonymise.go:447-481 | the output is the text with each masked value replaced and nothing else changed |
| AttrMask.NothingLost | anonymise/anonymise.go:447-481 | with a mask that changes nothing the text is unchanged |
| AttrMask.MaskedExactlyWhen | anonymise/anonymise.go:457-461 | a key is masked exactly if the value masked before it ends before it |
| AttrMask.MaskedOrInside | anonymise/anonymise.go:447-481 | no match is overlooked: each is masked or stands inside the masked value of an earlier one, with no quote, line end or other attribute in between |
| AttrMask.NeighbourIsMasked | anonymise/anonymise.go:429-446 | two attributes side by side are both masked |
| AttrMask.ValueIsWhole | anonymise/anonymise.go:470-475 | nothing of a value is left unmasked but the backslashes of its escaped closing quote |
| AttrMask.MaskingTwice | anonymise/anonymise.go:651-677 | a masked account stays that token through any number of passes |
| AttrMask.MaskedExactlyUnless | anonymise/anonymise.go:661-677 | a value is hashed, in lower case and without white space at its ends, exactly unless it is empty or a placeholder; values that differ in nothing else get one token |
| AttrMask.NextAttributeIs | anonymise/anonymise.go:425-427 | a value ends where blanks, a name of letters, digits and underscores that begins with a letter, and a colon or an equals sign follow |

## Left out

- Probes, mDNS, SSDP, HTTP, SSH, TCP and files: what they yield is an input.
- The fan-out and the time budgets of `DiscoverBoxes` and `RefreshKnownBoxes`: their probes come one after the other, in any order, and one cut off by the clock is one without an answer.
- The enrichment of a sighting from the stock port, which fills an empty model or serial number.
- DiscoverySources.RefreshKnownBoxes: an address answers every probe of one refresh alike.
- A cycle that overlaps another one, so that it hands over records read before the other's changes; the lock makes each cycle atomic.
- `confirmLateOTA`, the persisted list of known speakers, sorting and serving the list, and the silent mark of the served copy.
- Logging and the translated messages built from an error.
- Kind is one of two values: the empty kind of a zero record never leaves the loop that makes it. A nil map is an empty one.
- Strings are sequences of bytes; case folding and white space are those of ASCII.
- The forty-three flat fields stand in six groups, so that a merge is proved group by group; reflection is field access by name.
- One loop of `mergeDiscoveryCacheWith` is one method, and its body at one key a static method where it is long.
- Whether an address answers when duplicates are collapsed is a set handed in, probed once.
- IdentityMemory.UnconfirmedMemory: the events that forget the device are those of this model, an uninstall, a forgetting, the degrade and the expiry.
- Latch.LatchRun: a held update pin clears the mark and is not counted as a contradiction, so the exact condition is stated for unpinned records.
- Latch.LatchHoldsExactlyWhen: a marked speaker sighted at two addresses in one cycle is left out; which of its records the memory then follows depends on the order of the loops.
- Knowledge.NeverForgets: follows a record as long as the collapse of duplicates does not drop it for another record of the speaker; the survivor is unchanged and may know less.
- DiscoveryEvents.CollapseRestores: says what one full discovery leaves, not that the next cycle's sightings put no speaker at two addresses.
- OTAPin.OTAPinStep: whether another speaker took the pinned address is read off the record that stands there after the first two loops, with the second id a merge may have given it.
- SshCommand.NativeSSHRun: the two connections are handed in. That they come from the cache's slots and the drops go there is the state machine of SshCache, which shows that the second is never the first (RetryIsFresh).
- AgentTransport.Transport.BoxDo: the per-call timeout and the wording of the error are not modelled; the error names the ports.
- KeyCopy.PutChosenKeys: what a preset plays is one opaque value, and the target's own rule for refusing a set is not modelled, so its answers are arbitrary.
- SshCache.NoClosedTransportListed: a caller drops only a transport it got for that host, as the one caller does; the dial itself and the slow-handshake warning are not modelled.
- SshCommand.FlagCache.TrySSHFlagSets: the flag sets are numbers; their contents and the upload variant of the call are not modelled.
- AttrMask.MaskAttrValues: the key pattern is a list of matches in order and apart, as a search yields them; the boundary pattern is spelled out.
- The remaining scrub passes of the anonymiser.
- Services, playback, zones, settings, installer and firmware wrappers, which would only add easy members.

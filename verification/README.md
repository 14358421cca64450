# Verified model of the gateway's stateful logic

The gateway forwards model requests, bills them and keeps its channels in step with upstreams. This project
models the parts of it whose behaviour spans many calls, and proves what they promise for every input, every
run and every order of events. Money is `real`, database tables are maps or sequences, JSON blobs are records,
and clocks, fetched lists and random draws are parameters. Code that changes state in place is a class or a
loop proved against a function of the old state; the promises are lemmas about that function.

| files | what they model |
|---|---|
| RateLimiter | the sliding-window limiter and its evictor, against the unbounded log of accepted requests |
| MultiKey, Text | the keys of a multi-key channel: one text and three sparse maps, against a dense list of entries |
| ModelNames, UpstreamModels, KeysetSweep, UpstreamSweeps | detecting and applying upstream model changes to a channel and, page by page, to all of them; the notification filter |
| ChannelImport, ChannelFields | importing channels: matching, partial update, insertion |
| BodyStorage, BodyCalls | request-body storages, their counters and their owners, as interleaved steps |
| Tiers, Resolutions, Order | tier intervals, the tier lookups and the order of price lines |
| Alias | alias chains and the lock of the channel test run |
| BillingLog, BillingPhases, BillingCollapse, BillingComponents, BillingRows, BillingSummary | the billing summary, from stored logs to four sheets of rows |
| AgentUsers, AgentTree, AgentMigration, AgentRuns, AgentContacts, AgentInviters, AgentCycles, AgentClosing, AgentRelations, AgentMigrator | moving agents and their invite trees into another database |

`Options`, `Sets` and `Seqs` hold shared definitions.

## Where the code and its promises part

Each of these is proved as an exact condition or shown by a lemma with a concrete input.

- The limiter agrees with the log exactly when every limit is at least 1 and, with an evictor, no window is longer
  than the expiration plus one second (`LimiterRefinesLog`, `EarlyEviction`, `BreakingBreaks`).
- The comment at controller/channel.go:2466 promises to delete automatically disabled keys. When all keys are
  automatically disabled none is deleted and all are enabled (`AllAutoDisabledComeBack`).
- Replacing the key text does not cut recorded times and reasons; they can move to another key (`StaleReasonMoves`).
  All three maps stay inside the key list over every run whose replacements leave room for them and whose keys are not
  blank; a single action keeps them inside exactly when the keys read back reach past every mark that is carried
  along (`ReachableMarksWithin`, `StepKeepsMarks`, `BlankKeyLeavesMark`).
- Applying every pending change leaves something pending when a name holds a comma, or when a name that was withheld
  by an ignore entry is let through once that entry goes (`ReconciliationConverges`, `CommaNeverSettles`,
  `AddedPatternLetsThrough`).
- The sweeps over all channels do not read the model mapping: what they find differs from detection on one channel
  (`SweepAgreesExactly`), and an alias that upstream does not list is taken out, although the comment at
  controller/channel_upstream_update.go:208 says that aliases should stay (`AliasSurvivesExactly`, `SweepDropsAlias`).
- A second import changes a channel that the first one inserted when the item carries an untrimmed or blank route slug
  or an empty group list, although the import's comments rule out overwriting, and when its table no longer refuses an
  item that the first one refused; otherwise it changes nothing (`SecondImportExactly`, `SpacedSlugIsOverwritten`,
  `RefusedItemMayBeAddedLater`).
- A body storage is admitted by the declared length and counted by what was written, so even a creation on its own can
  break the disk cap (`LoneCreationKeepsCap`, `UnderstatedLengthBreaksCap`); creations in flight break it together
  (`DiskUsageBounded`, `BoundIsReached`).
- Printed tier ranges respect the boundary kind, the band lookup always treats a bound as the start of the next tier
  (`BandIsBilledTier`), so under two boundary kinds a band can quote the wrong reference tier (`BandQuotesExactly`,
  `MixedBoundariesMisquote`).
- A charge without priced quantities vanishes from the billing summary under an operating discount of 0 percent
  (`RowKeepsCharge`, `FreeChannelHidesCharge`).
- The costs of a row's quantities do not add up to an inferred total that no quantity carries (`LinesExplainTotal`,
  `UntokenedChargeIsUnexplained`). Where no field of the log is negative, there is no other such row (`PlainLinesExplainTotal`).
- The migration compares contacts trimmed and stores them raw, so untrimmed contacts can repeat
  (`ContactsUniqueExactly`, `UntrimmedPhoneRepeats`); an inviter in the target that does not exist yet can close a
  cycle (`SealedExactly`, `DanglingInviterClosesCycle`); and the preview differs from the real run exactly when a
  newcomer changes how a later user is classified (`PreviewPredicts`, `SharedPhoneMispredicts`).

## Model

| member | source | states |
|---|---|---|
| RateLimiter.InMemoryRateLimiter.Request | common/rate-limit.go:45-70 | the verdict and the stored queue after one request: append while there is room, otherwise replace the oldest entry if it has left the window, otherwise refuse; a refused or unknown key loses nothing |
| RateLimiter.InMemoryRateLimiter.ClearExpiredItems | common/rate-limit.go:28-43 | one pass of the evictor drops exactly the keys that are empty or whose newest entry is older than the expiration, whatever order the map is visited in |
| RateLimiter.RequestAgrees | common/rate-limit.go:45-70 | one request: refused exactly when the full history of accepted requests holds max entries younger than the window, and queue and history stay in step |
| RateLimiter.RunInvariant | common/rate-limit.go:28-70 | in every interleaving of requests and evictions with a clock that never goes back, each queue stays a faithful excerpt of its history |
| RateLimiter.LimiterRefinesLog | common/rate-limit.go:28-70 | the limiter answers every run like the unbounded log exactly when every limit is at least 1 and no window outlasts the eviction by more than a second |
| RateLimiter.NoWindowExceedsMax | common/rate-limit.go:45-70 | for every key with a sound limit, whatever the limits of the others, no interval of the window's length contains more than max accepted requests |
| RateLimiter.KeyInStep | common/rate-limit.go:28-70 | a key with a sound limit stays in step with its log, whatever the limits of the other keys |
| RateLimiter.EarlyEviction | common/rate-limit.go:28-43 | with a longer window the evictor forgets requests that still count |
| RateLimiter.BreakingBreaks | common/rate-limit.go:28-70 | for every key whose limit is unsound there is a run on which limiter and log disagree |
| Text.SplitJoin | model/channel.go:99-121 | splitting a joined list gives the list back when no part holds the separator |
| Text.JoinSplit | model/channel.go:99-121 | joining a split text gives the text back |
| Text.EntriesRoundTrip | model/channel.go:99-121 | a stored list reads back as itself exactly when it is empty or its first and last entries are not blank |
| Text.EntriesOfJoin | model/channel.go:99-121 | any stored list reads back without the blank entries at its ends |
| Text.TrimCutsSpaces | model/channel_sync_key.go:44-46 | trimming cuts off white space at both ends and nothing else, until none is left there |
| Text.SpacesExactly | model/channel_sync_key.go:44-46 | which characters count as white space |
| MultiKey.Channel.Persist | model/channel.go:907-957 | what a write keeps: a blank key text leaves the stored one, the size is recounted, statuses past the end are cut, times and reasons are not |
| MultiKey.Channel.DisableKey | controller/channel.go:2230-2271 | an index in range is marked manually disabled and nothing else changes; an index out of range is refused |
| MultiKey.Channel.EnableKey | controller/channel.go:2273-2313 | an index in range loses its status, time and reason; an index out of range is refused |
| MultiKey.Channel.EnableAllKeys | controller/channel.go:2315-2337 | all three maps are cleared and the number of cleared statuses is reported |
| MultiKey.Channel.DisableAllKeys | controller/channel.go:2339-2384 | every enabled key is marked, and success is reported exactly when there was one |
| MultiKey.Channel.DeleteKey | controller/channel.go:2386-2464 | the re-indexing loop yields the key text and the three maps of the surviving keys, or refuses and changes nothing |
| MultiKey.Channel.DeleteDisabledKeys | controller/channel.go:2466-2533 | the same for all keys that are not automatically disabled, and how many were counted as deleted |
| MultiKey.Channel.AppendKeys | controller/channel.go:1759-1791 | append mode adds exactly the new pasted keys |
| MultiKey.Channel.ReplaceKeys | controller/channel.go:1716-1795 | replace mode stores the pasted text, or keeps the old one when nothing was pasted, and recounts the keys |
| MultiKey.Channel.MarkKey | model/channel.go:1057-1093 | automatic disabling marks one key and reports whether the channel counts as switched off |
| MultiKey.KeepWhere | controller/channel.go:2404-2436 | the loop that both deletions share: surviving keys with their entries at their new indices |
| MultiKey.Dedupe | controller/channel.go:1768-1787 | the loop over pasted lines keeps the first occurrence of each new key |
| MultiKey.NewKeysExactlyTheNew | controller/channel.go:1768-1787 | added keys are trimmed, not blank, distinct and new, and every pasted line is blank, known or among them |
| MultiKey.DeleteKeyAllowed | controller/channel.go:2386-2464 | deletion is refused outside the list and for the last key, and then changes nothing |
| MultiKey.DeleteKeyRefines | controller/channel.go:2386-2464 | deletion is removal of one entry from the dense list, exactly when no blank key ends up at an edge |
| MultiKey.DeleteDisabledRefines | controller/channel.go:2466-2533 | the bulk deletion drops exactly the automatically disabled entries and keeps the rest in order, exactly when something solid remains; with nothing to drop it changes nothing |
| MultiKey.AllAutoDisabledComeBack | controller/channel.go:2466-2533 | when every key is automatically disabled, none is deleted and all are enabled |
| MultiKey.PointwiseRefines | controller/channel.go:2230-2313 | disabling and enabling change one entry of the dense list and no other |
| MultiKey.AllKeysRefines | controller/channel.go:2315-2384 | enabling all resets every entry; disabling all touches exactly the enabled entries |
| MultiKey.AppendRefines | controller/channel.go:1716-1795 | append mode keeps every entry with its state and adds the new keys enabled at the end, exactly when the stored text is more than line breaks or nothing is added, and no time or reason was left behind where the new keys go |
| MultiKey.AppendToNothing | controller/channel.go:1759-1791 | on a channel without keys append mode stores the pasted text, with every key enabled |
| MultiKey.ReplaceKeepsMarks | model/channel.go:907-957 | after a replacement all times and reasons belong to a key exactly when they already fitted the new list |
| MultiKey.StaleReasonMoves | model/channel.go:907-957 | a reason recorded for one key can reappear on another |
| MultiKey.ReachableRowsAreValid | controller/channel.go:2230-2533 | in every reachable row the size is the number of keys and every status index is below it |
| MultiKey.StepKeepsMarks | controller/channel.go:2230-2533 | an action keeps all times and reasons within the list exactly when it keeps room for them: a deletion, when the keys left after blank ones at the ends are lost reach past every mark carried along; a replacement, when the new list does |
| MultiKey.ReachableMarksWithin | controller/channel.go:2230-2533 | over every sequence of actions, appended keys and automatic marks all three maps stay within the list and no key is blank, when none was blank and replacements leave room for the recorded times and reasons |
| MultiKey.UnreplacedIsTidy | controller/channel.go:2230-2533 | that condition holds for every sequence of actions without a replacement on a channel with keys |
| MultiKey.BlankKeyLeavesMark | controller/channel.go:2386-2464 | with a blank stored key a deletion leaves a time past the end of the list |
| MultiKey.AllOffMeansNoneEnabled | model/channel.go:1057-1093 | the count that switches the channel off is reached exactly when no key is enabled |
| MultiKey.MarkRefines | model/channel.go:1057-1093 | automatic disabling hits the first entry with that key, and entry 0 when none has it; automatic enabling the same one, which keeps its time and reason |
| ModelNames.MergeModelNames | controller/channel_upstream_update.go:86-100 | the merge loop over a growing set equals appending the names not yet present |
| ModelNames.NormalizeFixed | controller/channel_upstream_update.go:79-84 | a list of trimmed, distinct, non-blank names is not changed by normalizing |
| ModelNames.ApplySelectedShape | controller/channel_upstream_update.go:124-129 | survivors keep their order, new names follow in theirs, no duplicates, a name selected both ways is added |
| ModelNames.ChangedMeansDifferentSet | controller/channel_upstream_update.go:793-815 | the list of models changes exactly when the set of models does |
| UpstreamModels.Channel.CheckAndPersist | controller/channel_upstream_update.go:360-407 | a check inside the minimum interval changes nothing; otherwise the pending lists, the merged models and the report are those of the detection, and models change only under automatic sync with something to add |
| UpstreamModels.Channel.ApplyUpdates | controller/channel_upstream_update.go:780-828 | after applying a selection the stored models, pending lists and ignore list, and the reported lists, are those whose split `SelectionSplitsPending` describes |
| UpstreamModels.MergeAppends | controller/channel_upstream_update.go:384-393 | no pending name is local, so automatic sync appends the whole pending list |
| UpstreamModels.SelectionSplitsPending | controller/channel_upstream_update.go:793-815 | what is added, ignored and removed is what was selected of the pending names, adding wins over removing, and exactly the rest stays pending in the stored row and in the report; the stored ignore list takes the ignored names and loses the added ones |
| UpstreamModels.SelectionAppliesToModels | controller/channel_upstream_update.go:796-803 | the stored models lose the removed and gain the added names, if none of these holds a comma, and count as changed exactly when the set changes |
| UpstreamModels.FailedFetchKeeps | controller/channel_upstream_update.go:376-383 | when the fetch fails only the time of the check is written |
| UpstreamModels.NothingToDo | controller/channel_upstream_update.go:158-217 | detection finds nothing exactly when every upstream name is local, aliased or withheld and every local name is an alias source or upstream |
| UpstreamModels.BlocksExactly | controller/channel_upstream_update.go:194-206 | a pattern entry holds back what its pattern matches, any other only its own name |
| UpstreamModels.ReconciliationConverges | controller/channel_upstream_update.go:158-217 | after applying everything a second detection finds nothing, exactly when no pending name holds a comma and each is still covered once the ignore list loses the added names |
| UpstreamModels.CommaNeverSettles | controller/channel_upstream_update.go:158-217 | an upstream name with a comma is applied and pending again |
| UpstreamModels.AddedPatternLetsThrough | controller/channel_upstream_update.go:158-217 | adding a name that reads as an ignore pattern lets the name through that the pattern held back |
| UpstreamModels.PlainUpstreamSettles | controller/channel_upstream_update.go:158-217 | convergence holds for every upstream whose names hold no comma and do not begin with the pattern prefix |
| UpstreamModels.AutoSyncConverges | controller/channel_upstream_update.go:360-407 | with automatic sync a second detection finds nothing exactly when no pending name holds a comma |
| UpstreamModels.NotifyState.ShouldSend | controller/channel_upstream_update.go:423-442 | a report without counts is let through and not remembered; a repeat inside the window is held back; anything else is let through and remembered |
| UpstreamModels.SuppressedExactlyForRepeats | controller/channel_upstream_update.go:423-442 | over every history a report is suppressed exactly when the last notification before it had the same two counts less than the window ago |
| UpstreamSweeps.ChannelTable.Sweep | controller/channel_upstream_update.go:540-608 | for every page size the sweep ends, visits every enabled channel of the table exactly once and in id order, processes exactly those that ask for checks, and leaves the table with the operation done once on each of these, although it writes while it pages |
| UpstreamSweeps.ChannelTable.VisitPage | controller/channel_upstream_update.go:854-909 | the channels of one page are processed one by one, in order, on the values that the query read |
| KeysetSweep.EnabledExactly | controller/channel_upstream_update.go:834-845 | the rows a sweep is to visit are exactly the enabled ones |
| KeysetSweep.AfterIsSuffix | controller/channel_upstream_update.go:834-845 | the rows past the last visited id are the enabled rows not yet visited |
| KeysetSweep.PageIsNext | controller/channel_upstream_update.go:834-845 | a page is the next batch of enabled rows, with no gap and no overlap |
| UpstreamSweeps.SweepAgreesExactly | controller/channel_upstream_update.go:834-845 | without the mapping column a sweep finds what detection on the whole channel finds exactly when no upstream name is covered only as an alias target and upstream lists every alias source served |
| UpstreamSweeps.RecentIsPassedOver | controller/channel_upstream_update.go:360-373 | an unforced check inside the interval changes nothing, any other one detects |
| UpstreamSweeps.FleetConverges | controller/channel_upstream_update.go:847-999 | after detecting, applying everything and detecting again over the whole table, each visited channel has nothing pending exactly when it settles without its mapping |
| UpstreamSweeps.AliasSurvivesExactly | controller/channel_upstream_update.go:207-217 | an alias source stays when one channel is detected and applied, and in the sweeps exactly when upstream lists it |
| UpstreamSweeps.SweepDropsAlias | controller/channel_upstream_update.go:834-909 | a channel with one alias, for which detection finds nothing, loses the alias in the sweeps |
| ChannelImport.ChannelStore.ImportChannels | controller/channel_export_import.go:394-463 | the loop turns the table into the one that importing the items one after the other gives, and counts the added, updated and failed ones, with an item whose rules are refused after its channel was written among the failed |
| ChannelImport.KeyedItemStaysHome | controller/channel_export_import.go:593-627 | an item with a sync key changes no channel that has another key, changes no key, and keys stay unique |
| ChannelFields.UpdatedFields | controller/channel_export_import.go:708-884 | field by field and column by column, an updated channel holds what the item brings and keeps what it had otherwise, and every other channel stays |
| ChannelFields.AddedFields | controller/channel_export_import.go:888-1017 | field by field, an inserted channel holds what the item brings and the defaults otherwise |
| ChannelFields.OrdinaryMatch | controller/channel_export_import.go:593-627 | a known key decides; otherwise the first channel of the name, unless both have keys |
| ChannelFields.RoutedMatch | controller/channel_export_import.go:629-648 | a site-builder item that names its upstream goes to the first site-building channel of its name with a matching upstream |
| ChannelFields.UnroutedMatch | controller/channel_export_import.go:629-654 | one that names no upstream goes to the only site-building channel of its name, if there is just one |
| ChannelFields.MatchesExactly | controller/channel_export_import.go:577-591 | base URLs may not differ; routes decide before ids, ids before aliases with numbers |
| ChannelFields.SiteBuilderExactly | controller/channel_export_import.go:504-513 | which items come from a site builder |
| ChannelFields.IdentityNames | controller/channel_export_import.go:562-571 | what identifies the upstream of a channel |
| ChannelFields.SyncKeysExactly | model/channel_sync_key.go:49-60 | a key is 1 to 64 printable characters |
| ChannelFields.SlugsExactly | model/route_slug.go:46-61 | a slug is 2 to 32 letters and digits, but not c and digits |
| ChannelFields.InsertableExactly | model/route_slug.go:144-166 | a new channel is refused exactly when its key or slug is in use or it asks for a slug that is none |
| ChannelFields.TotalsExactly | controller/channel_export_import.go:394-463 | the totals count the items added and updated completely, and all others as failed |
| ChannelImport.PlacedIsUpdated | controller/channel_export_import.go:593-627 | an item whose key a channel holds updates that channel |
| ChannelImport.ApplyTwice | controller/channel_export_import.go:708-886 | writing an item into a channel that already holds it changes nothing |
| ChannelImport.InsertThenApply | controller/channel_export_import.go:888-1017 | importing an item again leaves the channel it inserted unchanged exactly when its slug is trimmed and not blank if given and its group list is not empty |
| ChannelImport.AcceptedItemsSettle | controller/channel_export_import.go:394-463 | after an import every accepted item has a channel of its own, written by it |
| ChannelImport.PlacedImport | controller/channel_export_import.go:394-463 | importing placed items updates each in place and nothing else |
| ChannelImport.UnchangedItemByItem | controller/channel_export_import.go:394-463 | an import of keyed items with distinct keys changes nothing exactly when no item on its own would: no item undoes another |
| ChannelImport.RefusesExactly | controller/channel_export_import.go:394-463 | a keyed item is refused exactly when it has no name, is ill-typed, or matches no channel and cannot be inserted |
| ChannelImport.SecondImportExactly | controller/channel_export_import.go:394-463 | for every file of keyed items with distinct keys, a second import changes nothing exactly when the table refuses every item that the first import refused and every item it inserted is stable; then nothing is added and the counts are those of the first import with its additions as updates |
| ChannelImport.ImportTwice | controller/channel_export_import.go:394-463 | the case of `SecondImportExactly` in which the first import fails nothing: the second adds none, updates all, and leaves the table as it is exactly when every inserted item is stable |
| ChannelImport.SpacedSlugIsOverwritten | controller/channel_export_import.go:708-1017 | an item with a space after its slug inserts a trimmed slug and overwrites it on the second import |
| ChannelImport.AcceptedAreUpdatedAgain | controller/channel_export_import.go:394-463 | every item the first import accepted is updated by the second, whatever happened to the others |
| ChannelImport.ImportKeepsKeys | model/channel_sync_key.go:99-122 | keys stay unique and a key once set is never changed by an import of keyed items |
| ChannelImport.RefusedItemMayBeAddedLater | controller/channel_export_import.go:394-463 | an item refused for its slug can be added by a second import |
| ChannelImport.SiteBuilderItemRebinds | controller/channel_export_import.go:629-654 | a site-builder item can overwrite the sync key of the channel it is matched with |
| ChannelImport.IdentityMatching | controller/channel_export_import.go:573-591 | upstream identities match symmetrically, and an identity matches itself exactly when it names a route |
| BodyStorage.DiskCacheStats.IncrementDiskFiles | common/disk_cache_config.go:109-113 | file count and bytes grow by one and by the size, nothing else |
| BodyStorage.DiskCacheStats.DecrementDiskFiles | common/disk_cache_config.go:115-123 | file count and bytes shrink, each stopping at 0 |
| BodyStorage.Storage.constructor | common/body_storage.go:37-45 | a new storage holds the data at position 0 and is counted once, on disk or in memory |
| BodyStorage.Storage.Read | common/body_storage.go:169-176 | the next bytes and the new position, or an error after closing |
| BodyStorage.Storage.Seek | common/body_storage.go:178-185 | the new position from one of three origins, or an error that leaves it alone |
| BodyStorage.Storage.Bytes | common/body_storage.go:198-230 | all the data, and the position is what it was |
| BodyStorage.Storage.Close | common/body_storage.go:187-196 | only the first close gives the counted bytes back |
| BodyStorage.StepKeepsConsistent | common/gin.go:36-83 | every step of reading, replacing, cleaning up and closing, in every interleaving, keeps the counters, the storages and the two context keys in agreement and never needs a clamp |
| BodyStorage.CountersMatchStorages | common/gin.go:36-134 | after every run the counters are the sums over the live storages, and no two live storages belong to one request |
| BodyStorage.CleanedUpMeansZero | common/gin.go:127-134 | when no call is running and no request keeps a storage, all four usage counters are 0 |
| BodyCalls.FirstReading | common/gin.go:36-83 | a request's first reading: a positive declared length that fits goes to disk as it comes, anything else is read first; a body that cannot be read stores nothing |
| BodyCalls.KnownBytesStored | common/body_storage.go:241-259 | bytes at hand end up on disk exactly when the cache is on, they are large enough and fit, and in memory otherwise, with the counters grown by exactly that |
| BodyCalls.SecondReading | common/gin.go:36-83 | a second reading finds the stored body or stores the cached bytes; it never reads the request |
| BodyCalls.CleanupGivesBack | common/gin.go:127-134 | cleaning up gives back exactly what the stored body took |
| BodyCalls.ReplaceGivesBack | common/gin.go:103-124 | replacing does the same and goes on with the new bytes |
| BodyCalls.ReplaceOfNothing | common/gin.go:103-124 | without a stored body replacing goes straight on with the new bytes |
| BodyCalls.FailedFile | common/body_storage.go:241-303 | when the file cannot be written, bytes at hand go to memory and a body still being read is given up |
| BodyStorage.SecondCloseIsFree | common/body_storage.go:187-196 | closing a second time changes neither counters nor owners |
| BodyStorage.DiskUsageBounded | common/disk_cache_config.go:170-177 | with at most k creations in flight of at most S bytes, usage never exceeds cap + (k-1)*S; alone, never the cap |
| BodyStorage.BoundIsReached | common/disk_cache_config.go:170-177 | for every k and S there is a run that reaches this bound |
| BodyStorage.UnderstatedLengthBreaksCap | common/body_storage.go:262-305 | a positive declared length below what the reader yields breaks the cap with one creation at a time |
| BodyStorage.LoneCreationKeepsCap | common/body_storage.go:262-305 | a creation on its own, from any reachable state, adds what the reader yields, and keeps the cap exactly when that fits into what is left of it |
| Tiers.PriceLines | controller/affiliate_invitee_discount.go:1388-1412 | each printed line is a tier's range with its own prices and those the reference rule has where the tier begins |
| Tiers.FindAtBand | controller/affiliate_invitee_discount.go:796-812 | the loop finds the first tier whose bound lies above the start of the band |
| Tiers.BandPricesExactly | controller/affiliate_invitee_discount.go:796-812 | the prices are those of the first tier that is open or whose bound lies above the start of the band, and none without one |
| Tiers.PrintedRangesAreBilledTiers | setting/ratio_setting/request_tier_pricing.go:271-291 | a token count lies in a printed range exactly when that tier bills it and some tier does, for both boundary kinds |
| Tiers.RangesAreDisjoint | controller/affiliate_invitee_discount.go:1414-1434 | no token count lies in two printed ranges |
| Tiers.RangesPartition | setting/ratio_setting/request_tier_pricing.go:201-247 | the printed ranges cover all counts exactly when the last bound is 0 |
| Tiers.BandIsBilledTier | controller/affiliate_invitee_discount.go:796-812 | the band lookup at n >= 0 returns the tier that bills n exactly when n is covered and, with inclusive bounds, is not a bound |
| Tiers.BandQuotesReference | controller/affiliate_invitee_discount.go:814-842 | a band quotes the reference tier that bills its first token when both rules treat bounds alike |
| Tiers.BandQuotesExactly | controller/affiliate_invitee_discount.go:814-842 | whatever the two boundary kinds, a band quotes the reference tier that bills its first token exactly when the kinds agree or that token count is not one of the reference's bounds |
| Tiers.BandFindsOwnTier | controller/affiliate_invitee_discount.go:814-842 | a rule that is its own reference quotes each tier's own prices |
| Tiers.MixedBoundariesMisquote | controller/affiliate_invitee_discount.go:796-812 | with different boundary kinds the quoted tier can be another one |
| Resolutions.ResolutionOrder | controller/affiliate_invitee_discount.go:1350-1386 | the order of resolutions is strict and total, whatever the labels parse to |
| Resolutions.ResolutionsExactly | controller/affiliate_invitee_discount.go:1350-1367 | default first, then sizes ascending, then the rest; the text decides between equals |
| Alias.ResolveAlias | controller/channel-test.go:1382-1402 | the loop ends on every mapping and walks a path without repetition until there is no next name or the next was passed |
| Alias.ResolutionIsTheSink | controller/channel-test.go:1382-1402 | the result is reachable; it is the end of the chain, the only one, exactly when there is one; otherwise its successor was passed already |
| Alias.NextExactly | controller/channel-test.go:1385-1398 | a name stands for its entry unless that is blank or the name itself |
| Alias.OneTestAtATime | controller/channel-test.go:1983-2019 | in every interleaving at most one run is under way and the flag is set exactly while one is |
| Alias.RunMoves | controller/channel-test.go:1983-2019 | who finds the flag clear and has tags to test takes it, everybody else changes nothing, and either end of a run gives it back |
| BillingCollapse.CollapseGroup | controller/billing_summary_export.go:379-412 | one loop over a group finds the earliest charge, the log of the highest phase and whether a failure was refunded, and yields the surviving log or none |
| BillingCollapse.GroupLogs | controller/billing_summary_export.go:361-377 | the first loop: consumption logs without a task id, and the logs of each task in order |
| BillingCollapse.Collapse | controller/billing_summary_export.go:356-421 | the list holds exactly the consumption logs without a task id and the survivors of the tasks, in ascending order of time and id, whatever order the map is visited in |
| BillingCollapse.PickAllPicks | controller/billing_summary_export.go:379-394 | the loop's picks are the strict maximum by phase and id, and the consumption log of least id |
| BillingCollapse.CollapseIgnoresOrder | controller/billing_summary_export.go:356-421 | logs with distinct ids collapse to the same list in every order and every map iteration order |
| BillingCollapse.OneLogPerTask | controller/billing_summary_export.go:356-421 | at most one log of each task survives, and every log without a task id is a consumption log that came in |
| BillingCollapse.DroppedExactly | controller/billing_summary_export.go:395-397 | a task leaves no log exactly when one of its logs refunds a failure and the phase of its winner is not the delta refund |
| BillingCollapse.WinsExactly | controller/billing_summary_export.go:338-394 | the winner of a task is the latest log of the first class of phases that the task has: delta, settlement merged, settlement marker, pre-charge, normal or none, any other |
| BillingCollapse.SurvivorLeads | controller/billing_summary_export.go:338-412 | the log that survives for a task is that log, apart from its time and fields |
| BillingCollapse.SurvivorMerges | controller/billing_summary_export.go:398-412 | the survivor is the winning log, dated like the first charge; its fields stand and the first charge supplies the missing ones |
| BillingCollapse.CollapseTwice | controller/billing_summary_export.go:356-421 | on any list, collapsing again changes nothing exactly when no task is won by a refund that names no phase, with a first charge in the refund phase and no refunded failure; `UnphasedRefundVanishes` gives such a list, which no query delivers |
| BillingCollapse.NamedRefundsCollapseOnce | controller/billing_summary_export.go:356-421 | collapsing is idempotent when every refund of a task names its phase |
| BillingPhases.RefundIsNamed | model/log.go:155-218 | the query gives a refund of a task its stored phase, or that of a refund |
| BillingPhases.NamingIsStable | model/log.go:155-218 | the phase written is the phase that is inferred from then on |
| BillingPhases.PhaseExactly | model/log.go:155-186 | the phase inferred for refunds, markers, deltas and pre-charges of tasks |
| BillingPhases.StoredPhaseStands | model/log.go:159-161 | a stored phase that is not blank stands |
| BillingPhases.NamedFields | model/log.go:188-218 | naming writes four fields, which these are, and nothing else |
| BillingPhases.MergesExactly | model/log.go:408-489 | which settlement is merged into which charge |
| BillingPhases.MergedFields | model/log.go:408-489 | which fields a merged charge has, and its prompt count |
| BillingPhases.MergedKeepsTask | model/log.go:408-489 | merging a settlement into its charge keeps the task and names the phase |
| BillingPhases.DeliveredRefundIsNamed | model/log.go:1376-1490 | no refund of a task reaches an export without a phase |
| BillingPhases.ExportCollapsesOnce | controller/billing_summary_export.go:249-266 | on the logs of an export, those of the period and the closing ones, collapsing is idempotent |
| BillingCollapse.TerminalQuery | controller/billing_summary_export.go:282-314 | what is asked of the log table: the distinct tasks, their distinct users and the earliest positive time |
| BillingCollapse.AppendTerminal | controller/billing_summary_export.go:315-336 | the given logs stay in front; added are fetched logs of known tasks, no positive id twice, and none of them is missed |
| BillingCollapse.AppendedIdsDistinct | controller/billing_summary_export.go:315-336 | distinct ids stay distinct |
| BillingComponents.FallbackKeepsCharge | controller/billing_summary_export.go:545-565 | the step of the next row, for any total and charge: what is reported is the charge exactly when that is 0 or the operating discount is positive |
| BillingComponents.RowKeepsCharge | controller/billing_summary_export.go:545-890 | the row of a log whose quantities cost nothing reports the charge exactly when it is 0 or the operating discount is positive |
| BillingComponents.FreeChannelHidesCharge | controller/billing_summary_export.go:545-565 | a charged log of a channel with a stored discount of 0 is reported with 0 |
| BillingComponents.PromptTokensCountedOnce | controller/billing_summary_export.go:690-700 | uncached input, cache reads and cache writes together are the prompt, or the cached tokens if these exceed it |
| BillingComponents.LinesExplainTotal | controller/billing_summary_export.go:679-890 | for every log, the costs of a row's quantities add up to its official total exactly when they cost something before a total is inferred, or one group of quantities carries all of the inferred total, or there is nothing to infer |
| BillingComponents.PlainLinesExplainTotal | controller/billing_summary_export.go:679-890 | for a log without negative fields they add up exactly when the quantities cost something, or one can carry the inferred total, or the charge is 0 |
| BillingComponents.UntokenedChargeIsUnexplained | controller/billing_summary_export.go:679-724 | a charged text log that names nothing shows an official total and no costs |
| BillingComponents.ModeFitsSheet | controller/billing_summary_export.go:726-890 | a log is only ever billed in a mode that its sheet has a label for |
| BillingRows.NumberIsTheFirst | controller/log_export.go:539-568 | a lookup reads the number under the first key that holds one, also as text |
| BillingRows.TextIsTheFirst | controller/log_export.go:527-537 | a text lookup reads the trimmed text of the first key that prints as something |
| BillingRows.TruthExactly | controller/billing_summary_export.go:511-527 | which values count as set |
| BillingRows.ChargeExactly | controller/billing_summary_export.go:423-434 | deltas count their own quota unless they state a total, settled logs round the stated total, others cut it off |
| BillingRows.ChargeInDollars | controller/billing_summary_export.go:436-452 | a positive charge is its quota over the quota of a dollar |
| BillingRows.DiscountExactly | model/settlement_pricing.go:163-185 | the operating discount is the stored one, or price discount plus operating cost, each and their sum within 0 to 1000 |
| BillingRows.SettlementExactly | controller/billing_summary_export.go:556-565 | a settlement is the official total under the discount, or the charge without a total |
| BillingRows.SheetExactly | controller/billing_summary_export.go:656-677 | which sheet a log belongs to, video before image before audio before text |
| BillingRows.CallRow | controller/billing_summary_export.go:679-689 | a text log with a price per call is one call at that price |
| BillingRows.TokenRow | controller/billing_summary_export.go:690-724 | usage, price and cost of input, output, cache writes and cache reads: twice the model ratio, at their own multiples or tier prices; without a cost the total implied by the charge, shared by usage |
| BillingRows.VideoRow | controller/billing_summary_export.go:726-786 | mode, usage, price and cost of a video and its text input, and the total; an implied total goes to the video |
| BillingRows.ImageRow | controller/billing_summary_export.go:788-832 | mode, usage, price and total of images |
| BillingRows.AudioRow | controller/billing_summary_export.go:834-890 | mode, and seconds, call or tokens with their prices and costs, and the total |
| BillingRows.ImageSpecExactly | controller/billing_summary_export.go:602-639 | an image names tier, resolution and mode, without blanks or repeats |
| BillingRows.VideoSpecExactly | controller/billing_summary_export.go:602-639 | a video names lane and resolution, or its size, and whether it has sound |
| BillingRows.OtherSpecs | controller/billing_summary_export.go:679-890 | text and audio rows name nothing |
| BillingRows.RowIsOneCall | controller/billing_summary_export.go:454-495 | one call, in the period of its time, under model and route |
| BillingSummary.Summarize | controller/billing_summary_export.go:892-1053 | the grouping loop over four maps and the finishing loops produce exactly the finished rows of each sheet, sorted |
| BillingSummary.FinishSheet | controller/billing_summary_export.go:991-1092 | finishing and sorting a map gives its finished rows in strictly ascending order, whatever order the map is visited in |
| BillingSummary.BuildSummary | controller/billing_summary_export.go:892-1053 | the four sheets are those of the collapsed list of the logs |
| BillingSummary.DifferentKeysSeparate | controller/billing_summary_export.go:1055-1092 | the sort keys tell any two rows of a sheet apart, in both languages |
| BillingSummary.SheetAscends | controller/billing_summary_export.go:1055-1092 | a sheet ascends by period, then model, then the name of the billing method |
| BillingSummary.LabelsExactly | controller/billing_summary_export.go:154-178 | the names of the billing methods in both languages |
| BillingSummary.SummaryIgnoresOrder | controller/billing_summary_export.go:892-1092 | logs with distinct ids give the same rows in the same order for every order of the logs and every map iteration order |
| BillingSummary.SheetConserves | controller/billing_summary_export.go:892-1053 | every column of a sheet (calls, official total, settlement, each usage and cost) adds up to that column over the sheet's logs |
| BillingSummary.SummaryConserves | controller/billing_summary_export.go:892-1053 | the same over all four sheets and all billable logs |
| BillingSummary.CallsAreBillableLogs | controller/billing_summary_export.go:892-1053 | the calls of the four sheets are as many as the billable collapsed logs |
| BillingSummary.PrintedRowSumsUp | controller/billing_summary_export.go:898-990 | a printed row holds the sums of exactly the billable logs of its period, model and mode, and condenses their specifications |
| BillingSummary.MergeCondenses | controller/billing_summary_export.go:641-654 | merged specifications are none, the only one, or the note that there are several, in any order of merging |
| BillingSummary.SummaryPricesAreWeighted | controller/billing_summary_export.go:992-1050 | in a finished summary price times usage is cost for every quantity that was used |
| BillingSummary.SheetTotal | controller/billing_summary_export.go:1227-1246 | the printed total of a sheet is the displayed sum of its settlements |
| BillingSummary.PrintedTotalsAreSettlements | controller/billing_summary_export.go:1227-1246 | the four printed totals together are the settlements of the billable logs |
| AgentTree.CollectUserIds | bin/migrate_agent_users.py:217-243 | for any batch size and any inviter links, cyclic or not, the search ends with the least set that holds the selected agents and whoever its members invited |
| AgentTree.InvitedInBatches | bin/migrate_agent_users.py:231-238 | querying in batches finds exactly the eligible users invited by the frontier, id 0 excepted |
| AgentTree.InviteTreeIsUnique | bin/migrate_agent_users.py:217-243 | there is only one such set |
| AgentTree.TreeIsReachability | bin/migrate_agent_users.py:217-243 | a user is collected exactly when a chain of invitations links it to an agent |
| AgentTree.AgentsExactly | bin/migrate_agent_users.py:217-225 | who is selected: distributors before the cutoff, deleted ones only if wanted |
| AgentTree.InvitedExactly | bin/migrate_agent_users.py:231-238 | who counts as invited |
| AgentUsers.StripCutsBlanks | bin/migrate_agent_users.py:371-377 | stripping cuts off blanks at both ends and nothing else |
| AgentUsers.BlanksExactly | bin/migrate_agent_users.py:371-377 | which characters count as blank |
| AgentMigrator.Migrator.ResolveAffCode | bin/migrate_agent_users.py:283-304 | a code that is free is kept trimmed; otherwise up to 20 codes are drawn and the first unused one is taken, or the unchecked longer code after them; it is used up either way |
| AgentMigrator.Migrator.ResolveBinding | bin/migrate_agent_users.py:306-325 | a binding held in the target or claimed in this run is emptied and reported, any other is kept trimmed and claimed |
| AgentMigrator.Migrator.BuildInsertValues | bin/migrate_agent_users.py:327-349 | the loop over the columns builds the newcomer's row, and claims and reports its bindings in column order |
| AgentMigrator.Migrator.PlaceUser | bin/migrate_agent_users.py:366-408 | one user is placed in exactly the list of its class, with what its class writes and no more |
| AgentMigrator.Migrator.RelinkInviters | bin/migrate_agent_users.py:410-419 | the loop of updates leaves the table that `RelinkSets` describes: each new row points to the image of its inviter, every other row is as before |
| AgentMigrator.Migrator.MigrateRelations | bin/migrate_agent_users.py:448-519 | the candidates are the relations with two resolved sides; each is counted in the preview, and moved, skipped as present or passed over for a missing id when executing |
| AgentMigrator.Migrator.Run | bin/migrate_agent_users.py:352-445 | over the collected users in ascending order: the lists, maps and relations of the first pass, the target with relinked inviters when executing, and the unchanged target in the preview |
| AgentRuns.ListsPartition | bin/migrate_agent_users.py:366-408 | every user lands once, in exactly one of the four lists, in any order of processing |
| AgentRuns.KnownNameGoes | bin/migrate_agent_users.py:366-388 | a user of a known name is the same person, mapped to the first row of that name, exactly when the trimmed phones or emails are equal and not blank; otherwise it waits for a decision |
| AgentRuns.UnknownNameGoes | bin/migrate_agent_users.py:390-408 | any other user is passed over exactly when a row of another name holds its trimmed phone or email, and inserted otherwise |
| AgentRuns.NewRowsAreCopies | bin/migrate_agent_users.py:327-408 | every new row copies exactly one inserted user, with amounts zeroed and tokens dropped, at the id the user is mapped to |
| AgentRuns.NamesStayUnique | bin/migrate_agent_users.py:366-386 | usernames stay unique in the target, whatever the source holds |
| AgentRuns.BindingsStayUnique | bin/migrate_agent_users.py:306-325 | bindings stay unique in the target, whatever the source holds |
| AgentRuns.DrawnIsFirst | bin/migrate_agent_users.py:290-304 | the search for a code ends with a used one exactly when all tries and the longer code are used |
| AgentRuns.CodesStayUnique | bin/migrate_agent_users.py:283-304 | when some try or the longer code is unused, invitation codes stay unique and every new user has one |
| AgentRuns.ContactsStayUnique | bin/migrate_agent_users.py:268-281 | the step of `ContactsUniqueExactly`, on the rows of the result: contacts stay unique exactly when the target's were and no new row without username or with an untrimmed contact repeats another row's contact |
| AgentRuns.TrimmedContactsStayUnique | bin/migrate_agent_users.py:268-281 | with usernames and trimmed contacts in the source, contacts stay unique |
| AgentContacts.ContactsUniqueExactly | bin/migrate_agent_users.py:268-281 | on source and original target: contacts stay unique exactly when they are unique in the target and no user to be inserted without username or with an untrimmed contact brings a contact of the target or of another user to be inserted |
| AgentContacts.InsertsExactly | bin/migrate_agent_users.py:366-408 | the inserted users, in order, are the newcomers of the original target that no earlier inserted user blocks by name or contact |
| AgentContacts.UnsurprisedInserts | bin/migrate_agent_users.py:366-408 | when no newcomer changes the class of a later user, these are all newcomers of the original target |
| AgentRuns.UntrimmedPhoneRepeats | bin/migrate_agent_users.py:268-281 | two users with the same untrimmed phone are both inserted |
| AgentRuns.ClassInGrownTarget | bin/migrate_agent_users.py:366-400 | a user is classified the same in a target that only gained rows, exactly when it was found by name or no new row has its username or, for a newcomer, its contact |
| AgentRuns.PreviewPredicts | bin/migrate_agent_users.py:366-408 | whatever codes a preview draws and whenever it runs, its lists are those of the real run exactly when no newcomer changes the class of a later user; then claimed and dropped bindings and resolved users agree too, and the preview never touches the target |
| AgentRuns.SharedPhoneMispredicts | bin/migrate_agent_users.py:366-408 | of two users with one phone the preview announces both and the real run inserts one |
| AgentRuns.ApartSourcePredicts | bin/migrate_agent_users.py:366-408 | unique usernames and contacts in the source make the preview exact |
| AgentInviters.RelinkSets | bin/migrate_agent_users.py:410-419 | the second pass points every new row at the image of its user's inviter and touches no other row, in any order |
| AgentInviters.InvitersFollow | bin/migrate_agent_users.py:352-419 | for any order of processing, old rows are untouched and every inserted user's new inviter is the image of its old inviter if that was resolved and 0 otherwise |
| AgentCycles.AcyclicMeansEnding | bin/migrate_agent_users.py:410-419 | a table is free of cycles exactly when following inviters ends from every user |
| AgentCycles.AcyclicExactly | bin/migrate_agent_users.py:352-419 | with unique usernames in the source and a sealed target (from no row that can be matched do inviters lead to an id still to be given), the result is free of cycles exactly when the target was and the source is among its inserted users |
| AgentCycles.AcyclicIsKept | bin/migrate_agent_users.py:352-419 | two graphs without cycles give a graph without cycles, into a sealed target |
| AgentCycles.KnownInvitersAreSealed | bin/migrate_agent_users.py:410-419 | a target whose inviters all lie below the next id is sealed, whether those users still exist or not |
| AgentClosing.DanglingInviterClosesCycle | bin/migrate_agent_users.py:410-419 | a dangling inviter in the target can close a cycle through a new row |
| AgentClosing.OpenTargetClosesCycle | bin/migrate_agent_users.py:352-419 | for every target that is not sealed there is a source without cycles and with unique usernames whose migration leaves a cycle |
| AgentClosing.SealedExactly | bin/migrate_agent_users.py:352-419 | in a target without cycles no such source can close a cycle exactly when the target is sealed |
| AgentRelations.PairsStayUnique | bin/migrate_agent_users.py:483-519 | no pair of users gets a second relation and existing relations stay as they are |
| AgentRelations.ImagesArePresent | bin/migrate_agent_users.py:483-519 | afterwards the target has a relation for the image of every candidate |
| AgentRelations.OnlyImagesAreNew | bin/migrate_agent_users.py:483-519 | every new relation links the images of a candidate's users, keeps its terms and date, and has earned nothing |
| AgentRelations.CountsAddUp | bin/migrate_agent_users.py:483-519 | the preview counts every candidate, the real run moves or skips every candidate, and each move adds one relation |
| AgentRelations.UsersKeepApart | bin/migrate_agent_users.py:366-408 | with unique usernames no two users are mapped to the same row |
| AgentRelations.SkipsWhatWasThere | bin/migrate_agent_users.py:489-501 | with users kept apart, exactly the relations that the target already had are skipped |
| AgentRelations.PreviewCountsRelations | bin/migrate_agent_users.py:483-519 | the preview announces as many relations as the real run moves or skips |

## Left out

- HTTP handlers, authorization, JSON and multipart decoding, upstream calls and responses: no state of their own.
- Database errors and rollback: every statement succeeds; a query's first row is the one of the least id, and new ids are the next ones.
- Floating-point rounding: amounts are `real`; only the rounding of quotas to whole numbers is modelled.
- Number parsing, number formatting, lower-casing, regular expressions, the calendar and the default slug of a channel id: parameters of the model.
- Key texts that are JSON arrays (Vertex credentials): only line-separated keys are modelled.
- Ability and cache refresh after channel changes: they recompute derived tables.
- Dynamic rates and video upscale rules of an imported channel, which are deleted and recreated by design: only whether an item's rules are accepted is modelled.
- ChannelImport.ApplyTwice: "unchanged" ignores `updated_time`, which every partial update rewrites (model/channel.go:1697-1716).
- ChannelImport.SecondImportExactly: ignores `updated_time` in the same way, and so does `ChannelImport.ImportTwice`.
- The order of candidates in a site-builder query without ORDER BY: the model requires the match to be the only one.
- The age sweep of the disk cache and the file service's use of the same counters: they do not know the owners.
- Reads that interleave inside one storage operation: each operation holds the storage's lock.
- The Redis limiters and limits that change while running: a limit is fixed for each key.
- Nil logs, log text, spreadsheet layout, translations other than mode labels, and the currency settings behind the display rate: presentation.
- Row keys of the summary are tuples; the source joins the same parts with a NUL character, which neither periods nor modes contain.
- The log queries: their results are parameters, prepared as in `BillingPhases`; top-up logs are not among them.
- The randomness of invitation codes: which codes are drawn is a function of the codes in use.
- Tables that lack optional columns, and SQL NULL in text columns, which is read as the empty text.
- The reason texts and display fields of the migration report: a report row is the id of the source user.
- Relations are moved in source order; the script fetches them in batches by inviter.
- bin/migrate_all_users.py and the price schedules in controller/channel_model_time_pricing.go: the same patterns, or logic that is not in the repository's core files.
- BillingCollapse.Collapse: does not state an order for logs that share an id, because log ids are primary keys.
- Notification texts: only the decision to send is modelled.

# Vellum: verified model

A Dafny model of the stateful core of Vellum, a desktop proxy that takes over a user's Codex configuration,
manages ChatGPT accounts and a quota pool, and watches Codex's rollout files.

| module | what it covers |
|---|---|
| `CodexConfig`, `ConfigLease` | `config.toml` as slots, and the lease operations as sequences of atomic writes: apply, hot update, restore, reconcile, and every crash between two writes |
| `LeaseFiles` | the same operations as they run, editing a document in place and writing three files, proved against that specification |
| `LeaseRuns`, `LeaseRecovery` | runs of many processes with crashes, failed starts, pid reuse, edits and failing probes; what later processes recover |
| `StartRaces` | starts split at their awaits and interleaved: what the port and the lease keep apart |
| `LeaseLeaks` | runs that reach the failing side of each promise the lease does not keep |
| `TokenRefresh` | interleaved callers refreshing one account's token (section 6 of RFC 6749) |
| `AccountManager`, `PoolRaces`, `QuotaHeadroom`, `QuotaRouting` | accounts, selection and pool, also with operations interleaved; headroom over the reals; the routing loop, quota retry and active-turn migration |
| `RolloutScan`, `CompactionEvents`, `RolloutScanner` | the incremental scan of a rollout and what its compaction events mean |
| `ModelCatalog` | the catalog written for Codex through generation, overrides and completion |
| `WebSocketFrames`, `ControlSocket` | the control client's frames (sections 5.2, 5.3 and 5.5 of RFC 6455); its receive loop and search on a socket with any chunks and silences |
| `RolloutAnalysis` | the streak and replay counters of the rollout analyser |

`dafny verify dfyconfig.toml` checks the whole project.

## Where the code does less than its comments say

Each of these has its exact condition, proved in both directions, and an input or run that fails.

- Restore does not always return the pre-Vellum config: a `[features]` or `[agents]` table that was present but
  empty disappears (`ConfigLease.CycleIsExactIff`, `ConfigLease.EmptyTableIsLost`; after a crash
  `ConfigLease.ApplyCrashIsRestoredIff`, `LeaseLeaks.CrashLosesEmptyTable`).
- A second apply over a lease that needs no repair does not refresh the recorded applied copy, so a changed
  sub-agent setting, listener or boundary key is then taken for a user edit and stays after restore
  (`ConfigLease.ReapplyUndoesAgentKeyIff`, `LeaseLeaks.RestartLeaksModel`; `ConfigLease.ReapplyRecoversProviderIff`,
  `LeaseLeaks.RestartLeaksBoundaryKey`).
- A hot update writes the config before the lease; a crash between the two leaves Vellum's value looking like a
  user edit (`ConfigLease.HotUpdateCrashLeaksIff`, `LeaseLeaks.HotUpdateLeaksModel`).
- A start that reclaims a dead owner's lease and then fails before apply leaves a lease that refuses every
  start, its own process's included (`LeaseRuns.EarlyFailureStrandsIff`, `LeaseLeaks.FailedStartStrands`).
- Stopping restores without asking who holds the lease (`LeaseRuns.StopIsSafeIff`,
  `LeaseLeaks.ForeignStopAdmitsSecond`).
- `set_default` saturates the selection revision, but the login that moves a legacy selection adds one without
  saturation. The model takes the wrapping semantics of a release build (`AccountManager.RevisionFallsIff`,
  `AccountManager.LoginWrapsRevision`).
- Two starts that overlap can both pass reconcile; only the port keeps them apart, and a start overtaken before its
  bind runs under another process's lease (`StartRaces.TwoRunTogetherIff`, `StartRaces.TwoPortsTwoRunners`;
  `StartRaces.CommitIsNamedIff`, `StartRaces.OvertakenStartIsUnnamed`).
- An exchange that fails, is cancelled or brings no rotated token leaves a spent refresh token in the store, and the
  next exchange presents it again (`TokenRefresh.TokenPresentedTwiceIff`, `TokenRefresh.CancelledExchangeResends`).
- `clear` that cannot remove some credential keeps all accounts but has already removed the credentials before
  it, and a login removes the credential of a matching legacy row after saving its own
  (`AccountManager.CredentialLostIff`, `AccountManager.PartialClearLosesCredential`,
  `AccountManager.LoginLosesOwnCredential`). The second case needs a workspace id equal to the credential id
  `chatgpt-` plus the SHA-256 of user and workspace; the program does not exclude it.
- `remove_account` does not take the selection lock, so a concurrent `set_quota_pool` can publish or roll back
  to a row of a removed account (`PoolRaces.RacePoolIsKnownIff`, `PoolRaces.RemovedAccountReturns`).
- A stored pool is loaded unchecked; pausing one row of an account does not keep the account out if another row
  of it is in the pool and not paused (`QuotaRouting.PauseIsRespectedIff`, `QuotaRouting.DuplicateRowsEscapePause`).
  A pool once saved by `set_quota_pool` has no such account (`AccountManager.SavedPoolIsRepaired`,
  `QuotaRouting.UniqueMembersRespectPause`).
- A usage-limit frame keeps its account out of the pool's choice but not out of the manual fallback
  (`QuotaRouting.UsageLimitedAccountChosenIff`, `QuotaRouting.UsageLimitEscapes`).
- A rollout over 8 MiB whose last 8 MiB hold no newline is picked up in the middle of a line
  (`RolloutScan.BaseIsLineStartIff`, `RolloutScan.LongLineIsCut`).
- A receive timeout in the middle of a frame loses the bytes already read, and the retry starts inside the frame
  (`ControlSocket.TimeoutKeepsSyncIff`, `ControlSocket.SearchInStepIff`, `ControlSocket.TimeoutLosesReply`).

## Model

| member | source | states |
|---|---|---|
| `CodexConfig.MergedEntries` | src-tauri/src/codex.rs:1870-1900 | A managed key whose live value is still the applied one ends as the baseline has it, present or absent; every other key keeps its live value |
| `CodexConfig.TrimEndSlashes` | src-tauri/src/codex.rs:1423-1423 | The result is the prefix of the URL left when all its trailing slashes, and nothing else, are dropped |
| `CodexConfig.AliasIsHeaderFree` | src-tauri/src/codex.rs:1522-1560 | A recovery alias never carries `http_headers`; a provider entry written for the proxy always does |
| `CodexConfig.ProxyEntryMeans` | src-tauri/src/codex.rs:1405-1486 | A proxy entry holds the listener URL without its trailing slashes, exactly the boundary key header, the transport flags, and the name "OpenAI" only for `vellum-official` |
| `CodexConfig.AliasMeans` | src-tauri/src/codex.rs:1522-1560 | An alias points at the native ChatGPT endpoint, keeps the "OpenAI" name only for `vellum-official`, and has no headers |
| `CodexConfig.ScrubMeans` | src-tauri/src/codex.rs:1582-1638 | Slot by slot and in literal values, what the scrub removes, and that nothing else changes |
| `CodexConfig.PureMeans` | src-tauri/src/codex.rs:1582-1638 | A config is pure exactly when none of these values is in it |
| `CodexConfig.ScrubbedIsPure` | src-tauri/src/codex.rs:1582-1638 | A scrubbed baseline holds no reserved provider, no Vellum provider, catalog or listener pointer and no `vlm-` agent default |
| `CodexConfig.AgentScrub` | src-tauri/src/codex.rs:1628-1636 | Scrubbing `[agents]` removes exactly the managed keys that name a `vlm-` model, changes nothing when there is none, and never leaves a table it emptied |
| `CodexConfig.PureIsFixed` | src-tauri/src/codex.rs:1582-1638 | On a document without residue the scrub changes nothing except a present but empty `[model_providers]` |
| `ConfigLease.ThreeWayRestore` | src-tauri/src/codex.rs:1844-1907 | For every live config, baseline and applied copy: each managed slot gets the baseline value while live and applied agree, and keeps the live value otherwise; unmanaged slots keep theirs; a reserved provider entry that matches the applied one and is absent from the baseline becomes the alias even when edits to its neighbours block the whole-key restore |
| `ConfigLease.RestoredEntriesReachOpenAI` | src-tauri/src/codex.rs:1859-1901 | A reserved entry still as Vellum wrote it is left pointing at the native endpoint without headers |
| `ConfigLease.CycleConverges` | src-tauri/src/codex.rs:1640-1763 | From any config without a lease, apply then restore leaves the scrubbed original, the two aliases, no empty managed table, no lease and no catalog |
| `ConfigLease.RestoreUndoesFreshApply` | src-tauri/src/codex.rs:1844-1907 | The merge of a freshly applied config with its own record is the scrubbed original plus the aliases |
| `ConfigLease.CycleIsExactIff` | src-tauri/src/codex.rs:2016-2059 | A cycle gives back the scrubbed original up to the aliases if and only if neither `[features]` nor `[agents]` was present but empty |
| `ConfigLease.EmptyTableIsLost` | src-tauri/src/codex.rs:2016-2028 | The input on which it does not: a config holding an empty `[features]` |
| `ConfigLease.CycleIsIdempotent` | src-tauri/src/codex.rs:1582-1638 | A second cycle maps what the first one left to itself |
| `ConfigLease.CyclesReachFixedPoint` | src-tauri/src/codex.rs:1844-1907 | Any number of cycles with one listener and catalog path, under any boundary keys, sub-agent settings and processes, ends where the first one did |
| `ConfigLease.AppliedRoutesThroughProxy` | src-tauri/src/codex.rs:1664-1713 | The applied config names the `vellum` provider and the catalog, has none of the three global overrides, has the three forced feature flags, both proxy entries and no built-in provider entry, the requested sub-agent keys, and every slot Vellum does not manage as the user had it |
| `ConfigLease.AppliedConfigMeans` | src-tauri/src/codex.rs:1640-1763 | From any disk, every slot of the config apply leaves, in literal values: provider, catalog, base URL and image flag given back or kept, feature flags, sub-agent keys, both proxy entries with the trimmed listener URL and the boundary key, no built-in entry, and all else as found |
| `ConfigLease.RepairIsUndone` | src-tauri/src/codex.rs:1735-1762 | An apply that repairs a lease refreshes its record, so restore after it gives every managed slot the repaired baseline and the reserved entries their aliases |
| `ConfigLease.ApplyPurifies` | src-tauri/src/codex.rs:1649-1663 | After apply from any disk, dirty or laundered, the lease baseline is pure and differs from the config |
| `ConfigLease.BaselineIsConstant` | src-tauri/src/codex.rs:1715-1762 | No write of apply, hot update, reconcile or restore, complete or cut short by a crash, replaces a pure baseline while a lease is on disk |
| `ConfigLease.HotUpdatesAreUndone` | src-tauri/src/codex.rs:1810-1842 | After a fresh apply, any sequence of hot updates leaves config and applied copy equal on both agent keys, so restore returns the baseline values |
| `ConfigLease.ReapplyUndoesAgentKeyIff` | src-tauri/src/codex.rs:1721-1735 | After a second apply over a pure lease, restore returns the baseline value of an agent key if and only if the newly written value is the recorded one or the baseline one |
| `ConfigLease.ReapplyRecoversProviderIff` | src-tauri/src/codex.rs:1721-1735 | After such a second apply, restore turns a reserved entry into its alias if and only if the rewritten entry equals the recorded one; otherwise the entry with its boundary header stays |
| `ConfigLease.ReservedRestored` | src-tauri/src/codex.rs:1859-1869 | A reserved entry absent from the baseline becomes its alias while it equals the recorded one and stays as it is otherwise, whatever the other entries do |
| `ConfigLease.ApplyCrashIsReconciled` | src-tauri/src/codex.rs:277-290 | After a crash between the lease and config writes of an apply over a pure config, reconcile drops the lease and keeps the config exactly, whether or not the writer lives |
| `ConfigLease.ApplyCrashIsRestoredIff` | src-tauri/src/codex.rs:1844-1907 | After that crash restore keeps the config exactly if and only if no hand-back meets a present but empty `[features]` or `[agents]` |
| `ConfigLease.ApplyRecords` | src-tauri/src/codex.rs:1721-1762 | Every lease apply leaves records reserved entries that carry the boundary header |
| `ConfigLease.RestoreCrashIsHarmless` | src-tauri/src/codex.rs:1902-1906 | A crash between the config write and the lease removal of a restore, then restore again, ends where an uninterrupted restore ends |
| `ConfigLease.RestoreIsIdempotent` | src-tauri/src/codex.rs:1859-1901 | For every live config, merging the merged config again with a lease recorded by apply changes nothing |
| `ConfigLease.HotUpdateCrashLeaksIff` | src-tauri/src/codex.rs:1810-1842 | After a crash between the two writes of a hot update, restore misses the baseline value of an agent key if and only if the written value differs from both the recorded and the baseline one |
| `LeaseFiles.MergeStep` | src-tauri/src/codex.rs:1882-1900 | Handing back one more key extends the table merge by that key, including when the table becomes empty and disappears |
| `LeaseFiles.Document.ApplySubagentKeys` | src-tauri/src/codex.rs:2061-2098 | Edits the document in place into the one whose two agent keys hold the wanted values |
| `LeaseFiles.Document.RemoveProviders` | src-tauri/src/codex.rs:1938-1958 | Removes the listed provider entries, drops the table if that empties it, and reports whether any was there |
| `LeaseFiles.Document.Scrub` | src-tauri/src/codex.rs:1582-1638 | Turns the document into the scrubbed one and reports a change exactly when it was not pure |
| `LeaseFiles.Document.Overlay` | src-tauri/src/codex.rs:1664-1713 | The sequence of in-place edits yields the applied document |
| `LeaseFiles.Document.MergeTopKeys` | src-tauri/src/codex.rs:1870-1881 | The loop over top-level keys performs the three-way merge |
| `LeaseFiles.Document.MergeFeatureKeys` | src-tauri/src/codex.rs:1882-1892 | The loop over `[features]` keys performs the three-way merge, pruning included |
| `LeaseFiles.Document.MergeAgentKeys` | src-tauri/src/codex.rs:1893-1900 | The loop over `[agents]` keys performs the three-way merge, pruning included |
| `LeaseFiles.Document.ThreeWayMerge` | src-tauri/src/codex.rs:1859-1901 | All loops together, with the recoverable entries chosen before any edit, yield the restored document |
| `LeaseFiles.CodexFiles.ReconcileLease` | src-tauri/src/codex.rs:277-319 | Performs exactly the writes of the reconcile specification, in order, and refuses exactly when it does |
| `LeaseFiles.CodexFiles.ApplyProxyConfig` | src-tauri/src/codex.rs:1640-1763 | Performs exactly the writes of the apply specification, lease before config |
| `LeaseFiles.CodexFiles.ApplySubagentDefaults` | src-tauri/src/codex.rs:1810-1842 | Performs exactly the writes of the hot-update specification, config before lease |
| `LeaseFiles.CodexFiles.RestoreProxyConfig` | src-tauri/src/codex.rs:1844-1907 | Performs exactly the writes of the restore specification: config, lease removal, catalog removal |
| `LeaseRuns.ExclusiveOwnership` | src-tauri/src/codex.rs:256-319 | Over every run of many processes with pid reuse, failing probes, edits, starts that fail halfway or roll back, and crashes between any two writes: at most one process runs, it is live and named by the lease, the catalog is there, and any further start leaves config, lease and catalog as they are |
| `LeaseRuns.StartRefused` | src-tauri/src/codex.rs:300-311 | While a process runs, every start, even its own and however it would have ended, is refused without a write |
| `LeaseRuns.StartSucceedsIff` | src-tauri/src/codex.rs:256-319 | A start goes through if and only if there is no lease, the config equals its baseline, or a version-2 lease names a pid that is not live or whose probed start time is known to differ from the recorded one |
| `LeaseRuns.FoundMeans` | src-tauri/src/codex.rs:277-319 | What a start then finds: the config untouched, and no lease, or the old record under its own pid and start time and the old port |
| `LeaseRuns.RolledBackMeans` | src-tauri/src/commands/proxy.rs:355-391 | A start that rolls back ends restored, without lease and catalog |
| `LeaseRuns.StartHolds` | src-tauri/src/codex.rs:1715-1763 | A successful start finds nobody running and leaves the starter holding the lease over a config that differs from the baseline |
| `LeaseRuns.StepKeepsInv` | src-tauri/src/commands/proxy.rs:269-391 | Every event, including a start that fails between reconcile and apply and one answered by a restore, keeps the running process live, named by the lease and over a diverted config |
| `LeaseRuns.StopIsSafeIff` | src-tauri/src/commands/proxy.rs:733-780 | Stopping restores whoever holds the lease, so it keeps ownership exclusive if and only if no other process runs |
| `LeaseRuns.EarlyFailureStrandsIff` | src-tauri/src/commands/proxy.rs:269-320 | A start that fails between reconcile and apply strands its live process as lease owner if and only if it had to reclaim a lease over a config that is not the baseline |
| `LeaseRuns.StrandedRefuses` | src-tauri/src/codex.rs:300-311 | While a process is stranded every start is refused without a write, its own retries included |
| `LeaseRuns.StrandedUntilReleased` | src-tauri/src/commands/proxy.rs:269-320 | Through every legal run it stays so, with the same lease, until the process dies or somebody stops |
| `LeaseRuns.ReleaseFreesStart` | src-tauri/src/codex.rs:256-319 | Its death, or a stop, lets the next start through |
| `StartRaces.TwoRunTogetherIff` | src-tauri/src/commands/proxy.rs:269-391 | With starts split into reconcile, bind and apply and interleaved at will: some interleaving makes two processes run at once on two given ports if and only if the ports differ |
| `StartRaces.RunnersHaveOwnPorts` | src-tauri/src/commands/proxy.rs:278-292 | Over every interleaving, two processes that run at once hold different ports |
| `StartRaces.TwoPortsTwoRunners` | src-tauri/src/commands/proxy.rs:269-391 | On any two different ports two overlapping starts both go through |
| `StartRaces.PromptStartsAreExclusive` | src-tauri/src/commands/proxy.rs:269-391 | Over every interleaving on one port in which no start stands between its reconcile and its bind while another applies: at most one process runs, it is live and named by the lease, over a diverted config |
| `StartRaces.CommitIsNamedIff` | src-tauri/src/codex.rs:1715-1762 | Applying names the starter if and only if it finds no lease, its own, or one without an owner that needs repair |
| `StartRaces.OvertakenStartIsUnnamed` | src-tauri/src/commands/proxy.rs:269-391 | On one port, a start overtaken between its reconcile and its bind runs under the lease of a dead process |
| `LeaseRuns.RunningMeansPureBaseline` | src-tauri/src/codex.rs:1649-1663 | In every reachable state of a run with one listener, from any first disk, the lease of a running process has a pure baseline |
| `LeaseRuns.BaselineConstantOverRun` | src-tauri/src/codex.rs:1715-1762 | Over every run in which a lease stays on disk, a pure baseline at its start is the baseline at its end |
| `LeaseRecovery.EveryStopComesHome` | src-tauri/src/codex.rs:1810-1907 | Over every run of any number of processes with one listener, catalog and boundary key, with hot updates and no edits, in which a start over a lease uses the sub-agent setting last completed, whatever crashed between whichever writes of starts and stops: when a running process stops, the config is the first one scrubbed plus the aliases, with no lease and no catalog; and whenever nothing is leased, a cycle would still end there |
| `LeaseRecovery.CrashedStartRecovers` | src-tauri/src/codex.rs:277-319 | From any config: wherever a first start crashes, before, between or after its writes, a later process that reconciles, applies and stops ends where an undisturbed cycle would have |
| `LeaseRecovery.KinRestored` | src-tauri/src/codex.rs:1844-1907 | Restoring any config that interrupted operations can leave keeps it recoverable: its next cycle ends where the first one would have |
| `LeaseRecovery.ReappliedRestores` | src-tauri/src/codex.rs:1721-1763 | Applying again over any such config, without refreshing the record, is still undone exactly |
| `LeaseRecovery.UpdatedRecord` | src-tauri/src/codex.rs:1824-1832 | A hot update turns the record of one sub-agent setting into exactly the record a first apply with the new setting would have made |
| `LeaseRecovery.UpdatedRestores` | src-tauri/src/codex.rs:1810-1842 | A hot update keeps a running config restorable to where one undisturbed cycle would end |
| `LeaseRecovery.StartOnTrack` | src-tauri/src/commands/proxy.rs:269-391 | Every disk state a start passes through, however it ends, is recoverable |
| `LeaseRecovery.StepKeepsHealthy` | src-tauri/src/commands/proxy.rs:269-391 | Every event of such a run keeps the disk recoverable and the running process restorable |
| `LeaseLeaks.RestartRun` | src-tauri/src/codex.rs:1721-1735 | Start, crash, and a second process that reclaims, applies other settings and stops: the run is legal and restores against the first record |
| `LeaseLeaks.RestartLeaksModel` | src-tauri/src/codex.rs:1721-1735 | On that run, for any two different sub-agent models, the second one stays in a config that never had one |
| `LeaseLeaks.RestartLeaksBoundaryKey` | src-tauri/src/codex.rs:1721-1735 | On that run, for any two different boundary keys, the entry with the second key stays behind |
| `LeaseLeaks.HotUpdateLeaksModel` | src-tauri/src/codex.rs:1810-1842 | A run with a crash between the two writes of a hot update, then a stop: the new model stays |
| `LeaseLeaks.CrashLosesEmptyTable` | src-tauri/src/codex.rs:2016-2028 | A run with a crash between the two writes of a first apply, then a stop: an empty `[features]` is gone |
| `LeaseLeaks.FailedStartStrands` | src-tauri/src/commands/proxy.rs:269-292 | A run in which the second process reclaims and then fails to bind: it is stranded and its own retry is refused |
| `LeaseLeaks.ForeignStopAdmitsSecond` | src-tauri/src/commands/proxy.rs:733-780 | A process that never started stops while another runs and can then start beside it |
| `TokenRefresh.SingleFlight` | src-tauri/src/codex_oauth.rs:1602-1668 | Over every interleaving of any number of callers, with failures and cancellations anywhere, two exchanges are never in flight at once |
| `TokenRefresh.StepKeepsOneLock` | src-tauri/src/codex_oauth.rs:1820-1830 | Racing lookups and insertions agree on one lock per account, and whoever is inside the critical section holds it |
| `TokenRefresh.NoTokenPresentedTwice` | src-tauri/src/codex_oauth.rs:1709-1794 | If every exchange succeeds, rotates to an unused token and is saved, no refresh token is sent twice in any run, even when callers fail or are cancelled after the save |
| `TokenRefresh.StepKeepsUnspent` | src-tauri/src/codex_oauth.rs:1709-1794 | Each step keeps the stored credential unspent, except while the exchange that spent it has not saved its successor |
| `TokenRefresh.TokenPresentedTwiceIff` | src-tauri/src/codex_oauth.rs:1709-1794 | Over every run against a server that never hands out a presented token: some refresh token is presented twice if and only if an exchange starts while the token of an earlier one has not been replaced by a saved, rotated one |
| `TokenRefresh.CancelledExchangeResends` | src-tauri/src/codex_oauth.rs:1709-1794 | The failing run: one exchange is cancelled after it was sent and the next caller sends the same token |
| `TokenRefresh.OneStaleTokenOneExchange` | src-tauri/src/codex_oauth.rs:1602-1668 | Callers that all saw one stale or rejected token: at most one exchange beyond the failed ones is sent, exactly one if some caller succeeds and none failed, and every success returns the token it brought |
| `TokenRefresh.CallerReturnsIff` | src-tauri/src/codex_oauth.rs:1602-1668 | Over every run, a caller has returned a token if and only if at some step it published it from its own exchange, or the cache held it with at least a minute left and the caller neither forced a refresh nor had reported that token rejected |
| `TokenRefresh.ReturnsIff` | src-tauri/src/codex_oauth.rs:1654-1668 | The same for one step: exactly which steps make a caller return which token |
| `TokenRefresh.ExchangeLeaves` | src-tauri/src/codex_oauth.rs:1778-1793 | A save stores the rotated token if there is one, a publish caches the new token with its own expiry, a send presents the stored one |
| `TokenRefresh.StepKeepsOneExchange` | src-tauri/src/codex_oauth.rs:1654-1668 | Each step keeps the account of exchanges: sent = published + failed + in flight, and at most one published |
| `RolloutScan.VisitsRefineFullParse` | src-tauri/src/codex.rs:880-926 | For an append-only file read at any byte boundaries, the scan is in the state of one parse of everything from where the first read began |
| `RolloutScan.SmallRolloutsAreParsedWhole` | src-tauri/src/codex.rs:880-926 | If the file had at most 8 MiB when first seen, that is the parse of the whole file |
| `RolloutScan.VisitsKeepBytes` | src-tauri/src/codex.rs:912-922 | The consumed lines followed by `trailing` are exactly the bytes read, and `trailing` has no newline |
| `RolloutScan.ChopKeepsBytes` | src-tauri/src/codex.rs:912-922 | Cutting bytes into lines loses and invents nothing |
| `RolloutScan.FullScanExtends` | src-tauri/src/codex.rs:900-926 | Parsing a longer file equals absorbing the added bytes into the parse of the shorter one |
| `RolloutScan.BaseIsLineStartIff` | src-tauri/src/codex.rs:889-911 | A bounded first read starts at a line boundary if and only if the file fits in 8 MiB or its tail has a newline |
| `RolloutScan.LongLineIsCut` | src-tauri/src/codex.rs:889-911 | The failing file: one byte over 8 MiB and no newline |
| `RolloutScan.ShrunkFileStartsOver` | src-tauri/src/codex.rs:884-899 | A shrunk file is parsed as if first seen, an unchanged one left alone |
| `RolloutScan.RecordMeans` | src-tauri/src/codex.rs:968-1033 | What a line says: which token counts, markers, seconds and summaries the scanner takes from it |
| `CompactionEvents.FoldAttributes` | src-tauri/src/codex.rs:956-1034 | For every line sequence: one event per stretch, in order, each with the last positive count before it, the first positive count after it and before the next event, and the first summary of its stretch; the pending index is the last event exactly while it waits for a count; adjacent events are more than two seconds apart |
| `CompactionEvents.StretchesCover` | src-tauri/src/codex.rs:999-1033 | The stretches are consecutive pieces that cover the rollout from the first marker to its end |
| `CompactionEvents.FirstPositiveIsFirst` | src-tauri/src/codex.rs:979-991 | The count attributed after an event is the earliest positive one of its stretch, and absent only if there is none |
| `CompactionEvents.LastPositiveIsLast` | src-tauri/src/codex.rs:979-991 | The count attributed before an event is the latest positive one before it, and absent only if there is none |
| `CompactionEvents.VisitsAttribute` | src-tauri/src/codex.rs:880-926 | Events reported after any visits to an append-only rollout first seen small are attributed over the whole file |
| `RolloutScanner.Scanner.Observe` | src-tauri/src/codex.rs:962-1033 | The branches for one decoded line update the fields as the fold step says |
| `RolloutScanner.Scanner.ParseCompactionLines` | src-tauri/src/codex.rs:956-961 | Splitting complete lines and observing each non-empty one is the fold over the records of those lines |
| `RolloutScanner.Scanner.Visit` | src-tauri/src/codex.rs:880-926 | One visit, with reset on shrink and a bounded first read, moves the scan as specified |
| `RolloutScanner.Scanner.Take` | src-tauri/src/codex.rs:912-925 | Buffering the bytes and draining up to the last newline leaves exactly the unfinished line |
| `QuotaHeadroom.FindWeekly` | src-tauri/src/codex_oauth.rs:1950-1952 | Finds a weekly window if and only if there is one |
| `QuotaHeadroom.FindFiveHour` | src-tauri/src/codex_oauth.rs:1953-1955 | Finds a five-hour window if and only if there is one |
| `QuotaHeadroom.HeadroomMeansUsable` | src-tauri/src/codex_oauth.rs:1945-2001 | Headroom lies in [0, 100] and is positive exactly when the observation is usable, which is exactly when it has no skip reason |
| `QuotaHeadroom.HeadroomIsMonotone` | src-tauri/src/codex_oauth.rs:1945-2001 | More weekly use, more five-hour use or a higher floor never raises headroom nor makes an unusable account usable |
| `QuotaHeadroom.ObservationMeans` | src-tauri/src/codex_oauth.rs:1945-2001 | Usable exactly when the weekly window leaves more than the floor and a five-hour window more than five points; the skip reason names the first that fails, pending exactly when that reset is past; headroom is the smaller of the two spendable shares in percent, and every other field |
| `QuotaHeadroom.ObservedIff` | src-tauri/src/codex_oauth.rs:1950-1952 | There is an observation exactly when there is a weekly window |
| `AccountManager.RetainedRows` | src-tauri/src/codex_oauth.rs:624-628 | The rows kept are unique and are exactly the first rows of known accounts |
| `AccountManager.SanitizedIsOk` | src-tauri/src/codex_oauth.rs:624-635 | A pool accepted from the user is unique, known, clamped to floors of at most 100, and paused only in the pool |
| `AccountManager.MigrationKeepsPool` | src-tauri/src/codex_oauth.rs:2124-2150 | Migration keeps the pool well formed, removes the old id, keeps every unrelated row and, if the old id had a row, leaves one for the new id |
| `AccountManager.MigrationMeans` | src-tauri/src/codex_oauth.rs:2124-2150 | Where the migrated row stands and which settings it has, with and without an existing row of the new id |
| `AccountManager.StepKeepsPool` | src-tauri/src/codex_oauth.rs:619-730 | Every operation, whichever of its outside calls fails, keeps the pool well formed and the revision in range |
| `AccountManager.PoolInvariant` | src-tauri/src/codex_oauth.rs:619-730 | So does every sequence of operations |
| `AccountManager.SavedPoolIsRepaired` | src-tauri/src/codex_oauth.rs:329-342 | From any stored pool, every sequence of operations with a successful `set_quota_pool` in it ends with a well-formed pool |
| `AccountManager.CredentialLostIff` | src-tauri/src/codex_oauth.rs:712-730 | An operation leaves an account without its credential if and only if it is a clear that stops partway or a login whose new id is that of the legacy row |
| `AccountManager.PartialClearLosesCredential` | src-tauri/src/codex_oauth.rs:712-718 | The failing clear: two accounts, and the second credential cannot be removed |
| `AccountManager.LoginLosesOwnCredential` | src-tauri/src/codex_oauth.rs:488-526 | The failing login: the new credential id is the workspace id the legacy row is kept under |
| `PoolRaces.RacePoolIsKnownIff` | src-tauri/src/codex_oauth.rs:619-710 | With account removals and logins running between any awaits of `set_quota_pool`, rows end unique, clamped and paused only in the pool; and they name known accounts only, if and only if every account among the rows written last whose removal finished while those rows were held outside the pool, and not again afterwards, has signed in again |
| `PoolRaces.ChangesEffect` | src-tauri/src/codex_oauth.rs:688-699 | Any interleaving of removals and logins drops from the pool exactly the rows of the accounts whose removal finished |
| `PoolRaces.RemovedAccountReturns` | src-tauri/src/codex_oauth.rs:623-637 | The failing schedule: an account is removed between the check and the publish, and its row is published |
| `AccountManager.RevisionFallsIff` | src-tauri/src/codex_oauth.rs:520-526 | The revision falls if and only if a login moves the selection from a legacy row while the counter is at its maximum and wraps |
| `AccountManager.LoginWrapsRevision` | src-tauri/src/codex_oauth.rs:520-526 | The failing login: the selected legacy row is replaced with the counter at its maximum |
| `AccountManager.RevisionCountsSelections` | src-tauri/src/codex_oauth.rs:654-686 | Over every run without that wrap the revision is its start plus the number of selections made, saturated at the maximum |
| `AccountManager.Latest` | src-tauri/src/codex_oauth.rs:2023-2028 | The fallback default is a listed known account, at least as recent as every one listed and more recent than every later one |
| `AccountManager.LegacyRowMeans` | src-tauri/src/codex_oauth.rs:2104-2122 | Which legacy row a login replaces: kept under the workspace id, without a workspace, same address up to ASCII case and outer white space |
| `AccountManager.TrimMeans` | src-tauri/src/codex_oauth.rs:2109-2109 | Trimming removes the white space around a text and nothing else |
| `AccountManager.SelectionMeans` | src-tauri/src/codex_oauth.rs:654-686 | When a selection succeeds, the whole state it leaves, and that a failed one changes nothing |
| `AccountManager.PoolSaveMeans` | src-tauri/src/codex_oauth.rs:619-652 | The rows a saved pool has, one by one, and that a failed save changes nothing |
| `AccountManager.RemovalMeans` | src-tauri/src/codex_oauth.rs:688-710 | The whole state a removal leaves on each outcome |
| `AccountManager.ClearMeans` | src-tauri/src/codex_oauth.rs:712-730 | The whole state a clear leaves on each outcome |
| `AccountManager.LoginMeans` | src-tauri/src/codex_oauth.rs:488-546 | Accounts, pool, activity and selection after a login on each outcome |
| `AccountManager.FindMember` | src-tauri/src/codex_oauth.rs:2125-2131 | Finds the first row of an account |
| `AccountManager.CodexOAuthManager.SetQuotaPool` | src-tauri/src/codex_oauth.rs:619-652 | Sanitizes and publishes the pool; a failed persist leaves every field as it was |
| `AccountManager.CodexOAuthManager.SetDefault` | src-tauri/src/codex_oauth.rs:654-686 | Publishes a verified selection; an unknown account, an invalid grant or a failed persist leaves every field as it was |
| `AccountManager.CodexOAuthManager.RemoveAccount` | src-tauri/src/codex_oauth.rs:688-710 | Removes the account, its pool rows and its activity, then its credential, and re-selects only if it was the default |
| `AccountManager.CodexOAuthManager.Clear` | src-tauri/src/codex_oauth.rs:712-730 | Removes the credentials one by one; if one cannot be removed the earlier ones are gone and nothing else changes, otherwise everything but the revision history is forgotten |
| `AccountManager.CodexOAuthManager.MigrateQuotaPoolMember` | src-tauri/src/codex_oauth.rs:2124-2150 | The in-place edits of the member vector amount to the migration |
| `AccountManager.CodexOAuthManager.Login` | src-tauri/src/codex_oauth.rs:488-546 | Saves the credential and adds the account, moving membership, activity and selection from a matching legacy row |
| `AccountManager.CodexOAuthManager.ReplaceLegacy` | src-tauri/src/codex_oauth.rs:505-526 | Moves everything a legacy row held to its replacement |
| `QuotaRouting.IssueBatch` | src-tauri/src/codex_oauth.rs:881-911 | Reads are issued for exactly the unpaused pool members, in order |
| `QuotaRouting.ExamineNext` | src-tauri/src/codex_oauth.rs:964-1023 | Whatever the member is skipped for, the read consumed is its own and the reads left are those of the members to come |
| `QuotaRouting.RouteThroughPool` | src-tauri/src/codex_oauth.rs:964-1423 | The loop decides as if every member had been given its own read; in Balanced mode every read taken is the one issued for that member |
| `QuotaRouting.RoutingExcludes` | src-tauri/src/codex_oauth.rs:964-1018 | For every pool and environment, the deadline of the chosen account is past, and if a row of it is paused in the pool then another row of it is in the pool and not paused |
| `QuotaRouting.PauseIsRespectedIff` | src-tauri/src/codex_oauth.rs:1009-1018 | A pool keeps paused accounts out in every environment if and only if no account has both a paused and an unpaused row in the pool |
| `QuotaRouting.MixedPauseEscapes` | src-tauri/src/codex_oauth.rs:1009-1018 | Any pool with such an account sends a request to it, under either strategy |
| `QuotaRouting.UniqueMembersRespectPause` | src-tauri/src/codex_oauth.rs:624-628 | Pools that list an account once respect their pauses |
| `QuotaRouting.ChosenIsRowOrManual` | src-tauri/src/codex_oauth.rs:1249-1370 | The chosen account comes from a row that is not excluded, or is the manual selection when no member is usable |
| `QuotaRouting.UsageLimitedAccountChosenIff` | src-tauri/src/codex_oauth.rs:992-1008 | An account whose socket reported a usage limit is chosen if and only if it is the manual selection, no member is usable, and neither the deadline map nor a pause stops it |
| `QuotaRouting.UsageLimitEscapes` | src-tauri/src/codex_oauth.rs:992-1008 | The failing request: the account whose usage limit was just reported is the only member and the manual selection, and is chosen |
| `QuotaRouting.DuplicateRowsEscapePause` | src-tauri/src/codex_oauth.rs:1009-1018 | The failing pool: two rows of one account, one of them paused |
| `QuotaRouting.PassMeaning` | src-tauri/src/codex_oauth.rs:964-1247 | Eligible candidates and the fallback each come from a row that is not excluded, and there is no eligible candidate if and only if no row is usable |
| `QuotaRouting.FallbackIsFirstMet` | src-tauri/src/codex_oauth.rs:1024-1041 | The fallback credential is the first valid one met, and absent if and only if none is valid |
| `QuotaRouting.RankPicksFirstUsable` | src-tauri/src/codex_oauth.rs:1196-1224 | Rank returns the first usable member of its order and falls back only when none is usable |
| `QuotaRouting.RankOrderIsStable` | src-tauri/src/codex_oauth.rs:958-963 | Rank order is a permutation of the members with the affinity account in front, and otherwise keeps the configured order |
| `QuotaRouting.MatchingRows` | src-tauri/src/codex_oauth.rs:958-963 | The two halves of that order hold exactly the matching and the other members |
| `QuotaRouting.StrictRouteIsAdmitted` | src-tauri/src/codex_oauth.rs:1281-1290 | A strict selection returns only the candidate at the router's index, which the router admitted and which is an unexcluded pool member |
| `QuotaRouting.RouterDecides` | src-tauri/src/codex_oauth.rs:1249-1320 | With usable members: Balanced takes the one at the router's index, a strict selection takes it exactly if admitted, Rank the first; changed settings refuse |
| `QuotaRouting.EligibleAreUsable` | src-tauri/src/codex_oauth.rs:1196-1199 | The candidates offered to the router are exactly the usable members with their observations, in routing order |
| `QuotaRouting.FallbackDecides` | src-tauri/src/codex_oauth.rs:1335-1423 | Without a usable member: nothing when strict; else the manual selection if no deadline, pause or failed validation stops it, else the first valid credential met, else a refusal |
| `QuotaRouting.ExamineMeans` | src-tauri/src/codex_oauth.rs:964-1195 | When a member is skipped, spent or usable, from its flags, deadline, affinity, credential, windows and floor |
| `QuotaRouting.RetryPoolAfterQuota` | src-tauri/src/codex_oauth.rs:778-826 | Marks the rejected pool account until a deadline in the future and selects strictly without affinity, or declines |
| `QuotaRouting.ExhaustedUntil` | src-tauri/src/codex_oauth.rs:795-805 | The deadline is the provider's reset if in the future, else the observed one if in the future, else five hours from now |
| `QuotaRouting.RetryAvoidsRejected` | src-tauri/src/codex_oauth.rs:778-826 | A retry never returns an account with the rejected hash, only an unpaused and unexhausted pool member, never the manual fallback |
| `QuotaRouting.RetryMeans` | src-tauri/src/codex_oauth.rs:778-826 | Exactly when a retry is tried, and that it then selects strictly, without affinity and with the deadline noted |
| `QuotaRouting.ActiveTurnPoolAuth` | src-tauri/src/codex_oauth.rs:1487-1582 | The migration loop ends and decides as specified, with settings and credentials free to change from turn to turn |
| `QuotaRouting.MigrationStops` | src-tauri/src/codex_oauth.rs:1536-1577 | When the loop stops, every candidate is either left or was tried in a turn of its own without a valid credential, and the last turn explains the result |
| `QuotaRouting.MigrationIsJustified` | src-tauri/src/codex_oauth.rs:1487-1582 | A running turn leaves its account only when that is gated or exhausted, and only for a different, unpaused, unexhausted, usable member, authenticated in the turn that settled it and admitted by the router among those left |
| `QuotaRouting.StayIsJustified` | src-tauri/src/codex_oauth.rs:1536-1577 | A gated turn stays only when the candidates ran out, none was admitted, or the settings changed in that turn |
| `QuotaRouting.TurnMovesIff` | src-tauri/src/codex_oauth.rs:1487-1582 | A running turn moves to an account if and only if its own is gated and the router, asked again after each pick without a valid credential, comes to admit that one with a valid credential before the settings change |
| `QuotaRouting.GatedTurnLeaves` | src-tauri/src/codex_oauth.rs:1536-1577 | A gated turn whose first pick is admitted and valid must leave |
| `QuotaRouting.GatedMeans` | src-tauri/src/codex_oauth.rs:1493-1513 | When a running turn is gated: deadline, reported limit, or cached quota against the floor of its first row |
| `QuotaRouting.AlternativesAreDestinations` | src-tauri/src/codex_oauth.rs:1514-1535 | The candidates of a migration are exactly the other unpaused members without a deadline whose cached quota is usable, in order |
| `QuotaRouting.RoutingAuth` | src-tauri/src/codex_oauth.rs:828-875 | The whole decision: the known account a running turn is bound to first, then bypass, then the pool |
| `QuotaRouting.TurnStaysOrMoves` | src-tauri/src/codex_oauth.rs:835-860 | A turn in progress is answered with the known account its socket is bound to unless a justified migration moved it, and refused if that account is no longer known |
| `QuotaRouting.TurnDecides` | src-tauri/src/codex_oauth.rs:835-860 | The answer to a request during a turn, in all cases |
| `QuotaRouting.BypassDecides` | src-tauri/src/codex_oauth.rs:862-875 | The answer past a disabled or empty pool, in all cases |
| `QuotaRouting.PoolDecides` | src-tauri/src/codex_oauth.rs:861-875 | Otherwise the pool decides |
| `QuotaRouting.FirstNamed` | src-tauri/src/codex_oauth.rs:841-848 | Finds a known account the affinity names if and only if there is one |
| `ModelCatalog.WrittenCatalogIsConsistent` | src-tauri/src/catalog.rs:862-918 | Official entries keep their order and gain only required defaults; every other written entry publishes the window of one of the routes to its slug and the compaction point computed from it: both or neither when compaction is opted in, the window and never the limit when not |
| `ModelCatalog.WrittenContextIsTheOverride` | src-tauri/src/catalog.rs:890-918 | In the written catalog, the first entry of an overridden model publishes the window of its last override, or 121600 if that has none, and the compaction point computed from it |
| `ModelCatalog.WrittenContextIsTheRoute` | src-tauri/src/catalog.rs:862-918 | A generated entry no override reaches, because none names its slug or an earlier entry has the same one, publishes the window of its own route, or 121600 if that has none, and the compaction point computed from it |
| `ModelCatalog.OverrideIsAuthoritative` | src-tauri/src/catalog.rs:890-917 | After all overrides the entry found under a slug speaks of the context of the last override of that slug |
| `ModelCatalog.OverrideKeepsOthers` | src-tauri/src/catalog.rs:898-917 | An override leaves the entry found under every other slug alone |
| `ModelCatalog.TokenLimit` | crates/vellum-proxy-runtime/src/config.rs:209-215 | The projected limit is the given percentage of the window less both reserves, at least one, in saturating 64-bit arithmetic |
| `ModelCatalog.WithContextIsConsistent` | src-tauri/src/catalog.rs:190-213 | Editing the window fields of any entry leaves them and the limit consistent and keeps its slug |
| `ModelCatalog.EntryIsConsistent` | src-tauri/src/catalog.rs:279-384 | A generated entry is consistent with the context of its route |
| `ModelCatalog.EntryMeans` | src-tauri/src/catalog.rs:279-384 | What a generated entry says about its model, field by field |
| `ModelCatalog.ConsistentMeans` | src-tauri/src/catalog.rs:179-213 | Window, maximum, percentage and limit in plain numbers of the route and the policy |
| `ModelCatalog.OverrideAppends` | src-tauri/src/catalog.rs:912-916 | A model without an entry gets one at the end with a priority from 2000 on |
| `ModelCatalog.NoOfficialResidue` | src-tauri/src/catalog.rs:112-137 | A generated entry carries nothing private to Official models, and a chat route never opts into Responses-Lite |
| `ModelCatalog.CompletionAddsOnlyDefaults` | src-tauri/src/catalog.rs:728-784 | Completion supplies exactly the three required fields where missing or blank, keeps all others and the slug, and is idempotent |
| `ModelCatalog.CompletionIsIdempotent` | src-tauri/src/catalog.rs:728-784 | A second completion pass over an accepted catalog succeeds and changes nothing |
| `ModelCatalog.ApplyContextAndCompactLimit` | src-tauri/src/catalog.rs:190-213 | The field-by-field edits amount to the specified projection |
| `ModelCatalog.BuildThirdPartyEntry` | src-tauri/src/catalog.rs:279-384 | Stripping, forcing and completing an entry in place yields the specified entry |
| `ModelCatalog.CatalogJson` | src-tauri/src/catalog.rs:681-719 | Official entries first, then one generated entry per model Official does not define |
| `ModelCatalog.EnsureCatalogReady` | src-tauri/src/catalog.rs:728-784 | Succeeds if and only if every entry is an object with a non-blank slug, and then completes every entry |
| `ModelCatalog.WriteCatalog` | src-tauri/src/catalog.rs:862-918 | Generation, the override loop and completion together produce the specified catalog or refuse |
| `ModelCatalog.FindSlug` | src-tauri/src/catalog.rs:901-903 | Finds the first entry with a slug |
| `WebSocketFrames.FrameRoundTrip` | evals/tools/native_official_smoke.py:51-61 | For every 4-bit opcode, optional mask and payload below 2^64 bytes, parsing what was written gives back opcode and payload and consumes exactly that frame |
| `WebSocketFrames.WireMeans` | evals/tools/native_official_smoke.py:51-61 | What the client puts on the wire byte by byte: final bit and opcode, mask bit and length code, big-endian length, mask, masked payload |
| `WebSocketFrames.XorMeans` | evals/tools/native_official_smoke.py:60-60 | Each bit of a masked byte differs from the payload exactly where the key has a one |
| `WebSocketFrames.OpcodesMean` | evals/tools/native_official_smoke.py:75-96 | What a receive does with a frame of each opcode: 1 text, 8 close, 9 ping, all others passed over |
| `WebSocketFrames.PongMeans` | evals/tools/native_official_smoke.py:90-92 | A ping is answered with a masked frame of opcode ten and its own payload |
| `WebSocketFrames.MaskTwice` | evals/tools/native_official_smoke.py:86-89 | Masking twice with one key gives the payload back |
| `WebSocketFrames.LengthRoundTrip` | evals/tools/native_official_smoke.py:54-59 | A length survives its network-order encoding |
| `WebSocketFrames.ReceiveReturnsFirstText` | evals/tools/native_official_smoke.py:75-96 | For any concatenation of frames, the first text frame is returned, the payload of each earlier ping is echoed in order, and nothing after the text is consumed |
| `WebSocketFrames.ReceiveStopsAtClose` | evals/tools/native_official_smoke.py:90-94 | A close frame met first ends the connection after the same echoes |
| `WebSocketFrames.ReceivePasses` | evals/tools/native_official_smoke.py:75-96 | Frames without text or close only add the echoes of their pings to what the rest of the stream brings |
| `ControlSocket.ControlWebSocket.ReceiveUntil` | evals/tools/native_official_smoke.py:115-125 | The search for an accepted reply finds, looks at, echoes and leaves exactly what its specification of the line says, for any predicate and number of tries |
| `ControlSocket.ReceiveFirstText` | evals/tools/native_official_smoke.py:75-96 | The whole theorem: for any frames without text or close, any text frame, any rest and any chunks, with no silence before the text has come, the text is returned, exactly the pongs for the earlier pings are sent in order, and the rest is left |
| `ControlSocket.ControlWebSocket.Recv` | evals/tools/native_official_smoke.py:69-69 | Times out exactly in a silence; otherwise delivers at least one byte and at most the limit, and none only at the end of the stream |
| `ControlSocket.ReceivingMeans` | evals/tools/native_official_smoke.py:75-96 | On any line a receive times out if and only if a silence falls before the bytes an uninterrupted receive would read; otherwise reply, echoes and bytes left are those of the stream |
| `ControlSocket.TimeoutKeepsSyncIff` | evals/tools/native_official_smoke.py:66-73 | A receive that a silence interrupts leaves the socket between two frames if and only if the silence falls between two frames of the stream, and then the next receive completes it |
| `ControlSocket.TimeoutLosesReply` | evals/tools/native_official_smoke.py:66-73 | The failing line: the reply `{}` with a silence between header and payload times out and then reads as a cut-off frame |
| `ControlSocket.SearchInStepIff` | evals/tools/native_official_smoke.py:115-125 | Given enough tries, a search stays in step if and only if every silence before the wanted reply falls between two frames, and then it ends as an undisturbed search would: same result, replies looked at, echoes and bytes left |
| `ControlSocket.SearchEnds` | evals/tools/native_official_smoke.py:115-125 | With more tries than silences and bytes a search never runs out of time |
| `ControlSocket.ControlWebSocket.SendFrame` | evals/tools/native_official_smoke.py:51-61 | Sends exactly the masked encoding of the frame |
| `ControlSocket.ControlWebSocket.ReadExact` | evals/tools/native_official_smoke.py:66-73 | Returns exactly the next bytes however the socket cuts them; times out exactly when a silence falls before them and fails exactly when the stream ends first, throwing away what was read |
| `ControlSocket.ControlWebSocket.ReadFrame` | evals/tools/native_official_smoke.py:77-89 | Reads one frame field by field, as the parse of the stream says, for any chunks; times out exactly when a silence falls before the whole frame has come |
| `ControlSocket.ControlWebSocket.ReceiveJson` | evals/tools/native_official_smoke.py:75-96 | The receive loop ends and its reply, its echoes and the line it leaves are those of the specification of the line, for any chunks and silences |
| `RolloutAnalysis.Analyser.AnalyzeRollout` | evals/tools/analyze_enhanced_rollouts.py:84-128 | For every rollout, over all models: streaks grow by the number of maximal runs of at least three equal consecutive calls within turns on `vlm-` models, replays by the calls with a non-empty id on those models less the distinct such ids |
| `RolloutAnalysis.TurnsMean` | evals/tools/analyze_enhanced_rollouts.py:84-113 | The turns counted are the calls made while a `vlm-` model is in force, cut at every turn context |
| `RolloutAnalysis.RunsAreStarts` | evals/tools/analyze_enhanced_rollouts.py:120-127 | Maximal runs of at least three correspond one to one to the places where such a run starts |
| `RolloutAnalysis.RunStartsSnoc` | evals/tools/analyze_enhanced_rollouts.py:121-124 | One more call adds a long run exactly when the streak reaches three |
| `RolloutAnalysis.TrailingThree` | evals/tools/analyze_enhanced_rollouts.py:121-123 | The streak is three exactly when the last three calls start a run |
| `RolloutAnalysis.CallIds` | evals/tools/analyze_enhanced_rollouts.py:114-119 | One more call adds a replay exactly when its id was used before |
| `RolloutAnalysis.Analyser.CountCall` | evals/tools/analyze_enhanced_rollouts.py:112-127 | One counted call moves both totals by exactly what the call adds |

## Left out

Configuration lease
- TOML text, comments and key order: documents are compared as values, so the text comparison in reconcile becomes equality of values.
- A `features`, `agents` or `model_providers` key that is present but not an ordinary table, and unparsable files.
- File permissions, hashes and time stamps in the lease, and how a process is probed: the probe is an oracle that tells the truth or nothing.
- LeaseRuns.ExclusiveOwnership: a start is one step there, and `StartRaces` splits it; excludes edits and hot updates that make the config equal the lease baseline, because reconcile then drops the lease of a running process by design; external deletion of the lease and stops by a process while another runs (`LeaseRuns.StopIsSafeIff`) are excluded too.
- LeaseRecovery.EveryStopComesHome: for one boundary key, a start over a lease with the sub-agent setting last completed, no hot update cut between its writes and no edits, because the others do leave traces (`LeaseLeaks.RestartLeaksModel`, `LeaseLeaks.RestartLeaksBoundaryKey`, `LeaseLeaks.HotUpdateLeaksModel`).
- StartRaces.PromptStartsAreExclusive: promptness is sufficient; the exact condition for one apply is `StartRaces.CommitIsNamedIff`. Crashes fall between its steps only; `LeaseRuns` has those between writes.
- LeaseRuns.RunningMeansPureBaseline: for one catalog path and listener, because residue of another listener is not recognised by the scrub.

Accounts and routing
- HTTP, JWT decoding and device-code polling: only success or failure and the returned tokens remain; tokens are left out of routing results, which carry account ids.
- Removal of an account while its token is being refreshed, which also drops its lock.
- TokenRefresh.NoTokenPresentedTwice: assumes what it must about the server, that a rotated token was never sent before.
- `SmartRouter`: any function from candidates to an index in range and an admission vector; its own state is not modelled.
- One clock reading per routing call and one state of the deadline map; the recording of observed reset times and of the active pool account, diagnostics and logging.
- Floating-point rounding and NaN: percentages are reals.
- AccountManager.PoolInvariant: operations are atomic there; `PoolRaces` interleaves pool saves with removals and logins, but not with a login that replaces a legacy row nor with two removals of one account at once. It starts from a well-formed pool; `AccountManager.SavedPoolIsRepaired` starts from any.
- White space other than ASCII in `trim`; account fields that decide nothing here (plan, workspace name).

Rollouts
- JSON decoding of a line is an arbitrary function; choosing the 16 most recent rollouts and sorting their events.
- The thread label is fixed per scanner; reads return exactly the measured range.
- RolloutScan.SmallRolloutsAreParsedWhole: for rollouts of at most 8 MiB when first seen, because a first read of a longer one skips its beginning by design; `RolloutScan.VisitsRefineFullParse` covers those.
- The analyser's plan, pending-stop, output-size and findings bookkeeping, and argument canonicalisation.

Catalog and control socket
- Deriving model routes, ordering reasoning efforts, harness profiles and prompt texts: inputs of an entry. Constant schema fields that no decision reads are represented by a few of them.
- The HTTP upgrade handshake, JSON decoding of a text frame, fragmented messages; the deadline of a search is a number of receives.

Not modelled at all: the React screens, the request adapter, budgets, boot sequence, packaging and benchmark tools, which would add only easy members or foreign calls.

# M365 Backup: a verified model

M365 Backup copies mailboxes, drives, Teams and SharePoint sites of a Microsoft 365
tenant into a content-addressed store. A job of a service follows Graph's delta feed and
records items in a catalog; a commit turns the live rows into a numbered generation with
a manifest; Smart Recycle prunes generations; a blob collection removes what no row names.
A runner admits jobs and runs them concurrently under two semaphores, one gate and one
file lock per tenant and service, and can cancel them.

The model has five parts that share their data types:

- **Catalog** (`Tables`, `Store`, `Catalog`, `CatalogRuns`, `CatalogNumbers`,
  `CatalogRetention`, `CatalogViews`, `CatalogSurvival`, `Restore`). `Tables` gives every
  operation as a function on the tables and a job's session; the class in `Store` carries
  them out in place and is proved to agree. Whole-run theorems quantify over every
  interleaving of operations of any number of services' jobs.
- **Smart Recycle** (`Calendar`, `SmartRecycle`): the scan with its seen sets against a
  "newest per slot" promise, with calendar arithmetic down to ISO week dates (section
  4.1.4 of ISO 8601:2004).
- **Delta sync** (`Feed`, `DeltaSync`, `SyncMeaning`, `SyncLoop`): pages of changes,
  checkpoints, crashes anywhere and replay, and what a synced feed leaves in the catalog.
- **Job runner** (`Runner`, `RunnerSafety`, `RunnerProgress`, `RunnerCancel`,
  `RunnerAdmission`, `RunnerClosed`, `RunnerFull`, `RunnerOutcome`, `RunnerWitness`,
  `Admission`): a state machine of threads, calls and the enqueue protocol, what a run
  writes at its end, and the enqueue calls as methods.
- **Paths** (`Strings`, `Paths`, `Browse`): sanitizing, joining, guarding and browsing.

Check everything with `dafny verify dfyconfig.toml`.

## Where the code does less than it says

Each of these is a lemma with a failing family and, beside it, the exact or sufficient
condition under which the intended guarantee holds.

- The collector builds its keep set from item rows and change rows, not from manifests,
  although the comment on it speaks of every generation: `OverwriteAfterFullLosesBlob`,
  exact conditions in `SurvivalIsExact` and `RetentionSurvivalIsExact`, a sufficient one
  for runs with full jobs, aborted jobs and prunings in `GenerationRestores`.
- A reconcile in a full job deletes every live row, since untracked changes mark nothing
  as seen: the untracked case of `ReconcileIsExact`.
- A put writes its blob before its rows, and another service's collection may run in
  between: `PutAcrossCollect`. All other run theorems take catalog operations as atomic.
- A skipped commit can name a generation that is not the live view: an aborted job forgets
  its pending changes (`AbortedJobMakesSkipStale`), and a clock that goes back lets
  retention prune the latest generation (`PrunedLatestMakesSkipStale`). The exact condition
  for both is `SkipIsSoundIff`.
- Without a clock that rises from commit to commit, the latest generation can be pruned and
  its number issued again: `NumberIssuedTwice`, with the exact conditions in `ReissuesIff`
  and `NumbersIncreaseIff`.
- A cancel that lands between a run's second look at its row and the registration of its
  cancel function is overwritten: `CancelCanBeLost`, with the exact condition in
  `CancelIsFinalIff`, and for rows closed in any way in `StaysClosedIff`.
- An enqueue of a full job can be refused with its delta links already deleted:
  `LinksCanBeLost`, with the exact conditions in `FullCall` and `LinksAtRiskIff`; and an
  incremental can be admitted next to a full job that was promoted or revived after the
  check, exactly as `IncrementalCall` says.
- A job that promotes itself to full while running takes no full slot, so full bodies can
  fill all slots: `FullLimitCanBeExceeded`, against `FullBodiesBounded` and
  `FullLimitHolds`.
- A subpath of a destination that cleans to "." or "/" is always refused, so restoring into
  the current directory fails: `EnsureSubpathExact`.

## Model

| member | source | states |
|---|---|---|
| Paths.RelPathOfClean | internal/catalog/types.go:35-47 | on clean segments RelPath is the plain slash-joined list of mailbox, folders and name |
| Paths.RelPathInjective | internal/catalog/types.go:35-47 | two items built from clean segments share a path if and only if mailbox, folders and name agree: restores are collision-free |
| Paths.SanitizeIsPlain | internal/backup/exchange.go:468-481 | every sanitized segment is non-empty, no dot segment, and free of "..", separators and reserved characters |
| Paths.SanitizeIsSafe | internal/backup/exchange.go:468-481 | for NUL-free text it also passes the NUL guard |
| Paths.SanitizeByChar | internal/backup/exchange.go:468-481 | text without "..", outer spaces or a lone dot keeps its length; each reserved character becomes an underscore in its place and every other one stays |
| Paths.SanitizeIdentity | internal/backup/exchange.go:468-481 | text that has no reserved characters either is left alone |
| Paths.SanitizeTrims | internal/backup/exchange.go:468-481 | outer spaces go, and text of spaces alone becomes an underscore |
| Paths.SanitizeStepsUp | internal/backup/exchange.go:468-481 | ".." inside a text becomes one underscore where it stands |
| Paths.EnsureSubpathExact | internal/storage/restore.go:92-113 | for paths of safe segments the guard accepts under every admissible root except exactly those that clean to "/" or ".", and returns the path below the cleaned root |
| Paths.EnsureSubpathContains | internal/storage/restore.go:92-113 | for every root and path: an accepted target is the cleaned root or lies below it and has no ".." and no NUL; a path with ".." or NUL and an empty root are refused |
| Paths.CleanIsNormal | internal/storage/restore.go:99-109 | lexical cleaning leaves only clean segments, after steps up at the front of relative paths |
| Paths.CleanCancels | internal/storage/restore.go:99-109 | a step down and up again cancels anywhere in a path; empty and dot segments vanish |
| Paths.EmlShortRoundTrip | internal/catalog/import.go:203-214 | the short id is recovered from the file name of every message, whatever the subject |
| Paths.EmlShortIff | internal/catalog/import.go:203-214 | whatever stands before the last "__", a name gives the part after it if and only if that has six to sixteen characters |
| Paths.EmlFileNameIsSafe | internal/backup/exchange.go:494-505 | message file names are safe segments |
| Paths.EmlFileNameReadable | internal/backup/exchange.go:494-505 | a subject of up to eighty characters that needs no sanitizing stands unchanged in the name |
| Paths.EmlFileNameBlank | internal/backup/exchange.go:494-505 | a subject of spaces alone, or none, gets the fixed readable part |
| Browse.EntriesAtPrefix | internal/catalog/browse.go:192-239 | lists each file of the folder as often as it is stored and each directory some path goes through exactly once, nothing else |
| Browse.NormalizeRelIdentity | internal/catalog/browse.go:251-257 | normalization leaves stored paths alone |
| Browse.NormalizeRelCleans | internal/catalog/browse.go:251-257 | backslashes and a leading slash of a stored path are undone; ".", "/" and the empty path are the top folder |
| Browse.Walk | internal/catalog/browse.go:192-239 | following directory entries terminates and reaches every stored path below the start exactly as often as stored |
| Browse.WalkAll | internal/catalog/browse.go:192-239 | from the root the walk yields the multiset of all stored paths |
| Calendar.IsoWeekNamesWeek | internal/storage/retention.go:112-113 | two days share ISO year and week number if and only if they lie in the same Monday-to-Sunday week |
| Calendar.DateNamesDay | internal/storage/retention.go:111 | year, month and day of month name the day |
| Calendar.DatesAdvance | internal/storage/retention.go:111 | each day's date is the calendar's successor of the date before, leap years included, and day 0 is 0001-01-01 |
| Calendar.WeeksStartOnMondays | internal/storage/retention.go:112-113 | a new week starts exactly every seventh day, counted from Monday 2024-01-01 |
| Calendar.FirstWeekHasFourthOfJanuary | internal/storage/retention.go:112-113 | week 1 of an ISO year is the one with 4 January, and the number counts the weeks from there |
| Calendar.MonthKeyIsIndex | internal/storage/retention.go:114 | year and month name the month index |
| SmartRecycle.DistanceIsAntitone | internal/storage/retention.go:137-149 | day, week, month and year distances never grow for later snapshots, truncating division included |
| SmartRecycle.SelectSmartKeepIDs | internal/storage/retention.go:79-135 | the loops with four seen sets compute exactly the scan set, for input in any order; for newest-first input the returned set has an id if and only if the policy's fields say so (the condition of KeptIff) |
| SmartRecycle.ScanMeetsPromise | internal/storage/retention.go:77-79 | on newest-first input a snapshot is kept if and only if it is among the KeepMin newest, in the hour window, or the newest of a day, ISO week, month or year in its window |
| SmartRecycle.KeptIff | internal/storage/retention.go:79-149 | field by field: kept if and only if among the max(KeepMin, 1) newest or, with the policy enabled, not older than KeepHours, newest of its day and fewer than KeepDaily days back, newest of its ISO week and fewer than KeepWeekly sevenths of the day difference back, newest of its month and fewer than KeepMonthly months back, or newest of its year and fewer than KeepYearly years back |
| SmartRecycle.NewestIsKept | internal/storage/retention.go:69-97 | the newest snapshot is kept under every policy |
| SmartRecycle.KeptSizeBound | internal/storage/retention.go:92-135 | size bound of the kept set, one extra week included |
| SmartRecycle.DisabledKeepsNewest | internal/storage/retention.go:85-90 | a disabled policy keeps exactly min(KeepMin, n) |
| SmartRecycle.KeepIsMonotone | internal/storage/retention.go:79-135 | raising any keep value never drops a kept snapshot |
| SmartRecycle.KeepIsIdempotent | internal/storage/retention.go:79-135 | a second run at the same time on the survivors removes nothing, in whatever order it lists snapshots of the same age |
| CatalogStore.Store.constructor | internal/catalog/store.go:47-74 | a session starts with nothing pending; full jobs neither rematch nor track |
| CatalogStore.Store.NotePending | internal/catalog/store.go:80-90 | pending and seen after a change, nothing at all when untracked |
| CatalogStore.Store.RematchId | internal/catalog/store.go:468-508 | renames the first stored alias and fills empty path fields from it |
| CatalogStore.Store.Put | internal/catalog/store.go:108-130 | whole new state of a put, refusals included |
| CatalogStore.Store.Keep | internal/catalog/store.go:149-159 | whole new state of a metadata update |
| CatalogStore.Store.Refresh | internal/backup/reuse.go:22-39 | metadata of a live row is rewritten only if it changed |
| CatalogStore.Store.Delete | internal/catalog/store.go:161-184 | whole new state of a deletion, absent rows included |
| CatalogStore.Store.DeletePrefix | internal/catalog/store.go:186-222 | deletes exactly the live rows at or below the path, noting each; with an empty path those of the whole mailbox |
| CatalogStore.Store.StartReconcile | internal/catalog/store.go:93-97 | an empty seen set for the service |
| CatalogStore.Store.FinishReconcile | internal/catalog/store.go:224-257 | deletes exactly the unseen live rows and returns their number; nothing at all if no reconcile was started |
| CatalogStore.Store.LatestGen | internal/catalog/store.go:582-596 | the largest stored generation, or none |
| CatalogStore.Store.NextGen | internal/catalog/store.go:337-349 | the largest stored number plus one |
| CatalogStore.Store.LiveStats | internal/catalog/store.go:351-361 | number and total size of the live rows |
| CatalogStore.Store.StreamManifest | internal/catalog/store.go:680-775 | one entry of path, hash and size per live row |
| CatalogStore.Store.CommitSnapshot | internal/catalog/store.go:263-335 | whole new state of a commit; refused without a service, skipped with the latest generation, or created with the next one |
| CatalogStore.Store.GCBlobs | internal/catalog/retention.go:67-113 | keeps exactly the blobs named by item rows and change rows |
| CatalogStore.Store.DeleteSnapshot | internal/catalog/retention.go:52-64 | removes one snapshot with its change rows and manifest |
| CatalogStore.SizeSumAnyOrder | internal/catalog/store.go:351-361 | the byte total does not depend on the order of the result set |
| CatalogStore.ApplySmartRetention | internal/catalog/retention.go:16-50 | prunes each service by its own newest-first list, then collects; returns the number pruned |
| Catalog.ReconcileIsExact | internal/catalog/store.go:224-257 | with tracking, exactly the ids put since the start stay live and the count is the rows deleted; without tracking every live row goes; other services untouched |
| Catalog.PutRowCount | internal/catalog/store.go:468-530 | a put adds one row if and only if neither the id nor an alias is stored |
| Catalog.ImportedMessageIsRematched | internal/catalog/store.go:468-530 | the first put of a real message renames the imported row instead of adding one |
| Catalog.ImportedFileIsRematched | internal/catalog/store.go:468-530 | the first put of a file of any other service renames the row imported under "path:" and its path instead of adding one |
| Catalog.SurvivalIsExact | internal/catalog/retention.go:67-113 | a generation restores after a collection if and only if it did before and every hash of its manifest is named |
| CatalogRuns.AlwaysRestorable | internal/catalog/store.go:108-257 | in every reachable state every row's blob exists, hashes to the row's hash and has its size |
| CatalogRuns.LiveContentIsLastPut | internal/catalog/store.go:108-130 | a live row's content is what was last put under its id, over whole runs |
| CatalogNumbers.AlwaysBounded | internal/catalog/store.go:337-349 | over every run: snapshots and manifests go together, ids are unique, no stored number is above the last one issued |
| CatalogNumbers.ReissuesIff | internal/catalog/store.go:337-349 | over every run a commit issues a number not above the last one if and only if the generation issued last is no longer stored |
| CatalogNumbers.NumbersIncreaseIff | internal/catalog/store.go:337-349 | over every run, whatever the clock does, a service's numbers strictly increase if and only if each commit finds the generation issued last still stored |
| CatalogNumbers.LatestIsNotRetired | internal/catalog/retention.go:16-45 | with rising creation times no policy retires the latest generation |
| CatalogNumbers.AlwaysNumbered | internal/catalog/store.go:337-349 | over every run with a rising clock creation times rise with the number and the last generation issued is stored |
| CatalogNumbers.GenerationNumbersIncrease | internal/catalog/store.go:337-349 | with a rising clock the numbers issued to a service strictly increase, so none is reused |
| CatalogRetention.LatestSurvivesIffNewest | internal/catalog/retention.go:16-45 | without a rising clock, the latest generation survives every policy if and only if it heads the newest-first list |
| CatalogRetention.NumberIssuedTwice | internal/catalog/store.go:337-349 | for every service a run from the empty store in which a clock that goes back and a retention run make two commits issue the number 2 |
| CatalogRetention.RetentionIsIdempotent | internal/catalog/retention.go:16-45 | applying the same policy again at the same time retires nothing, however the second run orders ties |
| CatalogRetention.RetentionIsPerService | internal/catalog/retention.go:16-45 | what is retired in a service depends on its own snapshots and the order in which they are listed, on nothing else |
| CatalogViews.AlwaysCoherent | internal/catalog/store.go:80-90 | over every run without import ids the live view of a service is its last committed view overlaid with the changes of aborted sessions and then with those of the open one, which are exactly what a tracked session has pending |
| CatalogViews.AlwaysManifests | internal/catalog/store.go:680-775 | over every run each stored manifest lists exactly the view its generation was committed with |
| CatalogViews.ManifestIff | internal/catalog/store.go:680-775 | a list is a manifest of a view if and only if it has the entries of its rows |
| CatalogViews.SkippedMeansUnchanged | internal/catalog/store.go:263-289 | nothing pending means the live view is the one the session started from |
| CatalogViews.SkipIsSoundIff | internal/catalog/store.go:263-289 | on every run without import ids a skipped commit names a generation whose manifest is the live view if and only if the view the session started from has the manifest entries of the latest generation still stored |
| CatalogViews.SkipIsSoundStored | internal/catalog/store.go:263-289 | while the generation issued last is still stored: if and only if the changes aborted sessions left uncommitted change no manifest entry |
| CatalogViews.SkipIsSound | internal/catalog/store.go:263-289 | in particular, with a rising clock, when no session is opened over uncommitted changes; the live view is then the committed one plus the pending changes |
| CatalogSurvival.AbortedJobMakesSkipStale | internal/catalog/store.go:263-289 | for every item and two contents: a job that puts and never commits makes the next skip name generation 1, which is not the live view |
| CatalogRetention.PrunedLatestMakesSkipStale | internal/catalog/store.go:263-289 | for every item a run from the empty store with nothing left uncommitted in which a clock that goes back lets retention prune the latest generation, and the next skip names generation 1, which does not list the item |
| CatalogSurvival.AlwaysChained | internal/catalog/store.go:80-90 | over every run, full and aborted jobs included: change rows say what their generation's view has, and in a generation written by a tracked job rows without one are those of the generation before |
| CatalogSurvival.GenerationRestores | internal/catalog/retention.go:52-113 | over every run: if the generations after f up to gen are stored and none was written by a full job or over dropped changes, gen restores in full provided the rows untouched since f still have their content on their item row |
| CatalogSurvival.CompleteGenerationsRestore | internal/catalog/retention.go:52-113 | in particular without any proviso when they reach back to the first generation |
| CatalogSurvival.RetentionSurvivalIsExact | internal/catalog/retention.go:16-113 | after pruning and collecting, a remaining generation restores if and only if it did before and each hash is named by an item row or a remaining change row |
| CatalogSurvival.OverwriteAfterFullLosesBlob | internal/catalog/retention.go:66-100 | for every item and two contents: full commit, overwrite, commit leave the first generation listed and restorable, and a collection then makes it unrestorable |
| CatalogSurvival.PutAcrossCollect | internal/catalog/store.go:112-127 | a collection between the blob write and the row writes of a put, a rename included, leaves every row backed if and only if the hash was named before |
| Restore.SafePathAccepted | internal/storage/restore.go:92-113 | the guard accepts paths of safe segments below every good destination and nowhere else |
| Restore.ChosenIff | internal/catalog/retention.go:141-150 | a restore passes over exactly the entries without a path or with ".." in it, the offline tool exactly those without a path or hash |
| Restore.WriteEntry | internal/catalog/retention.go:149-164 | one file is written if and only if path and destination pass, its blob exists and no file nests with it |
| Restore.Materialize | internal/catalog/retention.go:116-167 | for any entries: succeeds if and only if every chosen one can be written, and then the tree is exactly their files, each with the content of its last entry |
| Restore.OfflineRestore | cmd/restore/main.go:43-64 | the same for the offline tool, with the number of entries restored |
| Restore.FreshTreeHoldsLastPuts | internal/catalog/store.go:680-804 | the tree of a manifest of the live rows holds at every live path the bytes last put there in the run, and no other file |
| Restore.CommitAndRestore | internal/catalog/store.go:263-335 | round trip: commit in any reachable state, then restore the new manifest both ways; the manifest lists path, hash and size of exactly the live rows, the snapshot counts and sums them, both restores succeed if and only if no live path is a directory of another, and then hold at every live path the bytes last put there and nothing else |
| Feed.SanitizeAll | internal/backup/onedrive.go:325-330 | the segment loop drops empty segments and sanitizes the rest |
| Feed.DriveItemRelPath | internal/backup/onedrive.go:313-339 | the loop joins the safe segments whose meaning DriveSegsExact gives; the path is never "." and never contains ".." |
| Feed.DriveSegsExact | internal/backup/onedrive.go:313-339 | an item with parent path head + "/root:/" + folders, no segment of which needs sanitizing, has the segments folders and name; the name "root" in any case stands for the folder itself |
| Feed.DrivePathsDiffer | internal/backup/onedrive.go:313-339 | two such items, whatever their drives, share a path if and only if folders and name agree |
| Feed.DirAndBase | internal/backup/onedrive.go:256-260 | stored parent and name are all but the last segment, and the last |
| Feed.RemovalCoversSubtree | internal/catalog/store.go:186-222 | a removed path covers a stored row if and only if it is that row's path or a folder above it, segment by segment |
| Feed.FetchedAtItsPath | internal/backup/onedrive.go:256-260 | the row of a fetched drive item has the item's own path below the mailbox |
| Feed.RemovalTakesItem | internal/backup/onedrive.go:234-245 | a removal report covers a fetched item if and only if it names the item's path or a folder above it |
| Feed.MessageNameKeepsShortId | internal/backup/exchange.go:284-285 | the name a message is stored under gives its short id back |
| SyncMeaning.FetchMeans | internal/backup/reuse.go:22-39 | a fetched entry leaves one live row with its place, name and subject; the content is the stored one exactly if it may be reused, else the served one |
| SyncMeaning.MessageMeans | internal/backup/exchange.go:272-330 | the entry of a message, in terms of the tables alone: nothing, not live any more, or live where it was reported |
| SyncMeaning.RemovalMeans | internal/backup/onedrive.go:234-245 | a removal kills exactly the live rows of the mailbox at or below the path and the file's own row |
| SyncMeaning.DriveMeans | internal/backup/onedrive.go:224-291 | the entry of a drive item, in terms of the tables alone |
| SyncMeaning.LastReportsHold | internal/backup/onedrive.go:216-311 | over a whole feed: a row whose last report is a removal is not live, a mail of a mail feed whose last report is no removal is live as reported, and so is such a file if and only if no later removal names its path or a folder above it |
| SyncMeaning.QuietFeedIff | internal/catalog/store.go:80-90 | over a whole feed on a tracked session: nothing of the service is pending in the end if and only if no entry removes an id, covers a live row or asks for another place, subject or content than the stored row has; the state is then unchanged |
| SyncMeaning.SyncSkipsIff | internal/catalog/store.go:263-289 | the commit after an incremental sync is skipped if and only if every report of the feed is old news for the catalog it started from, a removal of an absent id never being so; the catalog is then untouched |
| DeltaTokens.TokenStore.Persist | internal/backup/delta.go:21-28 | stores the link; an empty link never overwrites one |
| DeltaTokens.TokenStore.DeleteAll | internal/db/token.go:55-61 | drops exactly the links of one tenant and service; both names required |
| DeltaSync.DeltaEffect | internal/backup/onedrive.go:221-291 | one entry changes the live rows the same way whether content is reused or downloaded |
| DeltaSync.RunsFit | internal/backup/onedrive.go:216-311 | invariant of replaying: rows without an entry of their own in the replayed stretch are as at the checkpoint, or dead now and in the end |
| DeltaSync.CrashResume | internal/backup/onedrive.go:216-311 | any number of jobs stopped anywhere, inside a folder removal too, and checkpoints lagging by any amount: once the furthest position is reached again the live catalog is that of one uninterrupted job |
| DeltaSync.FinishedSync | internal/backup/exchange.go:265-347 | in particular at the end of the feed |
| SyncLoop.HandleMessage | internal/backup/exchange.go:272-330 | one message does what its entry means, and in a catalog without import ids: without an id nothing changes; removed, its key is not live; otherwise it is live with the task's mailbox and folder, the decoded subject, a name that gives the short id back, and the stored content or else the served one; no other row changes |
| SyncLoop.HandleDriveItem | internal/backup/onedrive.go:224-291 | one drive item does what its entry means, and in a catalog without import ids: a file with id and path is live at that path with the stored content if the size agrees, else the served one; after a removal nothing at or below the path is live and every other row is as before |
| SyncLoop.CutRemoval | internal/catalog/store.go:216-220 | a folder removal stopped after any number of its single deletions |
| SyncLoop.SyncPage | internal/backup/onedrive.go:220-292 | a page applies exactly the entries before the cancellation, and some rows of a removal it is cancelled in |
| SyncLoop.SyncPages | internal/backup/onedrive.go:216-311 | a job applies a contiguous stretch of the feed from its saved link, possibly cut off inside a removal; the stored link is that of the last complete page, never ahead; without cancellation or failed fetch it finishes |
| SyncLoop.RunJobs | internal/backup/delta.go:11-28 | full or incremental jobs one after another on the stored link, each cut off anywhere: when one finishes, the live catalog is that of a single job, the final delta link is stored, and every last report of the feed holds (mails and files live as reported, removed ones not) |
| RunnerSafety.UpdateKeepsOneActive | internal/db/migrations/sqlite/008_job_active_lock.sql:11-13 | a row update never makes two active rows of one tenant and service |
| RunnerSafety.FileLockIsFree | internal/backup/job.go:302-332 | a run that gets to the file lock finds it free, because it is released before the gate |
| RunnerSafety.StepKeepsInv | internal/backup/job.go:395-459 | every step of every actor keeps: semaphores count their holders, one holder per gate and lock, cancel functions registered exactly while in place, one active row per lane |
| RunnerProgress.MutualExclusion | internal/backup/job.go:407-459 | over every interleaving: one body per tenant and service, at most MaxConcurrent bodies, at most MaxConcurrentFull loaded as full, file lock never fails, one active row per tenant and service |
| RunnerFull.FullBodiesBounded | internal/backup/job.go:407-411 | in every reachable state the bodies of type full are at most MaxConcurrentFull plus those that promoted themselves |
| RunnerFull.FullLimitHolds | internal/backup/job.go:407-411 | over every run in which no job promotes itself MaxConcurrentFull bounds all bodies of type full |
| RunnerFull.FullLimitCanBeExceeded | internal/backup/job.go:509-517 | for any distinct tenants, up to MaxConcurrent, a run from the empty runner in which each has a full body running and no full slot is taken |
| RunnerProgress.NeverStuck | internal/backup/job.go:407-428 | no deadlock: with any run unfinished some run can step |
| RunnerProgress.RunsAreFinite | internal/backup/job.go:395-698 | runs cannot step forever |
| RunnerProgress.RunsCanFinish | internal/backup/job.go:395-698 | from every such state letting the runs go on finishes all of them |
| RunnerProgress.EveryJobCanFinish | internal/backup/job.go:63-83 | the same from every reachable state of every runner the constructors allow |
| RunnerProgress.StuckMeansDone | internal/backup/job.go:407-428 | a state in which no run can step has finished every run |
| RunnerOutcome.SuccessComesFromBody | internal/backup/job.go:543-549 | over every run from the empty runner: a row is "success" or "warning" only if some step ended the body of its run with that outcome |
| RunnerOutcome.OutcomeIsWritten | internal/backup/job.go:698-747 | whatever goes on after the body of a run ended, or stopped before it began, unless a cancel or watchdog call on it fires or closes later: from its last write on the row is the one the outcome calls for, success, warning, error or cancelled, with the type of the run; a success under a cancelled context counts as cancelled, and a row already cancelled is left as it is |
| RunnerOutcome.ReachableIsPlain | internal/backup/job.go:700-747 | in every reachable state a write that outlives the context only says "error" or "cancelled" |
| RunnerOutcome.CancelledNeverSucceeds | internal/backup/job.go:700-747 | once its context is cancelled, a row that is not successful yet is never successful in any continuation |
| RunnerOutcome.CancelledStaysIff | internal/backup/job.go:698-747 | a cancelled row stays cancelled in every continuation if and only if its run may not wake it, is not about to write another status past its context, and no watchdog call on it is open |
| RunnerOutcome.ClosedBeforeStart | internal/backup/job.go:395-405 | a job closed before its run starts takes no slot, gate or lock in any continuation |
| RunnerOutcome.LinksChangeIff | internal/backup/job.go:242-250 | exactly which steps of the machine store and delete the delta links of a tenant and service |
| RunnerOutcome.CutOffKeepsLinks | internal/backup/job.go:509-517 | a run whose context is cancelled neither stores nor deletes delta links |
| RunnerOutcome.KillRun | internal/backup/job.go:362-393 | an uninterrupted KillStale leaves a running row failed and its registered context cancelled, and does nothing to any other row |
| RunnerCancel.OnlyMarksWake | internal/backup/job.go:441-443 | a step turns a closed row active if and only if it is the run's own mark or promotion, uncancelled, in a free lane |
| RunnerCancel.NoResurrection | internal/backup/job.go:335-393 | once Cancel or KillStale finds the registered function, a closed row stays closed in every continuation |
| RunnerCancel.CancelIsFinalIff | internal/backup/job.go:415-443 | an uninterrupted cancel is final in every continuation if and only if the run is not between its second look at the row and the registration |
| RunnerCancel.CancelCanBeLost | internal/backup/job.go:415-443 | for every tenant and service a run from the empty runner in which a cancel gets lost |
| RunnerClosed.ReachableIsUnmarked | internal/backup/job.go:395-443 | in every reachable state a row is queued, cancelled or failed until its run marks it |
| RunnerClosed.StaysClosedIff | internal/backup/job.go:335-393 | in any state, whatever closed the row, it stays closed in every continuation if and only if its run is cut off or neither between its second look and its mark nor before a promotion it may still make |
| RunnerAdmission.ReachableIsSound | internal/backup/job.go:395-747 | in every reachable state the runner's invariant holds, runs only ever aim at final statuses, and up to its first mark a run's job type is that of its active row |
| RunnerAdmission.IncrementalCall | internal/backup/job.go:220-264 | a whole incremental or export call with any steps of runs and cancels between its own: every refusal leaves no trace; it is refused if and only if the lane is busy at the first check, a full job is active at the second, or a row of the lane was revived since and is active; a full job is active at the insert if and only if one was revived or promoted after the second check |
| RunnerAdmission.FullCall | internal/backup/job.go:220-264 | a whole full call likewise: refused without a trace if and only if the lane is busy at the first check; after the deletion of its links refused if and only if a row of the lane was revived since that check and is still active, otherwise admitted |
| RunnerAdmission.LaneTakenIff | internal/db/migrations/sqlite/008_job_active_lock.sql:11-13 | a lane found free is taken at the insert if and only if a row of it was revived in between and is still active |
| RunnerWitness.LinksCanBeLost | internal/backup/job.go:242-264 | for every tenant and service a run from the empty runner to stored delta links that an enqueue call deletes before it is refused |
| RunnerClosed.LinksAtRiskIff | internal/backup/job.go:220-264 | for a full call that passes its first check: some continuation deletes the links and then refuses if and only if at that check a row of the lane has a run that may still wake it |
| Admission.Queue.EnabledGraphServices | internal/backup/job.go:287-300 | exactly the Graph services named by an enabled schedule, without the triggering one |
| Admission.Queue.CreateJob | internal/db/job.go:139-153 | inserts unless the lane has an active row |
| Admission.Queue.EnqueueLocked | internal/backup/job.go:197-265 | admitted if and only if the tenant is known where its store is looked at, nobody counted is active, a job that does not run as full finds no full job active, and one that does has both names; busy if and only if known and taken; refusals and errors change nothing; an accepted job's row, type (full exactly if asked for or the service has nothing stored), links and fan-out list |
| Admission.Queue.FanOut | internal/backup/job.go:183-193 | every listed service ends up with a new full job or was active before; only Graph services named by schedules get rows |
| Admission.Queue.EnqueueParams | internal/backup/job.go:174-195 | the whole call, admitted or busy under the same exact conditions: refusal without a trace; one new row, or on an empty tenant also a full job for every enabled Graph service not active before; exactly the links of new full lanes gone; one active row per lane kept |

## Left out

- Item columns mtime, content type and sender: they take part in no decision modelled here.
- SHA-256 is a free injective constructor; AES-GCM, zstd and JSON are taken as invertible and do not appear.
- Message short ids are an arbitrary function to ten hex digits; where two messages share one, the first put takes over the imported row.
- MIME header decoding is any function on strings.
- Composite string keys ("service NUL id", "day", "week" formats) are tuples of their parts.
- Integer overflow of Go durations and of sizes; instants are unbounded nanoseconds.
- Files that are already in the destination of a restore; it starts empty.
- Failed database or file writes partway through an operation, and imports interrupted between services.
- The import walk over a legacy sync tree and `EnsureMigrated`; only the name round trip and the rematch are modelled.
- Expired delta links, which restart a feed from its beginning, and Graph requests that fail per item.
- Crash and resume assumes that Graph serves the same entries again, that content per id does not change during the sync, that a stored row which may stand in for a download has the served content, and that no row carries an import id.
- Teams and SharePoint fetching, the export service, the Graph client, HTTP handlers, notifications, scheduling and the watchdog's clock.
- Process restart (`RecoverOrphans`) and the process lock; the runner starts empty.
- Progress writes of a running job, which leave status and type alone.
- Writes of Cancel and KillStale are assumed to succeed.
- The runner's body is one step from start to outcome; what it does to the catalog is the subject of the catalog part.
- Update in place and aliasing of the runner's shared maps: the interleaved runner is a state machine on values, since its steps belong to many threads.
- Search, single-file download and listing of mailboxes and folders.
- Browse.EntriesAtPrefix: does not model the final sorting of entries, nor sizes and times shown with them.
- SyncLoop.SyncPages: counts of handled items and warnings are not modelled.

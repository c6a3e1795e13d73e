# Wenyi: a verified model of its desktop and storage protocols

Wenyi translates books. Its desktop application is a Rust shell around a Python engine; its server keeps
projects in PostgreSQL. This project models the parts of both that must stay correct while threads,
processes, other programs and crashes interleave, and proves what they promise.

| file | what it models |
|---|---|
| `ProfileLease.dfy`, `ProfileCalls.dfy` | the admission gate, the shared or exclusive profile lock and the registry of live writers, for all processes of a machine |
| `UpdateMachine.dfy`, `UpdateSafety.dfy`, `UpdateProgress.dfy`, `UpdateCalls.dfy` | startup, quit, health monitor, native saves and the self-update of one process beside all others |
| `Publication.dfy`, `PublicationCalls.dfy` | saving an export: staged write, second validation, publication, and the ledgers of protected sources |
| `Protocol.dfy` | the bounded reader of the engine's pipe against plain lines |
| `AdmissionQueue.dfy`, `LogStore.dfy`, `ReportBundle.dfy` | diagnostics: the lossy queue, the rotating store with its directory budget, the report and its completeness flag |
| `Activation.dfy` | a second start of the application: deferred requests, the workspace lock, the discovery record |
| `PluginUpdate.dfy` | the BabelDOC update with cancellation at every await, and the job gate it closes |
| `SegmentHistory.dfy`, `UsageJournal.dfy` | revision rows that replay to the text, and the redo journal of usage ledgers |
| `Counters.dfy`, `Paths.dfy` | two pairs of implementations that must agree |

A protocol between threads or processes is a state machine whose steps are single shared accesses or system
calls, and its theorems hold in every run. Beside it stands the source's own imperative form: a class whose
methods follow the source statement by statement and let arbitrary steps of everybody else pass at each
point where control is given up. Flags such as `alone`, `calm` and `quiet` say that nobody interferes, and
`steady` and `fine` that nothing is refused; under them a method's whole result is specified, so that an
operation cannot pass by always refusing.

What the proofs show to be false, with the exact condition under which it holds:

- A revision view lists newest first only if transactions start in the order in which they commit. A row's
  time is the start of its transaction, taken before the state lock is waited for (`ViewFollowsLogIff`,
  `LoggedViewIff`, `SnapshotRowIff`, `LateCommitMisplaced`).
- A revision chain restarts when a save leaves a paragraph out (`DroppedChainRestarts`, `ReplaysIffKept`).
- A negative identity limit makes the in-memory counters raise where the Redis script counts (`Replay`).
- Roots that pass the disjointness check have no path under two of them exactly if there is but one root or none
  of them is bare (`NothingSharedIff`; `PairIsJudgedIff` for one pair, `BareRootEscapes` for the input). The
  boundary test also lets a bare root meet itself where the component test does not (`LanguagesAgreeIff`).
- On Windows the two tests agree on two directories exactly if both spellings open in the same way or their
  components do not nest (`WindowsAgreeIff`): a drive path behind a verbatim prefix is nested for the
  component test alone. Plain shares agree with plain shares, and verbatim spellings with verbatim ones, but a
  share and the same share behind a verbatim prefix are apart for both tests (`VerbatimShareIsMissed`).
- The slots kept for failures are exact only while no ordinary call is just being refused: then one such call
  can cost a failure the last slot (`RefusedIff`, `OneRefusalStarvesFailure`).
- A second start can yield to a foreign program. It is misled exactly if such a program answers on the endpoint
  it read from the discovery record, which needs that the holder of the lock has not published that endpoint or
  has stopped listening on it (`RecordedEndpointIff`). That happens before a new instance replaces a
  dead one's record, while an instance whose listener has gone still holds the lock, and when a record
  is read before it is replaced and asked after (`StaleRecordMisleads`, `GoneListenerMisleads`,
  `StaleReadMisleads`).

Environment rules that are assumed: an engine of a native parent registers its writer lease behind the
admission gate (apps/desktop/backend/wenyi_desktop/migration/ownership.py:128-168);
`state_lock` serialises transactions and the Redis script is atomic; random identifiers are fresh, and a new child
never gets an identity this process has seen; the handler a window installs never answers that it is starting; writing the
plugin's state file raises nothing but operating system errors; a file with an unguessable temporary name is
touched by nobody else. Where code and documentation disagree, the code is followed.

## Model

| member | source | states |
|---|---|---|
| `ProfileLease.StepInv` | apps/desktop/src/profile.rs:75-203 | every system call and every crash keeps the locks the system holds equal to those each process believes it holds, and no live writer appears behind a registry scan |
| `ProfileLease.RunInv` | apps/desktop/src/profile.rs:75-203 | the same over any schedule of any number of processes |
| `ProfileLease.OneUpgrade` | apps/desktop/src/profile.rs:153-171 | at most one process upgrades; meanwhile nobody else has a shared lease, an upgrade or the gate |
| `ProfileLease.HeldStep` | apps/desktop/src/profile.rs:182-203 | beside a held upgrade no step adds a shared lease or a live writer |
| `ProfileLease.WritersOnlyStop` | apps/desktop/src/profile.rs:182-203 | over any run that keeps the upgrade, the live writers only shrink |
| `ProfileLease.ExclusiveScanned` | apps/desktop/src/profile.rs:162-170 | when the scan of exclusive() ends, the only live writer can be the caller's own |
| `ProfileLease.QuietUntilDropped` | apps/desktop/src/profile.rs:188-192 | after quiescent() returns Ok the set of live writers stays empty until the guard is dropped, whatever the others do |
| `ProfileLease.RelockNeverWaits` | apps/desktop/src/profile.rs:153-171 | in every reachable state both blocking shared re-locks succeed at once |
| `ProfileLease.OnlyTheGateRefuses` | apps/desktop/src/profile.rs:140-151 | a process that has the gate always gets its shared lease |
| `ProfileLease.PrunesOnlyStale` | apps/desktop/src/profile.rs:75-137 | only unlocked lease files leave the registry; anything else is left as it was |
| `ProfileLease.CrashReleases` | apps/desktop/src/profile.rs:174-203 | a crash drops the dead process's locks, keeps every registry file and removes exactly its own leases from the live ones |
| `ProfileLease.ScanPassesIff` | apps/desktop/src/profile.rs:96-135 | a scan goes past an entry exactly if it is a lease file that is stale, tolerated or the caller's own, and removes exactly the stale ones that are not the caller's |
| `ProfileLease.RegistersAndStops` | apps/desktop/backend/wenyi_desktop/migration/ownership.py:128-168 | an engine's lease is live from its registration behind the gate until it stops, and the gate is free meanwhile |
| `ProfileCalls.SharedProfile.Writers` | apps/desktop/src/profile.rs:75-137 | the registry loop reads every entry or stops at the first refusal, under any interference; calm, it succeeds exactly if every entry is passable, and drops exactly the stale ones that are not the caller's own |
| `ProfileCalls.SharedProfile.Enter` | apps/desktop/src/profile.rs:140-151 | Ok means the ordinary lease is held, an error no lease at all; calm, it succeeds exactly if the gate is free and every registry entry is a lease file |
| `ProfileCalls.SharedProfile.Exclusive` | apps/desktop/src/profile.rs:153-171 | Ok means an upgrade with no live writer but the caller's, an error leaves the ordinary lease; calm, it succeeds exactly if the gate is free, nobody else shares the lease and only the caller's own writer is live |
| `ProfileCalls.SharedProfile.Quiescent` | apps/desktop/src/profile.rs:188-192 | Ok means no live writer, and the upgrade is kept either way; calm, it succeeds exactly if every entry is a lease file and none is live |
| `ProfileCalls.SharedProfile.DropUpgrade` | apps/desktop/src/profile.rs:194-203 | dropping the guard ends in the ordinary lease |
| `UpdateMachine.StepInv` | apps/desktop/src/updates.rs:585-766 | every shared access of startup, quit, health monitor, saves, update phase, install and any other process keeps the whole protocol invariant |
| `UpdateMachine.StartKeeps` | apps/desktop/src/main.rs:84-143 | the startup thread never owns `closing`, never reopens saves and never fills a slot that quit has emptied |
| `UpdateMachine.QuitKeeps` | apps/desktop/src/main.rs:508-531 | quit's steps keep `closing` single-owned |
| `UpdateMachine.MonitorKeeps` | apps/desktop/src/main.rs:429-464 | the health thread, late report included, changes nothing but the error |
| `UpdateMachine.FrozenKeeps` | apps/desktop/src/updates.rs:480-519 | prepare, cancel and stop_engine keep the saves closed and the token held |
| `UpdateMachine.SideProgress` | apps/desktop/src/main.rs:47-52 | once an install has passed its first check no other thread changes the published connection or clears the error |
| `UpdateMachine.BesideKeeps` | apps/desktop/src/updates.rs:611-712 | calls of other processes cannot disturb the lease an install holds, nor its quiescence |
| `UpdateMachine.MineQuiets` | apps/desktop/src/updates.rs:671-689 | the second look at the registry leaves no live writer |
| `UpdateSafety.PlayInv` | apps/desktop/src/updates.rs:611-712 | the invariant holds over every run |
| `UpdateSafety.InstallerRunsAlone` | apps/desktop/src/updates.rs:611-712 | in every run the installer runs only with the exclusive lease held and quiescent, the engine exited and its handle taken, saves closed with nothing active or pending, `closing` owned, no quit and no second install |
| `UpdateSafety.InstallerFollowsBackup` | apps/desktop/src/updates.rs:571-583 | the only way there is a backup that returned Ok in a quiescent profile |
| `UpdateSafety.FailedInstallIsConsistent` | apps/desktop/src/updates.rs:480-503 | after every failing exit saves are closed exactly if quit closed them or the engine's state is unknown, `closing` and the page's flag are set exactly if quit set them, an unknown engine has no connection and an error, and a recovered one is connected |
| `UpdateSafety.BrokenUntilRestart` | apps/desktop/src/updates.rs:480-487 | after an ending with the engine's state unknown no later step admits a save or lets an update past its first check |
| `UpdateSafety.QuitUnlessUpdating` | apps/desktop/src/main.rs:145-147 | quit can begin exactly when no install owns `closing` |
| `UpdateSafety.QuitNeverTurnsBack` | apps/desktop/src/main.rs:508-531 | once begun, quit never loses ground to any other thread |
| `UpdateSafety.QuitIsFinal` | apps/desktop/src/main.rs:47-52 | after quit has announced itself neither a late ready signal nor anything else clears closing, and once it took the child the slot stays empty |
| `UpdateSafety.DrainOnlyFalls` | apps/desktop/src/main.rs:508-531 | the count quit waits for only falls and an active save can always end |
| `UpdateProgress.RespawnIsFree` | apps/desktop/src/updates.rs:585-595 | in every run, when recovery comes to start an engine the old one's handle is gone and the process is not closed, although `closing` is still set |
| `UpdateProgress.RecoverySpawns` | apps/desktop/src/main.rs:85-115 | so a successful spawn gives the process its new child, and only a failed one ends recovery |
| `UpdateProgress.RecoveryReconnects` | apps/desktop/src/updates.rs:585-609 | left alone, a replacement engine that announces itself is connected, and error, page flag, saves and `closing` are all given back |
| `UpdateProgress.RecoveryFails` | apps/desktop/src/updates.rs:585-609 | one that does not is given up: the error shows, saves stay closed and Quit is possible again |
| `UpdateProgress.FirstStart` | apps/desktop/src/main.rs:85-143 | the first start, left alone, spawns, marks and connects the engine |
| `UpdateProgress.FailedStart` | apps/desktop/src/main.rs:130-142 | a start that fails reports an error, connects nothing and drops the handle of a child that has exited |
| `UpdateProgress.QuitCompletes` | apps/desktop/src/main.rs:508-531 | a quit no update stands against runs to its end once no save is active |
| `UpdateProgress.HealthRound` | apps/desktop/src/main.rs:429-464 | one round of the health thread reports an error exactly if a ready engine has exited |
| `UpdateProgress.SavesAdmittedIff` | apps/desktop/src/native_export.rs:231-255 | in every run a save is admitted exactly unless an update holds the saves, quit has shut them or an update left them shut |
| `UpdateProgress.DownloadLeadsToInstall` | apps/desktop/src/updates.rs:264-433 | from any phase that is not busy, a found and downloaded update can be installed |
| `UpdateProgress.FailuresCanBeRetried` | apps/desktop/src/updates.rs:337-433 | a failed check can be repeated, and a failed download keeps the update it can be tried with again |
| `UpdateCalls.StepLeads` | apps/desktop/src/updates.rs:611-712 | each statement of install() leads exactly where its control flow says |
| `UpdateCalls.Desktop.Finish` | apps/desktop/src/updates.rs:611-712 | each lease call of install() ends, whatever the other processes do |
| `UpdateCalls.Desktop.Admit` | apps/desktop/src/updates.rs:611-665 | install() reaches the frozen state or returns a refusal that changed nothing it owns; calm and undisputed it is admitted exactly if a client can be built |
| `UpdateCalls.Desktop.Prepare` | apps/desktop/src/updates.rs:489-503 | a preparation that succeeds goes on; a failing one ends cancelled if the engine acknowledges that, and uncertain if not |
| `UpdateCalls.Desktop.StopEngine` | apps/desktop/src/updates.rs:505-519 | the installer's precondition is reached only past an engine that was seen to exit; calm, the call gives up exactly if the engine still runs, and otherwise finds the profile quiescent |
| `UpdateCalls.Desktop.InstallPrepared` | apps/desktop/src/updates.rs:571-583 | the installer is called only after the backup, in a state where nothing writes, and takes over exactly if both succeed |
| `UpdateCalls.Desktop.RecoverEngine` | apps/desktop/src/updates.rs:585-609 | under any interference recovery ends with a connected new engine exactly if one is spawned and announces itself, and in the error state otherwise |
| `UpdateCalls.Desktop.Install` | apps/desktop/src/updates.rs:611-712 | the whole call in source order: it ends in the restart or in an error whose state is consistent; undisturbed and undisputed, its outcome is exactly the one the replies call for: restart, refusal, cancelled, uncertain, stuck, recovered or not recovered |
| `Protocol.ReceiveProtocol` | apps/desktop/src/process.rs:351-410 | for every byte stream the chunked reader does exactly what splitting into lines says, and sends exactly one result |
| `Protocol.PieceRefused` | apps/desktop/src/process.rs:361-387 | a piece without its newline refuses its line once and the rest of that line is never interpreted |
| `Protocol.PieceTaken` | apps/desktop/src/process.rs:361-387 | a piece with its newline is the whole rest of a line |
| `Protocol.SplitLosesNothing` | apps/desktop/src/process.rs:361-387 | the lines and the unfinished rest make up the stream |
| `Protocol.SplitAtNewlines` | apps/desktop/src/process.rs:361-379 | every line holds one newline, at its end |
| `Protocol.IngestsEveryDiagnostic` | apps/desktop/src/process.rs:395-397 | every diagnostic frame is ingested once and in order, before and after the result |
| `Protocol.SentOnce` | apps/desktop/src/process.rs:361-409 | nothing later changes the result that was sent |
| `Protocol.ReadyIffFirst` | apps/desktop/src/process.rs:398-404 | the port is sent exactly if the first line that is no diagnostic is a valid ready frame |
| `Protocol.ResultIs` | apps/desktop/src/process.rs:361-409 | the one result of every stream: the verdict on its first line that is no diagnostic, or the read error, the end of the stream or the invalid last line |
| `Protocol.AnnouncedIsSent` | apps/desktop/src/process.rs:65-74 | whatever the child announces in the right form is passed on |
| `Protocol.PortIsAuthentic` | apps/desktop/src/process.rs:65-74 | a port is passed on only if a whole line with version 1, a port and the spawned child's identity announced it after nothing but diagnostics |
| `AdmissionQueue.StepInv` | apps/desktop/src/diagnostics.rs:744-763 | every atomic step of every producer and of the writer keeps counter, places, order and both limits |
| `AdmissionQueue.AdmittedFindsRoom` | apps/desktop/src/diagnostics.rs:834-845 | an admitted record always finds room in the channel, so sending fails only when the writer is gone |
| `AdmissionQueue.WithinLimits` | apps/desktop/src/diagnostics.rs:24-25 | admitted but unwritten records never exceed 4096, and INFO and DEBUG among them never exceed 3584 |
| `AdmissionQueue.NothingVanishes` | apps/desktop/src/diagnostics.rs:834-845 | every call that reached admission is stored, under way, lost with the writer or counted as dropped, and only one of these |
| `AdmissionQueue.DrainedMeansStored` | apps/desktop/src/diagnostics.rs:877-882 | a counter of zero means every queued record reached the store |
| `AdmissionQueue.RefusedIff` | apps/desktop/src/diagnostics.rs:834-842 | a record is refused exactly if slots in use plus calls being refused reach its limit; with no refusal under way the reserve for failures is exact |
| `AdmissionQueue.OneRefusalStarvesFailure` | apps/desktop/src/diagnostics.rs:834-842 | a reachable state in which one ordinary record that is being refused costs a failure the last free slot |
| `AdmissionQueue.AfterBacklog` | apps/desktop/src/diagnostics.rs:834-845 | the counter and the channel after any number of queued records that the writer has not taken |
| `AdmissionQueue.WriterDrains` | apps/desktop/src/diagnostics.rs:744-763 | left alone the writer stores all that is queued, in order, and every slot comes back |
| `AdmissionQueue.Channel.Record` | apps/desktop/src/diagnostics.rs:834-845 | under interference the record ends queued or counted; alone it is queued exactly if the counter was below its limit and the writer exists |
| `LogStore.OwnsWhatItCreates` | apps/desktop/src/diagnostics.rs:426-451 | a name is managed exactly if it is a session and six digits in the form the store creates |
| `LogStore.ListedIs` | apps/desktop/src/diagnostics.rs:530-555 | the listing is sorted by age, holds every regular file once and weighs what the directory weighs |
| `LogStore.Store.Files` | apps/desktop/src/diagnostics.rs:530-555 | the listing, or an error exactly when more than 4096 regular files are met |
| `LogStore.Store.Sweep` | apps/desktop/src/diagnostics.rs:577-593 | only managed, settled, non-current files go, oldest first, and every unexpired one that went was over budget when its turn came; afterwards no evictable file is expired or pressed |
| `LogStore.SweepRemoves` | apps/desktop/src/diagnostics.rs:577-593 | one removal keeps all of that, for every file removed so far, and takes exactly the file's bytes off the total |
| `LogStore.RemovalNeeded` | apps/desktop/src/diagnostics.rs:588-591 | a removal moves bytes from the directory to what has gone, so each earlier removal stays justified |
| `LogStore.NewestGoneWasNeeded` | apps/desktop/src/diagnostics.rs:588-591 | putting the newest evicted log back would alone exceed the budget |
| `LogStore.SweepClears` | apps/desktop/src/diagnostics.rs:588-597 | a finished pass leaves an evictable file only when it is unexpired and the budget is met |
| `LogStore.Store.Maintain` | apps/desktop/src/diagnostics.rs:557-599 | every file that went had to go, as for the sweep; Ok means room for the incoming bytes and nothing expired left; the limit error means nothing evictable is left and still no room |
| `LogStore.PassLaw` | apps/desktop/src/diagnostics.rs:577-593 | whatever a pass takes is a settled log of this application, and older than seven days or over budget with everything that went after it; with room for what is incoming only age counts |
| `LogStore.Store.Idle` | apps/desktop/src/diagnostics.rs:756-763 | an idle minute is one retention pass with nothing incoming |
| `LogStore.PartsAreTold` | apps/desktop/src/diagnostics.rs:640-645 | the six digits spell the part, so no two parts of a session share a name |
| `LogStore.Store.Create` | apps/desktop/src/diagnostics.rs:640-659 | with room for a whole file, the next part gets its session and number as a name that no entry has and starts empty; it is refused past 999999, and for a taken name exactly if there is one |
| `LogStore.Store.Rotate` | apps/desktop/src/diagnostics.rs:633-659 | the old part is let go, one retention pass for a whole file runs, and a new empty part is all that is added; it succeeds where nothing stands in the way |
| `LogStore.GrownFits` | apps/desktop/src/diagnostics.rs:660-666 | writing all or part of a line keeps the directory within its total |
| `LogStore.Store.Append` | apps/desktop/src/diagnostics.rs:625-666 | one pass for the line, once a minute, one for a new part exactly when one is due, then the line: every other log that is gone was settled and expired or over budget at its pass; the total never leaves its limit again, failures and partial writes included |
| `LogStore.Store.Write` | apps/desktop/src/diagnostics.rs:601-623 | the ring keeps the last 256 records, five seconds pass between failing attempts, and the directory changes only as `Append` allows |
| `LogStore.Store.Clear` | apps/desktop/src/diagnostics.rs:668-684 | every managed log goes, every other file stays, the ring empties only on success |
| `LogStore.Store.Serve` | apps/desktop/src/diagnostics.rs:744-763 | over any sequence of records, idle minutes and clears the directory total stays within its limit and no foreign file is lost; with room for all that is written, no log that stays within its seven days disappears except by a clear |
| `ReportBundle.SelectAllKeeps` | apps/desktop/src/diagnostics.rs:980-1006 | selection keeps one record per event, in range, within 20 MiB, from the input only; nothing omitted or malformed means every wanted record is there |
| `ReportBundle.ScanIsCleanIff` | apps/desktop/src/diagnostics.rs:1012-1055 | a file counts as fully read exactly if reading did not fail, nothing is left over and every line is a record |
| `ReportBundle.CleanScanHasEveryLine` | apps/desktop/src/diagnostics.rs:1012-1055 | and then it yields the record of each line in order |
| `ReportBundle.CompleteIsComplete` | apps/desktop/src/diagnostics.rs:1109-1122 | a report that is not partial has every well-formed in-range record of ring and files exactly once, all three sources, nothing else, at most 20 MiB |
| `ReportBundle.SelectsExactlyTheWanted` | apps/desktop/src/diagnostics.rs:980-1006 | with room for all, the events selected are exactly those of the well-formed records in range |
| `ReportBundle.SelectsWhatFits` | apps/desktop/src/diagnostics.rs:980-1006 | a record counts as malformed exactly if it is, and none is left out while all have room |
| `ReportBundle.MissingIff` | apps/desktop/src/diagnostics.rs:1109-1122 | apart from unread input a report is partial exactly if something was left out or refused, a loss was counted or reported by a selected record, or one of the three sources has no record |
| `ReportBundle.Collector.ReadFile` | apps/desktop/src/diagnostics.rs:1010-1055 | one file is read to its end, to its first unreadable place, to the time limit or to the cancellation, and what was selected comes from it |
| `ReportBundle.Collector.Collect` | apps/desktop/src/diagnostics.rs:924-1056 | the selection is that of ring and files in order; undisturbed, partial is set exactly for unread input, a skipped record, a reported loss or a silent source |
| `Publication.StepInv` | apps/desktop/src/native_export.rs:722-837 | every step of any saver, of the application and of other programs keeps the invariant |
| `Publication.OneConfirmationOnePublication` | apps/desktop/src/native_export.rs:802-837 | of two publications confirmed against the same destination, another program changed the name in between: otherwise at most one publishes |
| `Publication.NewNeverReplaces` | apps/desktop/src/publish.rs:24-71 | a destination confirmed as new never costs an existing file, in any interleaving |
| `Publication.ReplacesWhatWasConfirmed` | apps/desktop/src/native_export.rs:726-738 | a publication replaces exactly the confirmed file and no uploaded source, unless another program changed the name after the final look |
| `Publication.NoneWhileClosed` | apps/desktop/src/native_export.rs:195-211 | nothing is published between a close and the next reopen |
| `Publication.QuietUntilReopened` | apps/desktop/src/native_export.rs:213-218 | with saving closed and no transfer active the application neither changes the folder nor leaves a temporary, until it reopens |
| `Publication.IdleMeansNoSave` | apps/desktop/src/native_export.rs:200-207 | close_if_idle succeeds only when no save is planned and no temporary exists |
| `Publication.ReopenAdmits` | apps/desktop/src/native_export.rs:209-211 | closing refuses every new save and reopening admits them again |
| `Publication.LedgersOnlyGrow` | apps/desktop/src/native_export.rs:129-158 | the protection ledgers only grow, within 1024 and 4096, and not while closing or during a final check |
| `Publication.PublishSound` | apps/desktop/src/native_export.rs:802-837 | what is moved has the promised length and the checks made under the mutex still hold |
| `Publication.PublishFirst` | apps/desktop/src/native_export.rs:802-837 | a confirmation that was used once is no longer valid |
| `PublicationCalls.Exports.ProtectSource` | apps/desktop/src/native_export.rs:129-158 | the caps of 1024 identities and 4096 names are checked before closing, an error adds nothing, success adds both entries |
| `PublicationCalls.Exports.CloseIdle` | apps/desktop/src/native_export.rs:200-207 | refuses exactly while closing or while any save is planned or running |
| `PublicationCalls.Exports.Open` | apps/desktop/src/native_export.rs:740-767 | closing, destination and protection are checked in this order before a fresh temporary is created |
| `PublicationCalls.Exports.Transfer` | apps/desktop/src/native_export.rs:768-793 | Ok means the whole stream was read and has exactly the promised length |
| `PublicationCalls.Exports.Recheck` | apps/desktop/src/native_export.rs:802-821 | every check is repeated under the mutex, in order |
| `PublicationCalls.Exports.Move` | apps/desktop/src/native_export.rs:822-837 | one namespace change: no-replace for a new name, rename over a confirmed one |
| `PublicationCalls.Exports.Copy` | apps/desktop/src/native_export.rs:740-837 | success publishes the streamed bytes exactly once and failure publishes nothing; no temporary is left either way; undisturbed, the result and the folder are exactly as specified |
| `PublicationCalls.ConfirmedSave` | apps/desktop/src/native_export.rs:701-738 | an undisturbed copy in any world reached after the confirmation: refused as changed exactly if the folder moved or the entry is not the one that was shown, by identity, size and time, and published exactly if nothing else is in the way |
| `PublicationCalls.TransferredIs` | apps/desktop/src/native_export.rs:768-793 | the transfer loop ends at the first read that fails or does not fit, and otherwise compares lengths at the end |
| `PublicationCalls.Exports.Choose` | apps/desktop/src/native_export.rs:631-663 | undisturbed, a destination is confirmed exactly if its folder is there, it is no protected source and no link or directory |
| `PublicationCalls.Exports.Save` | apps/desktop/src/native_export.rs:360-411 | a whole save: undisturbed it publishes exactly if saving is open, the destination can be used, an existing file may be replaced and the stream is whole and of its length; afterwards no guard and no temporary is left |
| `PluginUpdate.Plugin.Prepare` | apps/desktop/backend/wenyi_desktop/updates.py:42-67 | the gate is the plugin's exactly if the call succeeded; a tentative closing never survives a failure; where nothing else goes wrong it succeeds exactly if the gate was open |
| `PluginUpdate.Plugin.Reopen` | apps/desktop/backend/wenyi_desktop/updates.py:69-77 | a gate the plugin closed is opened again; one that a native update closed is refused and stays closed |
| `PluginUpdate.Plugin.Select` | apps/desktop/backend/wenyi_desktop/babeldoc_plugin.py:363-370 | memory names the new installation exactly if the file was replaced, and the previous one otherwise |
| `PluginUpdate.Plugin.Start` | apps/desktop/backend/wenyi_desktop/babeldoc_plugin.py:429-464 | a connection exists only after spawn, ready line and health check; a cancelled spawn still owns its process |
| `PluginUpdate.Plugin.StopService` | apps/desktop/backend/wenyi_desktop/babeldoc_plugin.py:511-518 | no connection and no watcher remain, and no child after a normal return |
| `PluginUpdate.Plugin.Swap` | apps/desktop/backend/wenyi_desktop/babeldoc_plugin.py:268-278 | behind the closed gate: commit exactly when the old service stopped, the new runtime started and the state file was replaced |
| `PluginUpdate.Plugin.Attempt` | apps/desktop/backend/wenyi_desktop/babeldoc_plugin.py:258-284 | commit means the new runtime started and the state file was replaced; the gate is held exactly if closed |
| `PluginUpdate.Plugin.Settle` | apps/desktop/backend/wenyi_desktop/babeldoc_plugin.py:286-314 | the old service unless committed, then the gate reopened if it was closed, then updating off, whatever raised before; undisturbed, a swap that failed ends with the old service connected |
| `PluginUpdate.Plugin.Restore` | apps/desktop/backend/wenyi_desktop/babeldoc_plugin.py:286-304 | a rollback starts the old installation whenever the plugin is enabled and not closing, and fails exactly if that start did not resume; an uncommitted update ends ready with the old service, disabled, or in error |
| `PluginUpdate.Plugin.Update` | apps/desktop/backend/wenyi_desktop/babeldoc_plugin.py:258-316 | however it ends: installation and version, in memory as in the file, are new exactly after a commit; the gate is closed exactly if a native update closed it; a rollback counts as failed only if the old installation was started and did not come up; an undisturbed update commits, and an undisturbed settlement of a failed swap ends ready with the old service and the failure kept |
| `SegmentHistory.ChapterStore.RecordChanges` | apps/api/wenyi_api/segment_history.py:11-50 | the rows inserted for a chapter are those of its paragraphs in order |
| `SegmentHistory.ChapterStore.SaveChapter` | apps/api/wenyi_api/storage_pg.py:358-407 | rows and segments change together, and not at all for a duplicate paragraph |
| `SegmentHistory.RowsLead` | apps/api/wenyi_api/segment_history.py:14-43 | a paragraph's rows lead from its stored text to its new one, through the draft when both were saved, and are none exactly if it did not change |
| `SegmentHistory.SaveAdds` | apps/api/wenyi_api/storage_pg.py:358-407 | what one save adds to one paragraph's log |
| `SegmentHistory.SaveRecords` | apps/api/wenyi_api/segment_history.py:14-43 | a manual edit is one row of that kind, a draft saved with its polishing two rows or only the polishing, any other change one translation or update |
| `SegmentHistory.SaveReplays` | apps/api/wenyi_api/storage_pg.py:358-407 | a save keeps a paragraph's log replayable exactly if it does not drop the paragraph's text |
| `SegmentHistory.ReplaysIffKept` | apps/api/wenyi_api/storage_pg.py:358-407 | over every save sequence the log replays to the stored text after each save exactly if no save drops the text |
| `SegmentHistory.DroppedChainRestarts` | apps/api/wenyi_api/storage_pg.py:358-407 | leaving a paragraph out and bringing it back restarts its chain |
| `SegmentHistory.LoadHistory` | apps/api/wenyi_api/segment_history.py:53-102 | the view is the sorted log and events, plus a snapshot and a draft line when they are missing |
| `SegmentHistory.ViewIs` | apps/api/wenyi_api/segment_history.py:77-101 | the view is every revision and older edit, a snapshot row where it is needed, and the draft exactly if it is neither the stored text nor in any of them |
| `SegmentHistory.NewestFirstSorts` | apps/api/wenyi_api/segment_history.py:60-76 | the view is sorted newest first and loses nothing |
| `SegmentHistory.ViewFollowsLogIff` | apps/api/wenyi_api/segment_history.py:60-76 | the view is the log reversed exactly if transaction starts follow commit order |
| `SegmentHistory.LoggedViewIff` | apps/api/wenyi_api/segment_history.py:77-101 | a kept paragraph's view, without older events, is its log latest first without a snapshot row exactly if transaction starts follow commits |
| `SegmentHistory.SnapshotRowIff` | apps/api/wenyi_api/segment_history.py:77-91 | with older events included, a kept paragraph's view gets a snapshot row exactly if a line newer than its last committed revision leaves another text |
| `SegmentHistory.LateCommitMisplaced` | apps/api/wenyi_api/storage_pg.py:123-135 | two saves whose commit order differs from their start order: the newest line is a snapshot although the log is complete |
| `UsageJournal.Storage.ReplayOne` | apps/api/wenyi_api/storage_pg.py:609-624 | an entry is refused exactly if its ledger holds neither recorded nor new value; otherwise its new value is written |
| `UsageJournal.Storage.Recover` | apps/api/wenyi_api/storage_pg.py:609-625 | with a crash allowed after any write: the finished state, the refusal at the first entry that cannot be replayed, or the exact prefix that was written |
| `UsageJournal.UsageKeyIff` | apps/api/wenyi_api/storage_pg.py:590-593 | a journal may name the book's ledger and the ledger of any review named without a separator, and nothing else |
| `UsageJournal.HalfwayRecovers` | apps/api/wenyi_api/storage_pg.py:609-625 | recovery restarted from any prefix sees the same journal, refuses exactly if the first run would, and ends in the same ledgers |
| `UsageJournal.HalfwayAgain` | apps/api/wenyi_api/storage_pg.py:609-625 | two interrupted runs leave what the longer one would have left |
| `UsageJournal.RecoverAfterCrashes` | apps/api/wenyi_api/storage_pg.py:609-625 | after any number of crashes anywhere the journal is applied once and gone, or refused with the journal kept |
| `UsageJournal.AppliedWrites` | apps/api/wenyi_api/storage_pg.py:527-559 | every named ledger ends with its validated value |
| `UsageJournal.AppliedSpares` | apps/api/wenyi_api/storage_pg.py:527-559 | a commit touches no artifact but its ledgers |
| `UsageJournal.PrepareCommit` | apps/api/wenyi_api/storage_pg.py:595-607 | the journal records every ledger's present value, or nothing changes when a name is refused |
| `UsageJournal.PreparedCommits` | apps/api/wenyi_api/storage_pg.py:595-625 | a fresh journal is recoverable exactly if every new ledger is valid, and then commits all of them and nothing else |
| `Counters.KeyInjective` | apps/api/wenyi_api/metrics.py:41-52 | the flat identity keeps apart what the pair keeps apart and is never the empty one |
| `Counters.RememberedDistinct` | apps/api/wenyi_api/metrics.py:12-27 | the remembered identities never repeat |
| `Counters.RememberedStep` | packages/backend/wenyi_backend/metrics.py:32-42 | one call shifts the window of the last admitted identities by at most one |
| `Counters.RememberedIff` | packages/backend/wenyi_backend/metrics.py:36-40 | an admitted identity is remembered exactly while fewer than the limit were admitted after it |
| `Counters.MemoryCounters.Evict` | packages/backend/wenyi_backend/metrics.py:36-40 | the eviction loop keeps the last identities and raises exactly for a negative limit |
| `Counters.MemoryCounters.Increment` | packages/backend/wenyi_backend/metrics.py:32-42 | counts exactly the calls without a remembered identity, and remembers the last admitted ones |
| `Counters.RedisCounters.Remember` | apps/api/wenyi_api/metrics.py:12-27 | set and list hold the same last identities |
| `Counters.RedisCounters.Increment` | apps/api/wenyi_api/metrics.py:12-27 | the same counting with a set, a list and a hash |
| `Counters.SameTallySameSnapshot` | packages/backend/wenyi_backend/metrics.py:44-48 | the snapshots are equal exactly if the limit is not negative or no call has an identity |
| `Counters.Replay` | apps/api/wenyi_api/metrics.py:54-64 | over every call sequence both stores remember the same identities and give equal snapshots under that condition |
| `Counters.TalliesDiffer` | packages/backend/wenyi_backend/metrics.py:36-40 | with a negative limit and one identity some count differs |
| `Paths.OverlapIsNesting` | apps/desktop/src/paths.rs:462-473 | for every two paths, what the boundary test calls nested is nested by whole components |
| `Paths.OverlapIffNesting` | apps/desktop/src/paths.rs:462-473 | for clean spellings of one kind with a component each, both directions hold |
| `Paths.LanguagesAgreeIff` | apps/desktop/backend/wenyi_desktop/library_location.py:60-84 | both languages agree on clean spellings exactly if not both paths are the bare root |
| `Paths.WindowsAgreeIff` | apps/desktop/backend/wenyi_desktop/library_location.py:60-84 | on Windows both languages agree on two directories exactly if their spellings open alike (drive, root, share or verbatim prefix) or their components are apart anyway |
| `Paths.VerbatimPrefixIsMissed` | apps/desktop/backend/wenyi_desktop/library_location.py:71-73 | only the Python test sees through a verbatim prefix, for every drive path |
| `Paths.VerbatimShareIsMissed` | apps/desktop/backend/wenyi_desktop/library_location.py:71-73 | neither test recognises a share behind a verbatim prefix as the same share without it |
| `Paths.SpellingHasComponents` | apps/desktop/src/paths.rs:237-245 | trimming trailing separators keeps the components |
| `Paths.SeparatorsSeparate` | apps/desktop/backend/wenyi_desktop/library_location.py:60-75 | either separator separates components, wherever it stands |
| `Paths.NameIsOneComponent` | apps/desktop/backend/wenyi_desktop/library_location.py:60-75 | a name without a separator is one folded component, an empty one none |
| `Paths.CheckDisjoint` | apps/desktop/src/paths.rs:490-498 | the early-return loops decide pairwise disjointness |
| `Paths.PairIsJudgedIff` | apps/desktop/src/paths.rs:462-473 | on two roots the boundary test tells whether some path lies under both exactly if both or neither is bare |
| `Paths.NothingSharedIff` | apps/desktop/src/paths.rs:475-498 | for every list, no path lies under two of the roots exactly if the check passes and, unless there is but one root, none is bare |
| `Paths.DisjointIffNothingShared` | apps/desktop/src/paths.rs:475-498 | without a bare root the check passes exactly if no path lies under two of the roots |
| `Paths.BareRootEscapes` | apps/desktop/src/paths.rs:462-473 | a bare root beside another root, in either order, passes, and the other's paths lie under both |
| `Activation.FirstReadyHearsOfDeferred` | apps/desktop/src/instance.rs:103-124 | the first handler is told exactly whether requests were deferred, and every later request reaches a handler |
| `Activation.DeferredIsHeard` | apps/desktop/src/instance.rs:103-124 | the next ready() after a deferred request is told of it, even after a stop |
| `Activation.NoActivationIsLost` | apps/desktop/src/instance.rs:104-123 | in every run and whatever follows, an instance that answered that it is starting tells its next ready(), and remembers until then |
| `Activation.ReadyIsTold` | apps/desktop/src/instance.rs:118-123 | the instance that owes an activation and has not been ready yet gets true from ready() |
| `Activation.SecondStartIsHeard` | apps/desktop/src/instance.rs:294-322 | a start while the first instance is still opening its window is deferred, and ready() is told |
| `Activation.RequestDesk.TakeRequest` | apps/desktop/src/instance.rs:104-116 | a request is deferred exactly while no handler is installed |
| `Activation.RequestDesk.InstallHandler` | apps/desktop/src/instance.rs:118-123 | installing the handler and consuming deferred requests is one step |
| `Activation.RequestDesk.LeaveClosing` | apps/desktop/src/instance.rs:167-173 | a stopping instance leaves a handler that refuses, and forgets no deferred request |
| `Activation.StepInv` | apps/desktop/src/instance.rs:167-353 | only the holder of the workspace lock listens as an instance, its record is its own, its desk is what its recorded critical sections make of a new one, and every answer an instance gave came from one of these under the generation asked for |
| `Activation.RecordedEndpointIff` | apps/desktop/src/instance.rs:294-353 | whatever was ever in the record is answered by an instance exactly if the holder of the lock has published that endpoint and not withdrawn from it, and then by the holder; a second start is misled by it exactly if that is not so and another program listening there answers like an instance |
| `Activation.CurrentRecordFindsOwner` | apps/desktop/src/instance.rs:324-353 | the present record is answered by an instance exactly if the holder is past publication and still listens |
| `Activation.StaleRecordMisleads` | apps/desktop/src/instance.rs:208-251 | a reachable case: the new holder has not yet replaced a dead instance's record |
| `Activation.GoneListenerMisleads` | apps/desktop/src/instance.rs:167-181 | a reachable case: the record is the holder's own, and its listener has gone before the lock |
| `Activation.StaleReadMisleads` | apps/desktop/src/instance.rs:324-353 | a reachable case: the record was read before it was replaced and asked after |
| `Activation.Workspace.Start` | apps/desktop/src/instance.rs:208-292 | success publishes port and generation; every failure, the one after publication included, gives the lock back; undisturbed on a free port it succeeds |
| `Activation.Workspace.Enter` | apps/desktop/src/instance.rs:183-206 | the caller becomes the published owner, or yields only to an acknowledgement of an endpoint out of the record, which an instance wrote exactly if the holder had published it, and every instance that answered that it is starting owes or has told the activation; undisturbed, the first start becomes the instance and a later one gets the running instance's own answer |

## Left out

- The user interface, HTTP transport, language-model clients, packaging and every TypeScript file: only the outcomes of requests appear, as arbitrary replies.
- Real time: clocks are integers handed to each call, and waiting is any number of steps of everybody else. That `wait`, `drain` and the enter deadline end is not claimed; what holds when they end is.
- Operating system errors of a lock call that should succeed, panics, and poisoned mutexes.
- Encodings: JSON parsing, text decoding, digests and the ZIP layout of a report are parameters or absent; the projection of diagnostic attributes is part of a record's given length.
- Unicode case mapping that changes the number of characters; relative and dotted spellings, which both path tests resolve first.
- `Publication.StepInv`: the internal workspace roots that a destination may not lie in are not modelled; one destination folder is.
- `LogStore.Store.Append`: what a log file contains is not modelled, only how long it is; each record with its newline must fit one file, as the source's projection ensures.
- `LogStore.Store.Write`: the fallback to a second candidate directory is only that some directory may become available.
- `Activation.Workspace.Enter`: the separate lock of an orphaned engine is an arbitrary refusal, and the migration proof on the same port is absent.
- `PluginUpdate.Plugin.Update`: the archives and directories an installation unpacks are absent; failures of the restoring task itself, such as a process that cannot be killed, end in a state that is sound but not further specified.
- `PluginUpdate.Plugin.StopService`: the moment at which a cancelled watcher stops the child is one of two, before or after the cancellation reaches the caller.
- `UsageJournal.PrepareCommit`: a journal that is still pending is overwritten, as in the source; callers recover first.
- `SegmentHistory.LoadHistory`: edits logged before revisions existed are given rows, not parsed from the event log.
- `UpdateMachine.StartKeeps`: a spawn that fails after its process was launched, and whose process cannot be killed either, leaves no engine in the model; every failed spawn starts nothing.
- `UpdateMachine.MonitorKeeps`: the health thread may report more than once, which the source prevents with a flag.
- `Backend` exit recording, stage names and shutdown time-outs in `process.rs`; the child's exit is one step.
- `check_layout`, registry reads and the known folders of `paths.rs`; the file-backed project store; the copier that takes the backup, which is only Ok or not.

# mc-appliance, modelled and proved in Dafny

mc-appliance is a web application that starts, stops and backs up Minecraft servers on one
Linux host. This project models its stateful core and proves what that core promises:

- **The snapshot store.** rsync snapshots share unchanged files by hard link. `Hardlinks`
  models inodes, link counts and directories; `Worlds` models the same appliance as if every
  snapshot owned a private copy of its files. `Hardlinks.StepRefines` and `RunRefines` show
  that the two cannot be told apart, and `Appliances.Appliance` is the real state, whose
  invariant `Valid` says that its history is a legal run of the ideal world. Each persistent
  step (a commit, a file placed or removed, a process event) is one label of that run, so
  stopping a run at any label is a crash of the web application there, and a theorem about
  every run is a theorem about every crash.
- **The server lifecycle** (`Lifecycle`), the **stop-aware backup** (`Snapshots`, `Retention`,
  `Backups`), the **start gate and the daily backup** (`StartGate`), **restore** (`Restore`),
  the **backup settings form** (`BackupSettings`), and whole **runs of requests**
  (`Operations`). A server's process may end, or write to its files, between any two steps.
- **The schedule deciders** over whole tick sequences (`Schedules`).
- **server.properties** as a printer and a parser (`Properties`, `PropertiesFiles`).
- **The console's command normaliser** (`Commands`) and **the jar download** (`Downloads`,
  `JarCaches`).

`dafny verify dfyconfig.toml` checks everything.

## How the proofs fit together

`Worlds` gives each label its guard and its effect. `Runs` proves, for every legal run, that
the invariant `Inv` holds at every point and what follows from it: a completed snapshot
unchanged for ever unless something is removed from it, status and pid in step, and one
process per server as long as no launch was cut off from the commit of its pid. The methods
of `Appliance` are the only places that change stored state; each takes one label, or the two
of a launch, and shows that their guards hold. The operations are written as the Python
functions are, over those methods, and prove their own contracts plus which labels they emit
and, where it matters, in which order. Operations therefore inherit every theorem of `Runs`.

Nothing outside the appliance is left to chance inside an operation. What the host answers
(an RCON reply, kill, `Popen`, rsync, rmtree) comes in as a value of type `Hosts.Host`, and
what happens to the servers meanwhile as a schedule of bursts (`Environments`), of which one
comes to pass each time the appliance waits or looks. A contract says which outcome each of
them leads to.

## What the code does not do

These are properties a reader might expect. Each is false of the code; the members named
give the failing case and the exact condition.

- *A server never has two processes.* It has at most one at every point of a run
  (`Runs.AtMostOneProcess`), and every process is on its server's row unless the run was cut
  off between a launch and the commit of its pid (`Runs.OwnedIff`). After such a crash a start
  ends with two processes if and only if the first is still there at the launch and nothing
  stands in the way of that (`Lifecycle.StartAfterCut`).
- *A server whose row says stopped has no process.* It has none unless the run was cut off
  there (`Lifecycle.LookMissesIff`), and then no look finds the process
  (`Lifecycle.CutLooksStopped`), so that a backup copies, and a restore overwrites, the files of
  a running server.
- *A row marked ok always has a complete directory.* Retention and delete remove the files
  first and commit the row's removal last (`Retention.PruneGenerations`,
  `Retention.DeleteBackup`). A crash in between leaves the ok row, over a directory that is
  complete if and only if nothing has been removed from it yet (`Retention.CutDeletion`), and
  every deletion of a snapshot that holds files has a moment at which it is not
  (`Retention.DeletionCanTear`). The ghost set `torn` records exactly these rows, and every
  other guarantee excludes only them.
- *Every gated start stands on a snapshot.* Once removals complete, a launch behind an enabled
  gate stands on one if and only if the gate was neither outrun nor wasted
  (`StartGate.ActionStart`). It is outrun when a process is there as the gate looks and gone as
  the launch looks, which can happen in any world in which the server runs and has its jar
  (`StartGate.GateCanBeOutrun`). It is wasted when the gate takes a backup and retention is to
  remove an older row that names the directory the new snapshot gets, which can be told from the
  world before the call. It can be after a removal that was cut off before its commit
  (`StartGate.GateCanBeWasted`), and the server is then launched with no snapshot of it on disk
  at all (`StartGate.StartOnNothing`). The recent snapshot it may stand on is complete if nothing
  has been removed from it (`StartGate.RecentIsWhole`); one in which a removal was cut off counts
  as recent all the same (`StartGate.RecentCanBeTorn`).
- *A successful backup is always kept.* Retention removes directories by the path in the row.
  When its removals complete, the new snapshot is still on disk afterwards if and only if no row
  that retention was to remove names its directory (`Backups.KeptIff`), which a caller can tell
  beforehand (`Backups.BackupLastsIff`). It is lost when the removal of an old generation was cut
  off before its commit and the same timestamp comes again (`Backups.BackupCanBeLost`).
- *Retention touches only what it expires.* A prune whose removals complete also takes the
  directory of a completed snapshot that is not expired, a pre-restore one for example, if and
  only if an expired row names it too (`Retention.PruneSparesIff`). One does after a removal that
  was cut off before its commit and a timestamp that came again (`Retention.PruneCanTakeAnother`).
- *An unchanged quick check means unchanged files.* rsync compares size and modification
  time. A snapshot is exact if and only if equal metadata at a path implies equal contents
  (`Hardlinks.QuickCopyExactIff`, `Hardlinks.QuickCopyCanBeStale`). That the servers write
  this way is the assumption `contents` of an `Appliance`.
- *Only normal backups throttle.* Any successful rsync snapshot on disk does
  (`StartGate.ThrottleIff`), a pre-restore one included (`StartGate.PreRestoreThrottles`).
- *Every accepted daily time comes.* The form accepts "4:00" and "04:000", which never equal
  the zero-padded clock (`BackupSettings.TimesThatNeverCome`); an accepted time comes if and
  only if both parts have two digits (`Schedules.AcceptedTimeComesIff`).
- *What is saved to server.properties is read back.* Only if it is line-safe
  (`Properties.RoundTripIff`): nothing rejects a value with a line break
  (`Properties.BrokenValueIsLost`, `PropertiesFiles.SavedIff`).
- *Normalising a command twice is the same as once.* It is from the second pass on. Whether
  the first suffices can be told from the typed text (`Commands.StableIff`); it does not for a
  reason with two control characters in a row (`Commands.FirstPassCanMove`) or a message cut
  at a blank (`Commands.CutMessageMoves`).
- *A failed download leaves no file.* It leaves the jar that was there before
  (`Downloads.FailedKeepsJar`).
- *The table always describes the jars on disk.* Between the replacement of a jar and the
  commit of its row it does if and only if the version had no row or its row happens to fit
  the new jar (`JarCaches.CutRefreshIff`).

Where the repository's own comments say otherwise (the download's docstring, the daily
backup's "normal snapshot", the HH:MM message), the model follows the code.

## Assumptions

Operations on one appliance happen one at a time. The look at a process is faithful, a pid
of 0 does not occur, and servers have distinct paths. The clock does not run backwards, a
sleep lasts at least its half second, and two rows never get the same creation time. rsync
copies entry by entry, replaces files by renaming, may give up anywhere, and builds an exact
tree when it succeeds and metadata is honest. Equal metadata at a path means equal contents
within one kin of directories; a server's own directory and everything under its backup
directory are of one kin, and two servers may be of one kin or not. A server's own files have
one name each. The backup root and the servers' directories are disjoint. Creating a
snapshot's directory and committing a row do not fail. The digest function is any function
from bytes to text.

## Model

| member | source | states |
|---|---|---|
| Hardlinks.SoleName | app/services/backup_service.py:299-313 | an inode with one link has exactly one name, found from any of its entries |
| Hardlinks.LiveIsolated | app/services/backup_service.py:299-313 | no server file shares an inode with a snapshot entry or with another server file |
| Hardlinks.UnlinkCounts | app/services/backup_service.py:360-370 | after a name is removed every link count again equals the number of entries naming the inode, and freed inodes are gone |
| Hardlinks.LinkCounts | app/services/backup_service.py:303-306 | hard-linking from an earlier generation keeps every link count equal to the number of names |
| Hardlinks.StepRefines | app/services/backup_service.py:299-370 | one filesystem step on shared inodes shows the same files as that step on private copies, and keeps the sharing discipline |
| Hardlinks.RunRefines | app/services/backup_service.py:258-370 | over every run of steps the hard-linked store shows exactly what a store with a full copy per generation shows |
| Hardlinks.UntouchedKeepsFiles | app/services/backup_service.py:351-370 | a directory no step names keeps its files through any run, including removal of the generation it was linked from and in-place writes by servers |
| Hardlinks.QuickCopyExactIff | app/services/backup_service.py:301-309 | the tree built with a link source equals the source tree if and only if equal metadata at a path means equal data |
| Hardlinks.QuickCopyCanBeStale | app/services/backup_service.py:301-309 | there are trees for which the metadata check misses a change |
| Runs.WithoutKeepsOrder | app/services/backup_service.py:351-357 | deleting rows by id leaves as members exactly the others, in creation order |
| Runs.StepKeepsInv | app/services/backup_service.py:258-577 | every enabled persistent step keeps: rows in creation order with distinct ids, none from the future, completed snapshots intact |
| Runs.RunKeepsInv | app/services/backup_service.py:258-577 | those hold after every legal run, hence at every crash, the one between a launch and the commit of its pid included |
| Runs.AtMostOneProcess | app/services/server_process.py:113-217 | at every prefix of a run that starts with every process on its row, two live processes of one server are the same process |
| Runs.OwnedIff | app/services/server_process.py:184-211 | every process is on its server's row if and only if the run was not cut off between a launch and the commit of its pid |
| Runs.RunKeepsOwned | app/services/server_process.py:184-211 | cut off there, the new process is the only one on no row, and its server has no other |
| Runs.StatusAlwaysMatchesPid | app/services/server_process.py:113-126 | at every prefix of every run a row says running exactly when it has a pid |
| Runs.SnapshotEndures | app/services/backup_service.py:299-370 | a completed snapshot shows the files it was completed with after any run that removes nothing from it |
| Runs.SnapshotFidelity | app/services/backup_service.py:311-319 | a snapshot completed at step i of a run holds, at the end, the server's tree as it was at step i, unless something was removed from it |
| Runs.SnapshotsAreFaithful | app/services/backup_service.py:311-319 | every completed row that was not there at the start, and from which nothing was removed, shows the tree its server, without a process, had when some step completed it |
| Operations.HistorySnapshotsStopped | app/services/backup_service.py:373-401 | in the history of every appliance no snapshot was begun, filled or completed at a moment its server had a process |
| Runs.CutDeletionCompleteIff | app/services/backup_service.py:351-357 | after any removals with the environment in between, a completed row is still there, and its directory complete if and only if nothing was removed from it |
| Appliances.Appliance.constructor | app/services/backup_service.py:236-255 | a restarted application takes over any state an earlier run left within the invariant, also one with a process on no row |
| Appliances.Appliance.Recorded | app/services/server_process.py:113-126 | a server has a live process if and only if the pid on its row is one |
| Appliances.Appliance.SameMeta | app/services/backup_service.py:301-309 | under honest metadata, files at one path with equal metadata are equal in any two directories of one kin |
| Appliances.Appliance.Elapse | app/services/server_process.py:230-237 | the next burst of the schedule comes to pass: only processes end and only files of servers that had a process change |
| Appliances.Appliance.PlaceFile | app/services/backup_service.py:301-313 | whether a file is linked from the link source or copied, the new entry shows the server's file and the ideal step is taken; with equal metadata it is the link source's inode |
| Appliances.Appliance.Launch | app/services/server_process.py:184-211 | a launch of a stopped row adds one process, and a second step records its pid, running status and no last stop; every process is on its row afterwards if it was before |
| Appliances.Appliance.MarkStopped | app/services/server_process.py:220-227 | a confirmed stop clears the pid and records the method; nothing else changes |
| Appliances.Appliance.FinishRow | app/services/backup_service.py:315-319 | a row becomes ok only when its directory equals the server's tree and the server has no process |
| Appliances.Appliance.DropRows | app/services/backup_service.py:356-357 | rows are deleted in one commit |
| Appliances.Appliance.PutBack | app/services/backup_service.py:549-557 | a restored file replaces the server's file without touching the snapshot it came from |
| Lifecycle.ProcessIsMinecraft | app/services/server_process.py:230-237 | a look answers whether the pid is this server's live process at that moment |
| Lifecycle.RefreshStatus | app/services/server_process.py:113-126 | the row is put right by what one look at the schedule's world finds: running means a live process under an unchanged pid, stopped means none and a cleared pid |
| Lifecycle.WaitForExit | app/services/server_process.py:230-237 | ends at the first look that finds the process gone or comes at the deadline, and after at most 2*timeout+1 looks, each one passing of the clock with one sleep between two of them; true if and only if the last look found the process gone; false only after the whole timeout |
| Lifecycle.StartServer | app/services/server_process.py:129-217 | determined by the world, the schedule and the host: already running, directory missing, jar missing, launch failed or started, each exactly when that is so; a launch and its commit come last; no signal is sent; with the process gone and a launch that works it starts exactly when the chosen jar, or server.jar when none was chosen, is in the server's directory |
| Lifecycle.StartAfterCut | app/services/server_process.py:131-211 | after a crash between a launch and the commit of its pid, whatever happens meanwhile, the next start ends with two processes of the server if and only if the first is still there at the launch, the directory and the jar are there and the launch works |
| Lifecycle.LookMissesIff | app/services/server_process.py:113-126 | at any cut of a run, some live process is missed by the look at its row if and only if the cut is between a launch and the commit of its pid |
| Lifecycle.CutLooksStopped | app/services/server_process.py:113-126 | after such a crash a refresh leaves the row saying stopped, with the process there |
| Rcon.StopIssuedIff | app/services/rcon_service.py:252-270 | an RCON stop was issued exactly when the save was answered and the stop was answered too, or failed with a message that holds "connection" or "timed out" anywhere, in any case |
| Lifecycle.StopViaRcon | app/services/server_process.py:293-306 | skipped exactly when RCON is disabled; otherwise it waits, up to 30 seconds, exactly when the save was answered and the stop was answered or its error mentions a connection or a timeout, and counts as unreachable in all other cases; having waited, it either saw the process gone and recorded rcon, or found it still there and left the row as it was |
| Lifecycle.StopViaStdin | app/services/server_process.py:309-347 | the same for the console rung |
| Lifecycle.StopViaSigterm | app/services/server_process.py:350-363 | one SIGTERM to the recorded pid unless it is refused or the process is already gone; success, also when already gone, records sigterm |
| Lifecycle.SendKill | app/services/server_process.py:350-358 | a signal goes to the recorded pid only, and no such process is reported only when there is none |
| Lifecycle.StopServer | app/services/server_process.py:240-290 | the end of a stop is told from the world, the schedule and the host; not running exactly when its look finds no process, and then only the row is put right; otherwise the rung recorded is the first that worked: every rung before it could not be had or had left the process alive after its whole time; the only signal is the SIGTERM of the last rung, and not before the earlier rungs had their time; success if and only if the row is stopped; total failure keeps pid and running status and records failed; no SIGKILL |
| Lifecycle.TryRungs | app/services/server_process.py:254-290 | the same of the rungs alone, for a row that says running |
| Lifecycle.TryLast | app/services/server_process.py:273-290 | the last rung: success records sigterm, and otherwise failed is recorded with pid and status kept |
| Lifecycle.KillServer | app/services/server_process.py:366-394 | the end of a kill is told from the world, the schedule and the host; already stopped exactly when its look finds no process; the row ends stopped exactly on the three successful outcomes, with sigkill recorded; a survivor keeps its pid and is recorded as failed after the full wait; exactly one SIGKILL to the recorded pid unless refused or already gone |
| Lifecycle.StopConfirmed | app/services/server_process.py:403-414 | a stop down the ladder and a second look, told from the schedule: either the row is stopped with no process, or the process is still there under its pid |
| Lifecycle.RestartServer | app/services/server_process.py:397-425 | a server found stopped is only started; one found running is stopped down the ladder and looked at again, and a launch comes last, from where that confirmed stop ended; an aborted restart launches nothing and leaves the row running |
| Naming.DigitsInjective | app/services/backup_service.py:275-280 | two numbers with the same decimal text are equal |
| Naming.DigitsRead | app/services/backup_service.py:275-280 | a suffix is the number in decimal digits without a leading nought |
| Naming.CandidateInjective | app/services/backup_service.py:275-280 | the numbered variants of a timestamp are all different |
| Naming.FreshName | app/services/backup_service.py:275-280 | the suffix search ends, after at most as many tries as there are directories, at the first variant that names none |
| Snapshots.LastSuccessfulSnapshot | app/services/backup_service.py:236-255 | the newest row of the server that is ok, rsync and still on disk, of either type; never one in progress or failed |
| Snapshots.RunRsync | app/services/backup_service.py:299-313 | a completed transfer leaves the new directory equal to the server's tree, which is what the metadata check against the link source builds; giving up at any point changes nothing outside the new directory; files unchanged since the link source are the same inodes |
| Snapshots.NewestIsLink | app/services/backup_service.py:302-306 | the link source is the newest completed snapshot on disk |
| Snapshots.SharesNewestByLink | app/services/backup_service.py:302-309 | a new generation shares, inode by inode, every file unchanged since the newest completed snapshot, unless an old row already named its directory |
| Snapshots.CommitRow | app/services/backup_service.py:285-297 | the row is committed in progress, newest in the table, before its directory exists |
| Snapshots.FillSnapshot | app/services/backup_service.py:299-329 | the row ends ok with an exact settled tree, or failed |
| Snapshots.PerformSnapshot | app/services/backup_service.py:258-329 | success adds one ok row over an exact copy of the stopped server's files under a new path; failure adds at most a failed row and the directory it names; nothing else changes; which of these happens is fixed by rsync, the server's directory and the transfer; the path is the first free variant of the timestamp, and unchanged files are hard links into the newest snapshot |
| Retention.Generations | app/services/backup_service.py:340-350 | exactly the server's ok normal rsync rows, as many as there are rows with those four fields |
| Retention.Expired | app/services/backup_service.py:337-351 | only generations of this server expire |
| Retention.RetentionKeepsNewest | app/services/backup_service.py:332-357 | with keep at least 1, what remains is the newest min(keep, n) generations and every row that is not one of them |
| Retention.RetentionRetains | app/services/backup_service.py:332-357 | field by field: rows of other servers and zip, pre-restore, failed and in-progress rows all stay; of the ok normal rsync rows min(keep, n) stay, each begun after every row that goes |
| Retention.NewestIsKept | app/services/backup_service.py:401-408 | the generation just completed is not among the expired |
| Retention.GenerationsWithout | app/services/backup_service.py:351-357 | deleting rows and selecting generations commute |
| Retention.ExpiredIsTail | app/services/backup_service.py:340-351 | the slice of the newest-first list past keep has the ids and paths of the expired rows |
| Retention.RemoveTree | app/services/backup_service.py:360-370 | whatever the removal manages, only that directory loses files and every settled snapshot elsewhere stays settled; a removal that completes leaves no directory |
| Retention.PruneGenerations | app/services/backup_service.py:332-357 | files and directories go first and the commit that drops the expired rows is the very last step; the expired rows are gone, and the directories they name when the removals complete; no other directory is touched, and every other settled snapshot in a directory no expired row names keeps its files; nothing happens when keep is not positive; every row of another server, and every zip, pre-restore, failed or in-progress one, stays, and the newest min(keep, n) ok normal rsync rows |
| Retention.PruneSparesIff | app/services/backup_service.py:351-370 | with removals that complete, a completed snapshot that is not expired keeps its directory, and exactly the same files, if and only if no expired row names it |
| Retention.PruneCanTakeAnother | app/services/backup_service.py:275-357 | a legal run after which the next prune removes the directory of a pre-restore snapshot |
| Retention.DeleteBackup | app/services/backup_service.py:475-498 | a foreign row is refused and nothing changes; otherwise files go first, the row last, the directory when the removal completes, and no more |
| Retention.CutDeletion | app/services/backup_service.py:351-357 | cut a prune or a delete off anywhere before its commit: each completed row is still there, and its directory complete if and only if nothing has been removed from it |
| Retention.DeletionCanTear | app/services/backup_service.py:483-494 | every prune or delete that removes the directory of a completed snapshot with files has a moment before its commit with an ok row over a directory that exists and has lost a file |
| Backups.SoleClaimIsSpared | app/services/backup_service.py:275-280 | when no other row names the new directory, retention does not touch it |
| Backups.ExpiredByNew | app/services/backup_service.py:340-351 | the rows retention removes after a backup are known before it: all but the newest keep - 1 generations |
| Backups.KeptIff | app/services/backup_service.py:351-370 | with removals that complete, the new snapshot is on disk and exact after retention if and only if no row that was to go names its directory |
| Backups.BackupLastsIff | app/services/backup_service.py:275-280 | the same of the first free name, which is known before the call |
| Backups.BackupCanBeLost | app/services/backup_service.py:275-357 | a removal cut off before its commit and a timestamp that comes again make the condition fail |
| Backups.BackupKeepsNewest | app/services/backup_service.py:401-408 | after a successful normal backup the generations are exactly the newest keep, the new one last, and all other rows are still there |
| Backups.BackupRetains | app/services/backup_service.py:373-408 | the same of a backup: such rows all stay, whatever its outcome, and one row at most is added, of the kind that was asked for |
| Backups.SnapshotAndPrune | app/services/backup_service.py:399-420 | retention follows only a successful normal snapshot; the server gains no process |
| Backups.BackupNow | app/services/backup_service.py:373-433 | a server is stopped, down the ladder, if and only if its look finds it running; the snapshot is of a server confirmed stopped; a start is attempted exactly when the look had found it running and the stop was confirmed, whatever came of the snapshot, and finds no process there; a stopped server is never started; an abort adds no row or directory and leaves the process running; every old row of another server, and every zip, pre-restore, failed or in-progress one, is still there, and the newest min(keep, n) ok normal rsync rows |
| StartGate.MaybeBackupOnStart | app/services/backup_service.py:436-472 | running exactly when its look finds the process alive; otherwise recent exactly when some snapshot on disk is younger than the interval; otherwise a backup of the server as the look found it; nothing is launched |
| StartGate.ThrottleIff | app/services/backup_service.py:455-459 | checking the newest snapshot on disk decides whether any is younger than the interval |
| StartGate.PreRestoreThrottles | app/services/backup_service.py:242-255 | a pre-restore snapshot on disk younger than the interval counts as recent |
| StartGate.SpacedByThrottle | app/services/backup_service.py:455-459 | a start-triggered snapshot is at least the interval after every snapshot still on disk |
| StartGate.ActionStart | app/routers/servers.py:680-694 | the gate goes as its look and the newest snapshots decide; a failed gate backup means no launch, and otherwise the start follows with no stop before it; with the gate enabled and removals that complete, a launch stands on a recent snapshot on disk, or on one on disk taken now and equal to the files launched with, if and only if the gate was neither outrun nor wasted; outrun, it launches with the rows as they were |
| StartGate.EvidenceAtLaunch | app/routers/servers.py:680-694 | a snapshot the gate took is on disk after the launch, equal to the files launched with, if retention spares it, and when removals complete only then |
| StartGate.RecentIsWhole | app/services/backup_service.py:455-459 | a recent snapshot from which nothing has been removed still holds the files it was completed with |
| StartGate.RecentCanBeTorn | app/services/backup_service.py:351-357 | a legal run, a removal cut off after one file, after which an incomplete snapshot counts as recent |
| StartGate.GateCanBeOutrun | app/services/backup_service.py:449-453 | in any world where the server runs and has its jar, a process that ends between the two looks outruns the gate |
| StartGate.GateCanBeWasted | app/services/backup_service.py:275-357 | a legal run, a removal cut off before its commit, after which the server can be launched, has nothing on disk, and the backup of its gate will not last |
| StartGate.StartOnNothing | app/routers/servers.py:680-694 | in every such state a gated start whose rsync, removals and launch all go through leaves the server running with no snapshot of it on disk |
| StartGate.RunDueServerBackup | app/services/backup_service.py:580-597 | runs if and only if enabled, at the stored time, and with no snapshot younger than 12 hours on disk; it is a stop-aware backup: a server found running, and only that, is stopped down the ladder, and a start follows the snapshot with the outcome its directory, its jar and the host allow; the snapshot is of a stopped server, at least 12 hours after every other on disk; an abort leaves the process running under its pid |
| Restore.RunRsyncBack | app/services/backup_service.py:545-566 | success leaves the server's tree equal to the snapshot and nothing more; failure leaves a mixture in the server's directory only |
| Restore.CopyOver | app/services/backup_service.py:545-577 | the copy starts from the completed safety snapshot, and ends restored exactly when rsync is there and its transfer completes |
| Restore.ReplaceFiles | app/services/backup_service.py:531-570 | no file of the server changes before the pre-restore snapshot is complete |
| Restore.RestoreBackup | app/services/backup_service.py:501-577 | a server is refused as busy exactly when its look finds it running, and no stop is tried; refusals change nothing but put the row right; otherwise a settled pre-restore snapshot holds the earlier tree, no other row or snapshot changes, and success makes the tree that of the snapshot |
| Restore.UndoStaysPossible | app/services/backup_service.py:531-566 | after a successful or half-done restore the pre-restore snapshot holds the exact earlier files for as long as nothing is removed from it |
| Restore.RestoreAndUndo | app/services/backup_service.py:501-577 | the first restore is refused, fails or goes through exactly as its look, its row and the host decide; if it got as far as its safety snapshot, restoring that one goes through exactly when rsync does, and brings the earlier tree back, even when the first copy failed midway |
| BackupSettings.FormIsBounded | app/routers/servers.py:1010-1036 | whatever is typed, keep is at least 1 and the interval not negative, other settings stay, and the stored time ever comes if and only if both its parts have two digits |
| BackupSettings.FilledIff | app/routers/servers.py:1005-1036 | the form is taken exactly when its trimmed time is two numbers of at most 23 and 59 with a colon between; each box sets its own switch, when sent as on, true, 1 or yes in any case; an interval below 0 becomes 0 and no number 6, a keep below 1 becomes 1 and no number 7; nothing else changes |
| BackupSettings.TimesThatNeverCome | app/routers/servers.py:1010-1021 | "4:00" and "04:000" are accepted and never equal a clock reading |
| BackupSettings.StepKeepsBounds | app/routers/servers.py:1027-1036 | only saving settings can change them |
| BackupSettings.SaveBackupSettings | app/routers/servers.py:995-1041 | saves if and only if the trimmed time is accepted, exactly what the form means, and keeps the bounds of every server |
| Operations.Handle | app/routers/servers.py:680-725 | each request emits only its own sorts of step and comes to what its operation comes to: a stop to the end of the ladder, a kill to the end of a kill, a restart to a start after a confirmed stop; a manual backup adds a normal row only, a delete takes exactly the row named, a tick at another time changes nothing; SIGKILL only on a forced kill, settings only from the forms |
| Operations.Run | app/services/server_process.py:366-394 | over any sequence of requests: status matches pid, retention stays on, the history is a legal ideal run, and without a forced kill no SIGKILL is sent |
| Operations.HistoryKeeps | app/services/server_process.py:113-217 | the appliance's state is the ideal world after its history, cut anywhere |
| Operations.HistoryHasOneProcess | app/services/server_process.py:113-217 | cut an appliance's history off anywhere: each server has at most one process |
| Operations.HistorySnapshotsFaithful | app/services/backup_service.py:258-329 | every completed snapshot an appliance has taken, and from which nothing was removed, shows its server's files at some moment without a process |
| Schedules.ParseHhmm | app/services/scheduler_service.py:65-76 | a parsed time is within the day; missing text and text without a colon give nothing |
| Schedules.HhmmRoundTrip | app/services/scheduler_service.py:65-76 | a zero-padded time is read back as the time it writes |
| Schedules.HhmmOfDigits | app/services/scheduler_service.py:65-76 | two numbers with a colon between are that hour and minute if they are at most 23 and 59, and nothing otherwise |
| Schedules.DailyDueIff | app/services/scheduler_service.py:92-102 | an enabled daily schedule is due at a microsecond of the day exactly when that is at or after its hour and minute and there was no attempt at or after them |
| Schedules.IntervalDueIff | app/services/scheduler_service.py:84-90 | an enabled interval schedule is due exactly when its minutes are positive and it never ran or they have gone by |
| Schedules.NeverDue | app/services/scheduler_service.py:79-104 | a disabled schedule, one of an unknown kind, and a daily one without a readable time are never due |
| Schedules.DailyExactlyOnce | app/services/scheduler_service.py:92-102 | over any nondecreasing ticks, each day, midnight to midnight, with a tick at or after its hour and minute has exactly one attempt, other days none |
| Schedules.IntervalPaced | app/services/scheduler_service.py:84-90 | once there was an attempt, the next ones are at least the interval apart and less than the interval plus the largest tick gap |
| Schedules.IntervalStartsAtOnce | app/services/scheduler_service.py:84-90 | a schedule that has never run is attempted at the first tick, and keeps that pace from there |
| Schedules.AcceptedTimeComesIff | app/services/backup_service.py:590-591 | an accepted time equals some clock reading if and only if it is five characters with the colon third |
| Schedules.AcceptedTimeIff | app/routers/servers.py:1010-1019 | a time is accepted exactly when it is two numbers of plain digits, of at most 23 and 59, with a colon between |
| Schedules.RunDueBackup | app/services/scheduler_service.py:107-148 | a written or skipped backup records its tick and status; one that raises leaves the schedule to the caller |
| Schedules.Tick | app/services/scheduler_service.py:177-195 | each due schedule is attempted once and its tick and outcome recorded, failed or not; the others are untouched, and no failure keeps one from its turn |
| Schedules.AttemptsSnoc | app/services/scheduler_service.py:79-104 | one more tick adds an attempt exactly when it is due after the earlier ones |
| Schedules.RunTicks | app/services/scheduler_service.py:177-195 | over a whole tick sequence an enabled schedule is attempted at exactly the due ticks, a disabled one never |
| Properties.Universal | app/services/properties_service.py:36-38 | text-mode reading leaves no carriage return |
| Properties.BreaksAre | app/services/properties_service.py:36-38 | each of the three line breaks is read as one newline |
| Properties.Lines | app/services/properties_service.py:58-59 | no line contains a newline |
| Properties.LinesAre | app/services/properties_service.py:58-59 | the lines with their newlines are the text again, with a newline at its end: no line is lost |
| Properties.LinesOfUnlines | app/services/properties_service.py:58-59 | splitting lines written one after the other gives the lines back |
| Properties.JoinedLines | app/services/properties_service.py:91-92 | joining with newlines and a final newline is each line with its newline, except that no lines make one blank line |
| Properties.EntryReadsBack | app/services/properties_service.py:38-43 | a line written from a safe key and an unbroken value is an entry with that key and value |
| Properties.LineMeans | app/services/properties_service.py:37-43 | a line is an entry exactly when it holds an equals sign and its first visible character is no hash; the key is what stands before the first equals sign, trimmed, and the value all that follows; a line is a header line exactly when it starts with a hash or is blank |
| Properties.ParsePrinted | app/services/properties_service.py:36-44 | parsing a header and printed entries gives the printed keys in order with their values |
| Properties.WrittenText | app/services/properties_service.py:63-92 | the file written is the header lines and then key, equals sign and value of each key in the written order, each line with its newline |
| Properties.OrderIsReordered | app/services/properties_service.py:71-85 | the written order is the old keys still wanted, as they first appeared, then the new ones |
| Properties.ReadAfterWrite | app/services/properties_service.py:47-92 | over any old file, what is read back is what was written, in that order |
| Properties.ParseIsSafe | app/services/properties_service.py:36-44 | whatever is read has trimmed keys without equals sign or leading hash, and unbroken values |
| Properties.RoundTripIff | app/services/properties_service.py:47-92 | a write is read back with the same keys and values if and only if it is line-safe |
| Properties.BrokenValueIsLost | app/services/properties_service.py:87-92 | a value with a line break is never read back |
| Properties.MergeFromMeans | app/routers/servers.py:777-778 | updating a dictionary overrides exactly the given keys and keeps the old keys' order |
| Properties.MergeChangesOnlyUpdates | app/routers/servers.py:770-779 | after a merge the file reads back as the old dictionary with exactly the updated keys changed, old keys in their order |
| Properties.ExtendedReadsBack | app/services/properties_service.py:71-92 | writing a dictionary that only adds keys to the file's reads back as is, order included |
| Properties.HeaderSurvives | app/services/properties_service.py:63-69 | the leading comments and blanks survive a write line for line; with neither header nor keys there is one blank line |
| Properties.WriteBackIsIdempotent | app/services/properties_service.py:47-92 | from any file, writing back what was read is byte-for-byte stable from the first write on |
| PropertiesFiles.CollectHeader | app/services/properties_service.py:63-69 | the loop collects the leading comment and blank lines |
| PropertiesFiles.KnownKeys | app/services/properties_service.py:72-81 | the first ordering loop yields the wanted old keys once each, in order of appearance |
| PropertiesFiles.AddNewKeys | app/services/properties_service.py:82-85 | the second appends exactly the keys not yet seen |
| PropertiesFiles.PropertiesFile.ReadProperties | app/services/properties_service.py:26-44 | the reading loop computes what the file reads as, and says whether there is a file |
| PropertiesFiles.PropertiesFile.WriteProperties | app/services/properties_service.py:47-92 | the old text becomes the backup and the new text is the specified one |
| PropertiesFiles.PropertiesFile.MergeProperties | app/routers/servers.py:770-779 | the file is rewritten with the merged dictionary, or created |
| PropertiesFiles.PropertiesFile.SaveProperties | app/routers/servers.py:655-677 | only keys the file already has are set from the form; with no file nothing happens |
| PropertiesFiles.SavedIff | app/routers/servers.py:655-677 | a saved form is read back exactly if and only if no value it sets holds a line break |
| Commands.AcceptedForm | app/services/rcon_service.py:92-133 | every accepted text is one of the allow-listed commands, with the verb and player that were typed and the typed text cleaned and cut |
| Commands.AcceptedIff | app/services/rcon_service.py:92-133 | a text is accepted exactly when its words are one of the five fixed commands, or say with something visible, kick with a player, op or deop with a player alone, or whitelist add or remove with a player, the verbs in any case and the player 1 to 16 letters, digits or underscores |
| Commands.SecondPass | app/services/rcon_service.py:92-133 | every command of the allow-list is accepted, and becomes its settled form |
| Commands.AcceptedIsSafe | app/services/rcon_service.py:82-89 | what is accepted holds no character up to U+001F and no U+007F, and at most 222 characters |
| Commands.AcceptedAgain | app/services/rcon_service.py:92-133 | what is accepted is accepted again with the same words, and does not change from the second pass on |
| Commands.StableIff | app/services/rcon_service.py:109-119 | told from the typed text, the first pass is stable if and only if a message is not cut at a blank and what is kept of a reason has no two blanks or control characters in a row |
| Commands.FirstPassCanMove | app/services/rcon_service.py:115-119 | a reason with two control characters settles only at the second pass |
| Commands.CutMessageMoves | app/services/rcon_service.py:88-89 | a message whose 200th character is a blank keeps that blank in the first pass and loses it in the second |
| Commands.CleanIsText | app/services/rcon_service.py:82-89 | cleaned text is control-free, at most 200 characters and does not start with a blank |
| Commands.CleanIs | app/services/rcon_service.py:82-89 | cleaning keeps the first 200 characters of the trimmed text |
| Commands.BlankedAt | app/services/rcon_service.py:88-88 | character by character, exactly the control characters become blanks |
| Text.StripIsTrimmed | app/services/rcon_service.py:99-99 | stripping leaves no whitespace at either end |
| Text.StripSplits | app/services/rcon_service.py:99-99 | stripping takes white space from both ends and nothing else |
| Text.SpacesAre | app/services/rcon_service.py:99-104 | white space, by code point |
| Text.WordsOfJoin | app/services/rcon_service.py:103-104 | splitting words joined by blanks gives the words back |
| Text.WordsOfLower | app/services/rcon_service.py:103-105 | lower-casing before or after splitting is the same |
| Text.SameTextIff | app/services/rcon_service.py:103-105 | two texts are the same in lower case exactly when they are the same but for case |
| Text.RejoinShrinks | app/services/rcon_service.py:103-118 | rejoining the words of a text neither lengthens it nor adds any character but the blank |
| Downloads.StepKeepsSound | app/services/vanilla_downloader.py:210-243 | every step keeps each download's file, digest input and count in agreement and its jar acceptable once verified |
| Downloads.RunIsTraced | app/services/vanilla_downloader.py:217-225 | what a download has hashed is the concatenation of all it received |
| Downloads.CachedJarIsWhole | app/services/vanilla_downloader.py:201-243 | for any number of interleaved downloads cut off anywhere, a version's jar is the initial one or the whole body of the last download that replaced it: not empty, at most 536870912 bytes, and with the digest that download was begun with, if it was given one |
| Downloads.FailedKeepsJar | app/services/vanilla_downloader.py:234-243 | as long as no download has replaced it, every jar that was there stays |
| Downloads.FailedLeavesNoTrace | app/services/vanilla_downloader.py:236-243 | striking a download that never replaced the jar from the run leaves the same jars and the same other downloads |
| JarCaches.BodyIff | app/services/vanilla_downloader.py:217-225 | a body arrives exactly when nothing breaks before its end and it fits the ceiling, and is then all that was sent |
| JarCaches.JarCache.ReadBody | app/services/vanilla_downloader.py:215-225 | the reading loop writes and hashes the body, or fails |
| JarCaches.JarCache.Commit | app/services/vanilla_downloader.py:226-235 | the jar is replaced exactly when the body is acceptable and the rename works |
| JarCaches.JarCache.DownloadTo | app/services/vanilla_downloader.py:201-243 | succeeds exactly on an acceptable body and a working rename; the jar put in place has the digest asked for, and a whole body that is not empty is refused with a working rename exactly when a digest was given and its own differs; a failure changes no jar and leaves no temporary file unless its removal fails; every step is one of the interleaved machine's |
| JarCaches.RefreshKeeps | app/services/vanilla_downloader.py:261-288 | a refresh keeps one row per version, at most one latest, each row describing the jar on disk, and no row of another server type touched |
| JarCaches.CutRefreshIff | app/services/vanilla_downloader.py:259-290 | after a crash between the replacement of a jar and the commit of its row the table describes the files if and only if the version had no row or its row fits the new jar |
| JarCaches.MarkKeeps | app/services/vanilla_downloader.py:298-304 | after marking, a vanilla row is latest if and only if its version is the latest release |
| JarCaches.JarCache.MarkLatest | app/services/vanilla_downloader.py:298-304 | the loop flags exactly the row of the latest release |
| JarCaches.JarCache.Upsert | app/services/vanilla_downloader.py:261-281 | the version's row is refreshed in place, or added |
| JarCaches.JarCache.DownloadServerJar | app/services/vanilla_downloader.py:246-292 | on success jar and row change together and the table stays in order; on failure neither changes; an unreadable manifest keeps the flags |

## Left out

- Interleaving of requests and the scheduler on one server: the code has no lock there, and the operations assume they run one at a time. Downloads are modelled interleaved.
- Commits that fail, a full disk, a directory that cannot be made, and an error while a schedule's failure is being recorded.
- Zip backups (`create_backup`): zip rows occur only as rows that retention and restore must leave alone. The interval and daily schedules take zip backups, so their backup is an attempt with any outcome.
- Directories, symbolic links, ownership and extended attributes inside a tree: a tree is a flat map from relative path to file.
- Path containment, name sanitising, URL host checks, port, name and version validators.
- Notes, sizes, log lines, message wording, timestamps other than a row's creation time, and the start command.
- Sockets, FIFOs, signals, `Popen` and rsync themselves: each is a nondeterministic outcome under the assumptions above.
- Text encodings and undecodable bytes; decimal digits outside ASCII in times and numbers; case folding outside basic Latin, except the Kelvin sign.
- Managed logs, mod toggling, Java runtimes, login, templates and host monitoring.
- Runs.AtMostOneProcess: says nothing of processes started outside the application, nor of the start after a crash between a launch and the commit of its pid, which `Lifecycle.StartAfterCut` treats.
- Lifecycle.StartAfterCut: the other operations are not followed into a state with a process on no row; their contracts ask for `Valid`. `Lifecycle.CutLooksStopped` says why they go wrong there: a backup would copy the files of a running server, which no step of the model does, so that what it would then hold on disk is not described.
- JarCaches.JarCache.DownloadServerJar: models one call at a time; two calls for one version may commit their rows in the other order than their jars. A crash in the middle of a call is treated by `JarCaches.CutRefreshIff`.

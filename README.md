# Backup plugin: backup run and its preparation

This project models the two tasks of a Bukkit server backup plugin that do
an actual backup:

- **The preparation task** (`PrepareBackupTask`) runs on the server's main
  thread. It decides from the configuration, the number of online players,
  the manual flag and a pending backup name whether to back up at all. If it
  does, it broadcasts the start message if it is not blank, flushes the worlds (`save-all`),
  switches saving off (`save-off`) and saves the players. It then collects
  the worlds whose names are neither null, nor the literal `""`, nor on the
  `;`-separated skip list, and schedules the asynchronous backup task with
  those worlds and the backup name. Finally it clears the name and the manual
  flag. This describes the collecting loop with its list created empty, which
  is what the model's task runs. As written, the list starts as `null`: the
  first qualifying world throws `NullPointerException`, so nothing is
  scheduled, the name and the flag are not cleared, and saving stays switched
  off (see Findings).
- **The backup task** (`BackupTask`) has two modes; after either one it
  prunes old backups and schedules the resume step, unless an exception
  escaped the copies.
  - In *aggregated* mode it makes one directory for the run:
    `<folder>/custom/<name>` for a named backup, else `<folder>/<date>`.
    It copies every queued world into that directory whatever
    `backupWorlds` says, and the `plugins` directory too if `backupPlugins`
    is set, then optionally zips the directory and
    deletes it.
  - In *per-world* mode it copies each world if `backupWorlds` is set,
    and then the plugins directory if `backupPlugins` is set, each to its
    own dated destination `<folder>//<world>-<date>` (or
    `<folder>//plugins-<date>`), zipping each one if configured.
  - Pruning: the listing of the backup folder loses its last entry. If more
    entries are left than `maxBackups`, the newest one is taken off the list
    `maxBackups` times, and the rest is deleted.
  - The resume step turns saving back on if configured, and broadcasts the
    finish message if it is not blank.

The host server is a `Server` object (module `Host`) whose only state is an
append-only trace of events. These are the commands, broadcasts, scheduler
hand-offs and filesystem operations the tasks perform. Operations whose code
lies outside the two tasks are oracles of an `Env` value: the model knows
only what they return. Those operations are the directory copy, zip,
recursive delete, directory listing, the clock and date formatting. Each
task method is proved to append exactly the events of a specification
function (`RunSteps`, `PrepareEvents`, `ResumeEvents`, `PruneEvents`), and
the properties are proved about those functions.

Modules: `Host` (server, events, oracles), `JavaString` (`trim` and
`split`), `Naming` (destination paths, `getDate`), `Retention` (pruning),
`Backup` (the backup task) and `Prepare` (the preparation task).

Three behaviours of the code are easy to miss:
- pruning drops the listing's last entry before selecting;
- a maximum of zero or less deletes every entry except the listing's last;
- an exception escaping `backup()` skips pruning and the resume step, so
  saving stays switched off.

## Model

| member | source | states |
|---|---|---|
| Host.Server.CopyDirectory | src/threading/BackupTask.java:89 | the copy's outcome is the environment's answer for that source and target, and exactly one copy event is appended |
| Host.Server.ZipDirectory | src/threading/BackupTask.java:102 | the zip's outcome is the environment's answer, and exactly one zip event is appended |
| Host.Server.DeleteDirectory | src/threading/BackupTask.java:103 | the recursive delete's outcome is the environment's answer, and exactly one delete event is appended |
| Host.Server.ListFiles | src/threading/BackupTask.java:175 | listing the backup folder returns the environment's listing and changes no state |
| JavaString.TrimEmptyIffBlank | src/main/java/de/luricos/bukkit/backup/threading/PrepareBackupTask.java:82 | `trim()` yields the empty string exactly when every character is at most U+0020, the test both messages are put to |
| JavaString.Split | src/main/java/de/luricos/bukkit/backup/threading/PrepareBackupTask.java:116 | `split(";")`: no piece contains `;`; a string without `;` comes back whole as a one-element list (so `""` gives `[""]`); otherwise no trailing empty piece is kept |
| JavaString.SplitRoundTrip | src/main/java/de/luricos/bukkit/backup/threading/PrepareBackupTask.java:116 | `split` loses only trailing empty pieces: put them back and join with `;`, and the skip list itself comes back |
| JavaString.JoinPieces | src/main/java/de/luricos/bukkit/backup/threading/PrepareBackupTask.java:116 | the pieces between separators, joined with the separator, give back the string |
| JavaString.DropTrailingEmpty | src/main/java/de/luricos/bukkit/backup/threading/PrepareBackupTask.java:116 | the kept pieces are a prefix, the last one is not empty, and every dropped piece is empty |
| Naming.FormatDate | src/threading/BackupTask.java:156-163 | `getDate` throws only when both the configured and the fixed pattern throw; otherwise its date is one of the two formattings of the instant, the configured one whenever that formats |
| Naming.FormatDateNeverThrows | src/threading/BackupTask.java:156-160 | when the fixed `ddMMyyyy-HHmmss` pattern formats every instant, `getDate` never throws, and its date is the fixed pattern's formatting exactly when the configured pattern throws |
| Naming.GetDate | src/threading/BackupTask.java:150-164 | on a server's environment, the `call`-th date of a run is the configured pattern's formatting of that clock reading, or, when that throws, the fixed pattern's |
| Naming.AggregatedDirShape | src/threading/BackupTask.java:79-82 | the aggregated directory is `<folder>/custom/<name>` for a named backup and `<folder>/<date>` otherwise |
| Naming.AggregatedDirInjective | src/threading/BackupTask.java:74-82 | two named aggregated runs share a directory only if their names agree, and two dated ones only if their dates agree |
| Naming.AggregatedTargetInjective | src/threading/BackupTask.java:89 | within one aggregated directory, distinct worlds never share a destination |
| Naming.WorldTargetInjective | src/threading/BackupTask.java:116 | in per-world mode, distinct worlds saved with the same date never share a destination |
| Naming.PluginsTargetIsWorldTarget | src/threading/BackupTask.java:131 | the plugins destination in per-world mode is `<folder>//plugins-<date>`, named as a world called `plugins` would be |
| Retention.NewestIndexIsNewest | src/threading/BackupTask.java:199-207 | the index is an entry with the greatest modification time, and no earlier entry is as new: the first maximum wins |
| Retention.FindNewest | src/threading/BackupTask.java:199-207 | the scan that moves only on a strictly newer entry ends on the first newest entry |
| Retention.ToDelete | src/threading/BackupTask.java:170-220 | nothing is deleted when the listing is missing or empty, or when at most `maxBackups` entries remain after dropping the last one; otherwise all but `max(maxBackups, 0)` of those entries are deleted |
| Retention.CopyAllButLast | src/threading/BackupTask.java:175-181 | the copied array holds every entry of the listing but the last, in order |
| Retention.RemoveNewest | src/threading/BackupTask.java:188-209 | removing the newest entry `maxBackups` times from a list longer than `maxBackups` leaves what the rounds of the retention rule leave |
| Retention.SelectForDeletion | src/threading/BackupTask.java:175-209 | copying all but the last entry and then removing the newest one `maxBackups` times leaves exactly the entries the retention rule deletes |
| Retention.DecisionPartitionsCandidates | src/threading/BackupTask.java:186-214 | the kept and the deleted entries together are exactly the candidates, counted with multiplicity |
| Retention.DecisionOrder | src/threading/BackupTask.java:198-214 | the deleted entries are in listing order; no kept entry is older than a deleted one; among entries with the same timestamp, the earlier ones in the listing are kept |
| Retention.PrunedKeepsMaximum | src/threading/BackupTask.java:186-209 | when pruning happens, exactly `max(maxBackups, 0)` entries survive, newest first; a non-positive maximum deletes every candidate |
| Retention.LastEntryNeverDeleted | src/threading/BackupTask.java:176-181 | the last entry of the listing is never deleted |
| Retention.RoundsPartition | src/threading/BackupTask.java:198-209 | each round moves one entry from the list to the kept entries; together they are always the starting list |
| Retention.RemainingIsSubsequence | src/threading/BackupTask.java:208 | removing by index keeps the order of the other entries |
| Retention.KeptAreNewest | src/threading/BackupTask.java:198-209 | every entry taken off is at least as new as every entry left, and the entries taken off get older round by round |
| Retention.TiesKeepListOrder | src/threading/BackupTask.java:203 | with a strict comparison, equal timestamps are taken off in listing order |
| Retention.SubsequenceTransitive | src/threading/BackupTask.java:208 | a subsequence of a subsequence is a subsequence, so order is kept over all rounds |
| Backup.ThenAssociative | src/threading/BackupTask.java:71-145 | running parts of a run one after another does not depend on how they are grouped |
| Backup.ResumeActions | src/threading/BackupTask.java:229-237 | `save-on` is dispatched exactly when re-enabling autosave is configured, and comes first; the finish message is broadcast exactly when it exists and is not blank; nothing else happens |
| Backup.ResumeScheduledIffCompleted | src/threading/BackupTask.java:61-145 | the resume step is scheduled exactly when no exception escaped the copies, and then it is the last action, right after the deletions of pruning; a run that aborted deletes no old backup; the run never switches saving on by itself |
| Backup.BodyFileOrNotice | src/threading/BackupTask.java:77-142 | the copying part of a run performs only filesystem operations and broadcasts |
| Backup.AggregatedCopiesEveryWorld | src/threading/BackupTask.java:86-97 | aggregated mode copies every queued world, in queue order, into its place in the run's directory; a failing copy does not stop the later ones |
| Backup.AggregatedWorldsAlwaysCopied | src/threading/BackupTask.java:84-97 | in aggregated mode, making the directory and copying every world happen before anything can abort the run |
| Backup.SaveTargetCopies | src/threading/BackupTask.java:119-125 | saving one directory copies it exactly once, whether or not it is then zipped |
| Backup.PerWorldCopiesInOrder | src/threading/BackupTask.java:113-126 | in per-world mode, when every save succeeds, each world is copied in queue order to its own destination, dated by its own clock reading |
| Backup.SaveAllStops | src/threading/BackupTask.java:114-126 | the first world whose save throws is the last one taken off the queue, and the run stops there: nothing after it happens |
| Backup.SaveAllCompleted | src/threading/BackupTask.java:114-126 | when the whole loop completes, every save completed and the whole queue was taken |
| Backup.BackupTask.constructor | src/threading/BackupTask.java:52-59 | the task holds the configuration, the queue, the server and the backup name it is given |
| Backup.BackupTask.Backup | src/threading/BackupTask.java:71-145 | the trace grows by exactly the events of `RunSteps`; the result says whether no exception escaped; the queue is what `QueueAfter` leaves |
| Backup.BackupTask.BackupDirName | src/threading/BackupTask.java:74-82 | the aggregated run's directory is `<folder>/custom/<name>` for a named backup, else `<folder>/<date>` of the first clock reading |
| Backup.BackupTask.BackupAggregated | src/threading/BackupTask.java:77-104 | aggregated mode appends exactly the events of `AggregatedSteps` and always empties the queue |
| Backup.BackupTask.CopyWorldsInto | src/threading/BackupTask.java:86-97 | the queue is drained, appending each world's copy and, on an I/O error, the failure broadcast |
| Backup.BackupTask.CopyPluginsAndZip | src/threading/BackupTask.java:98-104 | optionally copies the plugins directory, then optionally zips and deletes the run's directory; stops at the first exception |
| Backup.BackupTask.BackupPerWorld | src/threading/BackupTask.java:106-141 | per-world mode appends exactly the events of `PerWorldSteps`; the queue keeps the worlds not yet taken |
| Backup.BackupTask.SaveQueuedWorlds | src/threading/BackupTask.java:114-126 | takes worlds off the queue until one throws, appending the events of `SaveWorlds`; when none throws, one date is used per world |
| Backup.BackupTask.SaveWorldTo | src/threading/BackupTask.java:115-125 | saves one world to `<folder>//<world>-<date>` dated by the given clock reading, appending exactly that save's events and reporting whether it completed |
| Backup.BackupTask.CopyAndZip | src/threading/BackupTask.java:119-125 | copy, then zip and delete when configured; stops at the first exception |
| Backup.BackupTask.ZipAndRemoveDir | src/threading/BackupTask.java:101-104 | zip the directory into an archive of its own name, then delete it, unless the zip throws |
| Backup.BackupTask.DeleteOldBackups | src/threading/BackupTask.java:170-220 | appends one delete for each entry the retention rule selects, in order, and nothing when the listing is missing |
| Backup.BackupTask.Finish | src/threading/BackupTask.java:226-240 | the resume step is handed to the main thread's scheduler |
| Backup.BackupTask.Resume | src/threading/BackupTask.java:229-237 | the resume step appends exactly `ResumeEvents` |
| Prepare.ShouldBackup | src/main/java/de/luricos/bukkit/backup/threading/PrepareBackupTask.java:70-71 | a backup runs unless only backing up with players online is configured, nobody is online, and the backup is neither manual nor named |
| Prepare.IgnoredWorldNames | src/main/java/de/luricos/bukkit/backup/threading/PrepareBackupTask.java:115-124 | the skip list split on `;`; an empty skip list ignores only the empty name; no ignored name contains `;` |
| Prepare.QualifyingWorldsMembers | src/main/java/de/luricos/bukkit/backup/threading/PrepareBackupTask.java:104-108 | a name is chosen exactly when it is a non-null name other than the literal `""` and is not on the skip list; no more names than worlds |
| Prepare.QualifyingWorldsConcat | src/main/java/de/luricos/bukkit/backup/threading/PrepareBackupTask.java:104-108 | filtering a list of worlds is filtering its parts, in order |
| Prepare.CollectWorlds | src/main/java/de/luricos/bukkit/backup/threading/PrepareBackupTask.java:103-108 | the loop, with the list created empty, collects exactly the qualifying worlds in server order |
| Prepare.AsWrittenThrowsOnQualifyingWorld | src/main/java/de/luricos/bukkit/backup/threading/PrepareBackupTask.java:103-108 | as written, the loop throws `NullPointerException` exactly when some world qualifies, and otherwise yields a null list |
| Prepare.AsWrittenOneWorldThrows | src/main/java/de/luricos/bukkit/backup/threading/PrepareBackupTask.java:103-106 | a server with one world named `world` and an empty skip list makes the loop as written throw |
| Prepare.PrepareActions | src/main/java/de/luricos/bukkit/backup/threading/PrepareBackupTask.java:78-110 | the start message is broadcast first exactly when it exists and is not blank; then `save-all`, `save-off`, saving players and scheduling the backup follow in that order; the backup is scheduled once, as the last action |
| Prepare.PrepareBackupTask.constructor | src/main/java/de/luricos/bukkit/backup/threading/PrepareBackupTask.java:59-64 | a new task has no backup name and is not manual |
| Prepare.PrepareBackupTask.Run | src/main/java/de/luricos/bukkit/backup/threading/PrepareBackupTask.java:67-76 | when the gate allows it, one preparation with the name as it was is appended and the name and flag are cleared; otherwise nothing changes |
| Prepare.PrepareBackupTask.PrepareBackup | src/main/java/de/luricos/bukkit/backup/threading/PrepareBackupTask.java:78-113 | appends exactly `PrepareEvents` for the qualifying worlds and the name as it was, then clears the name and the manual flag |
| Prepare.PrepareBackupTask.SetBackupName | src/main/java/de/luricos/bukkit/backup/threading/PrepareBackupTask.java:126-128 | sets the name and changes nothing else |
| Prepare.PrepareBackupTask.SetAsManualBackup | src/main/java/de/luricos/bukkit/backup/threading/PrepareBackupTask.java:130-132 | sets the manual flag and changes nothing else |

## Left out

- Naming.GetDate: the tasks run only in environments where the fixed pattern formats every instant (the `Env` type). An environment where it throws, so that the exception escapes `getDate`, is covered by `Naming.FormatDate` but not by the runs.
- Directory copy, zip, recursive delete, file listing, the clock and date formatting are oracles of `Env`. Their own code is not part of this model, so what they do on disk is not modelled.
- `FileUtils.FILE_SEPARATOR` is not part of this model; the separator is fixed to `/`.
- Logging, `System.out` output and stack traces are not modelled. These include the "zip disabled", "world backup is disabled", "disabled worlds" and "aborted backup" lines, which do not affect behaviour.
- Localised message lookup is not modelled; the three messages the tasks use are given as values.
- Threads and the scheduler are not modelled. Scheduling is recorded as an event. The resume step is a separate method whose events are not appended to the run's trace.
- The plugin lookup and the console sender object are not modelled.
- The number of online players and the server's worlds are parameters of `Run`.
- The files of a listing are identified by their path. A deletion is an event whose outcome the model does not use, since `File.delete` failures are ignored.
- Modification times are unbounded integers. Java's `long` cannot overflow for real timestamps.
- Java's loop variable for `maxBackups` is an `int`; the model takes it as an unbounded integer, which changes nothing for values a Java `int` can hold.
- Prepare.PrepareBackupTask.PrepareBackup: uses the corrected loop (the list created empty), not the null list as written; the as-written behaviour is `Prepare.WorldListAsWritten` (see Findings).
- Backup.BackupTask.constructor: the task is given the corrected, non-null world list. A null list would make the first queue access throw.
- Backup.BackupTask.Resume: it is not proved to run after `Finish`. The model records the hand-off to the scheduler, not the scheduler running it.
- Backup.ResumeScheduledIffCompleted: runtime exceptions other than the modelled I/O outcomes are not modelled; only the copy, zip and delete operations can abort a run.

## Findings

| source | as written | input that shows it | evidently intended | confidence | as-written member | corrected member |
|---|---|---|---|---|---|---|
| src/main/java/de/luricos/bukkit/backup/threading/PrepareBackupTask.java:103-106 | `worldsToBackup` is initialised to `null`, and the first qualifying world calls `add` on it, which throws `NullPointerException` | one world named `world` and an empty skip list (`AsWrittenOneWorldThrows`) | the list starts empty and collects every qualifying world in server order | not executed | Prepare.AsWrittenThrowsOnQualifyingWorld | Prepare.CollectWorlds |

# Durable state of the capability runtime: a verified model

This project models the layer of the runtime that has to survive crashes, failing writes and
concurrent processes, and proves what it keeps: the write-ahead log, the executor that writes to it,
the backup store, session files, and a few smaller stateful cores. Running
`dafny verify dfyconfig.toml` checks everything.

## How the model is built

- **Text.** A log file is a `string` in which a `char` stands for one byte. An event line is printed and
  parsed by a `Codec`, of which only the laws in `Events.Lawful` are assumed: what sections 2 and 7 of
  RFC 8259 give for one JSON object per line. `CodecWitness` shows that the laws can hold together.
- **Failures.** Every write, rename, creation or removal can fail. A failing write leaves a prefix of its
  line; a failing copy of a tree leaves anything at the path it works on, a failing removal a part of the tree. A
  crash is a stop between two calls or inside one, and leaves anything there.
- **One log twice.** `WalCrash` has one writer at a time, with crashes and byte-level prefixes.
  `WalRace` has any number of writers and one maintenance task as single steps over inodes: open, lock,
  write some characters, unlock, die before the line is whole, rename, truncate, give up after a failing
  call. Each inode carries the history of the lines written whole; `WalRaceRead` proves that the bytes of
  every file are exactly that history.
- **False promises.** Where a documented property fails, a lemma shows an input, and an if-and-only-if over
  all runs says when it holds.
- **Code as code.** What the source does with loops and mutable objects is a method or a class here and is
  proved against a function; what follows from the function is proved in lemmas.

| file | content |
|---|---|
| `Common`, `Text`, `Events`, `CodecWitness`, `Numerals` | lines, trimming, events and their codec, decimal suffixes |
| `WalReader` | `load`, `tail`, the tail-window scan, `load_all` |
| `WalCrash` | `create` and `append` with failures and crashes, sequence numbers |
| `WalRotation`, `WalMaintenance`, `WalRewrite` | rotation and age-based cleanup, sequentially, with failing calls; which lines a cleanup keeps, and in which order |
| `WalRace`, `WalRaceSteps`, `WalRaceLoss`, `WalRaceShelves`, `WalRaceRetention`, `WalRaceLate` | the interleaving model, its invariants, all causes of loss, and how long rotation keeps a line |
| `WalRaceText`, `WalRaceRead`, `WalRaceRewrite` | the bytes of its files, and what a cleanup makes of them |
| `WalRaceLines`, `WalRaceOrder`, `WalRacePlaces`, `WalRaceArchives`, `WalRaceAppends`, `WalRaceWitness` | order within and across its files, appends without maintenance, runs that fail |
| `Safety`, `Executor`, `ExecutorRuns`, `ExecutorPlan` | the safety fold, one job's protocol, interleaved jobs, and what a job does told from its inputs |
| `FileTrees`, `Backups`, `Leftovers`, `Restore` | recursive copy and size, numbered backups, copies over leftovers, restore |
| `Sessions` | locked and unlocked read-modify-write of a session file |
| `Slots`, `SessionLoop`, `Monitor`, `Facts`, `Csv` | slot counters, session run, health alerts, facts evaluation, CSV |

## Where the code and its documentation part

- `load_all` documents oldest-first order across archives (core/src/wal.rs:618-625). Its prepend loop
  produces archive 1, 2, ..., N, current; the two agree exactly when at most one archive holds events
  (`WalReader.ChronologicalIff`).
- Rotation and cleanup document that holding the lock prevents the loss of concurrent appends
  (core/src/wal.rs:815, core/src/wal.rs:871-873). Appends reopen the path, so each has a window in which an
  acknowledged event is lost (`WalRaceWitness`); `WalRaceLoss.LossIsClassified` lists all causes of loss.
- Rotation documents that it shifts older files and keeps a limited number (core/src/wal.rs:811-813). A failing
  shift is only logged and can cost a newer file than those that stay; `WalRotation.RotationKeepsNewestIff` and
  `WalRotation.RotationStaysTidyIff` say when it does not.
- `cleanup` reports the expired events as removed; it leaves exactly the others when no event is numbered
  above the last unexpired one (`WalMaintenance.CleanupExactIff`). When every event is expired it keeps every
  one with a positive number (`WalMaintenance.AllExpiredAreKept`).
- The events a cleanup re-reads are meant to be those that arrived while it worked (core/src/wal.rs:921-925). They are
  chosen by number, so the rewritten log can hold a line twice and can change the order of lines, in one process
  and under interleaving: `WalRewrite.CleanupKeepsOrderIff`, `WalRaceRewrite.ListedOnceIff` and
  `WalRaceOrder.FilesInOrderIff` say exactly when.
- Sequence numbers are documented to increase within a writer (core/src/wal.rs:105); an append whose line landed
  before its fsync failed makes the next one repeat its number (`WalCrash.SequenceNumbersIncreaseIff`).
- Recovery of the last number reads 8 KiB from the end of the log. A window that opens inside a line can make it go on
  from a number below one the log holds (`WalCrash.RecoveryIsRightIff`, `WalCrash.MisledRecoveryWitness`).
- The unsuffixed backup is documented to be always the original state of a file (core/src/backup.rs:223-225). It can be
  a copy that broke half way, or the numbered copy of another file (`Backups.CandidateIsThisCopyIff`,
  `Backups.BrokenFirstCopyWitness`, `Backups.ClaimedNameWitness`).
- A restore ignores errors when it clears its temporary path, and compares sizes only, so it can succeed with a target
  that is not the backup; `Restore.Site.Restore` and `Leftovers.InexactIff` say when.
- The executor documents that a failing log append implies no side effect. A torn line left by another
  writer can swallow an acknowledged verdict; `ExecutorRuns.EvidenceIsDurableIff` and
  `ExecutorRuns.JobsFollowTheGrammarIff` give the exact conditions.
- Session writes are documented as atomic; the status update takes no lock and shares one temporary file,
  so jobs are lost and torn sessions appear (`Sessions.CallsAreSerialIff`).
- `acquire_cli_slot` documents refusal when all slots are in use; it can refuse with a slot free
  (`Slots.RefusedWhileFreeWitness`).
- The facts evaluator documents that absence never counts as a violation; under the quantifier None, and under
  the counts that more matches can exceed, it does (`Facts.AbsenceIsHarmlessIff`).

## Model

| member | source | states |
|---|---|---|
| `Events.CompleteWrite` | core/src/wal.rs:480-509 | a whole line appended to any text is readable exactly when only blanks stood after the last newline, and it always ends the text in a newline |
| `Events.PartialWrite` | core/src/wal.rs:490-503 | what a reader finds after any prefix of a line: nothing new, except the event itself once all but its newline is there |
| `Events.LinesScan` | core/src/wal.rs:590-613 | reading by lines, carriage returns and missing final newline included, finds the events of the newline-separated pieces |
| `CodecWitness.LawfulIsPossible` | core/src/wal.rs:3-5 | the assumed laws of event lines are consistent |
| `WalReader.ReadFile` | core/src/wal.rs:590-613 | the load loop returns, in the order of the file, every parseable event as often as it is there except those of the kind WriterInitialized, and counts the lines that are not blank and do not parse |
| `WalReader.TailWindow` | core/src/wal.rs:759-788 | the bounded window holds the last n parseable events of the file, markers included, while drops are counted over the whole file |
| `WalReader.ReadLastSeq` | core/src/wal.rs:45-79 | the backward scan returns the number of the last parseable piece of the window |
| `WalReader.TailScanRefines` | core/src/wal.rs:375-387 | for every file and window size, a value returned with a harmless cut is the number of the last event of the whole file |
| `WalReader.TailScanOtherwise` | core/src/wal.rs:375-387 | with any other cut the scan is right as soon as a later line of the window parses, and otherwise reports the stray piece |
| `WalReader.WholeLinesHarmless` | core/src/wal.rs:45-79 | in a file of whole event lines no window size misleads the scan |
| `WalReader.Discover` | core/src/wal.rs:639-660 | the directory listing yields the numeric suffixes above zero |
| `WalReader.SortDescending` | core/src/wal.rs:661-664 | the indices come out descending and are the same multiset |
| `WalReader.ReadArchives` | core/src/wal.rs:666-694 | the prepend loop yields the archives in the reverse of the order read, with drops summed |
| `WalReader.LoadAll` | core/src/wal.rs:634-717 | the result runs through the listed archives in ascending order and ends with the current file; it holds every parseable event of these files but the markers; drops are the sum; it fails only if the current file is missing |
| `WalReader.EachArchiveOnceIff` | core/src/wal.rs:639-660 | whatever the listing order, every archive is read exactly once if and only if every listed name that carries an index is the one rotation gives it |
| `WalReader.AliasWitness` | core/src/wal.rs:651-653 | a stray zero-padded name makes an archive count twice |
| `WalReader.ChronologicalIff` | core/src/wal.rs:618-625 | the order produced is the documented oldest-first order exactly when at most one archive holds events |
| `WalReader.WrongOrderWitness` | core/src/wal.rs:618-625 | with one event in each of two archives the newer comes first |
| `WalCrash.WalWriter.Create` | core/src/wal.rs:328-415 | recovery continues from the tail scan or else the maximum over the file, and appends one marker with that number |
| `WalCrash.WalWriter.Append` | core/src/wal.rs:480-509 | an acknowledged append adds its whole line and advances the counter; a failed one leaves a prefix and the counter |
| `WalCrash.CreateAbsorbsTornLine` | core/src/wal.rs:361-411 | after a successful create any torn last line is closed and nothing readable is lost |
| `WalCrash.AckedIffCleanTail` | core/src/wal.rs:480-509 | an acknowledged append shows up for readers exactly when the tail was clean |
| `WalCrash.CleanAcksAreLoaded` | core/src/wal.rs:480-509 | over every run of creates, appends, failures and crashes on any initial file, load returns in order every event whose append was acknowledged on a clean tail |
| `WalCrash.AckedEventsAreLoaded` | core/src/wal.rs:361-411 | hence all acknowledged events, if no writer goes on after a failed append |
| `WalCrash.SpoiledWriterWitness` | core/src/wal.rs:480-509 | a writer that goes on after a torn append loses its next, acknowledged, event |
| `WalCrash.RecoveryIsRightIff` | core/src/wal.rs:375-387 | in a file whose numbers never go back, recovery continues above all of them unless a stray piece with a lower number is all the window shows |
| `WalCrash.MisledRecoveryWitness` | core/src/wal.rs:375-387 | with the window of 8192 bytes the code uses, a log whose numbers never go back and a recovery that goes on from a number below one the log holds |
| `WalCrash.SequenceNumbersIncreaseIff` | core/src/wal.rs:361-411 | over every run of creates, appends, failures and crashes in which no recovery is misled by a stray piece, the numbers that load returns increase strictly at every point if and only if no append leaves a readable event through a writer one of whose failed appends had left its whole line on a clean tail |
| `WalCrash.RepeatedNumberWitness` | core/src/wal.rs:490-503 | a line written before its fsync failed makes the next append repeat the number |
| `WalRotation.LogDir.Rotate` | core/src/wal.rs:820-869 | rotation with any failing rename, creation or removal, as a function of the directory |
| `WalRotation.ShiftAt` | core/src/wal.rs:835-849 | what each archive index holds after the shift loop, whichever shifts fail |
| `WalRotation.RotationOnDisk` | core/src/wal.rs:820-869 | the directory of numbered segments, on which the history is told, rotates as the files do |
| `WalRotation.RotateKeepsNewestIff` | core/src/wal.rs:835-865 | one rotation, whatever fails in it, keeps the newest segments in order if and only if no archive but the oldest is overwritten |
| `WalRotation.RotationKeepsNewestIff` | core/src/wal.rs:835-865 | the same over every run of appends and rotations with any call failing, at every point |
| `WalRotation.KeptIsASuffix` | core/src/wal.rs:835-865 | then archives from the highest down and the current file run together are everything appended except the oldest segments, lost whole |
| `WalRotation.RotateStaysTidyIff` | core/src/wal.rs:835-865 | archives 1 to n within the limit with the newest segments become such archives again if and only if no shift fails but the oldest one's, or, when the rename fails, all do |
| `WalRotation.RotationStaysTidyIff` | core/src/wal.rs:835-865 | the same over every run, at every point |
| `WalRotation.RotationKeepsASuffix` | core/src/wal.rs:835-865 | without faults, for every limit, the archives are after any run exactly the newest closed segments up to the limit, contiguous from 1 |
| `WalRotation.FailedShiftWitness` | core/src/wal.rs:838-848 | one failed, merely logged, shift loses a newer segment while an older one stays |
| `WalMaintenance.Cleanup` | core/src/wal.rs:887-945 | the number reported, the text the path names afterwards, and that any failure leaves the old log in place |
| `WalMaintenance.CleanupScan` | core/src/wal.rs:909-937 | the rewritten log holds what a stale temporary log held, a marker, the retained events, then every event numbered above the last retained one |
| `WalMaintenance.CleanupExactIff` | core/src/wal.rs:887-945 | for every log, cleanup leaves exactly the unexpired events if and only if no event is numbered above the last unexpired one |
| `WalMaintenance.CleanupInOrderIff` | core/src/wal.rs:887-945 | with times and numbers that never go back this means something is unexpired or no number is positive |
| `WalMaintenance.AllExpiredAreKept` | core/src/wal.rs:921-934 | when all events are expired, every one with a positive number is kept |
| `WalRewrite.RewriteKeepsOrderIff` | core/src/wal.rs:921-934 | for every log, the lines a cleanup takes over stand in their old order if and only if no event before the last unexpired one is numbered above it |
| `WalRewrite.RewriteDoublesNothingIff` | core/src/wal.rs:921-934 | it takes no line over twice if and only if no unexpired event is numbered above the last unexpired one |
| `WalRewrite.CleanupKeepsOrderIff` | core/src/wal.rs:887-945 | the same of the rewritten file: it holds its marker and those lines, and for a log without repeated events their sequence is a subsequence of the old one under the same condition |
| `WalRewrite.CleanupReordersWitness` | core/src/wal.rs:921-937 | where numbers go back, an expired event comes back behind a later one |
| `WalRewrite.CleanupDoublesWitness` | core/src/wal.rs:921-937 | an unexpired event numbered above the last unexpired one is written twice |
| `WalRaceLoss.InvStep` | core/src/wal.rs:480-945 | every single step of any writer, of rotation and of cleanup keeps the invariant on names, locks, times and places |
| `WalRaceLoss.ReachableIff` | core/src/wal.rs:480-945 | in any state with the invariant, an acknowledged append is reachable exactly when it was not glued to a torn line, fell into no window, was not expired and was in no archive that a rename or the removal dropped |
| `WalRaceLoss.LossIsClassified` | core/src/wal.rs:480-945 | over every interleaving of creates, appends that may die before their line is whole, rotations any call of which may fail, and cleanups, an acknowledged event is reachable under the current name or an archive except for exactly five causes, with their times |
| `WalRaceRetention.RetentionIff` | core/src/wal.rs:820-869 | over every interleaving in which no rotation fails half way: a line is in the archive whose index is the number of rotations since its append opened the path, never beyond the limit, and a sound acknowledged append is reachable exactly while these are at most the limit |
| `WalRaceLate.LateWriterWitness` | core/src/wal.rs:480-509 | counted from the writing of the line this is false: with limit 1 the first rotation after the acknowledgement drops the line of a writer that had opened one rotation earlier |
| `WalRaceText.LineFinished` | core/src/wal.rs:490-503 | the last characters of a line settle the whole event, or nothing if a truncation took its beginning or more than blanks of a torn line stand before it |
| `WalRaceRead.FilesMatchHistory` | core/src/wal.rs:480-945 | after every interleaving the readable lines of every named file are exactly those its history lists, in order: none torn or glued |
| `WalRaceRead.ReachableIsLoaded` | core/src/wal.rs:590-613 | a reachable acknowledged event is returned by load of some named file |
| `WalRaceRewrite.BuildOnceIff` | core/src/wal.rs:921-934 | a cleanup under interleaving lists an append twice if and only if an unexpired event it read is numbered above the last unexpired one |
| `WalRaceRewrite.ListedOnceIff` | core/src/wal.rs:480-945 | over every interleaving, no file ever holds a line twice if and only if no cleanup reads such an event; never without a cleanup that rewrites |
| `WalRaceOrder.FilesInOrderIff` | core/src/wal.rs:480-945 | over every interleaving of writers, rotations and cleanups, the lines of writers stand in every file at every point in the order in which they were begun, if and only if no cleanup reads, before the last unexpired line, one numbered above it |
| `WalRaceOrder.WriterOrderKept` | core/src/wal.rs:480-945 | then a writer that waits for one append before the next finds its lines in that order in any file that holds both |
| `WalRaceArchives.NeverInAnOlderFile` | core/src/wal.rs:480-945 | and over every interleaving at all, with any rename failing, the file that holds the later line is never older than one that holds the earlier line |
| `WalRaceAppends.AppendsLostIffGlued` | core/src/wal.rs:480-509 | under every interleaving of creates and appends alone, any of which may die at any point of its line, an acknowledged event is in the current file exactly when it was not begun on top of a torn line |
| `WalRaceAppends.AppendsAreNeverLost` | core/src/wal.rs:480-509 | if no writer dies before its line is whole, load returns every acknowledged event |
| `WalRaceWitness.RotationWindowWitness` | core/src/wal.rs:850-857 | a run in which an acknowledged append between rename and re-creation is wiped out |
| `WalRaceWitness.TornLineWitness` | core/src/wal.rs:480-509 | a run in which a dead writer's torn line takes the next acknowledged event with it |
| `WalRaceWitness.CleanupWindowWitness` | core/src/wal.rs:921-940 | a run in which an acknowledged append lands in the replaced inode |
| `WalRaceWitness.DoubledLineWitness` | core/src/wal.rs:921-940 | a run of three whole appends and a cleanup after which the log holds the second line twice |
| `Safety.Gate` | core/src/executor.rs:465-532 | the fold with early exit computes the verdict of the field table |
| `Safety.WinnerDescribed` | core/src/executor.rs:465-512 | the verdict is the first field that cannot be assessed, else the first assessment of maximal severity, else none |
| `Safety.ProceedsIff` | core/src/executor.rs:465-532 | the gate permits execution exactly when every eligible string field could be assessed and permits it |
| `Safety.OrderIrrelevant` | core/src/executor.rs:460-463 | whether the gate stops, and with which disposition, does not depend on the order of the fields |
| `Safety.DecisionsKeepTheirSeverity` | core/src/safety.rs:165-184 | of the upstream decisions only the two mildest permit execution, none is answered by another's disposition, and severity is kept |
| `Safety.TableAssessesOnePayload` | core/src/safety.rs:542-656 | in the table no control field is assessed and no capability has two assessed fields |
| `Safety.AssessedFields` | core/src/safety.rs:542-656 | which field each capability has assessed and which it marks as control |
| `Safety.FirstPresentIs` | core/src/executor.rs:513-532 | when nothing was assessed the verdict names the first field of the table that is present, else a placeholder |
| `Executor.LandIsWrite` | core/src/wal.rs:480-509 | the event-level log of the executor model is what the terminated lines of the file amount to |
| `Executor.ExecuteWithId` | core/src/executor.rs:301-962 | the sequential code, gates, audits and early returns included, does to the log and returns exactly what the job's step machine does |
| `Executor.RunCapability` | core/src/executor.rs:664-962 | the part from execution on: backups before the terminal event, which failures stop the job and which are passed over |
| `Executor.AuditFailure` | core/src/executor.rs:671-762 | after a failed execution every backup found under a key is logged before the failure, whatever fails |
| `ExecutorRuns.AloneIsARun` | core/src/executor.rs:301-962 | what the sequential code does alone is a run of the interleaving model |
| `ExecutorPlan.JobsKeepToTheirPlan` | core/src/executor.rs:301-962 | for any number of interleaved jobs and any failing appends, a job tries the lines that its inputs determine in order; a failing hard line is its last and gives a log error, any other failure is passed over; a job not so stopped returns what its inputs determine and ran exactly when it may |
| `ExecutorPlan.UndisturbedJobs` | core/src/executor.rs:301-962 | a job whose own appends are all acknowledged writes exactly its lines, from which backups and which terminal line follow, whatever other jobs do |
| `ExecutorPlan.OnlyAdmittedJobsRun` | core/src/executor.rs:359-532 | whatever fails, a capability runs only past the guard, with at most ten zombies, at most 1 MiB of arguments, a positive timeout and a verdict that allows it |
| `ExecutorPlan.ResultsAreHonest` | core/src/executor.rs:359-962 | which inputs a resource error, an execution error, a success and a failure result stand for, in both directions, whatever fails |
| `ExecutorRuns.JobsFollowTheGrammarIff` | core/src/executor.rs:326-962 | for any number of interleaved jobs and any failing appends, torn ones included, the lines a job writes whole, newline included, follow the grammar, readers find those of them not swallowed by a torn line, and these follow it too exactly when no swallowed line is one that a later readable line rests on |
| `ExecutorRuns.JobsFollowTheGrammar` | core/src/executor.rs:326-962 | so a job none of whose lines was written on a torn log leaves a legal record, with its completion if it reports success and with exactly its evidence when it ran |
| `ExecutorRuns.BlockedNeverRuns` | core/src/wal.rs:228-237 | over every run and every failure, a job that wrote a blocking verdict never runs its capability, never returns a result and writes at most its failure after it |
| `ExecutorRuns.EvidenceIsDurableIff` | core/src/executor.rs:534-567 | over every run and every failure a job runs only with a permitting verdict, and the evidence is readable by then exactly when neither line was written on top of a torn line |
| `ExecutorRuns.ResultTellsWhetherItRan` | core/src/executor.rs:301-962 | whatever fails, a returned result means the capability ran, any error but a log error means it did not, and a blocking error names the verdict's disposition |
| `ExecutorRuns.LogErrorLeavesDoubtWitness` | core/src/executor.rs:838-862 | a log error is returned both by a run that executed and by one that did not |
| `ExecutorRuns.TornNeighbourWitness` | core/src/executor.rs:534-567 | another job's torn line swallows an acknowledged verdict, the capability still runs, and the record left does not follow the grammar |
| `FileTrees.CopyRecursive` | core/src/backup.rs:191-216 | a copy that succeeds leaves the source overlaid on what was there and has met no failing call; it succeeds for regular fitting trees without faults; one that cannot even look at the source, or finds a link, touches nothing |
| `FileTrees.CopyDirectory` | core/src/backup.rs:203-211 | the same for a directory, in any order of its entries |
| `FileTrees.OverlayCovers` | core/src/backup.rs:191-216 | a copy onto anything contains all of its source |
| `FileTrees.CalculateSize` | core/src/backup.rs:128-157 | the saturating recursive sum is the true total capped at 64 bits, in any order of the entries |
| `FileTrees.SizesAddUp` | core/src/backup.rs:128-157 | the total a size stands for: the length of a file, the sum over a directory |
| `FileTrees.VerifyIntegrity` | core/src/backup.rs:164-177 | success means equal capped totals of two regular trees |
| `Backups.FindFreshName` | core/src/backup.rs:276-295 | the search ends whenever a name within the range of its counter is free, and returns the first of the series that is not taken |
| `Backups.FewEntriesLeaveRoom` | core/src/backup.rs:276-295 | one is free in any directory of at most 2^32 - 1 entries |
| `Backups.JobDir.CreateBackup` | core/src/backup.rs:238-317 | a faithful copy at the first free name unless sizing, creating the directory or copying failed, whatever the verification then says; success exactly after the verification too; on failure at most something at that name, and nothing before the copying began; nothing above the size limit or under a bad job id |
| `Backups.BackupsAreKeptApart` | core/src/backup.rs:238-317 | in any sequence of calls no earlier backup is ever altered and no two paths are equal |
| `Backups.FindBackupCandidate` | core/src/executor.rs:1094-1106 | the lookup returns the first existing name among the bare one and suffixes 1 to 10 |
| `Backups.CandidateIsThisCopyIff` | core/src/executor.rs:1094-1106 | ever after a call that left anything, the lookup returns the bare name and finds what that call left if and only if the name was free at the call; that is the pre-mutation source unless the copying failed |
| `Backups.BrokenFirstCopyWitness` | core/src/backup.rs:310-316 | a copy that broke half way is what the lookup returns ever after |
| `Backups.ClaimedNameWitness` | core/src/executor.rs:1094-1106 | a file named like a numbered backup of another is looked up wrongly |
| `Leftovers.OverlayIsSourceIff` | core/src/backup.rs:376-381 | a copy onto leftovers is exact if and only if the leftovers have no name of their own |
| `Leftovers.ExactUnlessForeign` | core/src/backup.rs:373-381 | whatever part of a stale tree a failing removal leaves, a copy that passes its check is exact unless that tree had, next to names of the source, a directory, an empty file, or, for a source that fills 64 bits, any file of its own |
| `Leftovers.InexactIff` | core/src/backup.rs:373-381 | and if it had, some part of it can be left so that the copy passes and is not exact |
| `Restore.Site.Restore` | core/src/backup.rs:332-409 | whatever fails, success makes the target exactly the backup unless such a name stood at the temporary path before, and the pre-restore copy exactly the old target unless a name of its own stood there; a failing restore whose exchange and rollback calls work leaves the target as it was; at every crash point and failure the old content is complete at the target or the pre-restore path; which restores succeed when at most the two ignored removals fail |
| `Restore.Site.RollBack` | core/src/backup.rs:381-394 | a rollback that works puts the pre-restore copy back and leaves no directory at the temporary path |
| `Restore.RestoreOverLeftovers` | core/src/backup.rs:373-407 | for every part that passes, and a target that is absent or a regular directory, a whole restore that leaves the part in the target and reports success |
| `Restore.StaleTempWitness` | core/src/backup.rs:373-407 | an empty stale file passes the size check and ends up in the target |
| `Sessions.SessionFile.AddJob` | core/src/session.rs:238-247 | the file becomes the modified session or stays as it was |
| `Sessions.SessionFile.SaveSession` | core/src/session.rs:333-364 | atomic replacement, and no temporary file left behind unless its removal fails |
| `Sessions.SessionFile.UpdateSessionStatus` | cli/src/session_run.rs:30-73 | the file becomes the session with the new status or stays as it was |
| `Sessions.AddsAreSerial` | core/src/session.rs:238-247 | any interleaving of locked calls with failures and crashes leaves the file whole and equal to running the successful calls in lock order |
| `Sessions.ReplayMeans` | core/src/session.rs:238-247 | what calls one after the other make of a session: the added jobs in order, the status of the last update, the time of the last call |
| `Sessions.AddsLeaveNoTemporary` | core/src/session.rs:333-364 | over every run of adds and updates with failing calls but no crash, as long as removals work, no add leaves its temporary file behind |
| `Sessions.CallsAreSerialIff` | cli/src/session_run.rs:30-73 | over every run of locked adds and unlocked updates with failures and crashes, the file is whole and the result of the successful calls one after the other at every point, if and only if every successful rename moved the call's own complete text from an up-to-date read and no slow writer wrote into what had become the session |
| `Sessions.RenameSerialIff` | cli/src/session_run.rs:66-70 | the same for one rename |
| `Sessions.LostJobWitness` | cli/src/session_run.rs:30-73 | an unlocked status update erases a job both calls acknowledged |
| `Sessions.TornSessionWitness` | cli/src/session_run.rs:66-70 | two status updates share a temporary file and leave a session that does not parse |
| `Sessions.SlowWriterWitness` | cli/src/session_run.rs:66-70 | the slower of two updates overwrites the session the faster has renamed, although its own rename fails |
| `Slots.CliNeverOverGrants` | cli/src/main.rs:557-569 | for every schedule at most sixteen hold a slot, the counter is holders plus pending undos, and refusal is exactly when those reach sixteen |
| `Slots.RefusedWhileFreeWitness` | cli/src/main.rs:557-564 | a request is refused while a slot is free |
| `Slots.RegistryIsExact` | daemon/src/jobs.rs:54-84 | with matched releases the counter is the number of holders and refusal means all slots are taken |
| `Slots.StrayReleasesOnlyUndercount` | daemon/src/jobs.rs:72-84 | whatever releases come, the counter never blocks a request while a slot is free |
| `SessionLoop.RunSession` | cli/src/main.rs:2203-2545 | exactly the steps up to the first ending one are reached; counts, held slots and saved status |
| `SessionLoop.StepSucceedsIff` | cli/src/main.rs:2203-2545 | which answers of guard, filter, slots, daemon and executor make a step a success, an executed failure, a refusal, or an escaping error |
| `SessionLoop.CleanRunIff` | cli/src/main.rs:2203-2545 | a run reports no failure exactly when every step succeeded, and then all were executed |
| `SessionLoop.StopPolicy` | cli/src/main.rs:2203-2545 | under stop nothing runs after the first failure and the status is Terminated, unless a local executor error escapes with its slot held and no status |
| `SessionLoop.ContinuePolicy` | cli/src/main.rs:2203-2545 | under continue every step is reached unless time runs out or an executor error escapes |
| `Monitor.HealthMonitor.Check` | core/src/monitor.rs:205-245 | after any history of checks the counters are the current runs and the stored alerts the last hundred of the emitted stream |
| `Monitor.HealthMonitor.AddAlert` | core/src/monitor.rs:377-384 | the stored alerts stay the last hundred |
| `Monitor.CpuRunAtLeast` | core/src/monitor.rs:205-216 | the counter is at least n exactly when the last n readings were all above the threshold |
| `Monitor.RamRunAtLeast` | core/src/monitor.rs:218-236 | the counter is at least n exactly when the last n steps were all strict increases |
| `Monitor.CpuAlertFiresIff` | core/src/monitor.rs:205-216 | the alert is raised at a check exactly when it and the four before it all read above ninety percent; it names the reading and the length of the run |
| `Monitor.RamAlertFiresIff` | core/src/monitor.rs:218-236 | the alert is raised exactly when the last five steps all increased |
| `Monitor.AlertsOfOneCheck` | core/src/monitor.rs:205-245 | a check raises at most one alert of each kind, in this order, and the zombie alert with its count exactly above ten |
| `Monitor.StoredAlertsAreTheLast` | core/src/monitor.rs:377-384 | what is stored are the last hundred alerts in order |
| `Facts.EvaluateFactsRecords` | cli/src/main.rs:3341-3459 | the loops with early exit give the logical verdict and the counts, and disclose exactly the fields skipped before a failing predicate |
| `Facts.CheckRecord` | cli/src/main.rs:3386-3410 | a record matches exactly when its observed predicates all hold; what was skipped on the way is counted and named |
| `Facts.VerdictsAreQuantifiers` | cli/src/main.rs:3412-3450 | All, Exists and None are the quantifiers over the selected records |
| `Facts.ExistsAndNoneAreCounts` | cli/src/main.rs:3412-3450 | Exists is a count of at least one and None a count of zero |
| `Facts.CountsAreCompared` | cli/src/main.rs:3429-3450 | a count compares the number of matching selected records with its threshold as its operator says, and is violated under operators that compare no numbers |
| `Facts.NumbersAreOrdered` | cli/src/main.rs:3292-3311 | of two numbers exactly one of Lt, Eq and Gt holds, Gte, Lte and Neq are their negations, and a bound that is exceeded still is by a larger number |
| `Facts.TypesDoNotMix` | cli/src/main.rs:3292-3320 | across types only Eq and Neq answer, and they say different |
| `Facts.TextSplitsIff` | cli/src/main.rs:3312-3320 | both text operators hold exactly when the text splits around the pattern |
| `Facts.BoundsAreChecked` | cli/src/main.rs:3341-3459 | under All with one numeric bound a verdict is Satisfied exactly when every selected record in which the field is observed has a number on the right side of it |
| `Facts.FieldsAreRead` | cli/src/main.rs:3230-3282 | where every field is read from, and that a spec may name exactly these |
| `Facts.SkippedAreMissing` | cli/src/main.rs:3389-3404 | what is disclosed as skipped are the fields missing before the first predicate that does not hold |
| `Facts.DropLoses` | cli/src/main.rs:3230-3250 | removing one unselected field from a record unobserves that field and no other |
| `Facts.AbsenceIsHarmlessIff` | cli/src/main.rs:3513-3515 | losing observations of unselected fields never takes a satisfied verdict away if and only if the quantifier is one that more matches cannot turn: not None, not Count with Lte or Eq, nor with Lt or Neq of a positive number |
| `Facts.NoneFlipsWitness` | cli/src/main.rs:3513-3515 | under None one lost field is enough |
| `Csv.FormatTableCsv` | cli/src/format.rs:177-199 | the loops print the escaped rows, comma-joined and newline-separated |
| `Csv.CsvRoundTripIff` | cli/src/format.rs:177-208 | for all cell strings a reader following section 2 of RFC 4180 gets the table back exactly when every row has a cell |
| `Csv.CsvInjective` | cli/src/format.rs:177-208 | distinct tables with headers and non-empty rows never print alike |
| `Csv.EmptyRowWitness` | cli/src/format.rs:190-197 | a row of no cells and a row of one empty cell print the same |

## Left out

- WalRace.CanRead: a cleanup does not read a file that ends in a line which parses and only lacks its newline; such files otherwise occur.
- WalRace: one maintenance task at a time, as the daemon's hourly task runs cleanup and rotation in sequence (daemon/src/engine.rs:1617-1624); two daemons on one log are not modelled.
- WalRaceLoss.LossIsClassified: a cleanup that fails after it began its temporary log, and so leaves a stale one, is modelled sequentially only (`WalMaintenance.Cleanup`, `WalMaintenance.CleanupScan`); times are step counts.
- WalRaceRetention.RetentionIff: runs in which no rotation fails once it holds the lock; what failing shifts cost is judged sequentially (`WalRotation.RotationKeepsNewestIff`).
- WalRaceRewrite.ListedOnceIff: the same; lines of a stale temporary log would come on top.
- WalRaceOrder.WriterOrderKept: runs in which no cleanup changes the order; `WalRaceOrder.FilesInOrderIff` and `WalRewrite.CleanupReordersWitness` show that one can.
- WalCrash.SequenceNumbersIncreaseIff: runs in which a recovery is misled are left out of the equivalence (`WalCrash.RecoveryIsRightIff` says which); the numbers are unbounded; the wrap-around of 64-bit counters is not modelled.
- WalCrash.AckedEventsAreLoaded: crash cuts fall on character boundaries of UTF-8, since otherwise the whole file fails to load; blank lines are blanks of JSON, not all Unicode whitespace.
- WalReader.LoadAll: unreadable archives contribute nothing, as in the code; file names are compared as text without lossy conversion.
- Event kinds of the observation subsystem and the fields of an event other than number, time, kind and job are one opaque token.
- Backups.FindFreshName: with every name up to the largest counter taken the code's saturating search never ends, which the precondition excludes.
- Restore.Site.Restore: the four paths are disjoint; file modes are numbers, and ownership and times are not modelled. `BackupManager::cleanup` is left out.
- Sessions: `create_session` and `list_sessions` are left out; times are whatever the caller passes.
- SessionLoop.RunSession: parsing of steps, the daemon's polling and all printing are inputs or left out.
- Facts.EvaluateFactsRecords: numbers are integers, counts stay below 2^53, and the sorted field lists are sets.
- Monitor.HealthMonitor.Check: percentages are integers; parsing of sizes and normalization by core count are left out.
- Slots: counters do not wrap; the job map of the registry is left out.
- Safety.Gate: an assessment is an arbitrary outcome per field; pressure, policy and provenance are left out.
- `job.rs`, configuration, telemetry, process listing, RPC, the capabilities themselves, the plain, markdown and box tables and `wall_to_markdown` are not part of this model.

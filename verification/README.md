# ferrisync in Dafny

A model of the synchronization core of ferrisync, a peer-to-peer folder synchronizer, and proofs of
what it guarantees. `dafny verify dfyconfig.toml` checks all of it.

The centre is one **sync session** between two ends that share nothing but two message queues
(`Session*.dfy`, `Endpoint.dfy`). Both ends index their folder, exchange the indexes and run the same
reconciler with the sides swapped. Each pushes its half of the plan in chunks, ends with a sentinel,
and then reads: it reassembles, verifies, backs up, commits and acknowledges. The model is a step
system over both ends and both queues in which either end may give up at any step, also between any
two steps of a commit. `Endpoint.dfy` is one end as the program runs it, with fields updated in place,
proved against the step functions; `EndpointRuns.dfy` shows its loops to be runs of that system.

Around it: version vectors and the reconciler (`Versions.dfy`, `Reconciler.dfy`), stamping and the
wire form of an index (`Orchestrator.dfy`), chunks and receive buffers (`Chunks.dfy`), names of
conflict backups and their resolution (`BackupNames.dfy`, `ConflictResolution.dfy`), the change
scheduler (`Scheduler.dfy`), the device and folder pairing gates (`PairGate.dfy`, `FolderGate.dfy`),
and the identity migration (`IdentityMerge.dfy`). `Basics.dfy` holds runs of a step relation and the
ways of reasoning about all of them.

## How the session proof goes

* What a side has not read yet is always: what is queued for it, then what the other side has still to
  push, then the acknowledgements still to come (`SessionStreams.Channel`). Each send and each receive
  moves one message along that equation.
* What a folder holds is determined by what was received: received paths have the other side's
  content, replaced content sits under a backup name, the rest is untouched (`SessionFiles.FilesInv`).
* Both are kept by every action (`SessionRuns.ActionKeepsInv`). The theorems read off the rest:
  no loss, exit soundness, convergence, termination, absence of deadlock, and a regular end for every
  start. `SessionRemains`, `SessionSeries` and `SessionInterruptions` carry them over sequences of
  sessions; `SessionExamples` has the concrete folders.
* The plans of the two ends make a sound deal (`SessionPlan.PlansAgree`), because `dominates` is the
  strict pointwise order and the reconciler's plan is characterised path by path.

## What is assumed

* Queues are reliable, unbounded and in order; a writer never blocks. Both ends write all their pushes
  before they read, so progress depends on this.
* BLAKE3 is a parameter. Plans require it to tell apart the two contents at a common path.
* An index lists each path of a folder once. Folders are flat maps from paths to bytes. No path is the
  database's, and none is the temporary name of another; nobody else edits the folders during a session.
* Over several sessions digests and names are assumed of the first pair of folders only, and then of
  names that none ends in "..ferrisync-tmp" (`SessionRemains.PlainNames`); later pairs inherit both.
* When a file is replaced, its backup's time stamp gives a name that is not one of the original paths;
  `SessionProgress.FreshStamp` shows that such a stamp exists.
* Paths are sequences of one-byte characters; sizes and counters other than version counters are
  unbounded naturals, with the limits of the code written out.
* Timeouts, read errors and lost connections are abort steps.
* The exchange of the indexes is not a step: a run starts when both ends have planned.

The code and its documentation disagree in one place. README.md:302-304 promises newer-mtime-wins with
a hash tie-break; the code makes equal stamps with different hashes a conflict in which the server's
copy wins, and with two different device ids every pair of positive stamps a conflict. The model
follows the code (`Orchestrator.StampRule`).

A promise of the code that does not hold without a condition is stated with it: a file of more than
256 MiB never arrives although 10 GiB are nominally allowed (`Chunks.RoundTrip`), a denial can be
overtaken exactly when the certificate is stored or a call under way is about to store it
(`PairGate.DenialIsFinalIff`), the batch limit is honoured exactly from two on
(`Scheduler.LimitHonouredIff`), the identity migration can leave references to removed ids exactly when
the device table has a chain (`IdentityMerge.NoDanglingIffNoChain`), and repeated sessions settle
exactly when every backup of the first fits: a losing copy of more than 256 MiB is pushed and refused
in every session from the second on (`SessionSeries.Fixpoint`, `SessionExamples.NeverSettles`). Names
that are merely not temporary names of each other can stop being so after an uninterrupted session: the
backup of "a.txt" is written aside as "a.txt..ferrisync-tmp", over a file of that name
(`SessionInterruptions.OrdinaryAfterIff`, `SessionExamples.NeighbourSpoilsNames`). The migration of a
device that is attached to one folder under both its ids fails (`IdentityMerge.AttachedTwiceMerges`).

## Model

| member | source | states |
|---|---|---|
| `SessionOutcome.FaultFreeRunConverges` | ferrisync-core/src/sync_engine/session.rs:306-514 | From any two folders: a run without aborts that has come to rest is a completed session exactly when every file that has to travel has a path of at most 1024 bytes and at most 256 MiB |
| `SessionOutcome.FoldersConverge` | ferrisync-core/src/sync_engine/session.rs:208-252 | After a completed session both folders hold, at every path either side had, the client's copy if only the client had the path or its version dominates, otherwise the server's copy |
| `SessionTheorems.Convergence` | ferrisync-core/src/sync_engine/session.rs:1151-1355 | When both ends have left, each folder holds the settled copy of every original path, exactly the backups of the files it had replaced, and nothing else |
| `SessionTheorems.NothingIsLost` | ferrisync-core/src/sync_engine/session.rs:425-441 | At every step of every run, with aborts anywhere (lost connection, timeout, rejected chunk, failure between any two steps of a commit or of its acknowledgement), each content a side started with is on that side at its path or at a backup of its path |
| `SessionTheorems.ClientLeavesWhen` | ferrisync-core/src/sync_engine/session.rs:372-378 | The client's counters say exactly that the acknowledged set is the pushed set and that all expected files were received |
| `SessionTheorems.ClientExit` | ferrisync-core/src/sync_engine/session.rs:364-378 | When the client has left, every expected file is on its disk with the server's content and the server has taken every pushed file |
| `SessionTheorems.ServerExit` | ferrisync-core/src/sync_engine/session.rs:1344-1354 | The server leaves exactly when it has read the sentinel; then no file is partial and every pushed file is on its disk |
| `SessionTheorems.NoDeadlock` | ferrisync-core/src/sync_engine/session.rs:353-378 | While neither end has failed, both have left or one of them can write or read |
| `SessionProgress.SessionCanComplete` | ferrisync-core/src/sync_engine/session.rs:306-514 | In a sound deal whose files all fit, a run without aborts from every start state brings both ends to their regular exit |
| `SessionProgress.CarryToRest` | ferrisync-core/src/sync_engine/session.rs:353-378 | Every reachable state, also one with a failed end, can be carried by regular actions to a state in which no end can act |
| `SessionProgress.ActionExists` | ferrisync-core/src/sync_engine/session.rs:1212-1355 | Whenever an end can act a regular action is enabled, given fewer files than the clock has moments |
| `SessionProgress.FreshStamp` | ferrisync-core/src/sync_engine/session.rs:1484-1496 | With fewer than 2^64 paths some time stamp gives a backup name that is not among them |
| `SessionTheorems.RunsEnd` | ferrisync-core/src/sync_engine/session.rs:347-378 | No run, with or without aborts, is longer than the work at its start (messages to write, acknowledgements owed, messages queued) |
| `SessionTheorems.ActionWorks` | ferrisync-core/src/sync_engine/session.rs:371-514 | Every action of either end uses up some of that work |
| `SessionTheorems.FittingRunsDoNotFail` | ferrisync-core/src/sync_engine/session.rs:393-404 | If every file fits, no run without aborts ever rejects a chunk |
| `SessionTheorems.CompletesIffAllFit` | ferrisync-core/src/sync_engine/session.rs:389-408 | For any sound deal: a resting run without aborts ended with both ends gone regularly if and only if every file of the plan fits |
| `SessionTheorems.AcknowledgedIsReceived` | ferrisync-core/src/sync_engine/session.rs:488-492 | At any moment every file this end has seen acknowledged has been received by the other end |
| `SessionRuns.ActionKeepsInv` | ferrisync-core/src/sync_engine/session.rs:306-514 | Every action of either end, including an abort between any two steps of a commit, keeps the invariant of both ends and both queues |
| `SessionRuns.RunKeepsInv` | ferrisync-core/src/sync_engine/session.rs:1151-1355 | The invariant holds in every reachable state |
| `SessionStreams.SendStep` | ferrisync-core/src/sync_engine/session.rs:306-357 | Writing one message moves exactly that message out of what the side has still to push |
| `SessionStreams.ReceiveStep` | ferrisync-core/src/sync_engine/session.rs:388-492 | A live side reads the head of its unread stream, and its bookkeeping moves by exactly that message: nothing, or one more file and its acknowledgement |
| `SessionStreams.ReceiveChunk` | ferrisync-core/src/sync_engine/session.rs:389-486 | The chunk that completes a file commits exactly the content that was sent; any other chunk changes no file |
| `SessionFiles.CommitKeepsFiles` | ferrisync-core/src/sync_engine/session.rs:425-441 | Committing a file keeps the folder invariant: received paths hold the other side's content, replaced content sits under a backup name of its path, all else is untouched and nothing is added |
| `SessionFiles.StageMeansNoLoss` | ferrisync-core/src/sync_engine/session.rs:1262-1283 | Interrupting a commit after any of its steps loses nothing |
| `SessionFiles.NewNames` | ferrisync-core/src/sync_engine/session.rs:436-441 | The backup name and the temporary name of a commit are new to the folder |
| `SessionPlan.PlansAgree` | ferrisync-core/src/sync_engine/session.rs:224-252 | Two ends that plan independently agree: the server pushes exactly what the client expects, each path travels at most once and in one direction, and what does not travel is already equal |
| `SessionPlan.ClientPushes` | ferrisync-core/src/sync_engine/session.rs:224-234 | The client pushes, each once, exactly the paths only it has or whose copy differs and whose version dominates |
| `SessionPlan.ClientExpects` | ferrisync-core/src/sync_engine/session.rs:235-252 | The client expects, each once, exactly the remaining paths of the server that differ |
| `SessionPlan.ServerPushes` | ferrisync-core/src/sync_engine/session.rs:1098-1116 | The server pushes, each once, exactly those same paths |
| `SessionPlan.Verdicts` | ferrisync-core/src/sync_engine/session.rs:208-222 | What the reconciler decides from digests is what the contents deserve |
| `SessionReport.DryRunPredicts` | ferrisync-core/src/sync_engine/session.rs:274-295 | A dry run lists the files and byte totals of a session from the same state that reaches the client's regular exit; its conflicts are among those the session reports, which are exactly the pulled files that replaced a client's copy |
| `SessionReport.DryRunPredictsIff` | ferrisync-core/src/sync_engine/session.rs:274-295 | For a session without aborts that has come to rest the report is as predicted if and only if every file the server wins fits the client's limits, whatever becomes of the client's own pushes |
| `SessionReport.DryRunConflictsIff` | ferrisync-core/src/sync_engine/session.rs:281-286 | The conflicts of a dry run are exactly the paths that differ and on which neither version dominates |
| `SessionReport.RunIsAccurate` | ferrisync-core/src/sync_engine/session.rs:314-316 | In every reachable state the byte counters are the sizes of the listed files and the reported conflicts are the files backed up |
| `SessionOutcome.AfterSession` | ferrisync-core/src/sync_engine/session.rs:1466-1506 | After both ends have left, a path is on one side only exactly when it is a backup of that side, and common paths are equal |
| `SessionSeries.SecondCompletesIff` | ferrisync-core/src/sync_engine/session.rs:393-404 | From plain names: a second session without aborts completes if and only if every backup the first left on either side has a name of at most 1024 bytes and at most 256 MiB |
| `SessionSeries.SecondSession` | ferrisync-core/src/sync_engine/session.rs:364-514 | It then copies exactly those backups, makes none of its own and leaves both folders equal |
| `SessionSeries.Fixpoint` | ferrisync-core/src/sync/reconciler.rs:47-125 | For any number of sessions without aborts after a completed one, with names and digests assumed of the first pair of folders only: every plan from the third session on is empty on both sides if and only if, wherever the first two folders differed, the losing copy fits the limits under its backup name |
| `SessionSeries.LeftoversAreLosers` | ferrisync-core/src/sync_engine/session.rs:1466-1506 | The backups a completed session leaves all fit exactly when every losing copy of its plan fits under its backup name |
| `SessionSeries.EveryRoundWellPlanned` | ferrisync-core/src/sync_engine/session.rs:425-441 | Over any series of sessions, cut short anywhere but between writing aside and renaming, what is assumed of the names and digests of the first pair of folders holds of every later one |
| `SessionSeries.MisfitNeverSettles` | ferrisync-core/src/sync_engine/session.rs:393-404 | One backup of the first session that does not fit keeps every later plan from being empty, wherever the sessions are cut short |
| `SessionSeries.LargeLoserNeverSettles` | ferrisync-core/src/sync_engine/session.rs:1466-1506 | After a completed session in which a losing copy had more than 256 MiB, no later plan is ever empty, wherever the sessions are cut short |
| `SessionExamples.NeverSettles` | ferrisync-core/src/sync/orchestrator.rs:245-266 | Such a session exists: one file, equal stamps, one byte more than 256 MiB on the client and one byte on the server |
| `SessionExamples.EveryPairCanBePlanned` | ferrisync-core/src/sync_engine/session.rs:176-252 | Any two folders have indexes and plans that the two ends can arrive at |
| `SessionExamples.EveryPlanCanComplete` | ferrisync-core/src/sync_engine/session.rs:306-514 | Every planned session whose travelling files fit has a run that completes |
| `SessionExamples.NeighbourSpoilsNames` | ferrisync-core/src/sync_engine/session.rs:1278-1283 | For a file such as a.txt in conflict, beside a file with that name and the temporary suffix on both sides: the names are ordinary and a first session completes, but no second session starts from ordinary names |
| `SessionSeries.StuckStays` | ferrisync-core/src/sync_engine/session.rs:393-404 | A file on one side only that the other side's limits refuse stays there, unchanged and alone, through every session, wherever it is cut short |
| `SessionRemains.RunLeavesRemnants` | ferrisync-core/src/sync_engine/session.rs:425-441 | At any point of any run: original paths hold one of their two original copies, files the other side lacks are untouched, refused files have not arrived, and every other name is a backup, or a temporary file if a side stopped before a rename |
| `SessionRemains.PlainCarriesOver` | ferrisync-core/src/sync_engine/session.rs:1493-1496 | If no name ends in the temporary suffix before a session, none does after it |
| `SessionRemains.TellsApartCarriesOver` | ferrisync-core/src/sync_engine/session.rs:410-421 | A digest that told the two original copies of every path apart tells apart what a session leaves of them |
| `SessionRemains.PlainIsOrdinary` | ferrisync-core/src/sync_engine/session.rs:436-436 | Names without the temporary suffix are never temporary names of each other |
| `SessionInterruptions.NothingIsEverLost` | ferrisync-core/src/sync_engine/session.rs:425-441 | Over any number of sessions from plain names, each cut short anywhere (all but the last not between writing aside and renaming), every content a side started with is on that side at its path, a backup of it, or a backup of such a backup, one generation per session at most |
| `SessionInterruptions.TempLeftIff` | ferrisync-core/src/sync_engine/session.rs:436-441 | At any point of any run a temporary file lies in a folder exactly when that side was interrupted between writing a file aside and renaming it |
| `SessionInterruptions.PlainNamesIff` | ferrisync-core/src/sync_engine/session.rs:436-441 | From plain names, the names of both folders are plain after a run exactly when no side was interrupted there |
| `SessionInterruptions.OrdinaryAfterIff` | ferrisync-core/src/sync_engine/session.rs:436-436 | After a completed session the names are ordinary again exactly when no original file has the temporary name of one of its backups |
| `SessionInterruptions.CrowdedSpoilsNames` | ferrisync-core/src/sync_engine/session.rs:1278-1283 | A file in conflict beside a file with its name and the temporary suffix always makes the names after a completed session not ordinary |
| `SessionInterruptions.CommitTakesNeighbour` | ferrisync-core/src/sync_engine/session.rs:1278-1283 | Committing the backup of such a file removes the neighbour, whose name is the temporary name of the backup |
| `SessionOutcome.StampedFoldersConverge` | ferrisync-core/src/sync/orchestrator.rs:206-220 | For scanned and stamped folders: a completed session leaves the client's copy of a file that differs exactly when its modification time is later and the device ids are equal or the server's time is the epoch, otherwise the server's |
| `SessionOutcome.EqualFoldersPlanNothing` | ferrisync-core/src/sync/reconciler.rs:47-70 | Between equal folders both plans are empty whatever the versions |
| `Endpoint.Endpoint.Push` | ferrisync-core/src/sync_engine/session.rs:306-357 | Writes the chunks of every file that can be read, in order, then the sentinel, lists exactly those files as pushed, and is the repeated send step of the session model |
| `Endpoint.PushPhase` | ferrisync-core/src/sync_engine/session.rs:306-357 | Repeating the send step writes the chunks of every readable file in order and the sentinel; files that cannot be read are skipped |
| `Endpoint.PushWritesRemaining` | ferrisync-core/src/sync_engine/session.rs:1151-1194 | The messages the push phase writes are exactly the stream the other side waits for |
| `Endpoint.SendAllFile` | ferrisync-core/src/sync_engine/session.rs:1409-1434 | Sending a file in chunks is sending it chunk by chunk |
| `Endpoint.Endpoint.BackupOnConflict` | ferrisync-core/src/sync_engine/session.rs:1466-1506 | Reports a conflict exactly when a different file is in the way, and then moves it to its backup name |
| `Endpoint.Endpoint.CommitFile` | ferrisync-core/src/sync_engine/session.rs:425-457 | Backup, temporary file and rename together are the commit of the session model |
| `Endpoint.WriteAt` | ferrisync-core/src/sync_engine/session.rs:396-405 | Growing the buffer with zeros and copying the piece byte by byte gives the piece at its place and the old bytes elsewhere |
| `Endpoint.Endpoint.StoreChunk` | ferrisync-core/src/sync_engine/session.rs:393-408 | Validating, writing into the buffer and counting give the outcome and the buffers of the specification; a rejected chunk changes nothing |
| `Endpoint.Endpoint.HandleMessage` | ferrisync-core/src/sync_engine/session.rs:388-514 | Handling a message is one receive step of the session model |
| `Endpoint.Endpoint.ClientLoop` | ferrisync-core/src/sync_engine/session.rs:371-514 | The files acknowledged in the replies are exactly those taken, in order; the loop is the repetition of the receive step until the exit condition holds, the end fails or nothing more arrives |
| `EndpointRuns.ClientLoopIsRun` | ferrisync-core/src/sync_engine/session.rs:371-514 | What the loop makes of an inbox is a run of receive actions of the session: it reads until it has failed, may leave or has read everything, ends in the state of the run, and its replies are what the run adds to the server's inbox |
| `EndpointRuns.DrainReads` | ferrisync-core/src/sync_engine/session.rs:372-388 | The client reads exactly while it has neither failed nor reached its exit condition |
| `EndpointRuns.ReadingIsRun` | ferrisync-core/src/sync_engine/session.rs:388-496 | Messages read one after the other while waiting are a run of that side's receive actions, with the answers in the other side's inbox |
| `Endpoint.Endpoint.ServerLoop` | ferrisync-core/src/sync_engine/session.rs:1212-1355 | The files acknowledged in the replies are exactly those taken, in order; the loop tests the exit condition after a message, but not after a refused file |
| `EndpointRuns.ServerLoopIsRun` | ferrisync-core/src/sync_engine/session.rs:1212-1355 | Unless it refuses a file, the server's loop is a run of receive actions of the session in the same way |
| `EndpointRuns.ServerDrainReads` | ferrisync-core/src/sync_engine/session.rs:1212-1355 | The server reads one message, and then exactly as long as it has not failed and has not stopped after a message that was not refused |
| `Endpoint.ReceiveAcknowledges` | ferrisync-core/src/sync_engine/session.rs:449-454 | Each message is answered with at most one acknowledgement, of its own path, and a success exactly when the file was taken |
| `Session.OnlyVerifiedFilesCount` | ferrisync-core/src/sync_engine/session.rs:410-421 | A message changes a folder or the list of received files only by completing a file whose digest is the announced one |
| `Session.MismatchIsRefused` | ferrisync-core/src/sync_engine/session.rs:410-421 | A complete file with another digest is refused and changes nothing but the buffers |
| `Session.DatabaseIsIgnored` | ferrisync-core/src/sync_engine/session.rs:390-392 | A chunk of metadata.db changes nothing and is not answered |
| `Session.AnyAnswerCounts` | ferrisync-core/src/sync_engine/session.rs:488-492 | On the client every answer to a push counts, taken or refused; no other message does, and no answer changes files or buffers |
| `Session.ShortHashSpells` | ferrisync-core/src/sync_engine/session.rs:1487-1487 | The short hash spells the first four bytes of the digest |
| `Endpoint.ServerDrainIsDrain` | ferrisync-core/src/sync_engine/session.rs:1344-1354 | Unless a file is refused, the two places of the exit test come to the same |
| `Chunks.SendFileChunks` | ferrisync-core/src/sync_engine/session.rs:1409-1434 | The sending loop produces consecutive full chunks and the remainder, one empty chunk for an empty file |
| `Chunks.ChunksFromAt` | ferrisync-core/src/sync_engine/session.rs:1415-1432 | The i-th chunk is the i-th piece of 65536 bytes or what remains, with its offset and the file's size, and there are as many as pieces begun, at least one |
| `Chunks.PassesIff` | ferrisync-core/src/sync/orchestrator.rs:223-268 | A chunk passes exactly within all limits on path, file, chunk, extent, files in flight and buffered bytes |
| `Chunks.AcceptWrites` | ferrisync-core/src/sync_engine/session.rs:394-408 | Any accepted chunk, in order or not, puts its bytes at its offset, keeps the others, fills with zeros, counts its length and touches no other file; it completes the file exactly when it reaches the announced size |
| `Chunks.RoundTrip` | ferrisync-core/src/sync/orchestrator.rs:223-268 | A file sent in chunks into empty buffers comes out intact if and only if it has at most 256 MiB and a path of at most 1024 bytes; a longer one is rejected by the buffer check, beyond 10 GiB by the size check, a longer path by the path check |
| `Chunks.RoundTripBeside` | ferrisync-core/src/sync_engine/session.rs:393-408 | Beside other partial files it arrives intact, leaving them as they were, exactly when path, size, number of files and buffered bytes allow it; otherwise it is rejected before it completes |
| `Chunks.AcceptInOrder` | ferrisync-core/src/sync_engine/session.rs:394-406 | A chunk that continues its file is appended to what is held |
| `Chunks.AcceptKeepsCount` | ferrisync-core/src/sync_engine/session.rs:1227-1242 | A chunk that continues its file keeps the byte counter equal to the buffered lengths, within 256 MiB and 64 files, and cannot drive it below zero |
| `Chunks.InterleavedAccounting` | ferrisync-core/src/sync/orchestrator.rs:245-266 | For every interleaving of in-order streams of any number of files the counter is exact, the limits hold, each buffered part is a prefix of its file and each completed file is the one sent |
| `Chunks.InterleavedNoUnderflow` | ferrisync-core/src/sync_engine/session.rs:406-408 | In such a run no next chunk of any file can underflow the counter |
| `Versions.Dominates` | ferrisync-core/src/domain/file.rs:99-118 | The two-map walk with early exits decides the strict pointwise order, for any order of the walk |
| `Versions.DominatesIsStrictOrder` | ferrisync-core/src/domain/file.rs:99-118 | Irreflexive, asymmetric and transitive |
| `Versions.ConcurrentIffIncomparable` | ferrisync-core/src/domain/file.rs:121-123 | Neither dominates exactly when all counters are equal or each side is ahead somewhere |
| `Reconciler.Reconcile` | ferrisync-core/src/sync/reconciler.rs:19-128 | Whatever the order of the walk, the plan holds exactly the operation each path deserves, each once, no deletion |
| `Reconciler.PlansMirror` | ferrisync-core/src/sync/reconciler.rs:19-128 | With sides and tombstones swapped the plan is the mirror image; uploads, downloads and conflicts of a plan are disjoint |
| `Reconciler.WinsExclusive` | ferrisync-core/src/sync/reconciler.rs:47-70 | At most one side wins a path, and none wins a path on which both agree |
| `Reconciler.OneSided` | ferrisync-core/src/sync/reconciler.rs:84-120 | A path only one side has travels from it, unless the other side has a tombstone for it: then it is a conflict |
| `Reconciler.TwoSided` | ferrisync-core/src/sync/reconciler.rs:53-82 | On a path both sides have, equal digests agree, a dominating version wins, and otherwise it is a conflict, whatever the tombstones |
| `Reconciler.PlanCarries` | ferrisync-core/src/sync/reconciler.rs:47-125 | Every operation carries the version and size of the entry it is about |
| `Reconciler.LastEntryCounts` | ferrisync-core/src/sync/reconciler.rs:27-30 | Of several entries for a path the last one counts |
| `Orchestrator.SnapshotToIndex` | ferrisync-core/src/sync/orchestrator.rs:95-113 | Each wire entry carries the largest counter of its version and the rest of the entry unchanged |
| `Orchestrator.BuildProtocolIndex` | ferrisync-core/src/sync/orchestrator.rs:206-220 | Every file is announced unchanged, with its modification time as its version, 2^64 added if it is negative |
| `Orchestrator.SeenByPath` | ferrisync-core/src/sync/orchestrator.rs:64-113 | A trip over the wire keeps path, size, digest and time, and keeps the stamp unless it is zero |
| `Orchestrator.StampRule` | ferrisync-core/src/sync/orchestrator.rs:206-220 | End to end, in modification times: with one device id the later time wins and ties are conflicts; with two ids a time wins only against the epoch, so two other times are a conflict |
| `Orchestrator.LaterIsLarger` | ferrisync-core/src/sync/orchestrator.rs:215-217 | The stamp of one time is larger than another's exactly when it is later, times before the epoch counting as later than all others |
| `Orchestrator.LookupPaths` | ferrisync-core/src/sync_engine/session.rs:224-252 | Looking up planned operations in an index that has all their paths keeps every path, in order |
| `BackupNames.BackupRoundTrip` | ferrisync-core/src/sync_engine/conflicts.rs:56-85 | For every directory, file name (also one with the tag), time stamp, loser and hash prefix: parsing the printed name gives back the parts and stripping it gives back the path |
| `BackupNames.ParsePrinted` | ferrisync-core/src/sync_engine/conflicts.rs:56-67 | Parsing a printed name gives the printed parts |
| `BackupNames.PrintedTailParses` | ferrisync-core/src/sync_engine/conflicts.rs:58-66 | A number, a loser and a hash with separators between them parse into just these |
| `BackupNames.ParsedTailIsPrinted` | ferrisync-core/src/sync_engine/conflicts.rs:58-66 | Nothing else parses: what follows the tag is then a number, a loser without separator and a hash |
| `BackupNames.ParseU64Iff` | ferrisync-core/src/sync_engine/conflicts.rs:60-60 | A number is digits, with or without a plus sign, below 2^64 |
| `BackupNames.BackupInjective` | ferrisync-core/src/sync_engine/session.rs:1493-1496 | Equal backup names have equal paths, time stamps, losers and hash prefixes |
| `BackupNames.TempIsNoBackup` | ferrisync-core/src/sync_engine/session.rs:436-436 | A temporary name is never a backup name |
| `BackupNames.TempOfBackup` | ferrisync-core/src/sync_engine/session.rs:436-436 | The temporary name of a backup is the backed-up path, extension and all, with the temporary suffix appended |
| `BackupNames.StemBeforeDot` | ferrisync-core/src/sync_engine/session.rs:436-436 | The stem that a temporary name keeps is everything before the last dot |
| `BackupNames.StemIsAll` | ferrisync-core/src/sync_engine/session.rs:436-436 | A name without a dot after its first character is all stem |
| `ConflictResolution.Folder.Resolve` | ferrisync-core/src/sync_engine/conflicts.rs:174-263 | Refuses exactly what is no backup, is missing, or for an action other than the three, and then changes nothing; in all other cases resolves it, the folder changes as the action says, and keeping both overwrites nothing and keeps the number of copies of every content |
| `ConflictResolution.CandidateReads` | ferrisync-core/src/sync_engine/conflicts.rs:228-254 | A candidate lies in the file's directory and has the mark between the file's stem and its extension |
| `ConflictResolution.MarkReads` | ferrisync-core/src/sync_engine/conflicts.rs:244-253 | The mark is the words for the loser in brackets, from the second candidate on with its number |
| `ConflictResolution.SuffixReads` | ferrisync-core/src/sync_engine/conflicts.rs:239-243 | A local loser is this device, every other one another device |
| `ConflictResolution.Folder.FreshName` | ferrisync-core/src/sync_engine/conflicts.rs:245-254 | The search ends, within one more try than there are files, on the first unused candidate |
| `ConflictResolution.TriedBounded` | ferrisync-core/src/sync_engine/conflicts.rs:245-254 | If the first n candidates are all taken there are at least n names in use |
| `ConflictResolution.CandidatesDiffer` | ferrisync-core/src/sync_engine/conflicts.rs:245-254 | Candidates with different numbers have different names |
| `ConflictResolution.CandidateNotAConflict` | ferrisync-core/src/sync_engine/conflicts.rs:228-260 | If the winner's file name has no tag, no candidate is listed as a conflict |
| `ConflictResolution.RenameKeepsContents` | ferrisync-core/src/sync_engine/conflicts.rs:255-258 | Renaming to an unused name changes the number of copies of no content |
| `Scheduler.SchedulerKeepsMeaning` | ferrisync-core/src/watcher/mod.rs:72-129 | For every well-formed stream and every interleaving of arrivals, timer and close, replaying the batches and then what is pending leaves the files present that the raw stream leaves; after close the batches alone do |
| `Scheduler.EveryBatchIsNetChange` | ferrisync-core/src/watcher/mod.rs:134-163 | Each batch holds exactly the net change of every path over the events it was made from |
| `Scheduler.CoalescingKeepsMeaning` | ferrisync-core/src/watcher/mod.rs:134-163 | A coalesced batch is itself a possible course of events with the same result |
| `Scheduler.BatchIsNetChange` | ferrisync-core/src/watcher/mod.rs:134-163 | An event is in the batch exactly when it is the net change of a path touched by the input |
| `Scheduler.NetIsNetChange` | ferrisync-core/src/watcher/mod.rs:177-193 | Merging left to right computes the net change of a path from its presence before and after |
| `Scheduler.Coalesce` | ferrisync-core/src/watcher/mod.rs:134-163 | The loop with its state map and order list computes the net events in order of first appearance |
| `Scheduler.BookkeepingAlways` | ferrisync-core/src/watcher/mod.rs:77-129 | In every reachable state the timer runs iff events are pending, flushed and pending events are exactly those consumed in order, nothing is pending after close, and with a limit no flush exceeds max(2, limit) |
| `Scheduler.BatchesBounded` | ferrisync-core/src/watcher/mod.rs:86-98 | With a limit no batch is longer than max(2, limit) |
| `Scheduler.LimitIsTwo` | ferrisync-core/src/watcher/mod.rs:118-124 | With a limit of one, two created files are still sent in one batch, since the first event is not checked |
| `Scheduler.LimitHonouredIff` | ferrisync-core/src/watcher/mod.rs:86-98 | A positive limit is honoured by every batch of every run if and only if it is at least two |
| `Scheduler.ReleasesExactlyWhenDue` | ferrisync-core/src/watcher/mod.rs:80-127 | In every step of every run all pending events are released together exactly when the timer fires, the input closes or an arrival finds the limit reached; otherwise they are kept and nothing is sent |
| `Scheduler.EveryReleaseHasACause` | ferrisync-core/src/watcher/mod.rs:80-127 | Every release of a run can be traced to such a step, and holds exactly the events pending there |
| `Scheduler.OrderOfFirstEvents` | ferrisync-core/src/watcher/mod.rs:144-162 | Paths are listed in the order of their first events |
| `Scheduler.LaterEventStands` | ferrisync-core/src/watcher/mod.rs:190-191 | Apart from the pairs that are simplified the later event stands for both |
| `Scheduler.RenameCountsForSource` | ferrisync-core/src/watcher/mod.rs:22-27 | A rename replaces what was known of the path it starts from and counts for no other |
| `Scheduler.AfterIsRun` | ferrisync-core/src/watcher/mod.rs:72-129 | What the loop makes of a script of inputs is a run that hears every arrival up to the close, and the close |
| `Scheduler.AfterLast` | ferrisync-core/src/watcher/mod.rs:72-129 | One more input is one more step, if it can happen at all |
| `Scheduler.ChangeScheduler.Run` | ferrisync-core/src/watcher/mod.rs:72-129 | The loop drives its fields through the steps of the state machine |
| `PairGate.AcceptedOnlyIfApproved` | ferrisync-core/src/sync_engine/server.rs:82-131 | In every run of interleaved lock sections: pending ids are distinct and never denied, and a certificate is accepted only if it was stored at the start or an approval read it while pending |
| `PairGate.GrantedOnlyWhilePending` | ferrisync-core/src/sync_engine/server.rs:195-211 | An approval grants a certificate only while its device is held with that certificate |
| `PairGate.ApprovalAdmits` | ferrisync-core/src/sync_engine/server.rs:195-211 | An approval that runs undisturbed releases the device and no other, and its certificate is accepted from then on |
| `PairGate.NoCertificateNoEntry` | ferrisync-core/src/sync_engine/server.rs:91-105 | A request without a certificate is never known and never accepted under confirmation |
| `PairGate.CapturedIsHeldWith` | ferrisync-core/src/sync_engine/server.rs:198-205 | What an approval captures is the certificate the device is held with |
| `PairGate.DenialIsFinalIff` | ferrisync-core/src/sync_engine/server.rs:195-220 | In any run: after a denial every state of every continuation answers Deny if and only if, at the denial, the certificate was not stored and no accepted request or approval under way carried it |
| `PairGate.DenialOvertaken` | ferrisync-core/src/sync_engine/server.rs:195-211 | From every other state there is a continuation in which the denied device is accepted |
| `PairGate.DenyShuts` | ferrisync-core/src/sync_engine/server.rs:214-220 | Denying a device that is not stored, with no call storing it under way, shuts it out |
| `PairGate.DeniedForLife` | ferrisync-core/src/sync_engine/server.rs:82-117 | A device shut out is answered Deny in every state of every continuation, whatever approvals follow |
| `PairGate.ApprovalCanOvertakeDenial` | ferrisync-core/src/sync_engine/server.rs:195-211 | The exception arises from a fresh gate: an approval that has read the certificate before the denial |
| `PairGate.DeviceGate.Admit` | ferrisync-core/src/sync_engine/server.rs:82-131 | Keeps held devices distinct and not denied; accepts exactly known certificates and auto-accept, denies exactly denied ids that are not known, and leaves a held device in the list once |
| `PairGate.DeviceGate.ApprovePairing` | ferrisync-core/src/sync_engine/server.rs:195-211 | Releases the device and no other; the certificate it was held with is accepted from now on, without one a recorded row is left alone, other rows are untouched |
| `PairGate.DeviceGate.DenyPairing` | ferrisync-core/src/sync_engine/server.rs:214-220 | Releases the device and no other; requests of its id are then denied unless their certificate is known |
| `FolderGate.FolderGateInv` | ferrisync-core/src/sync_engine/server.rs:240-363 | In every run: held shares are distinct and neither approved nor denied, and every approved device is attached, enabled, to the row of the folder |
| `FolderGate.ApprovedForLife` | ferrisync-core/src/sync_engine/server.rs:291-300 | An approved share answers Approved in every later state, also after a denial |
| `FolderGate.DeniedUntilApproved` | ferrisync-core/src/sync_engine/server.rs:301-310 | A denied share answers Rejected, also to a trusted device, until it is explicitly approved |
| `FolderGate.StepKeepsShares` | ferrisync-core/src/sync_engine/server.rs:240-363 | No step forgets an approval or a denial, and only an explicit approval approves a denied share |
| `FolderGate.ApprovedIff` | ferrisync-core/src/sync_engine/server.rs:285-351 | In any run a share is approved exactly when the owner has approved it, or its device, with a certificate on record, has asked for it while it was not denied |
| `FolderGate.TrustIsFixed` | ferrisync-core/src/sync_engine/server.rs:314-319 | No folder request or decision changes whether a device has a certificate on record |
| `FolderGate.ApproveWrites` | ferrisync-core/src/storage/mod.rs:835-859 | The grant has the given name and remote path; a folder row is added only if there is none for the folder, with the given path, name and owner |
| `FolderGate.AttachWrites` | ferrisync-core/src/storage/mod.rs:674-692 | The row of the pair is enabled, in both directions, with the remote path that is given or else recorded; no other row changes |
| `FolderGate.ApproveAttaches` | ferrisync-core/src/storage/mod.rs:835-859 | An approval attaches the device to the row its folder resolves to and detaches nobody |
| `FolderGate.FolderPairGate.RequestFolderPair` | ferrisync-core/src/sync_engine/server.rs:285-351 | Approves exactly shares approved before and shares not denied that a device with a certificate on record asks for, rejects exactly denied shares that are not approved, and holds exactly the rest, in the list once; answers to approved and denied shares change nothing; keeps the gate's invariant |
| `FolderGate.FolderPairGate.ApproveFolderPair` | ferrisync-core/src/sync_engine/server.rs:240-275 | Keeps the gate's invariant; releases the share and no other, records the grant, attaches the device, detaches nobody and changes no certificate |
| `FolderGate.FolderPairGate.DenyFolderPair` | ferrisync-core/src/sync_engine/server.rs:355-363 | Keeps the gate's invariant; releases the share and no other; requests for it are then rejected unless it had been approved |
| `IdentityMerge.Storage.ReconcileDevicesByCert` | ferrisync-core/src/storage/mod.rs:318-439 | Succeeds exactly when no unique table gets two rows with the same key and device, which without a chain the tables alone tell. On success, for any order of rows and remap: every certificate sits under its derived id, our row exists with our certificate, exactly the remapped rows are gone, references moved as the remap says, and without a chain in the table none names a removed id |
| `IdentityMerge.CollidesIffMerges` | ferrisync-core/src/storage/mod.rs:407-422 | Without chains a walk makes two rows of a unique table collide exactly when they differ only in ids that end up the same, whatever its order |
| `IdentityMerge.AttachedTwiceMerges` | ferrisync-core/src/storage/mod.rs:138-147 | A device attached to one folder under both its ids is such a case: the migration fails |
| `IdentityMerge.BuildRemap` | ferrisync-core/src/storage/mod.rs:336-405 | The remap is, id by id, the miskeyed rows, the legacy id and the stubs with exactly one namesake, for any order of the rows |
| `IdentityMerge.RemapInPlainTerms` | ferrisync-core/src/storage/mod.rs:336-405 | Which ids are folded onto which, case by case over certificate, own id, legacy id and name, and that no other id is |
| `IdentityMerge.NoDanglingIffNoChain` | ferrisync-core/src/storage/mod.rs:336-422 | For any device table: no reference can still name a removed id, whatever the references and the order of the walk, if and only if the table folds no id onto an id that is itself folded |
| `IdentityMerge.ChainInRemap` | ferrisync-core/src/storage/mod.rs:336-405 | That condition on the table is the condition that the remap maps some id onto one of its own keys |
| `IdentityMerge.ChainExists` | ferrisync-core/src/storage/mod.rs:407-422 | Two rows for which the migration builds a chain, and an order of the walk that leaves a reference on a removed id |
| `IdentityMerge.NoDanglingReference` | ferrisync-core/src/storage/mod.rs:407-431 | Without chains every reference of every table ends on the target of its old id, none on a removed id |
| `IdentityMerge.OneIdPerCert` | ferrisync-core/src/storage/mod.rs:299-317 | Once every certificate is under its derived id, none sits under two ids |

## Left out

- TLS, certificates, TCP, mDNS discovery, address resolution, framing and serialization: library and network code; the wire is a queue of messages, and index frames are taken to be within 1 MiB.
- Hello and trust-on-first-use handshake, index size limit, `remote_path` relocation of the serving root: before the first step of the model.
- `FileRequest` messages: the two ends modelled here never send them.
- Chunk streams with gaps or overlaps, and paths absent from the peer's index: outside what the senders produce. The outcome in which the byte counter would underflow is in the model and proved unreachable for in-order streams only.
- A temporary file that is only partly written when an end fails: the model's temporary file has all its bytes; no theorem depends on its content.
- Progress events, history rows and session logs.
- `safe_join`, directory scans, path safety, directories and symbolic links: operating system calls; folders are flat maps.
- Sessions after an end was interrupted between writing a file aside and renaming it: the temporary file is then an ordinary file to the next scan, so that session does not start from ordinary names (`SessionInterruptions.PlainNamesIff` says when; a rename that fails removes the file again and is the interruption one step earlier).
- Whole sessions from names of which one is the temporary name of another: only what a single commit does there is stated (`SessionInterruptions.CommitTakesNeighbour`).
- In the scheduler real time is not modelled, the timer may fire whenever it is set; what a `Renamed` event means is not stated, since the watcher does not produce it.
- In the folder gate calls run one at a time and storage calls succeed. With overlapping requests the source checks and queues in separate lock sections, and after a failed automatic approval it queues the request without looking for a duplicate.
- In the device gate, a storage failure between the two lock sections of an approval, device names and addresses.
- In conflict resolution, paths with `.` or `..` or empty components, directories in the way of a candidate, the history row, and that the copy written by `keep_backup` goes through a temporary file.
- IdentityMerge.Storage.ReconcileDevicesByCert: foreign keys are not modelled, and nothing is said about the tables when an update fails half way.
- `FileVersion::bump`, the tombstone store and the tombstone-aware entry point of the orchestrator: no caller in a session; the reconciler itself is modelled with tombstones.
- `protocol_v2`, health checks, the in-memory store, the remaining SQL operations, the command line, the Flutter and Android code and the FFI layer: easy members only.

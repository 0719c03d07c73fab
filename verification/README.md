# A verified model of the replicated revocation log

The system revokes tokens. A coordinator keeps a canonical log of revocations and two rotating
Bloom filters; nodes install a snapshot of the filters, replay the log from the snapshot's
consistency point and follow it over streams and polls. This project models the log, the filters,
the files behind them and the replication protocol in Dafny, and proves what every run of them
guarantees.

`dafny verify dfyconfig.toml` checks all modules. A module is a file.

| layer | modules |
|---|---|
| text and codec | `Texts` (strings of UTF-16 code units), `WalCodec` (the lines of the canonical log) |
| canonical log | `WalSpec` (the log as a value, with files, floor and generation), `CanonicalWal` (the class over text files) |
| coordinator | `Coordinator` (state machine whose steps are single file operations, with crashes), `CoordinatorProcess` (the class, every method a run of that machine) |
| filters | `Filters` (pairs of bit sets and what events do to them), `Fnv`, `DoubleHashing`, `BitWords`, `BloomFilter` (the class over 32-bit words) |
| core's files | `CoreDisk` (operations as lists of file images), `FilterManager` (the class), `BackupRace` (backups, retries and rotations interleaved) |
| replication | `SyncEngine` (apply chain and state file), `NodeConnection` (delivery queue), `RevokerNode` (snapshot swap and serving gate), `Replication` (coordinator, network and node together) |
| theorems across layers | `Convergence`, `Redelivery`, `EndToEnd`, `Causes` (the replication laws over the actions of a run), `CatchUp` (the gate opens) |

Classes carry the source's fields and update them in place; each is tied to a value (`Value`,
`Abs`, `Disk`, `Bits`, or the ghost `wal`), and the laws are lemmas about those values. The upper
layers take the bit positions of an item from an arbitrary function `Hash`; `BloomFilter.BloomHash`
is the one the filter computes.

The theorem that joins the layers is `EndToEnd.ServingNodeFindsEntries`. It speaks of one machine
made of the coordinator with its files, the network, and a node with its filters: a snapshot carries
the blobs on disk when it is taken, and the node installs exactly those. The node's object carries a
ghost copy of the machine of `Replication`, and each of its methods is a step of it, so the laws of
every run hold of the object. `EndToEnd` says what a node that answers has; `CatchUp` says that it
gets there.

## Assumptions

- A synchronous function body is one atomic step. Every `await` is a point where other work may
  run. A promise chain is a queue of tasks.
- File operations succeed or the process dies. Renaming a fully written temporary file is atomic,
  and so is the meta file.
- A rotation or a backup of core is not interleaved with `add` or `applyEntry`, except in
  `BackupRace`, where it is. Crashes may fall inside them.
- Coordinator and nodes have equal geometry, and m is at most 2^31.
- Items are sequences of UTF-16 code units. Numbers in the log are plain decimal digits.
- Logarithms to base 2 that choose the location width are exact.

## What the proofs found

- **A snapshot in the middle of a rotation.** Between the promotion of the blob and the rotation
  marker, the blobs have moved on but the consistency point has not. A node that installs such a
  snapshot lacks the evicted filter until it applies the marker, so "exact or conservative, never
  lossy" (`packages/server/src/coordinator.ts:405-409`) fails there under the assumption that any
  await interleaves: `Convergence.PromotedWindow` gives the exact condition and
  `Convergence.PromotedWindowLoses` a run. Between the rename
  (`packages/core/src/BloomFilterBackupManager.ts:383`) and the hook only settled promises are
  awaited, so a handler started by I/O cannot run in that window, and a server that answers only
  from such handlers keeps the promise.
- **Equality before the blob's moment.** The current blob may hold entries newer than event n.
  Equality holds from the log position of the last blob write on, and before it exactly when the
  entries in between add no bit (`Convergence.EarlyEquality`; a run where they do:
  `Convergence.EarlyInequality`).
- **A crash between marker and meta file.** After the restart a rotation marker lies above
  `lastBackupLsn` (`Coordinator.MarkerWithoutMeta`). The next rotation makes that consistency point
  unservable if it deletes the marker's file (`Coordinator.PointSurvivesRotation`), and until then
  snapshots name a generation that is not the one of their consistency point
  (`Coordinator.SnapshotGeneration`). A node that installs one asks for another at the marker and
  answers nothing until it has one (`Replication.LostMarkerShuts`,
  `Replication.WrongGenerationNeverServes`).
- **A torn rotation marker.** Entries and tombstones carry their length; markers do not. A marker
  cut after its second colon still parses, right after it as generation 0
  (`WalCodec.TornMarkerParses`, `WalCodec.TornMarkerReadsAsGenerationZero`).
- **A rotation redelivered.** `packages/node/src/stateFile.ts:17-19` calls re-application harmless.
  For a rotation killed between the promotion of its blob and the state write it is, if and only if
  the rotated filter was empty (`Redelivery.TornRotation`).
- **An add during a backup.** An item added between the read of the filter and the clearing of the
  write-ahead file is then on no file (`BackupRace.InsertDuringBackupIsLost`, two runs from an empty
  directory). Over every run such items, until they are added again or a later blob reads them, are
  exactly the ones a restart loses, but for those the previous blob happens to have
  (`BackupRace.LiveItemIsOnDisk`).

## Model

| member | source | states |
|---|---|---|
| EndToEnd.ServingNodeFindsEntries | packages/node/src/revokerNode.ts:215-222 | Over every run of crash-free coordinator, network and node: whenever the node answers checks there is a log position n, at or past the coordinator's lastLsn at a Subscribe accepted since the bootstrap, such that its filters cover the coordinator's after event n if and only if the snapshot it installed allows (always, outside the promoted window), every entry up to n in the two newest windows is then found, and on a tail without tombstones the filters are equal if and only if that snapshot's blob adds nothing newer than n |
| EndToEnd.ServingPosition | packages/node/src/revokerNode.ts:549-557 | The same from the invariant alone: what the node holds are the installed snapshot's own blobs, moved by the events its engine applied |
| EndToEnd.StepKeepsInv | packages/node/src/revokerNode.ts:348-409 | Revocations, file operations of core, the rotation hook, snapshots, network steps and installations all keep: snapshot in hand and snapshot installed are ones today's log continues, and the node's filters are the installed blobs moved by the applied events |
| EndToEnd.RunKeepsInv | packages/server/src/coordinator.ts:288-319 | So does every run |
| EndToEnd.RevokerReplicates | packages/node/src/syncEngine.ts:463-503 | Handing the wire form of a stretch of the log to the revoker does to its filters what applying that stretch does |
| Convergence.ConvergenceOverRuns | packages/node/src/revokerNode.ts:348-409 | Over every crash-free coordinator run and every point a request can be served at, a node that installs the snapshot and applies the tail up to LSN n covers the coordinator's filters after event n if and only if the snapshot was not promoted ahead of its marker with n before it, or nothing was evicted; and on a tail without tombstones equals them if and only if n is past the blob's moment or the entries in between add no bit |
| Convergence.CoverageExactly | packages/server/src/coordinator.ts:402-443 | The exact condition of coverage, from the snapshot's state alone |
| Convergence.EqualityExactly | packages/server/src/coordinator.ts:402-443 | The exact condition of equality, from the snapshot's state alone |
| Convergence.MemoryIsTheLog | packages/server/src/coordinator.ts:335-375 | An idle coordinator's filters are the ones its log makes |
| Convergence.NodeCoversCoordinator | packages/server/src/coordinator.ts:411-443 | Coverage from one snapshot state: no bit of the coordinator's two filters is missing at the node; inside the promoted window only once the marker is applied |
| Convergence.NodeEqualsCoordinator | packages/node/src/syncEngine.ts:426-526 | Bit-for-bit equality of both filters from the snapshot's own moment on, for tails without tombstones |
| Convergence.SnapshotCoversPoint | packages/server/src/coordinator.ts:402-443 | Outside the promoted window a snapshot covers the coordinator's filters at its consistency point |
| Convergence.FiltersAtPoint | packages/server/src/coordinator.ts:302-308 | At the consistency point the coordinator's current filter is empty and its previous filter is today's |
| Convergence.PromotedWindow | packages/server/src/coordinator.ts:288-309 | A snapshot taken between the promotion of the blob and the marker covers the coordinator before the marker is applied if and only if the filter the rotation evicts holds nothing the promoted one lacks |
| Convergence.PromotedWindowLoses | packages/server/src/coordinator.ts:411-443 | A concrete crash-free run ending in such a snapshot that does lose a revoked item |
| Convergence.EarlyEquality | packages/server/src/coordinator.ts:411-443 | Equality for every n from the log position of the last blob write on; before it if and only if the entries in between add no bit |
| Convergence.EarlyInequality | packages/server/src/coordinator.ts:411-443 | A concrete run (one revocation, then a backup) whose snapshot makes a node that has applied nothing yet differ from the coordinator at that point |
| Convergence.PromotedEquality | packages/server/src/coordinator.ts:411-443 | The same for a snapshot from the promoted window: equality before the marker if and only if the rotation evicts exactly what it promotes |
| Convergence.MarkerCatchesUp | packages/server/src/coordinator.ts:299-318 | The marker that follows a promotion brings the node's filters onto the coordinator's |
| Convergence.RunKeepsInStep | packages/server/src/coordinator.ts:335-375 | Over every crash-free run memory is exactly what the log says, and the blobs are the previous filter and a part of the current one |
| Replication.ServingIsCaughtUp | packages/node/src/revokerNode.ts:549-557 | Whenever the gate is open, the revoker was handed the log in order from the snapshot on, past the coordinator's lastLsn at some Subscribe accepted since the bootstrap |
| Causes.ServingFollowsSubscribe | packages/node/src/revokerNode.ts:549-557 | The same over the actions of a run: an answering node was handed the log in order past the coordinator's lastLsn at a Subscribe that was accepted since the last installation |
| Replication.StreamLsnsIncrease | packages/server/src/distributedServer.ts:216-237 | On every stream and poll answer the LSNs strictly increase and each message is the log's event at its LSN |
| Replication.CleanStreamHasNoGap | packages/server/src/distributedServer.ts:695-710 | On a stream none of whose own drain reads fell below the retention floor the LSNs are request + 1, request + 2, ... without a gap, whatever happened to other streams, to the node or to its files |
| Replication.KeepaliveComesAfter | packages/server/src/distributedServer.ts:712-725 | What follows a keepalive naming LSN c is above c |
| Replication.KeepaliveIsComplete | packages/server/src/distributedServer.ts:712-720 | On such a stream every event in (request, c] was written before a keepalive naming c |
| Replication.DrainedStreamIsComplete | packages/server/src/distributedServer.ts:695-729 | A stream whose queue has run empty has written a keepalive naming at least the coordinator's lastLsn at the Subscribe and, if clean, every event from its request to the end of the log |
| Replication.NoSpuriousRebootstrap | packages/node/src/syncEngine.ts:426-543 | No interleaving of streams, polls, late events, restarts and snapshots fires a rebootstrap unless a request or drain met the retention floor, a snapshot named the wrong generation, or disk or revoker failed |
| Causes.RebootstrapHasCause | packages/node/src/syncEngine.ts:426-543 | The same over the actions of a run, without bookkeeping: if the engine ends up asking for a rebootstrap, some action since the last installation was a request or drain read below the retention floor, an installation under the wrong generation, a failed state write, or a revoker failing to rotate or refusing an acceptable item |
| Replication.InstallShuts | packages/node/src/revokerNode.ts:376-401 | Installing a snapshot with a marker above its consistency point and today's generation leaves the node short of that marker with the gate closed |
| Replication.LostMarkerShuts | packages/server/src/coordinator.ts:299-309 | After a crash between marker and meta file, a node that takes a snapshot from the restarted coordinator and installs it is in that position |
| Replication.WrongGenerationNeverServes | packages/node/src/revokerNode.ts:549-557 | From then on, over every run, the node never answers a check until it installs another snapshot |
| CatchUp.GateOpens | packages/node/src/revokerNode.ts:549-557 | The gate opens: from every state with a live engine and an open stream that meets no gap there is a run of that stream's own work, arrivals and the apply chain after which the node answers checks and has applied the whole log |
| CatchUp.SubscribeIsReady | packages/server/src/distributedServer.ts:712-720 | A Subscribe accepted from a live node leads to such a state |
| CatchUp.PollsCatchUp | packages/node/src/syncEngine.ts:372-424 | Without any stream, polls alone bring a live engine with a servable cursor to the end of the log |
| CatchUp.PollAnswers | packages/server/src/distributedServer.ts:756-773 | A poll of the engine's position answers with the next events of the log, at least one if there is one |
| CatchUp.BootstrapServes | packages/node/src/revokerNode.ts:348-409 | Installing a snapshot that names the generation of its consistency point, and subscribing there, ends in service at the end of the log |
| CatchUp.RecoveryServes | packages/node/src/revokerNode.ts:562-604 | From every state whatsoever, gate closed, engine fired or stopped, streams with gaps, a rebootstrap ends in service, provided the coordinator's generation is that of its consistency point |
| Replication.ReachableInv | packages/server/src/distributedServer.ts:690-729 | The invariant of coordinator log, delivery queues, apply chain, engine and gate in every reachable state |
| Replication.StepKeepsInv | packages/node/src/syncEngine.ts:232-277 | Every single step of coordinator, network or node keeps it |
| Replication.RestartServesFromPoint | packages/server/src/coordinator.ts:167-173 | After a restart exactly the cursors at or above the consistency point are served, whatever was served before |
| Replication.PageIsNext | packages/server/src/distributedServer.ts:763-771 | A poll page is the next events of the log: as many as asked for (1000 when not said, never more than 10000), fewer only at the end of the log; moreAvailable holds exactly when events remain |
| Replication.DrainReads | packages/server/src/distributedServer.ts:696-709 | A drain read above the floor is the next events of the log; below it, still in order |
| SyncEngine.ExactlyOnce | packages/node/src/syncEngine.ts:426-526 | Any canonical events dropped, repeated or reordered, with any failures: the revoker sees the log in order, each event once, plus at most the one whose persist failed |
| SyncEngine.NothingAfterRebootstrap | packages/node/src/syncEngine.ts:427-429 | After a rebootstrap fires or stop() is called nothing is applied and nothing is stored |
| SyncEngine.WrongGenerationNeverPasses | packages/node/src/syncEngine.ts:475-484 | An engine whose generation is already that of a marker ahead of it never gets past that marker |
| SyncEngine.StoreNeverAhead | packages/node/src/syncEngine.ts:505-521 | The state file never names an LSN whose event was not applied |
| SyncEngine.StoredIsPosition | packages/node/src/syncEngine.ts:505-521 | Over every sequence of deliveries and failures the state file names exactly the engine's position, and its generation while the engine is live; no event touches the dirty flag |
| SyncEngine.StepStores | packages/node/src/syncEngine.ts:505-521 | The position moves only together with a write of the state file |
| SyncEngine.NothingIsSkipped | packages/node/src/syncEngine.ts:426-462 | As long as the engine neither fired nor was stopped, its position is past every event that arrived, it heard every keepalive, and no resnapshot and no event without a usable LSN was among them: nothing is dropped in silence |
| SyncEngine.SyncEngine.ApplyEvent | packages/node/src/syncEngine.ts:426-526 | The apply step as the program has it refines the step on values with the outcome core's manager gives; the state file changes exactly when the position does, to the new position and generation with its dirty flag kept; and the manager's filters stay what the applied events make of them |
| SyncEngine.SyncEngine.Hand | packages/node/src/syncEngine.ts:463-503 | The next event in order reaches core's manager, or a rebootstrap is asked for |
| SyncEngine.RevokerIsFold | packages/node/src/syncEngine.ts:463-503 | What the applied events make of the filters is what the insertions and rotations they ask for make of them |
| SyncEngine.StateFile.Read | packages/node/src/stateFile.ts:41-66 | The inverse of Write: a state is found exactly when the file is one that Write makes of it, and nothing else, missing, corrupt or negative, reads as a state |
| SyncEngine.StateFile.Update | packages/node/src/stateFile.ts:88-91 | Read-modify-write: named fields replaced, the others kept, zeros when there was nothing |
| SyncEngine.StateFile.Write | packages/node/src/stateFile.ts:71-81 | What is written is what is read next |
| NodeConnection.NodeConnectionImpl.WriteQueued | packages/server/src/distributedServer.ts:216-237 | A live event the drain already covered is dropped, any other is written and moves the cursor; a keepalive or resnapshot is always written while the connection is open |
| NodeConnection.NodeConnectionImpl.WriteBacklog | packages/server/src/distributedServer.ts:263-270 | A backlog event is written past the deduplication and moves the cursor |
| NodeConnection.NodeConnectionImpl.EnqueueTask | packages/server/src/distributedServer.ts:194-214 | A task goes behind those already queued, and a closed connection takes none |
| RevokerNode.RevokerNode.Has | packages/node/src/revokerNode.ts:215-222 | A check answers exactly outside shutdown, swap and catch-up; the answer is yes exactly when all bits of the item came in with the snapshot's blobs or the entries applied within one of the two newest windows; and a node living on a snapshot was then handed the log in order past the coordinator's lastLsn at a Subscribe accepted since the bootstrap |
| RevokerNode.RevokerNode.Resume | packages/node/src/revokerNode.ts:167-178 | A clean state file beside a blob is resumed with the restored filters and the stored cursor; anything else asks for a snapshot |
| RevokerNode.RevokerNode.BeginSwap | packages/node/src/revokerNode.ts:354-369 | A wrong geometry changes nothing; otherwise gate and engine are shut in one step, and that is the BeginBootstrap step of the machine in Replication |
| RevokerNode.RevokerNode.Install | packages/node/src/revokerNode.ts:366-401 | The new manager holds exactly the snapshot's blobs, the state file its point and generation, the gate is still closed, and that is the Install step of the machine |
| RevokerNode.RevokerNode.Deliver | packages/node/src/revokerNode.ts:529-569 | Handing an event to the engine is the ApplyNext step of the machine, the gate opens exactly on a keepalive that a live engine hears, and an engine that gives up has a rebootstrap waiting or running |
| RevokerNode.RevokerNode.OnRebootstrapRequired | packages/node/src/revokerNode.ts:562-569 | Unless the node is shutting down, a rebootstrap is waiting or running afterwards, and never two |
| RevokerNode.RevokerNode.World | packages/node/src/syncEngine.ts:232-277 | Whatever coordinator, network and the node's own requests do in between, the object stays where the machine's node is |
| RevokerNode.RevokerNode.OnCoreRotation | packages/node/src/revokerNode.ts:504-527 | A rotation nobody ordered makes the node dirty, its state file unusable for resuming, and queues one rebootstrap; an ordered one changes nothing |
| RevokerNode.RevokerNode.ScheduleRebootstrap | packages/node/src/revokerNode.ts:577-604 | At every moment at most one bootstrap is waiting for its timer or running: the call keeps that and queues one exactly when none is |
| RevokerNode.RevokerNode.RebootstrapTimer | packages/node/src/revokerNode.ts:583-603 | The queued one becomes the running one, unless the node is shutting down |
| RevokerNode.RevokerNode.FailBootstrap | packages/node/src/revokerNode.ts:348-409 | A bootstrap may fail at any stage: nothing of the swap survives but the closed gate, and at most one new attempt is queued |
| RevokerNode.RevokerNode.SelfRotation | packages/node/src/revokerNode.ts:504-527 | Core rotating on its own leaves the node dirty with a rebootstrap queued or running, and the machine untouched |
| Redelivery.RedeliveryReaches | packages/node/src/syncEngine.ts:463-525 | After any deliveries, repeats, backups and kills in which no rotation is torn, redelivery of the next event gives the filters of a node never killed |
| Redelivery.KillsAreHarmless | packages/node/src/stateFile.ts:10-22 | At every moment the filters are those of an unkilled node at the stored LSN or one event further, never behind it |
| Redelivery.TornRotation | packages/node/src/syncEngine.ts:485-512 | A node killed after the promotion and before the state write, then sent the rotation again, matches an unkilled one if and only if the rotated filter was empty |
| Redelivery.DeliveryKeepsTrack | packages/node/src/revokerNode.ts:167-178 | One delivery, killed at any file operation or not, keeps the node on track |
| Coordinator.ReachableInv | packages/server/src/coordinator.ts:156-190 | What disk and memory hold in every state reachable from an empty directory, with crashes between any two file operations |
| Coordinator.StepKeepsInv | packages/server/src/coordinator.ts:288-319 | Each file operation, crash and restart keeps it |
| Coordinator.BootResumes | packages/server/src/coordinator.ts:167-173 | Meta file and scan together give exactly the length and generation of everything ever written, deleted files included |
| Coordinator.NextLsnIsFresh | packages/server/src/coordinator.ts:167-185 | The next LSN is above every LSN ever written and the generation at least every generation |
| Coordinator.HistoryOnlyGrows | packages/server/src/canonicalWal.ts:326-346 | Over any number of crashes, restarts and retentions the log only grows (the newest entry may become a tombstone) and the generation never decreases |
| Coordinator.ReachableReadIsComplete | packages/server/src/canonicalWal.ts:305-323 | In every reachable running state a servable cursor reads the complete tail |
| Coordinator.ConsistencyPointIsServable | packages/server/src/canonicalWal.ts:108-110 | lastBackupLsn is always servable |
| Coordinator.PointSurvivesRotation | packages/server/src/canonicalWal.ts:356-392 | A consistency point stays servable through a rotation if and only if no file whose unlink succeeded holds an event above it; always when no marker lies above it, whatever unlinks fail; and only then when none fails |
| CoordinatorProcess.PointSurvivesEveryRotation | packages/server/src/coordinator.ts:288-319 | The same over the run of a whole rotation, core's file operations, marker, meta file and any subset of the unlinks |
| Coordinator.MarkerWithoutMeta | packages/server/src/coordinator.ts:299-309 | A concrete run (crash between marker and meta file) after which one does |
| Coordinator.SnapshotGeneration | packages/server/src/coordinator.ts:180-185 | In every state a snapshot can be served in but for startup and the time between marker and meta file, the generation held is that of the consistency point if and only if no marker lies above the point |
| Coordinator.EntriesSurviveRestart | packages/server/src/coordinator.ts:246-277 | Whenever the coordinator is idle, after any crashes and even without core's current blob and write-ahead file, every entry above lastBackupLsn that was not tombstoned nor cut off by the replay limit is found |
| Coordinator.NothingIsCutBelowTheLimit | packages/server/src/coordinator.ts:250-276 | The replay leaves something out if and only if the tail exceeds REPLAY_BATCH_LIMIT |
| Coordinator.BootTail | packages/server/src/coordinator.ts:246-264 | Startup replays the log from the consistency point on |
| CoordinatorProcess.Coordinator.Add | packages/server/src/coordinator.ts:335-375 | Refused adds change nothing; any other add is the run append, then apply or tombstone, and is broadcast with its LSN either way |
| CoordinatorProcess.Coordinator.OnCoreRotation | packages/server/src/coordinator.ts:288-319 | The hook is the run marker, meta checkpoint, retention; the marker's LSN becomes the consistency point and is broadcast; afterwards only the files of two generations are left, and those whose unlink failed |
| CoordinatorProcess.Coordinator.Rotate | packages/core/src/Bloom-filter-manager.ts:303-340 | A rotation of core and its hook are one run of the state machine |
| CoordinatorProcess.Coordinator.constructor | packages/server/src/coordinator.ts:156-190 | Startup on any reachable disk is the run boot, replay, checkpoint, and leaves a valid coordinator |
| CoordinatorProcess.Coordinator.OpenLog | packages/server/src/coordinator.ts:161-173 | Scan and meta file set up the canonical log to resume exactly where it ended |
| CoordinatorProcess.Coordinator.ReplayCanonicalTail | packages/server/src/coordinator.ts:246-277 | Exactly the entries of the tail are applied again, tombstones and markers are not |
| CoordinatorProcess.Coordinator.GetSnapshot | packages/server/src/coordinator.ts:411-443 | The blobs returned cover the coordinator's filters at the LSN returned, under that LSN's generation, on every crash-free run and outside the promoted window |
| CoordinatorProcess.SnapshotNamesGeneration | packages/server/src/coordinator.ts:411-443 | Without crashes every snapshot names the generation of its consistency point |
| CoordinatorProcess.RotationDid | packages/server/src/coordinator.ts:288-319 | A whole rotation is one run of the machine, whichever unlinks fail |
| CoordinatorProcess.Coordinator.Backup | packages/core/src/BloomFilterBackupManager.ts:352-363 | A periodic backup is a run of two file operations |
| CoordinatorProcess.DidCompose | packages/server/src/coordinator.ts:335-375 | Calls one after the other are one run of the state machine, so what holds of every run holds of every sequence of calls |
| CoordinatorProcess.ItemValidationError | packages/server/src/coordinator.ts:62-73 | Exactly the items the log and core accept pass, and each error names a fault the item has |
| CoordinatorProcess.StartupResumes | packages/server/src/coordinator.ts:167-177 | What startup finds resumes numbering where the log ended and replays only acceptable items |
| CanonicalWal.CanonicalWal.ReadSince | packages/server/src/canonicalWal.ts:305-323 | Parsing every file, later lines winning, and sorting gives exactly the retained events above the cursor in LSN order, capped |
| CanonicalWal.CanonicalWal.Scan | packages/server/src/canonicalWal.ts:328-346 | The maxima found bound everything retained and are really mentioned on disk |
| CanonicalWal.CanonicalWal.ParseFile | packages/server/src/canonicalWal.ts:212-242 | Reading a file back gives exactly the events written to it, with the generation current at append |
| CanonicalWal.CanonicalWal.TruncateOldGenerations | packages/server/src/canonicalWal.ts:356-392 | A file is left exactly if it is new enough, could not be unlinked, or holds an event above the floor given; the retention floor rises to the highest LSN deleted |
| CanonicalWal.CanonicalWal.AppendEntry | packages/server/src/canonicalWal.ts:267-272 | The log gains the entry at the next LSN in the current generation, and every file still holds its part of the log |
| CanonicalWal.CanonicalWal.AppendTombstone | packages/server/src/canonicalWal.ts:283-285 | The newest entry becomes a tombstone at its LSN |
| CanonicalWal.CanonicalWal.AppendRotate | packages/server/src/canonicalWal.ts:292-298 | The log gains the marker in the old file and later events go to a new one |
| CanonicalWal.CanonicalWal.Init | packages/server/src/canonicalWal.ts:87-92 | The opened log continues at the given LSN, generation and floor |
| CanonicalWal.CanonicalWal.MaxLsnOfFile | packages/server/src/canonicalWal.ts:356-392 | The highest LSN of a file as read back is the highest the log keeps there |
| CanonicalWal.SortByLsn | packages/server/src/canonicalWal.ts:316-322 | Sorting the collected events by LSN gives the retained part of the log |
| WalSpec.ServableReadIsComplete | packages/server/src/canonicalWal.ts:108-110 | canServeFrom(f) implies that readSince(f, 0) is f + 1, ..., lastLsn without omission |
| WalSpec.ServablePage | packages/server/src/canonicalWal.ts:305-323 | A capped read of a servable cursor is the next events of the log |
| WalSpec.BetweenIncreasing | packages/server/src/canonicalWal.ts:305-323 | Even an incomplete read is in strictly increasing LSN order and consists of log events |
| WalSpec.UnlinkKeepsWellFormed | packages/server/src/canonicalWal.ts:356-392 | Deleting an old file keeps everything above the raised floor readable |
| WalSpec.RetentionLeaves | packages/server/src/canonicalWal.ts:356-392 | Which files retention leaves, in terms of their events |
| WalSpec.RotateKeepsWellFormed | packages/server/src/canonicalWal.ts:292-298 | A marker keeps every cursor at or above the floor complete, and a generation above the running one has no file and no event yet |
| WalCodec.ParseRendered | packages/server/src/canonicalWal.ts:156-198 | Parsing a written line gives back its event, whatever colons the item holds |
| WalCodec.ParsedHasForm | packages/server/src/canonicalWal.ts:156-198 | Whatever parses is a positive LSN, one of the three letters, and a length that is the item's own or a generation, in decimal digits; nothing else is read as an event |
| WalCodec.LinesOnDisk | packages/server/src/canonicalWal.ts:246-298 | One line of each kind as it stands on disk, code unit by code unit |
| WalCodec.TornLineIsRejected | packages/server/src/canonicalWal.ts:145-155 | No strict prefix of an entry or tombstone line parses as an event |
| WalCodec.TornMarkerParses | packages/server/src/canonicalWal.ts:156-176 | A torn marker is accepted if and only if its second colon reached the disk |
| WalCodec.TornMarkerReadsAsGenerationZero | packages/server/src/canonicalWal.ts:168-176 | Torn right after that colon any marker reads as a rotation to generation 0 |
| WalCodec.FileRoundTrip | packages/server/src/canonicalWal.ts:212-242 | A file of written lines, with or without a torn last one, reads back as the events written |
| WalCodec.CompleteFileRoundTrip | packages/server/src/canonicalWal.ts:212-242 | The same for a file of complete lines |
| Texts.DecimalRoundTrip | packages/server/src/canonicalWal.ts:156-176 | A number written in decimal reads back as itself |
| Texts.SplitUnlines | packages/server/src/canonicalWal.ts:212-226 | Lines joined by line breaks split into the same lines |
| Filters.ReplicatedCoversExact | packages/server/src/distributedServer.ts:92-103 | Applying the same events, tombstones as entries, keeps any coverage of the coordinator's filters |
| Filters.ReplicatedIsExact | packages/server/src/distributedServer.ts:92-103 | Without tombstones equal filters stay equal |
| Filters.EntryIsFound | packages/core/src/Bloom-filter-manager.ts:477-490 | An entry of the two newest windows is found |
| Filters.ExtraBitsStay | packages/core/src/Bloom-filter-manager.ts:303-340 | Extra bits in the current filter stay exactly extra until a rotation |
| CoreDisk.CrashIsAtomic | packages/core/src/BloomFilterBackupManager.ts:321-344 | A crash after any file operation of an add, backup or rotation restores the filters of just before or just after it |
| CoreDisk.CrashesOnlyDropCutOperations | packages/core/src/BloomFilterBackupManager.ts:494-525 | Over any number of crashes the filters are those of a crash-free run of the operations that reached their last file operation |
| FilterManager.BloomFilterManager.constructor | packages/core/src/Bloom-filter-manager.ts:187-195 | Restore builds both filters from blobs and write-ahead file |
| FilterManager.BloomFilterManager.RestoreTemp | packages/core/src/BloomFilterBackupManager.ts:399-427 | Every non-blank line of the write-ahead file is added |
| FilterManager.BloomFilterManager.Add | packages/core/src/Bloom-filter-manager.ts:362-405 | The checks in their order; write-ahead file before memory; the files after each file operation |
| FilterManager.BloomFilterManager.ApplyEntry | packages/core/src/Bloom-filter-manager.ts:428-469 | The same without the saturation refusal |
| FilterManager.BloomFilterManager.BackupItem | packages/core/src/BloomFilterBackupManager.ts:216-246 | The write-ahead file gains one line |
| FilterManager.BloomFilterManager.BackupLocal | packages/core/src/BloomFilterBackupManager.ts:321-344 | Blob in place first, then the write-ahead file cleared |
| FilterManager.BloomFilterManager.Rotate | packages/core/src/Bloom-filter-manager.ts:303-340 | Persist, promote by rename, swap: the files after each file operation and the shifted pair |
| FilterManager.BloomFilterManager.RotateOnDemand | packages/core/src/Bloom-filter-manager.ts:285-297 | Refused only while shutting down |
| FilterManager.BloomFilterManager.Contains | packages/core/src/Bloom-filter-manager.ts:477-490 | Only blank values are refused; any other is answered yes exactly when all its bits came in - restored or inserted - since the last rotation, or all of them in the window before; so any item taken with at most one rotation since is found |
| FilterManager.TakenIsFound | packages/core/src/Bloom-filter-manager.ts:477-490 | Over any history of insertions, backups and rotations, on any restored filters, an item taken with at most one rotation since is found |
| FilterManager.FiltersAreWindows | packages/core/src/Bloom-filter-manager.ts:303-340 | Over any history the current filter holds exactly the bits that came in since the last rotation, the previous one exactly those of the window before |
| FilterManager.FoundIsInOneWindow | packages/core/src/Bloom-filter-manager.ts:477-490 | The lookup in both filters answers yes exactly then |
| FilterManager.StrangerIsNotFound | packages/core/src/Bloom-filter-manager.ts:477-490 | A value with a bit that nothing restored and nothing inserted has is answered no |
| FilterManager.ChecksAgree | packages/core/src/Bloom-filter-manager.ts:363-377 | The coordinator's item check and core's accept the same items |
| FilterManager.AcceptedIsFound | packages/core/src/Bloom-filter-manager.ts:477-490 | No false negatives: an accepted item is found until the second rotation after it |
| BackupRace.StaleBackupsTouchNothing | packages/core/src/BloomFilterBackupManager.ts:352-363 | In every interleaving of backups, retries and rotations a periodic backup that reads, renames or clears works on the live filter, and any rotation begun still waits |
| BackupRace.RotatedOutStaysOut | packages/core/src/BloomFilterBackupManager.ts:140-163 | Once a filter is rotated out and its blob is not the current one, its blob never is again |
| BackupRace.LiveItemIsOnDisk | packages/core/src/BloomFilterBackupManager.ts:321-344 | Over every run: an item of the live filter is recoverable from disk if and only if it was not added between a backup's read and its clearing of the write-ahead file without being added or read again since, or the previous blob has it |
| BackupRace.PreviousItemIsOnDisk | packages/core/src/BloomFilterBackupManager.ts:365-388 | Once a rotation promoted its blob, the previous blob is the predecessor's items but those added after the rotation's read |
| BackupRace.NextBlobRecovers | packages/core/src/BloomFilterBackupManager.ts:321-344 | The next blob of a backup makes good every such loss |
| BackupRace.InsertDuringBackupIsLost | packages/core/src/BloomFilterBackupManager.ts:326-338 | Two concrete runs from an empty directory, with the addition before and after the rename, after which the item is in the live filter and on no file |
| BackupRace.RestartLoadsRecovered | packages/core/src/BloomFilterBackupManager.ts:399-427 | What counts as recoverable from disk is exactly what a restart loads |
| BackupRace.UndisturbedBackup | packages/core/src/BloomFilterBackupManager.ts:321-363 | Between rotations, whatever failed before, the next periodic backup with the mutex free and the disk willing ends with the live filter in the blob, the write-ahead file cleared and nothing lost |
| BackupRace.FailureIsRetried | packages/core/src/BloomFilterBackupManager.ts:140-163 | A failed backup frees the mutex and is tried again, three attempts in all |
| BackupRace.ReachableInv | packages/core/src/BloomFilterBackupManager.ts:352-388 | The invariant of mutex, generation counter, captured backups and files |
| Fnv.LimbHash | packages/core/src/bloomfilter.ts:82-113 | The four-limb loop computes 64-bit FNV-1a over the code units |
| Fnv.TestVectors | packages/core/src/bloomfilter.ts:82-113 | The hashes of the empty text and of "a" are the published ones |
| Fnv.MulPrime | packages/core/src/bloomfilter.ts:97-108 | The carries of the loop body multiply by the 64-bit prime modulo 2^64 |
| Fnv.XorLimb | packages/core/src/bloomfilter.ts:96-96 | The exclusive or with a code unit concerns the lowest limb only |
| DoubleHashing.Residue | packages/core/src/bloomfilter.ts:115-117 | ((a % m) + m) % m is the mathematical residue of a signed half |
| DoubleHashing.SignedResidueIs | packages/core/src/bloomfilter.ts:111-117 | The double remainder of a 32-bit half is the one number below m congruent modulo m to the signed number with those bits |
| DoubleHashing.StartAndStride | packages/core/src/bloomfilter.ts:111-117 | The first location and the stride are those of the upper and the lower half of the hash, and nothing else is |
| DoubleHashing.StartOfA | packages/core/src/bloomfilter.ts:111-117 | Both for the text "a" in a filter of 960 bits, where both halves are negative: 524 and 780 |
| DoubleHashing.NextLocation | packages/core/src/bloomfilter.ts:119-125 | One turn of the loop leads from location i - 1 to location i of the closed form a + i*b + (i^3 - i)/6 modulo m |
| DoubleHashing.LocationsFit | packages/core/src/bloomfilter.ts:44-56 | The element width the constructor picks truncates no location, for every m up to 2^31 |
| DoubleHashing.PyramidClosed | packages/core/src/bloomfilter.ts:119-125 | The accumulated increments are (n^3 - n)/6 |
| BloomFilter.BloomFilter.constructor | packages/core/src/bloomfilter.ts:31-71 | An empty filter of the next multiple of 32 bits |
| BloomFilter.BloomFilter.FromBuckets | packages/core/src/bloomfilter.ts:34-56 | A filter over given words keeps them |
| BloomFilter.BloomFilter.Locations | packages/core/src/bloomfilter.ts:77-127 | Location i is a + i*b + (i^3 - i)/6 modulo m, in range and untruncated, where a and b are the residues of the upper and lower half of the 64-bit hash read as signed 32-bit numbers |
| BloomFilter.BloomFilter.Add | packages/core/src/bloomfilter.ts:132-137 | Exactly the item's bits are added |
| BloomFilter.BloomFilter.Test | packages/core/src/bloomfilter.ts:142-150 | True exactly when all of the item's bits are set |
| BloomFilter.BloomFilter.CountBits | packages/core/src/bloomfilter.ts:162-169 | The cardinality of the set of set bits |
| BloomFilter.BloomFilter.Union | packages/core/src/bloomfilter.ts:181-192 | Refused exactly on different geometry; otherwise the bits of either |
| BloomFilter.BloomFilter.Intersection | packages/core/src/bloomfilter.ts:197-208 | Refused exactly on different geometry; otherwise the bits of both |
| BloomFilter.IntersectionTests | packages/core/src/bloomfilter.ts:197-208 | An intersection finds an item exactly when both operands do |
| BloomFilter.CountsAddUp | packages/core/src/bloomfilter.ts:181-208 | The counts of union and intersection add up to those of the operands |
| BloomFilter.OrderAndRepeatsDoNotMatter | packages/core/src/bloomfilter.ts:132-137 | Buckets depend only on the set of items added |
| BloomFilter.UnionIsFilterOfBoth | packages/core/src/bloomfilter.ts:181-192 | The union of the filters of S and T is, bucket for bucket, the filter of S and T together |
| BloomFilter.AddAll | packages/core/src/BloomFilterBackupManager.ts:405-416 | Adding line by line sets the bits of exactly those lines |
| BloomFilter.CountIsCardinality | packages/core/src/bloomfilter.ts:162-169 | The sum of word counts is the cardinality of the set-bit positions |
| BloomFilter.BitsDetermineBuckets | packages/core/src/bloomfilter.ts:132-137 | An array of words is determined by its set bits |
| BitWords.Popcnt | packages/core/src/bloomfilter.ts:225-230 | The parallel count with signed shifts is the number of set bits of any 32-bit word |
| BitWords.BitsOfByte | packages/core/src/bloomfilter.ts:227-229 | After the third stage each byte holds the number of bits set in it |
| BitWords.GatherCount | packages/core/src/bloomfilter.ts:229-229 | The multiplication sums the four bytes, the sign bit clear |

## Left out

- EndToEnd.ServingNodeFindsEntries: the coordinator does not crash, because a crash between marker and meta file leaves generation and consistency point apart until the next rotation; crashes are in `Coordinator`, `Replication.RestartCoordinator` and `Replication.WrongGenerationNeverServes`.
- Convergence.ConvergenceOverRuns: crash-free coordinator runs only, for the same reason.
- Coordinator.EntriesSurviveRestart: leaves out what a startup replay cut off at REPLAY_BATCH_LIMIT, because the code does; `Coordinator.NothingIsCutBelowTheLimit` says when that happens.
- BackupRace.LiveItemIsOnDisk: items stand for their own bits, so an item whose bits happen to be covered by others counts as lost.
- CatchUp.GateOpens: says that from every such state a run of the stream's own work opens the gate, not that a scheduler takes those steps; the same holds of `CatchUp.BootstrapServes`, `CatchUp.RecoveryServes`, `CatchUp.PollsCatchUp` and `BackupRace.UndisturbedBackup`.
- RevokerNode.RevokerNode.Has: a node resumed from its own disk answers at once, without the catch-up gate, as the code does, so nothing is said of how far it has caught up; a node whose core rotated on its own goes on answering until the next swap begins, and nothing is said of those answers.
- RevokerNode.RevokerNode.BeginSwap: the comparison of geometries is a flag; gate and engine are shut in one synchronous step, so which comes first cannot be observed.
- NodeConnection.NodeConnectionImpl.EnqueueTask: says where the task goes in the queue; that the queue runs in order is in the delivery steps of `Replication`.
- CanonicalWal.CanonicalWal.AppendTombstone: only for the LSN of the newest entry, the one call there is.
- CanonicalWal.CanonicalWal.AppendRotate: only for a generation above the running one, the one call there is.
- FilterManager.BloomFilterManager.constructor: the geometry check of restored blobs is not modelled.
- FilterManager.BloomFilterManager.Rotate: a rotation whose backup fails swaps memory alone; `BackupRace.RotateFail` models that, this method does not.
- FilterManager.BloomFilterManager.RotateOnDemand: a rotation all of whose retries fail resolves all the same in the code, and the engine would count it as done; not modelled.
- The coordinator's and the node's objects are tied to the state machines call by call; in `Replication` the coordinator's log and the node's engine appear as values, because its steps interleave two processes and a network.
- Core's manager and the coordinator work on sets of bit positions, not on `BloomFilter` objects: `BloomFilter.Add`, `Test` and `FromBuckets` say what they do to those sets and `BloomFilter.BitsDetermineBuckets` that the sets determine the words, but no manager that owns such objects is modelled.
- gRPC transport, TLS, shared secrets, proto loading, id patterns, schemas: a stream is an ordered channel that may lose its suffix.
- Timers, backoff, jitter, watchdogs and the conditions for polling: a timer firing is a step that may happen at any time, and a node may poll or subscribe at any time with any cursor it has had.
- Events a node applies between a rotation of its own and the swap that follows, and the rest of shutdown() after its synchronous start.
- Duplicate registrations of a node, the registry's file and cluster statistics.
- UTF-8 encoding, lone surrogates, torn multi-byte characters, and appending after a torn line.
- Numerals other than decimal digits where the parser accepts what the language's number conversion accepts, and integers above 2^53.
- Buffered write-ahead mode, resets, failed appends, failed writes of core's blobs inside `FilterManager`; `BackupRace` does model failing backups and rotations.
- The sizing formula of `withTargetError`, `size()` and `error()`: real-valued estimates; m and k are given.
- Express middleware, metrics, health checks, loggers, core's own admin server.

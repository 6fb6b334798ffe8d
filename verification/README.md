# A verified model of basalt

basalt is a sharded, replicated key-value store: an LSM storage engine with a
write-ahead log and a manifest, Raft groups that replicate it, and an online
handoff that moves a slot of keys between groups. This project models its core
in Dafny and proves what each layer promises the one above it. Each layer is
stated against something simpler than itself: the engine against the plain
sequence of committed writes, a table file against the sorted run it was written
from, the Raft group against a growing history of votes and appends, a file after
a crash against the calls that were made.

`dafny verify dfyconfig.toml` covers the whole project.

## How it is laid out

- **Consensus.** `RaftLog`, `RaftNode` and `RaftObject` hold the log and the node:
  state functions on values, and objects with the same fields updated in place
  that are proved to move exactly as the functions say. `RaftHistory`,
  `RaftActions`, `RaftInvariant`, `RaftSteps` and `RaftCluster` prove state machine
  safety, leader completeness and freedom from panics for every crash-free run over
  a lossy, duplicating, reordering network; `RaftElection` proves one leader per
  term with restarts at any point. `RaftValidity` shows that nothing is applied that
  nobody proposed. A fired `panic` is the value `Panic`.
- **Raft on disk.** `RaftStorage` is the state file; `RaftDurability` compares it
  with memory after a drain; `GroupLoop` is the replica's event loop with a crash
  possible between any two of its effects. `GroupGap` takes two of its runs step by step,
  and `GapHistory` shows that a group can send the messages in them.
- **Storage engine.** `Keys`, `Layers`, `Engine` and `EngineSteps` hold the state
  and the steps it takes under its mutex. `Compaction*` is picking, merging and
  installing. `Merge`, `MergingIter`, `Scan`, `Reads` and `EngineReads` are the read
  paths. `Recovery` and `CrashRecovery` reopen what a crash leaves, the latter from
  bytes. `EngineRuns` closes the loop over whole runs; `Database` is the engine as an
  object. `Handles` is file lifetime under interleaved readers, flush and compaction;
  `Memtable` is the skiplist, pointer store by pointer store.
- **Files.** `Codec`, `WalRecord`, `WalBatch`, `WalSegments` for the log;
  `Manifest`, `ManifestEdits`, `ManifestEngine`, `ManifestLog`, `ManifestOpen` for the
  manifest; `InternalKey`, `Bloom`, `Block`, `BlockIter`, `Table*` for table files
  (`TableCut` is where blocks end, `TableTrip` the way out to bytes and back).
- **Above the engine.** `StateMachine` is application with client sessions,
  `Replication` puts it on top of a group, `Handoff` is the slot migration,
  `HandoffLoss` what can go past it and `HandoffLeftover` what an aborted one leaves.

## Reading the results

Runs are sequences of states with an event between neighbours; theorems about runs
hold for every event list of any length. The network, timers, randomness, the choice
of level and where an output file is cut are free choices of the run. Checksums and
key hashes are arbitrary functions, so nothing rests on their strength. Where the
code does not give a property for all inputs, a lemma names an input that breaks it
and another says exactly when it holds:

- a conflicting entry at or below the stable point is never saved again
  (`RaftDurability.DurableIff`, `RaftDurability.ReplacedEntryNotSaved`);
- a rewrite of a log shorter than its stable point lets the next saved entries leave a
  gap, and until the next rewrite the state file cannot be read
  (`GroupLoop.SavedReadableIff`, `GroupLoop.RestartWorks`, `GroupGap.GapReachable`); or
  it lets a commit index be saved past the log in the file, and the node panics at its
  restart (`GroupLoop.RestartIff`, `GroupGap.RestartPanics`);
- a raft state file with a torn tail is appended to as it is, so a second restart
  forgets what was saved in between (`RaftStorage.ReopenedKeepsIff`,
  `RaftStorage.VoteLost`);
- a write that passed a front door before the freeze can reach the old owner after the
  flip (`HandoffLoss.NothingMissedIff`, `HandoffLoss.WriteLost`), and keys left in the
  destination by an earlier aborted copy survive the flip until they are written
  (`Handoff.CompleteAtFlip`, `Handoff.NothingLost`, `HandoffLeftover.ErasedKeyBack`).

The comment in `cluster/group.go:280-287` says every write lands before the barrier or
sees the frozen map; the code re-checks only the frozen flag, so the model allows the
late write above.

## Model

| member | source | states |
|---|---|---|
| RaftCluster.StateMachineSafety | internal/raft/raft.go:799-850 | Every crash-free run over a network that loses, repeats and reorders: what any two nodes hand to their state machines, at any two moments, is one a prefix of the other |
| RaftCluster.CommittedAgree | internal/raft/log.go:134-142 | In such a run any two nodes, at any two moments, hold the same entry at every index both have committed and neither has compacted |
| RaftCluster.NoPanicReachable | internal/raft/log.go:73-149 | No call the group can make in such a run trips a guard: no truncation at or below the commit index, no commit past the tail, no gapped append, no slice out of range |
| RaftCluster.LogBounds | internal/raft/log.go:10-12 | Boundary <= applied <= committed <= last index, on every node of every reachable state |
| RaftCluster.LeadersHoldCommitted | internal/raft/raft.go:608-663 | Leader completeness: an entry committed anywhere is in the log of every leader of that or a later term, unless compacted away |
| RaftCluster.LogsMatch | internal/raft/raft.go:522-549 | Log matching: two logs with the same term at an index agree on every live index below it |
| RaftCluster.Histories | internal/raft/raft.go:552-602 | Every state of a crash-free run is explained by a history of votes, elections, appends and acknowledgements that only grows |
| RaftElection.ElectionSafety | internal/raft/raft.go:668-706 | At most one node ever leads a term, in runs with restarts at any point that find the term and vote last saved |
| RaftElection.OnePoll | internal/raft/storage.go:221-234 | One record of votes cast explains every state of such a run: every leader rests on a quorum of votes that no restart can undo |
| RaftElection.StepKeeps | internal/raft/raft.go:552-602 | Every event, restarts included, keeps the vote record consistent with disks, tallies and messages in flight |
| RaftElection.RestartOk | internal/raft/raft.go:238-312 | A restarted node, whose unsaved votes are forgotten, still agrees with every vote anyone relied on |
| RaftHistory.OneLeaderPerTerm | internal/raft/raft.go:696-706 | A candidate with a quorum of a term's votes is the leader the history records for it |
| RaftHistory.LeaderCompleteness | internal/raft/raft.go:687-694 | A prefix chosen in a term is in the log of the leader of that and every later term |
| RaftHistory.LogMatching | internal/raft/log.go:86-106 | Logs sourced from leaders agree below any index where their terms agree |
| RaftHistory.SettledInLeader | internal/raft/raft.go:734-753 | A settled prefix is in the log of every later leader |
| RaftHistory.SettledAgree | internal/raft/raft.go:734-753 | Two settled prefixes, in whatever logs and terms, are one a prefix of the other |
| RaftActions.ElectKeeps | internal/raft/raft.go:381-407 | Taking office keeps the history's invariant |
| RaftActions.ExtendKeeps | internal/raft/raft.go:708-724 | A leader appending keeps the history's invariant |
| RaftActions.AcceptKeeps | internal/raft/raft.go:608-625 | A follower adopting a leader's entries and acknowledging keeps the history's invariant |
| RaftActions.VoteKeeps | internal/raft/raft.go:687-694 | Granting a vote to an up-to-date candidate keeps the history's invariant |
| RaftSteps.StepOk | internal/raft/raft.go:552-602 | From a sound node and message, Step does not panic and leaves a sound node under a grown history; what was committed stays in place |
| RaftSteps.MergeAdopts | internal/raft/log.go:86-106 | Merging a leader's slice into any sound log gives exactly the leader's log up to the end of the slice, keeping a longer agreeing tail, and never truncates what is committed |
| RaftSteps.MaybeAppendAdopts | internal/raft/log.go:86-106 | An accepted append reports the end of the slice, adopts it and commits to the lesser of the leader's commit index and that end |
| RaftSteps.MaybeCommitOk | internal/raft/raft.go:734-753 | No panic; the commit index moves only up, to a prefix held by a quorum and of the leader's term, and besides the node's own match nothing else changes |
| RaftSteps.HandleAppOk | internal/raft/raft.go:608-625 | An append of the term's leader: no panic, nothing committed is replaced, and the grown history explains the new log and the acknowledgement sent |
| RaftSteps.HandleAppRespOk | internal/raft/raft.go:629-663 | No panic; match never exceeds what the follower acknowledged and next stays within the log, also after back-off |
| RaftSteps.BecomeLeaderOk | internal/raft/raft.go:381-407 | A candidate with a quorum takes office without panic, under a history in which it leads the term |
| RaftSteps.StartElectionOk | internal/raft/raft.go:447-454 | No panic, and the vote for oneself is one the history had no other of; also when it is already a quorum |
| RaftSteps.CampaignOk | internal/raft/raft.go:433-444 | No panic, whether the round stays a PreVote or becomes an election, and the history that explains the node keeps its invariant |
| RaftSteps.HandleVoteOk | internal/raft/raft.go:687-694 | The vote cast fits the history: the only one of this node in the term, for a log at least as up to date |
| RaftSteps.HandleVoteRespOk | internal/raft/raft.go:696-706 | No panic; the tally holds only votes the history records for this node and term |
| RaftSteps.HandleProposeOk | internal/raft/raft.go:708-724 | No panic whatever is proposed; the leader's log and its history grow together |
| RaftSteps.AdvanceOk | internal/raft/raft.go:819-850 | No panic; the applied index moves by exactly the entries handed out |
| RaftSteps.TakeReadyOk | internal/raft/raft.go:799-815 | No panic; what is handed out is exactly the log between the applied and the stable committed index, and the unsaved tail |
| RaftSteps.CompactOk | internal/raft/log.go:32-46 | No panic up to the applied index, and the node stays explained by its whole log |
| RaftSteps.BecomeFollowerOk | internal/raft/raft.go:354-358 | Entering a later term: no panic, and the node is sound under the history with that term |
| RaftSteps.StoodOk | internal/raft/raft.go:360-368 | Standing for election: the vote for oneself is recorded in a history that keeps its invariant, and the node is sound under it |
| RaftSteps.PreRoundOk | internal/raft/raft.go:371-379 | Opening or counting a PreVote round leaves everything the history records as it is |
| RaftSteps.HandlePreVoteOk | internal/raft/raft.go:668-671 | Answering a PreVote keeps the node sound under the same history, whatever the answer |
| RaftSteps.MergeAppends | internal/raft/log.go:73-81 | A log that ends where the leader's entries start becomes exactly the leader's log up to their end |
| RaftSteps.MergeReplaces | internal/raft/log.go:111-119 | From the first conflict above the commit index on, the log becomes exactly the leader's, without panic |
| RaftSteps.WholeTerm | internal/raft/log.go:61-69 | A compacted log answers for terms, its last index and its last term as the whole log does, at and above the boundary |
| RaftSteps.WholeSlice | internal/raft/log.go:122-130 | Any slice above the boundary of a compacted log is that slice of the whole log |
| RaftSteps.AppliedOk | internal/raft/log.go:144-149 | Applying up to the stable commit index keeps the node sound |
| RaftSteps.UpToDateReads | internal/raft/log.go:153-158 | The comparison made on a vote request is the order of the candidate's whole log at its campaign and the voter's whole log |
| RaftState.QuorumIndex | internal/raft/raft.go:734-753 | The highest index a quorum has matched exists and is unique: enough members reach it, too few reach the next |
| RaftObject.QuorumMatch | internal/raft/raft.go:739-744 | Sorting the match indexes and reading the quorum position gives that index |
| RaftObject.SortDescending | internal/raft/raft.go:739-744 | The sorted match indexes are descending and the same numbers |
| RaftObject.Node.BecomeLeader | internal/raft/raft.go:381-407 | The object moves as the state function, panics included: takes office with fresh replication state and a no-op entry; panicking unless it was a candidate |
| RaftObject.Node.TransferLeader | internal/raft/raft.go:414-428 | The object moves as the state function, panics included: only a leader hands over, only to another voter, and tells it to stand once it has caught up |
| RaftObject.Node.StartElection | internal/raft/raft.go:447-454 | The object moves as the state function, panics included: stands in the next term, and wins at once if its own vote is a quorum |
| RaftObject.Node.BcastVote | internal/raft/raft.go:456-469 | The object moves as the state function, panics included: the loop asks every other peer once, with this log's last index and term |
| RaftObject.Node.BcastAppend | internal/raft/raft.go:499-505 | The object moves as the state function, panics included: the loop sends every other peer what it lacks |
| RaftObject.Node.SendAppend | internal/raft/raft.go:522-549 | The object moves as the state function, panics included: entries from next on with the term before them, or a snapshot message when the boundary passed it |
| RaftObject.Node.HandleApp | internal/raft/raft.go:608-625 | The object moves as the state function, panics included: adopts or rejects, and answers with the last new index or the back-off hint |
| RaftObject.Node.HandleAppResp | internal/raft/raft.go:629-663 | The object moves as the state function, panics included: moves match and next, backs off on rejection, and finishes a transfer once the target caught up |
| RaftObject.Node.HandlePreVoteResp | internal/raft/raft.go:673-683 | The object moves as the state function, panics included: a PreVote quorum starts the election; an election already under way is left alone |
| RaftObject.Node.HandleVoteResp | internal/raft/raft.go:696-706 | The object moves as the state function, panics included: a quorum of granted votes takes office |
| RaftObject.Node.HandlePropose | internal/raft/raft.go:708-724 | The object moves as the state function, panics included: a leader not handing over appends consecutive entries of its term |
| RaftObject.Node.MaybeCommit | internal/raft/raft.go:734-753 | The object moves as the state function, panics included: the sorting loop commits exactly the highest current-term index a quorum has matched |
| RaftObject.Node.Step | internal/raft/raft.go:552-602 | Moves as the state function; from a sound node and a message the history explains, Step returns without panic and leaves the object sound under a grown history, what was committed in place; a refused proposal is told apart exactly |
| RaftObject.Node.Campaign | internal/raft/raft.go:433-444 | Moves as the state function; a sound node that does not lead campaigns without panic and stays sound under a grown history |
| RaftObject.Node.TakeReady | internal/raft/raft.go:799-815 | From a sound node: no panic, and the batch handed out is exactly the slice of the whole log between the applied and the stable committed index, and its unsaved tail |
| RaftObject.Node.Advance | internal/raft/raft.go:819-850 | After a sound TakeReady: no panic, the object stays sound, and the applied index has moved by exactly the entries handed out |
| RaftObject.Node.CompactTo | internal/raft/raft.go:945-947 | Up to the applied index: no panic, and the object stays explained by its whole log |
| RaftLog.LogObject.CompactTo | internal/raft/log.go:32-46 | The boundary takes the compacted term and the tail stays |
| RaftLog.LogObject.MaybeAppend | internal/raft/log.go:86-106 | The walking loop equals the recursive merge the safety proofs reason about |
| RaftValidity.OnlyProposedApplied | internal/raft/raft.go:708-724 | Validity: whatever any node applies was proposed by a client before, or is the empty entry of a new leader |
| RaftValidity.StepFrom | internal/raft/raft.go:552-602 | No handler puts a payload into a log or a message that was in neither |
| RaftValidity.RunFrom | internal/raft/raft.go:799-815 | Every log, queue, message in flight and applied sequence of a run carries proposed payloads only |
| Replication.ReplicasAgree | raftsm.go:159-206 | Of any two replicas at any two moments, one holds exactly what the other holds after as many entries: data, sessions and position alike |
| Replication.NeverRefused | raftsm.go:161-179 | If clients propose encoded commands, no state machine ever meets a gap or a command it cannot decode |
| Replication.AppliedInOrder | cluster/group.go:172-185 | Committed entries reach the state machine numbered from one without a gap |
| RaftStorage.RecordRoundTrip | internal/raft/storage.go:66-127 | Every state record reads back as itself |
| RaftStorage.EntriesRoundTrip | internal/raft/storage.go:129-172 | Every batch of entries decodes to itself |
| RaftStorage.EncodeEntries | internal/raft/storage.go:129-139 | The encoding loop writes bytes that decode to the same batch |
| RaftStorage.DecodeEntries | internal/raft/storage.go:141-172 | The decoding loop accepts exactly whole batches with nothing behind them, whatever their type bytes |
| RaftStorage.ApplyRecord | internal/raft/storage.go:66-127 | One record folded into the recovered state, refusing what the source refuses |
| RaftStorage.PlaceEach | internal/raft/storage.go:94-111 | The placing loop equals entry-by-entry placement, gaps and compacted indexes refused |
| RaftStorage.PlaceOverwrites | internal/raft/storage.go:94-111 | Placing a contiguous batch entry by entry overwrites the tail with the whole batch |
| RaftStorage.Open | internal/raft/storage.go:39-64 | Opening replays every whole record and stops at a torn one |
| RaftStorage.RunHolds | internal/raft/storage.go:201-288 | Any sequence of saves and rewrites: the file replays to exactly the boundary, hard state and overwritten log they add up to |
| RaftStorage.CallHolds | internal/raft/storage.go:221-288 | One save or rewrite: the file replays to exactly what the call was meant to leave |
| RaftStorage.TornSave | internal/raft/storage.go:221-234 | A crash at any byte of a save leaves a well-formed log; the new hard state never without the entries saved before it |
| RaftStorage.TornRewrite | internal/raft/storage.go:242-288 | A crash during a rewrite leaves the old or the new state |
| RaftStorage.ReopenedKeepsIff | internal/raft/storage.go:48-63 | What is appended after reopening survives the next restart if and only if the file had no torn tail (unless the torn bytes happen to checksum with what follows) |
| RaftStorage.LostBehindTear | internal/raft/storage.go:48-63 | Records written behind a torn tail are never read again |
| RaftStorage.VoteLost | internal/raft/storage.go:48-63 | Under every checksum: with one torn byte in the file, a vote saved and synced after reopening is gone at the next restart |
| RaftStorage.Storage.SaveHardState | internal/raft/storage.go:182-188 | Only the hard state of the replayed state changes |
| RaftStorage.Storage.AppendEntries | internal/raft/storage.go:201-215 | The replayed log is overwritten from the batch's first index, with a truncation logged first exactly when it overlaps |
| RaftStorage.Storage.SaveReady | internal/raft/storage.go:221-234 | Entries before hard state before sync; the replayed state is exactly the one meant |
| RaftStorage.Storage.Rewrite | internal/raft/storage.go:242-288 | The file is replaced by one that replays to the boundary, hard state and entries given |
| RaftStorage.Storage.constructor | internal/raft/storage.go:55-63 | A clean file is ready to append to |
| RaftStorage.CompactedImage | internal/raft/storage.go:242-256 | The rewritten file is the boundary, hard state and entries records, in that order |
| RaftDurability.DurableIff | internal/raft/log.go:111-119 | A follower that adopts a batch and drains has its log on disk if and only if the batch contradicted nothing at or below the stable point |
| RaftDurability.ReplacedEntryNotSaved | internal/raft/raft.go:805-807 | A replaced stable entry is not offered for saving: the disk keeps the entry memory no longer has |
| RaftDurability.Offered | internal/raft/raft.go:799-815 | Draining offers exactly the entries past the stable point |
| GroupLoop.AppliedChecksNeverFire | cluster/group.go:158-257 | At every crash point of every run, restarts included: snapshot boundary <= durably applied index <= durable commit index |
| GroupLoop.RestartWorks | internal/raft/raft.go:238-312 | Unless a rewrite finds the log shorter than its stable point, the state file replays at every crash point and the node restarts from it |
| GroupLoop.RestartIff | internal/raft/raft.go:238-312 | In every run, whatever a crash leaves readable: the node restarts from it if and only if its commit index is within the log it holds |
| GroupLoop.SavedReadableIff | cluster/group.go:158-207 | In every run: the next drain and save leave a state file that cannot be replayed if and only if it could not be before, or the file ends below the stable point and there is something to save; it stays so until the next rewrite |
| GroupLoop.GapIff | internal/raft/storage.go:201-215 | A saved batch leaves a gap if and only if the file ends below the stable point and the batch has entries |
| GroupGap.GapReachable | cluster/group.go:241-257 | A run of node 1 of a group of five, from its start: a rewrite finds a log shorter than its stable point, and after the next drain and save the state file cannot be replayed |
| GroupGap.RestartPanics | internal/raft/raft.go:238-312 | A run with the same rewrite after which the saved commit index is past the log in the file: a crash leaves a readable file and the node panics on it |
| GapHistory.Receivable | internal/raft/raft.go:522-549 | The messages of both runs are ones a group sends: at each delivery a history that keeps the consensus invariant explains node 1 and the message, and each history grows into the next |
| GroupLoop.CrashChecks | internal/raft/raft.go:290-295 | Whatever a crash leaves of a save or a rewrite satisfies both applied-index checks |
| GroupLoop.CalledKept | internal/raft/raft.go:552-753 | No handler touches the boundary, the applied index, the stable point or the saved hard state, and none moves the commit index back |
| GroupLoop.StepInv | cluster/group.go:158-207 | Each step of the loop keeps the durable indexes ordered |
| GroupLoop.StepFit | cluster/group.go:158-257 | Each step keeps the state file ending where the node believes it ends |
| Handoff.CompleteAtFlip | cluster/rebalance.go:83-104 | At the flip the destination has applied the effect of every slot write the source appended, laid over what it held; the two agree if and only if it held no key the source lacks |
| Handoff.NothingLost | cluster/rebalance.go:98-110 | If no write past a front door was headed for the source at the flip: the destination holds the effect of all clients' writes if and only if every key it had been left with, that the source lacked at the flip, has been written since |
| HandoffLoss.NothingMissedIff | cluster/rebalance.go:98-110 | However a run goes on after the flip, the destination appends exactly the writes accepted from then on: if and only if at the flip no write past a front door was headed for the source |
| HandoffLoss.WriteLost | cluster/shardkv.go:149-157 | A run from two empty groups in which an accepted write is in the source only, while every node routes the slot to the destination |
| HandoffLeftover.ErasedKeyBack | cluster/rebalance.go:67-104 | Two runs: one aborted with a key copied, which is then erased; and one from the logs that left, which completes with no write under way and leaves the erased key in the new owner |
| Handoff.OpenMapsAgree | internal/shard/shard.go:113-136 | No two maps in use that let writes in name different owners |
| Handoff.AbortKeepsSource | cluster/rebalance.go:67-81 | An aborted run leaves the source the owner on every node, with every accepted write in its log |
| Handoff.StepInv | cluster/group.go:132-148 | Client writes, map adoption in any order, and each coordinator step keep the handoff invariant |
| Handoff.SnapshotWhole | cluster/rebalance.go:126-131 | Nothing behind the barrier touches the slot, so a snapshot past it has every write |
| Handoff.ListingStored | cluster/migrate.go:118-139 | Storing a whole scan over old contents lays the scanned contents over them |
| Handoff.CopySlot | cluster/migrate.go:85-139 | The cursor and count returned cover exactly the pairs committed to the destination; success means the whole slot |
| Handoff.ResumeAfter | cluster/migrate.go:110-115 | The resumed scan starts at exactly the keys greater than the cursor |
| Handoff.SelectedIn | cluster/migrate.go:118-125 | The copied pairs are exactly the scanned pairs of the slot |
| EngineRuns.GetIsMap | db.go:598-641 | Every state of every run of writes, seals, flushes, compactions, readers and crashes: the layered first-hit lookup equals the map after all committed writes |
| EngineRuns.PinnedIsSnapshot | iter.go:51-63 | A pinned view answers as the map did when it was pinned, whatever has happened since |
| EngineRuns.WritesSurvive | db.go:355-392 | No committed write is lost: between any two states of a run, crashes included, the answer for a key changes only if a write in between names the key |
| EngineRuns.PinnedStaysPut | iter.go:51-63 | While a reader holds a view every lookup in it keeps its answer, whatever is written, flushed or compacted |
| EngineRuns.ManifestAgrees | internal/manifest/version.go:31-81 | The edit a flush or compaction logs, applied to the manifest's files, gives exactly the files the engine installs |
| EngineRuns.StepGood | db.go:355-535 | Every step keeps the engine invariant: layers by recency, one version per key below level 0, log and counters in step |
| EngineSteps.WriteKeeps | db.go:355-392 | A committed batch extends the history by its stamped writes and keeps every view sound |
| EngineSteps.SealKeeps | db.go:429-443 | Sealing changes no answer and aligns the log boundary with the memtable |
| EngineSteps.FlushKeeps | db.go:449-535 | A flushed memtable answers as a table what it answered as a memtable; the log boundary moves past it |
| EngineSteps.FlushAdvances | db.go:484-488 | The manifest's log number and sequence counter never go back |
| EngineSteps.PruneKeeps | internal/wal/writer.go:238-262 | Dropping a segment below the log number drops no live data |
| EngineSteps.RotateLogKeeps | internal/wal/writer.go:166-175 | A fresh segment changes nothing |
| EngineSteps.AcquireKeeps | iter.go:54-63 | The state and sequence number pinned together hold every write they cover |
| Layers.GetRefines | db.go:598-641 | On layers ordered by recency the first layer that has the key decides, and it is the newest version |
| CompactionSafety.InstallKeeps | compaction.go:238-338 | Swapping a compaction's inputs for its outputs leaves every lookup unchanged and re-establishes recency, disjoint user keys and one version per key, for the current state and every pinned reader |
| CompactionSafety.InstalledVersionOk | compaction.go:315-338 | The new version is sorted, disjoint and one version per key below level 0 |
| CompactionSafety.InstalledReflects | compaction.go:238-277 | Dropped records were shadowed, or were tombstones of keys nothing below holds |
| Compaction.KeptExactly | compaction.go:244-254 | The loop keeps exactly the newest version of each key, minus tombstones nothing deeper can resurrect |
| Compaction.KeptAscends | compaction.go:238-277 | What is kept is in ascending order, one version per key |
| CompactionPick.PickCompaction | compaction.go:49-106 | Any level's pick is a job whose inputs cover everything they overlap below |
| CompactionPick.UserKeyRange | compaction.go:116-127 | The least and greatest user keys of the inputs |
| CompactionPick.Overlapping | compaction.go:131-140 | Exactly the files that meet the range, a contiguous slice of the level |
| CompactionPick.KeyMayExistBelow | compaction.go:145-154 | Whether some deeper file spans the key |
| CompactionPick.RotationIndex | compaction.go:74-87 | The first file past the cursor, or the first file |
| CompactionRun.MergeLoop | compaction.go:238-287 | The merge loop writes exactly the kept records, in order, in freshly numbered non-empty files |
| CompactionRun.RunCompaction | compaction.go:161-312 | A job's outputs are what the compaction theorem asks of them |
| Merge.Least | merge.go:25-31 | The heap's front is the least current record |
| MergingIters.MergingIter.Reposition | merge.go:54-70 | Afterwards what is left to yield is every record from the target on |
| MergingIters.MergingIter.First | merge.go:72 | Everything visible is left to yield |
| MergingIters.MergingIter.SeekGE | merge.go:73 | Everything from the target on is left to yield |
| MergingIters.MergingIter.Next | merge.go:75-90 | Exactly the current record leaves, and the next is strictly greater, also while writes land in the live memtable |
| MergingIters.MergingIter.Absorb | iter.go:98-126 | Writes landing in a source during a scan change nothing the scan will report |
| Scan.Collect | iter.go:98-177 | A scan yields, in strictly ascending order, exactly the live pairs of [start, end) at its sequence number, whatever is written meanwhile |
| Scan.Iterator.constructor | iter.go:98-126 | What is left to report is every newest live version in range |
| Scan.Iterator.FindNext | iter.go:130-161 | Skipping loses nothing that is to be reported |
| Scan.Iterator.SkipUserKey | iter.go:164-169 | Exactly the versions of one key are skipped |
| Scan.Iterator.Next | iter.go:171-177 | Exactly the current key is done |
| Scan.ReportedShown | iter.go:130-161 | The newest live versions at the snapshot are exactly what the map at the snapshot shows |
| Reads.ViewGet | db.go:598-641 | Memtable, frozen memtable, level 0 newest first, then one binary search per level: equal to the first hit over all layers |
| Reads.LevelGet | db.go:621-639 | Only the file the search finds can hold the key |
| Reads.SearchFile | db.go:626-630 | The first file whose largest key reaches the key |
| Reads.FrontGet | db.go:612-620 | Level 0 is searched newest first |
| EngineReads.Get | db.go:598-641 | A point read returns what the map holds |
| EngineReads.ScanPin | iter.go:98-177 | A scan of any pinned view shows exactly its snapshot |
| EngineReads.ViewSources | iter.go:98-115 | A view split into one source per file can be merged and holds the same records |
| EngineReads.InputSources | compaction.go:182-188 | A job's input files can be merged |
| EngineReads.CompactOnce | compaction.go:161-360 | Picking, merging and installing leaves every answer unchanged |
| Recovery.ReopenKeeps | db.go:197-222 | Reopening after a crash at any step rebuilds a sound state with the same history |
| Recovery.Open | db.go:197-222 | The replay loops refuse a gap in the segments and otherwise rebuild exactly that state |
| Recovery.ReplaySegment | db.go:203-219 | A segment's batches are replayed in order, tracking the greatest sequence number |
| Recovery.ReplayedOnce | db.go:195-219 | Replay never inserts an internal key that is already in a table |
| Recovery.DropKeeps | internal/wal/writer.go:238-262 | Pruning before replay drops only flushed data |
| CrashRecovery.CrashRecovers | db.go:197-222 | From whatever bytes a crash leaves of the log, a batch perhaps half appended, reopening yields the history at the crash, or that and the whole of that batch |
| CrashRecovery.ImageReads | internal/wal/reader.go:24-52 | The directory reads back as the log, with the batch in flight at its end or nowhere |
| Database.DB.Write | db.go:355-424 | A batch is committed whole under consecutive sequence numbers, or refused for exactly the source's reasons with no write added; it waits exactly when the memtable is full and no room can be made |
| Database.DB.Commit | db.go:370-391 | Log, memtable loop and publication amount to the verified write step |
| Database.DB.Seal | db.go:429-443 | The fields move exactly as the verified seal step |
| Database.DB.FlushImm | db.go:449-503 | The fields move exactly as the verified flush step |
| Database.DB.PruneLog | internal/wal/writer.go:238-262 | Afterwards no segment below the log number is left, and every write is still there |
| Database.DB.ScheduleCompaction | compaction.go:29-44 | One compaction at a time, chosen soundly |
| Database.DB.Compact | compaction.go:161-360 | The files become exactly the installed version and every write is still there |
| Database.DB.Get | db.go:589-641 | The value the committed writes leave for the key, or closed |
| Database.DB.Scan | iter.go:88-177 | Exactly the live pairs in range, ascending, or closed |
| Database.OpenDatabase | db.go:162-240 | A database opened on what a crash left has every committed write |
| WalRecord.TruncatedScan | internal/wal/record.go:61-76 | For any records and any truncation point a scan delivers exactly the records that fit whole and returns their length |
| WalRecord.WholeExact | internal/wal/record.go:39-55 | The records counted as whole end before the cut and one more would not |
| WalRecord.RepairKeeps | internal/wal/writer.go:85-107 | Cutting any file at its clean length keeps every parseable record and leaves nothing torn |
| WalRecord.AppendToClean | internal/wal/writer.go:133-160 | Records appended to a clean file follow those already there |
| WalRecord.ScanRecords | internal/wal/record.go:61-76 | The scan loop stops at the first torn record or refusal and reports exactly where |
| WalRecord.NextOfFrame | internal/wal/record.go:22-55 | A framed record parses back with the rest untouched |
| WalBatch.BatchRoundTrip | internal/wal/batch.go:38-98 | Every batch decodes back to itself |
| WalBatch.BatchTorn | internal/wal/batch.go:54-98 | No proper prefix of an encoded batch decodes |
| WalBatch.TornLog | internal/wal/batch.go:54-98 | A torn log decodes to whole batches only |
| WalBatch.Encode | internal/wal/batch.go:38-49 | The encoding loop writes the batch that decodes to itself |
| WalBatch.Decode | internal/wal/batch.go:54-98 | The decoding loop equals the reference decoder, refusals included |
| Codec.UvarintRoundTrip | internal/base/varint.go:11-29 | Every 64-bit number reads back as itself in front of any bytes |
| Codec.BytesRoundTrip | internal/base/varint.go:11-29 | Every length-prefixed value reads back as itself in front of any bytes |
| Codec.BytesTorn | internal/base/varint.go:19-29 | A torn length-prefixed value is refused |
| WalSegments.Replay | internal/wal/reader.go:24-52 | Accepts exactly directories without gaps whose older files are clean, and delivers all their records |
| WalSegments.OpenWriter | internal/wal/writer.go:40-76 | Repairs the newest file, starts a fresh one, and loses no record |
| WalSegments.ReplayImage | internal/wal/reader.go:24-52 | What a crash leaves is always accepted |
| ManifestLog.ManifestSurvives | internal/manifest/version_set.go:215-366 | In every run of edits, rotations and collections a crash at any point recovers the acknowledged version, or that and the whole edit being logged; no table or manifest on disk has a number still to be handed out, and none share one |
| ManifestLog.CrashSafe | internal/manifest/version_set.go:215-298 | CURRENT always names a complete manifest |
| ManifestLog.StepKeeps | internal/manifest/version_set.go:313-356 | Every file operation keeps that |
| ManifestLog.SnapshotRecovers | internal/manifest/version.go:85-91 | A manifest of one snapshot recovers the state it was taken of |
| Manifest.SnapshotRoundTrip | internal/manifest/version.go:31-91 | Applying a well-formed version's snapshot to nothing gives the version back |
| ManifestEdits.ApplyEditExact | internal/manifest/version.go:31-81 | A file is in the edited version exactly if it was added, or was there and not deleted |
| ManifestEdits.Apply | internal/manifest/version.go:31-81 | The edit loops equal that function, refusing what it refuses |
| ManifestEdits.FindFile | internal/manifest/version.go:40-43 | The position of a file number, or none |
| ManifestEdits.LevelsDisjoint | internal/manifest/version.go:70-78 | Whether neighbours in deeper levels are disjoint |
| ManifestEngine.FlushApplies | db.go:481-495 | A flush's edit turns the manifest's files into the engine's |
| ManifestEngine.CompactApplies | compaction.go:314-330 | A compaction's edit is accepted and turns the manifest's files into the engine's |
| ManifestEngine.MetaWellFormed | internal/manifest/version.go:31-81 | The engine's files are always a well-formed version |
| ManifestOpen.ReplayRecords | internal/manifest/version_set.go:153-193 | The replay loop applies each record to the version so far |
| ManifestOpen.TornNotDamaged | internal/manifest/version_set.go:181-186 | No prefix of a written manifest is mistaken for damage |
| ManifestOpen.PastEveryFile | internal/manifest/version_set.go:118-131 | The next number is past every file on disk, and no further than it must be |
| Handles.NoClosedHandle | iter.go:26-49 | In every interleaving readers and the running compaction hold only open handles, and a handle is closed exactly when nobody holds it |
| Handles.NeverBelowZero | db.go:102-112 | No reference count is ever driven below zero |
| Handles.CollectorSpares | internal/manifest/version_set.go:388-416 | In every run a table file leaves the directory only through the collector, and only when neither the version names it nor it is pending; afterwards every file left is named or pending |
| Handles.StepOk | db.go:247-277 | Every step keeps each count equal to the cache entry, the read states in use, the compaction pin and the opener's reference |
| Handles.RunOk | compaction.go:161-180 | That holds in every state of every run |
| StateMachine.PrefixReplay | raftsm.go:77-106 | Recovering from the engine after any prefix and applying the rest gives the same data, applied index, term and sessions as never crashing |
| StateMachine.ExactlyOnce | raftsm.go:159-206 | A command of a client whose sequence number does not exceed one already applied changes no data |
| StateMachine.RetryHarmless | raftsm.go:179-190 | A stale command changes neither data nor sessions |
| StateMachine.FreshApplied | raftsm.go:179-204 | A command that is not stale has exactly its batch's effect |
| StateMachine.Recover | raftsm.go:77-106 | Fails exactly on malformed bookkeeping, and otherwise finds the applied index and every session in the engine |
| StateMachine.RecoverExact | raftsm.go:77-106 | What is recovered is exactly the state that wrote it |
| StateMachine.SessionInRange | raftsm.go:31 | The session scan misses no client that records a session: ids starting 0xff have the no-dedup bit |
| StateMachine.ApplyKeeps | raftsm.go:159-206 | Every entry keeps the bookkeeping readable |
| StateMachine.CommandRoundTrip | raftsm.go:43-64 | Every command decodes back to itself |
| StateMachine.VisibleIsMap | raftsm.go:159-206 | The engine's visible value of a key is the fold of its history |
| StateMachine.CommitIsApply | db.go:387-391 | Committing a batch is applying its operations to the map |
| StateMachine.Machine.Apply | raftsm.go:159-206 | The loop over entries equals the fold, and acknowledges exactly the commands, in order |
| StateMachine.Machine.ApplyOne | raftsm.go:161-204 | One entry moves the object exactly as the fold |
| InternalKey.KeyRoundTrip | internal/base/internal_key.go:47-84 | Every internal key decodes back to itself |
| InternalKey.CompareIsOrder | internal/base/internal_key.go:101-115 | Comparing encoded keys is the record order: user key ascending, newest first |
| Bloom.BuildBloom | internal/sstable/bloom.go:39-64 | In 32-bit arithmetic: the filter built has the promised size, every probe of every key set, and excludes none of the hashes it was built over |
| Bloom.AddHash | internal/sstable/bloom.go:55-62 | One key's probes are set and no bit is cleared |
| Bloom.MayContain | internal/sstable/bloom.go:69-90 | Says no only if some probe is unset |
| Bloom.AllSet | internal/sstable/bloom.go:81-89 | The probe loop checks every probe |
| Block.DecodeItem | internal/sstable/block_iter.go:73-117 | Decoding where an entry starts, after the key before it, gives that entry and where the next one starts |
| Block.RestartsAre | internal/sstable/block.go:31-49 | Restarts are exactly every interval-th entry's offset |
| Block.ParseBuilt | internal/sstable/block_iter.go:21-44 | A finished block parses into its entries and restarts |
| Block.ParseBlock | internal/sstable/block_iter.go:21-44 | The parser equals the reference, refusing what it refuses |
| Block.SharedPrefixLen | internal/sstable/block.go:81-88 | The longest common prefix |
| BlockIters.BlockBuilder.Add | internal/sstable/block.go:31-49 | The builder holds one more entry, unless offsets have run out |
| BlockIters.BlockBuilder.Finish | internal/sstable/block.go:57-69 | The bytes are the finished block of the entries held |
| BlockIters.BlockIter.First | internal/sstable/block_iter.go:127-131 | Stands on the first entry |
| BlockIters.BlockIter.Next | internal/sstable/block_iter.go:192-197 | Stands on the following entry, or past the end |
| BlockIters.BlockIter.DecodeNext | internal/sstable/block_iter.go:73-117 | Stands on the next entry, whatever was before |
| BlockIters.BlockIter.SeekRestart | internal/sstable/block_iter.go:121-125 | Ready to decode the entry at a restart |
| BlockIters.BlockIter.SearchRestarts | internal/sstable/block_iter.go:167-185 | The last restart before the target |
| BlockIters.BlockIter.SeekGE | internal/sstable/block_iter.go:161-190 | Stands on the first entry not before the target |
| Table.HandleRoundTrip | internal/sstable/format.go:37-53 | Every block handle reads back as itself |
| Table.FooterRoundTrip | internal/sstable/format.go:60-95 | Every footer reads back as itself |
| Table.ReadBack | internal/sstable/reader.go:66-84 | A sealed block inside a file reads back |
| TableReader.Open | internal/sstable/reader.go:39-63 | A table file opens with exactly its index and filter |
| TableReader.ParseIndexBlock | internal/sstable/reader.go:89-124 | The index loop yields exactly the blocks' last keys and handles, ascending |
| TableReader.SeekIndex | internal/sstable/reader.go:128-132 | The first block whose last key reaches the target |
| TableReader.InPointedBlock | internal/sstable/reader.go:138-160 | Whatever the lookup wants is in the block pointed at |
| TableReader.Get | internal/sstable/reader.go:138-173 | The first entry from the seek key on decides, through filter, index and restart search |
| TableWriter.Writer.Add | internal/sstable/writer.go:97-124 | Takes the entry into the block the cut puts it in, or refuses it for order, a short key, an earlier failure or a block or index past its offsets, and for nothing else |
| TableWriter.Writer.FlushDataBlock | internal/sstable/writer.go:128-142 | The pending block is written and indexed; no entry is lost |
| TableWriter.Writer.Finish | internal/sstable/writer.go:169-203 | The file is the table of the entries added, cut into exactly the blocks the size target asks for, and its filter covers them; only an oversize block, index or filter fails |
| TableCut.CutExact | internal/sstable/writer.go:97-124 | Cutting entries into blocks by the size estimate loses none and keeps their order |
| TableCut.NoRoomOversized | internal/sstable/writer.go:128-142 | A prefix that does not fit its offsets means the whole run does not |
| TableCut.OversizedHeavy | internal/sstable/writer.go:128-142 | A block or index past its offsets means entries of that weight |
| TableSizes.IndexLength | internal/sstable/writer.go:128-142 | Index bytes are bounded by the entries added |
| TableSizes.DataLength | internal/sstable/writer.go:145-157 | Data bytes are bounded by the entries added |
| TableRun.TableAnswers | internal/sstable/reader.go:138-173 | A finished file of a sorted run is a table whose lookups are exactly the run's |
| TableRun.LookupIsRunGet | internal/sstable/reader.go:138-173 | The first entry from the seek key on is the newest version visible |
| TableRun.WriteRun | db.go:540-581 | Streaming a run into a table gives the file of exactly the blocks the cut makes, with a filter that covers them; it fails only if one block, the index or the filter is past its limit |
| TableTrip.WriteAndRead | db.go:540-581 | For every strictly ascending run whose blocks, index and filter are each within the limits the reader puts on them, the written bytes open, look up every key at every sequence number as the run does, and iterate back to the run |
| TableTrip.LightFits | db.go:540-581 | A run of less than two gigabytes is within those limits wherever its blocks are cut |
| TableIters.ReadAll | internal/sstable/iterator.go:51-124 | Iterating yields exactly the entries written |
| TableIters.TableIter.First | internal/sstable/iterator.go:51-63 | Stands on the first entry of the table |
| TableIters.TableIter.SeekGE | internal/sstable/iterator.go:66-84 | Stands on the first entry not before the target |
| TableIters.TableIter.Next | internal/sstable/iterator.go:88-94 | Stands on the following entry, across blocks |
| TableIters.TableIter.Settle | internal/sstable/iterator.go:99-124 | Moves on to the next block when one is exhausted |
| TableIters.TableIter.LoadBlock | internal/sstable/iterator.go:35-49 | Opens exactly the block the index names |
| Memtable.MemTable.Add | internal/memtable/memtable.go:90-118 | After every single pointer store each level is a sorted sublist of the one below and nothing was unlinked; the record ends up on its levels; a duplicate panics and changes nothing |
| Memtable.MemTable.FindPreds | internal/memtable/memtable.go:68-85 | Per level, the last node before the key |
| Memtable.FindGE | internal/memtable/memtable.go:68-85 | A reader loading pointers while the writer stores them never returns a node past one that was there when it began and meets the bound |
| Memtable.Get | internal/memtable/memtable.go:124-138 | A concurrent read returns a version at least as new as any visible one that was there when it began; when the writes up to its sequence number were published by then, exactly what the sorted run of records holds |
| Memtable.PublishStep | internal/memtable/memtable.go:111-115 | The store that publishes a node on one level keeps all levels sorted and nested |
| Memtable.InitStep | internal/memtable/memtable.go:107-110 | Filling in an unlinked node's pointers changes no level |
| Memtable.SpliceKeeps | internal/memtable/memtable.go:111-115 | One store links a prepared node in order |

## Left out

- ReadIndex and lease reads, membership changes, learners and installing a snapshot from another node: not modelled; the voter set is fixed.
- Log safety across restarts: proved for crash-free runs only, because the stable point is not lowered on truncation; `RaftDurability.DurableIff` states exactly when a drain leaves the disk equal to memory.
- Timers: an election or a heartbeat may happen whenever its role allows it, and no liveness is claimed.
- 64-bit counters: terms, indexes and sequence numbers are unbounded, except where they are written to bytes; the one place the source relies on wrap-around (`next - 1`) is written out.
- The group's network: messages are values in a set that only grows; the gRPC transport and message encoding are not modelled.
- RaftElection.ElectionSafety: a restarted node finds the term and vote it last saved, that is, a state file without a torn tail.
- GroupLoop.AppliedChecksNeverFire: crashes cut a save between records; a file reopened with a torn tail is the subject of `RaftStorage.ReopenedKeepsIff`.
- RaftStorage.TornRewrite: the rename that swaps the files is atomic.
- Handoff: one coordinator and no node restart; each group is its committed log, and replies to clients are not modelled.
- Handoff.CopySlot: the checkpoint it scans is given as the list of its pairs.
- Database.DB.Write: waiting for room is the outcome `Waits` rather than a blocked call; memtable and segment sizes and the level-0 threshold are given by the caller.
- Database.DB.FlushImm: the table number is allocated when the edit is applied, where the source allocates it before writing the file.
- The mutex, condition variable and goroutines of the engine: each step runs alone under the mutex; interleavings of whole steps are what runs are made of.
- I/O errors, the poisoned state they lead to, and disk-full behaviour: an operation either happens or a crash cuts it.
- DisableWAL and DisableWALSync: the engine's runs log and sync every batch; `GroupLoop` models the engine without a log by its durable applied index only.
- The engine checkpoint: its flush is the step that makes the applied index durable in `GroupLoop`; hard links and directory swaps are not modelled.
- MergingIters.MergingIter.Next: container/heap is used through its promise that the least element is first; the sift loops are not modelled, and children's I/O errors are left out.
- CompactionRun.MergeLoop: where an output file is closed is a free choice; the size target is not modelled.
- CompactionPick.PickCompaction: the level is given; level scores are floating point and only choose it.
- Handles: modelled on values as a state machine; the atomic counters' update in place and aliasing of handle pointers are not captured.
- Memtable: nodes are named by their records and memory by one map per level; every pointer load sees one of the stores in order, as the source's atomics promise. Approximate size is not modelled.
- ManifestLog: records are edits as values; the edit's byte encoding is not modelled, its framing is that of `WalRecord`.
- ManifestEdits.Apply: sort.Slice is modelled by an insertion sort with the same result.
- Bloom.BuildBloom: the probe count is given; the source computes it in floating point.
- The hash of keys (leveldbHash, and the slot of a key): an arbitrary function.
- InternalKey.Encode: the panic on a sequence number past 56 bits is not modelled; the order and round trip are proved up to that bound.
- WalSegments.OpenWriter: file operations succeed, and the directory is read in segment order.
- TableReader.Get: on bytes that are not a table the only claim is that it terminates; corruption messages are not modelled.
- Metrics, flock, configuration, the command line and client retry loops: foreign code or input and output.

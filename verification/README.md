# Fell, modelled and proved in Dafny

Fell is a partitioned, replicated log broker.  This project models the parts of it that hold its
promises together, from the bytes of a segment file up to what a producer may conclude from an
`acks=all` acknowledgement, and proves those promises over every input and every run.

`dafny verify dfyconfig.toml` checks the whole project.

## The layers

* **Files.** `Bytes`, `LogFormat`, `SegmentReader`, `OffsetIndex` and `SegmentNames` model the record
  format, the two read loops, the sparse index with its binary search, and the 20-digit file names.
  Files are sequences of octets; a read sees whatever bytes are there when it happens.
* **One store.** `Store` is the partition store as a state machine: bounded queue, batch under
  construction, index entries written one by one before the log bytes, tail, committed offset,
  rotation, cached indexes.  `StoreRuns` and `StoreBounds` hold the theorems over whole runs,
  `LateReads` those about reads that overlap with writes, and `Batches` what a whole batch does.  The
  class in `Partition` has the loops of the source and is proved to perform exactly these actions.
  `OnceCallbacks` is the callback table, `CatchUp` the loop that answers a follower.
* **Crashes.** `Recovery` covers a crash at any byte and reopening; `StaleIndex` and `Reopened` what
  an index that outlived part of its log does to every later read.
* **The quorum.** `PartitionMeta` tracks replicas and the in-sync set; `DeferredAcks` holds producer
  acknowledgements back until their quorum is met.
* **The protocol.** `Replication` is the single-leader protocol as a step relation.  A frame that was
  sent may arrive any number of times, in any order, or never.  `Durability` proves what a released
  acknowledgement says about the followers' logs, and `Snapshot` what it says about the followers
  that were in sync when it was deferred, with the runs built in `Driving`.  `Cluster` runs the
  protocol on real stores, so that the conclusions are about the bytes in the brokers' files, and
  `DuplicateFrame` is the run of such a cluster in which they fail.  `RoleRegistry` and `Election`
  cover how roles are assigned and what election claims can change.
* **The wire.** `Frames` and `Decoding` cover the streaming decoder, `Metadata` the answer to a
  metadata request.

## Where the code and its stated intent part

The model follows the code.  For each of these the project has a failing run or input and the
condition under which the intent is met.

* `next_offset()` is documented as the next offset to be assigned
  (storage/include/storage/partition_store.hpp:142-145) but returns the writer's tail.  A follower
  that checks an incoming record against it may therefore number the record differently from the
  leader.  Followers stay prefixes of the leader if and only if no record is accepted while others
  are queued (`PlacementExact`, `PrefixIffGuarded`); without that, a run of two stores from empty
  directories releases an acknowledgement for a record that no follower's files hold
  (`DurabilityLost`).
* README.md:40 of the repository promises that `acks=all` waits for every replica in the in-sync set.
  The code counts acknowledgements by sender instead.  As the broker is built this does no harm:
  `tick_isr`, the only thing that takes a follower out of the in-sync set, has no caller outside the
  tests, and as long as nobody is evicted every release means that every follower has the record
  (`EveryFollowerHas`, and down to the files `EveryoneOnDisk`).  With evictions, every release covers
  the followers in sync when it was deferred if and only if they have all acknowledged already, or no
  follower is out of sync, or there can be no release (`SnapshotExact`); `OutsiderFillsQuorum` is a
  run in which an evicted follower stands in for the one in sync.
* An acknowledgement is deferred after its record is appended, with no lock across the two
  (broker/request_handler.cpp:220-231).  It can still be released if and only if the worker has not
  passed the record in between (`ReleasableIff`).
* Sealed segments are searched before the active one, so once a segment is sealed nothing in the
  active one can be fetched (`FetchProgress`), and catching up stops where it begins
  (`HandleFetchLog`).
* `fetch` is documented to return committed messages only
  (storage/include/storage/partition_store.hpp:137-138).  It does so if and only if no batch is
  written but unpublished or a segment has been sealed (`FetchCommittedIff`); `UncommittedFetch`
  reaches a state in which it does not.
* Recovery cuts the log but never the index, although storage/offset_index.cpp:31-33 relies on it.
  The store invariant survives exactly when no index entry names a lost record
  (`CrashKeepsInvariantIff`).  Every fetch of every later run is right if the surviving index has no
  entry past the tail (`ReopenedReadsRight`), and for a store without sealed segments only then
  (`ReopenedExact`, `StaleEntry`).
* README.md:37 of the repository says that followers lagging by `max_lag_messages` leave the in-sync
  set.  A follower is out of it if and only if a tick found it silent and it has not caught up since
  (`OutIffSilent`); one that lags by any amount stays in (`LaggingStays`).
* No message promotes a candidate, so there is no failover (`NoSuccessor`).  Brokers agree on the
  leader of an epoch as long as one candidate claims it (`AgreeIfUncontested`), and come to disagree
  for good as soon as two of them hear claims of two candidates (`ContestedSplits`, `SplitEpoch`).
  What the claims do keep is that nobody takes a leader that has committed less (`TakesNoLaggard`,
  `SeniorKeepsRole`).
* The decoder's limit is three bytes short: frames of up to `max - 3` bytes are safe for reads of
  4096 bytes, and no longer ones are (`LimitExact`).  A frame of length zero empties the buffer but
  keeps the old read position (`ZeroLengthFrame`, `AfterZeroLength`).
* A metadata answer is understood if and only if no host is longer than 255 bytes and there are fewer
  than 65536 brokers (`RoundTrip` in `Metadata`).

## Model

| member | source | states |
|---|---|---|
| `LogFormat.FirstEncode` | storage/include/storage/log_format.hpp:10-18 | Parsing the header and payload of an encoded record gives the record back, whatever follows it. |
| `LogFormat.RecordLayout` | storage/include/storage/log_format.hpp:10-18 | Octet by octet: the offset in the first eight, the timestamp in the next eight, the payload size in four, each most significant first, then the payload. |
| `LogFormat.EncodeFirst` | storage/segment_reader.cpp:72-92 | Conversely, whatever parses as a record is exactly that record's encoding. |
| `LogFormat.TornRecord` | storage/segment_reader.cpp:76-90 | A strict prefix of an encoded record never parses. |
| `LogFormat.ScanEncode` | storage/segment_reader.cpp:70-100 | Scanning undoes encoding a list of records and carries on into the bytes after it. |
| `LogFormat.EncodeScan` | storage/segment_reader.cpp:70-100 | For any bytes, the records found re-encode to the bytes walked over, and no whole record starts where the scan ends. |
| `LogFormat.ScanIsLongest` | storage/segment_reader.cpp:70-100 | The scan finds the longest list of whole records the bytes begin with. |
| `LogFormat.ScanTorn` | storage/segment_reader.cpp:70-100 | A log cut at any byte scans to exactly the records that are whole. |
| `SegmentReader.Read` | storage/segment_reader.cpp:18-68 | For any file, position, start and count: the first `max` whole records from there whose offset is at least `start`, even though payloads below it are skipped unread. |
| `SegmentReader.ScanValid` | storage/segment_reader.cpp:70-100 | Returns all whole records from a position; re-encoded they are the bytes up to the returned end, and nothing whole starts there. From past the end of the file it returns none and that position. |
| `OffsetIndex.Load` | storage/offset_index.cpp:9-37 | Turns an index file into its big-endian entries, in order, by a loop. |
| `OffsetIndex.LoadEncoded` | storage/offset_index.cpp:13-29 | Loading gives back exactly the entries that were written. |
| `OffsetIndex.EntryLayout` | storage/partition_store.cpp:270-280 | In the index file each entry has its offset in the first eight octets and its position in the next eight, most significant first. |
| `OffsetIndex.Search` | storage/offset_index.cpp:39-52 | In a sorted index the binary search finds the position of the last entry at or below the target, or the start of the file; in any other, still the start or some entry at or below the target. |
| `OffsetIndex.DueMarks` | storage/partition_store.cpp:261-288 | Every index entry the writer emits marks the first byte of the record it names. |
| `OffsetIndex.IndexRefinesScan` | storage/partition_store.cpp:261-298 | With any prefix of the due entries and any byte prefix of the log, a read from the looked-up position equals a scan from byte 0. |
| `SegmentNames.ValueOfName` | storage/segment_writer.cpp:32-37 | Parsing a 20-digit name gives back the base offset, for every 64-bit offset. |
| `SegmentNames.NameOrder` | storage/log_recovery.cpp:20-22 | Lexicographic order of names is numeric order of bases, and names are unique. |
| `SegmentNames.SortedListing` | storage/partition_store.cpp:27-35 | However a directory is listed, sorting the names orders the segments by base offset. |
| `Store.AppendStep` | storage/partition_store.cpp:111-139 | An accepted append keeps the store invariant and adds exactly one record, numbered next, to the accepted log. |
| `Store.PopStep` | storage/partition_store.cpp:221-232 | Moving a command from queue to batch keeps the invariant and loses nothing; the byte counter drops by its payload. |
| `Store.WriteIndexStep` | storage/partition_store.cpp:270-280 | Writing a due index entry before the log bytes keeps the invariant. |
| `Store.IndexNext` | storage/partition_store.cpp:263-288 | Each written entry keeps the index file exact for the log plus the records ahead of it, and only extends what was loaded before. |
| `Store.WriteLogStep` | storage/partition_store.cpp:290-298 | Writing the batch keeps the invariant and extends the written log by exactly the batch. |
| `Store.PublishStep` | storage/partition_store.cpp:304-306 | Storing the committed offset keeps the invariant and changes no record. |
| `Store.FinishStep` | storage/partition_store.cpp:331-355 | Sealing a full segment and opening the next keeps the invariant and every written record. |
| `Store.LoadCacheStep` | storage/partition_store.cpp:160-186 | Caching the index of a segment while it is being written keeps the invariant: it stays a prefix of the entries due. |
| `StoreRuns.Step` | storage/partition_store.cpp:111-370 | No action breaks the invariant, loses, reorders or makes up a record. |
| `StoreRuns.StoreRefinesLog` | storage/partition_store.cpp:111-370 | Over every interleaving from an empty directory: files, then batch, then queue hold exactly the accepted payloads in order with contiguous offsets; tail and committed offset count what is on disk. |
| `StoreRuns.ShutdownIsFinal` | storage/partition_store.cpp:111-118 | In every run, nothing is accepted after a shutdown. |
| `StoreRuns.FetchIsSlice` | storage/partition_store.cpp:141-197 | In every reachable state a fetch is a contiguous slice of the written log from exactly the offset asked for, up to the count or the end of the segment file. |
| `StoreRuns.FetchProgress` | storage/partition_store.cpp:141-158 | A fetch returns something if and only if the offset is written and lies below the active segment or nothing has been sealed. |
| `StoreRuns.FetchCommittedIff` | storage/include/storage/partition_store.hpp:137-138 | All fetches return only committed records if and only if no written batch is unpublished or a segment has been sealed. |
| `Batches.UncommittedFetch` | storage/partition_store.cpp:290-306 | Five actions from an empty directory lead to a state in which a fetch returns an uncommitted record. |
| `Batches.WriteAll` | storage/partition_store.cpp:204-298 | Appending records to an idle store and writing them in one batch leads to exactly the state with their encoding in the log and their due entries in the index. |
| `Batches.WriteEach` | storage/partition_store.cpp:204-355 | Below the segment limit, any options that let one record be queued let any records be written, each in a batch of its own. |
| `LateReads.StaysRun` | storage/partition_store.cpp:331-350 | Over every run each segment keeps its place and base, and its records and index only grow. |
| `LateReads.LateFetchIsSlice` | storage/partition_store.cpp:164-189 | A fetch that resolves in one state of a run and reads the file in any later one returns a contiguous slice of the log as it is then, from exactly the offset asked for. |
| `LateReads.CatchUpIsSlice` | replication/replication_server.cpp:177-207 | A catch-up on a log that grows and rotates meanwhile sends consecutive records from exactly its start, each once, as they stand in the log, and from the committed offset on nothing. |
| `StoreBounds.Bounded` | storage/partition_store.cpp:121-134 | In every run, every file is at most the segment limit plus one batch; a batch has at most the configured records, or one, and overshoots its byte limit by less than one record; the queue is within capacity, and the byte counter is exactly the queued payload and within its limit. |
| `StoreBounds.SizedStep` | storage/partition_store.cpp:221-232 | Each action keeps those bounds. |
| `Partition.PartitionStore.constructor` | storage/partition_store.cpp:14-45 | Opening any listing of a directory gives the state rebuilt from its recovered, sorted segments. |
| `Partition.PartitionStore.Append` | storage/partition_store.cpp:111-139 | Accepts exactly when open and within both limits, then returns the number of the record in the accepted log; otherwise says why and changes nothing. |
| `Partition.PartitionStore.TakeBatch` | storage/partition_store.cpp:204-246 | With any commands arriving during its waits: takes the queued commands in order, a non-empty prefix of a non-empty queue, no more than the record limit, the byte limit and the deadline allow, stops only at one of these or an empty queue, and accounts for every accepted payload. |
| `Partition.PartitionStore.PopOne` | storage/partition_store.cpp:222-227 | Moves exactly the first command, with both byte counts kept. |
| `Partition.PartitionStore.Arrive` | storage/partition_store.cpp:239-242 | Producers append behind what is queued and change nothing else. |
| `Partition.PartitionStore.WriteBatch` | storage/partition_store.cpp:248-307 | Performs exactly the store's actions in order; the written log grows by the batch and the committed offset reaches the tail. |
| `Partition.PartitionStore.IndexRecord` | storage/partition_store.cpp:263-288 | One turn of the loop writes the entry that is due, if any, and adds the record to the buffer. |
| `Partition.PartitionStore.FlushBuffer` | storage/partition_store.cpp:290-306 | Appends the encoded batch in one write and then moves counters and committed offset. |
| `Partition.PartitionStore.PublishBatch` | storage/partition_store.cpp:304-306 | The committed offset becomes the tail and nothing else changes. |
| `Partition.PartitionStore.FinishBatch` | storage/partition_store.cpp:331-355 | Rotates exactly at the size limit, keeping every written record. |
| `Partition.PartitionStore.FindSegmentFor` | storage/partition_store.cpp:141-158 | Finds the last sealed segment that starts at or below the offset, else the active one, else none. |
| `Partition.PartitionStore.Resolve` | storage/partition_store.cpp:164-186 | Finds the segment and its index, sorted: the cached one if there is one, else the file's, which is cached from then on; nothing else changes. |
| `Partition.PartitionStore.ReadSegment` | storage/partition_store.cpp:188-189 | Reads the file as it is now through an index resolved before. |
| `Partition.PartitionStore.Fetch` | storage/partition_store.cpp:160-197 | The two in a row return what the model's fetch returns. |
| `Partition.PartitionStore.NextOffset` | storage/partition_store.cpp:199-202 | Is the number of written records, which may be less than the next offset to be assigned. |
| `CatchUp.HandleFetchLog` | replication/replication_server.cpp:177-207 | Sends consecutive records from exactly the start offset, each once, and terminates; reaches the committed offset if and only if nothing is sealed or the active segment is empty, and says where it stops otherwise. |
| `Recovery.RecoverPartition` | storage/log_recovery.cpp:8-45 | Keeps exactly the whole records of the last segment, reports their count, end and next offset, and touches no other file. |
| `Recovery.RecoveryIsIdempotent` | storage/log_recovery.cpp:25-42 | Recovering twice is recovering once, for any bytes. |
| `Recovery.TornLogKeepsWholeRecords` | storage/log_recovery.cpp:25-42 | Of a log cut at any byte, recovery keeps the longest prefix of whole records. |
| `Recovery.CrashedFilesReadBack` | storage/partition_store.cpp:18-45 | However the directory is listed after a crash, opening it sees the segments the crash left. |
| `Recovery.CrashRecovery` | storage/partition_store.cpp:18-45 | From any state of any run and any cut: the store returns with the longest whole prefix of the written log and resumes right after it. |
| `Recovery.CrashKeepsInvariantIff` | storage/log_recovery.cpp:37-42 | The recovered store satisfies the store invariant if and only if no index entry names a lost record. |
| `Recovery.Reopen` | storage/partition_store.cpp:14-45 | After a clean shutdown, opening the directory rebuilds the very same store. |
| `StaleIndex.StaleIndexExact` | storage/log_recovery.cpp:37-42 | An index left over from lost records, with any number of the entries for later records added to it, reads right after every continuation if and only if it has no entry past the tail. |
| `StaleIndex.CrashedIndexExact` | storage/partition_store.cpp:18-45 | The same for the index a store comes back with after a crash at any byte of any run. |
| `Reopened.ReopenedReadsRight` | storage/partition_store.cpp:160-370 | From a crash at any byte of any run: if no index entry is past the tail, every fetch after every list of actions of the reopened store is right, with the stale entry in the file, in the cache and through rotation, and every index is in order for the binary search. |
| `Reopened.ReopenedExact` | storage/log_recovery.cpp:37-42 | For a store without sealed segments that can still take a few kilobytes in this one, every fetch of every later run is right if and only if no index entry is past the tail. |
| `Reopened.StaleEntry` | storage/partition_store.cpp:270-294 | A run from an empty directory that crashes between the index entries of a batch of 129 records and its log write comes back as a store with a fetch that misses a written record. |
| `OnceCallbacks.Conserved` | storage/partition_store.cpp:67-93 | In every interleaving, each registered callback has run exactly once or still waits, and none ran before its offset was committed. |
| `OnceCallbacks.NothingLost` | storage/partition_store.cpp:322-325 | After firing, everything registered below the committed offset has run and nothing below it waits. |
| `OnceCallbacks.CallbackTable.SetOnceCommitCallback` | storage/partition_store.cpp:67-74 | Runs the callback at once or keeps it, never both. |
| `OnceCallbacks.CallbackTable.FireOnceCallbacks` | storage/partition_store.cpp:76-93 | Runs every entry below the committed offset once, in whatever order the table is walked, and keeps the others. |
| `PartitionMeta.Progress` | replication/partition_meta.cpp:14-49 | Over every run, each replica's progress is the most it has reported and the leader never leaves the in-sync set. |
| `PartitionMeta.Watermark` | replication/partition_meta.cpp:21-49 | No step lowers the in-sync watermark, except that a replica let back in may lower it to its own progress, never below the leader's progress less the allowed lag. |
| `PartitionMeta.OutIffSilent` | replication/partition_meta.cpp:21-49 | Over every run a replica is out of the in-sync set if and only if it is not the leader, some tick found it silent, and no acknowledgement since brought it within the allowed lag. |
| `PartitionMeta.LaggingStays` | replication/partition_meta.cpp:42-49 | A run in which a follower lagging past the limit stays in sync. |
| `PartitionMeta.Meta.GetIsrIds` | replication/partition_meta.cpp:6-12 | The ids of exactly the replicas in sync. |
| `PartitionMeta.Meta.HasIsrAcked` | replication/partition_meta.cpp:14-19 | True if and only if every replica in sync has reached the offset. |
| `PartitionMeta.Meta.LeaderCommittedOffset` | replication/partition_meta.cpp:35-40 | The progress of the first entry with the leader's id, or 0. |
| `PartitionMeta.Meta.OnReplicaAck` | replication/partition_meta.cpp:21-33 | Only the first matching replica changes: progress to the maximum, and back in sync when within the lag. |
| `PartitionMeta.Meta.TickIsr` | replication/partition_meta.cpp:42-49 | A replica stays in sync if and only if it was and is the leader or was heard of within the timeout, with 64-bit unsigned subtraction of times; nothing else changes. |
| `PartitionMeta.Meta.OnLeaderCommit` | replication/replica_manager.cpp:138-152 | The leader's entry moves up to the committed offset and no other changes. |
| `DeferredAcks.Conservation` | replication/replica_manager.cpp:35-131 | In every run, what was registered is, as a multiset, what is pending plus what was released: nothing is released twice or dropped. |
| `DeferredAcks.AnsweredInPlace` | replication/replica_manager.cpp:89-101 | Wherever an entry stands among others, it is answered if and only if it has its quorum and a response: once, at its place in the order, on its own descriptor, with its own bytes. |
| `DeferredAcks.KeptInPlace` | replication/replica_manager.cpp:80-84 | Wherever an entry stands among others, it stays pending at its place unless it has its quorum. |
| `DeferredAcks.SentOnce` | replication/replica_manager.cpp:63-136 | In every run, for every descriptor and non-empty response: as many acknowledgements were registered with it as are still pending plus as many as were sent to that descriptor. |
| `DeferredAcks.Evidence` | replication/replica_manager.cpp:63-131 | In every run nothing with a quorum stays pending; everything released was committed by the leader and acknowledged by as many distinct followers as it needed, and the counter is the size of the set. |
| `DeferredAcks.CountedBy` | replication/replica_manager.cpp:72-84 | A committed entry is released by the acknowledgements of as many distinct brokers as it needs, whoever they are, and not before. |
| `DeferredAcks.ReleasedAtOnce` | replication/replica_manager.cpp:89-92 | An entry that needs no follower is released by the first commit that covers it, and not before. |
| `Snapshot.SnapshotSize` | replication/replica_manager.cpp:44-46 | What an entry requires is exactly the number of followers in sync when it is registered. |
| `Snapshot.QuorumCoversSnapshot` | replication/replica_manager.cpp:40-77 | Over a run that defers an acknowledgement and later releases it: if only followers in sync at that moment acknowledged, every one of them did and has committed past the record, even if evicted since; in guarded runs each holds it. |
| `Snapshot.FullSnapshot` | replication/replica_manager.cpp:63-87 | If every follower is in sync when it is deferred, every release in every continuation was acknowledged by all of them. |
| `Snapshot.EveryFollowerHas` | replication/replica_manager.cpp:63-131 | From everybody in sync and without evictions, every release in every run was acknowledged by every follower of the cluster, which has committed it; in guarded runs every follower holds it. |
| `Snapshot.ReleasedByAny` | replication/replica_manager.cpp:72-84 | From any guarded state in which the worker is not past the record, any followers of the required number release the acknowledgement in a guarded continuation, without anybody else. |
| `Snapshot.OutsiderReleases` | replication/replica_manager.cpp:72-77 | From any such state, a follower out of sync can stand in for one in sync that has not acknowledged. |
| `Snapshot.NeverReleased` | replication/replica_manager.cpp:119-125 | An acknowledgement deferred once the worker is past its record is released in no continuation. |
| `Snapshot.ReleasableIff` | replication/replica_manager.cpp:35-49 | In any guarded run, a new acknowledgement can still be released if and only if its commit has yet to reach the worker. |
| `Snapshot.SnapshotExact` | replication/replica_manager.cpp:72-77 | In any guarded run, every release of a new acknowledgement covers the followers then in sync if and only if they have all acknowledged already, or no follower is out, or its commit has already passed the worker. |
| `Snapshot.OutsiderFillsQuorum` | replication/partition_meta.cpp:42-49 | A run of three brokers from start-up, with a sweep of the in-sync set and a re-admission, in which the evicted follower's acknowledgement releases a record the one in sync never acknowledged. |
| `DeferredAcks.ReplicaManager.RegisterPending` | replication/replica_manager.cpp:35-49 | Requires as many followers as are in sync, leader excluded, and adds one fresh entry at the end. |
| `DeferredAcks.ReplicaManager.TryRelease` | replication/replica_manager.cpp:89-101 | Hands out the entry's own response for the entry's own descriptor exactly when the quorum is met and it is not empty, and moves it out of the entry. |
| `DeferredAcks.ReplicaManager.OnReplicaAck` | replication/replica_manager.cpp:63-87 | Counts a follower once per entry, sends exactly the responses of entries that now have their quorum and removes exactly those; which these are, to whom and in what order `AnsweredInPlace` and `KeptInPlace` say. |
| `DeferredAcks.ReplicaManager.OnCommitted` | replication/replica_manager.cpp:115-131 | The same for a batch committed by the leader. |
| `DeferredAcks.ReplicaManager.EraseReady` | replication/replica_manager.cpp:126-130 | Keeps exactly the entries without a quorum, in order. |
| `Replication.StepInv` | replication/replication_client.cpp:217-265 | No step of the protocol breaks its invariant: frames carry the leader's records, acknowledgements in flight claim no more than their sender committed, every counted acknowledgement was sent. |
| `Replication.NodeSteps` | replication/replication_client.cpp:217-265 | Receiving, writing and publishing keep every follower record traceable to a leader record. |
| `Replication.MembersStep` | replication/partition_meta.cpp:21-49 | No step changes who is in the cluster or takes the leader out of the in-sync set. |
| `Driving.DriveAck` | replication/replication_client.cpp:217-265 | From any guarded state a follower can be brought, without any other broker taking a step and in the order of its I/O thread, to hold the leader's log up to an offset and acknowledge it. |
| `Driving.CommitAll` | storage/partition_store.cpp:309-330 | The leader can commit and send all it has, a batch at a time: the worker hears of every offset it had not passed and itself sends the records of every batch it hears of; only what it was past before is sent again. |
| `Durability.PlacementExact` | replication/replication_client.cpp:223-232 | Over every run, all records of all followers are at the leader's offsets if and only if each was accepted into an empty queue. |
| `Durability.FollowerPrefix` | replication/replication_client.cpp:217-265 | In every guarded run, with frames lost, repeated and reordered: every follower's log, queue included, is a prefix of the leader's, and no acknowledgement in flight exceeds its sender's committed offset. |
| `Durability.PrefixIffGuarded` | replication/replication_client.cpp:223-232 | When the leader's records are all different, followers are prefixes exactly in guarded runs. |
| `Durability.ReleasedIsAcknowledged` | replication/replica_manager.cpp:63-131 | Without any guard, a release means that the leader has committed past the offset and enough followers, each in the cluster, have committed past it. |
| `Durability.Durable` | replication/replica_manager.cpp:63-131 | acks=all end to end: in every guarded run, a released acknowledgement means the leader has committed the record and at least the required number of distinct followers hold the same payload, committed, at the same offset. |
| `Durability.LogsGrow` | replication/replica_manager.cpp:103-181 | Over every run what was written at any broker stays written, so a release is never taken back. |
| `Durability.WorkerStreams` | replication/replica_manager.cpp:138-179 | Over every run: when the worker has taken up a committed batch, every record of it, as the leader's log has it, has been sent under its own offset, and the leader's own progress is at least the end of the batch. |
| `DuplicateFrame.DurabilityLost` | replication/replication_client.cpp:223-232 | For any two different records and any options that let two be queued: a run of two stores from empty directories, each batch committed before the next, in which a record arrives twice and an acknowledgement is released that no follower's files bear out. |
| `Cluster.StoreRefinesPipe` | storage/partition_store.cpp:111-370 | Action by action, the byte-level store refines the log, queue and committed offset the protocol is stated over. |
| `Cluster.QueueEmptyIff` | storage/partition_store.cpp:199-202 | The guard a follower would need, that nothing is queued or in flight, holds exactly when the next offset to assign is the writer's tail. |
| `Cluster.Simulation` | replication/replication_client.cpp:217-265 | Every run of a cluster of stores is a run of the protocol, guarded if the cluster's is. |
| `Cluster.NewClusterLinked` | replication/partition_meta.cpp:83-104 | A cluster of brokers 0, 1, 2 and so on with empty directories and roles assigned is a state the theorems about runs start from. |
| `Cluster.LeaderActs` | storage/partition_store.cpp:309-370 | Any run of the leader's store is a run of the cluster. |
| `Cluster.FollowerActs` | storage/partition_store.cpp:309-370 | Any run of a follower's store that appends nothing is a run of the cluster. |
| `Cluster.DurableOnDisk` | replication/replica_manager.cpp:63-131 | acks=all down to the files: the segment files of the leader and of the required number of other brokers, the leader not among them, decode to the same record at that offset. |
| `Cluster.EveryoneOnDisk` | replication/replica_manager.cpp:63-131 | With everybody in sync at the start and nobody evicted, the files of every other broker decode to that record. |
| `RoleRegistry.KeyInjective` | replication/partition_meta.cpp:51-53 | No two partitions share a registry key, even if topics contain dashes or digits. |
| `RoleRegistry.PartitionMetaRegistry.Get` | replication/partition_meta.cpp:55-66 | Returns the entry on record, creating a follower of broker 0 in epoch 0 without replicas if there is none, and changes no other key. |
| `RoleRegistry.PartitionMetaRegistry.AssignRoles` | replication/partition_meta.cpp:83-104 | For every topic listed, every partition below its count, or partition 0 if it has no count, is led by its number modulo the number of brokers; this broker leads it if and only if that is its id, every broker is in sync, and the epoch stays. No other partition changes. |
| `RoleRegistry.RolesSeedElection` | replication/partition_meta.cpp:83-104 | Brokers that assign roles independently agree: one leader per partition, everyone in sync, and the election in its initial state. |
| `Election.StepInv` | replication/replication_server.cpp:237-256 | No step breaks the election invariant, lowers an epoch or a committed offset, forgets an accepted leader or makes a leader; only brokers with the partition and a client campaign, one campaign at a time. |
| `Election.HearExact` | replication/replication_server.cpp:237-256 | A claim whose epoch is not greater, or that says less than the hearing broker has committed of a partition it has, changes nothing; any other makes that broker follow the claimant in the claimed epoch and changes no other. |
| `Election.CampaignWins` | replication/replication_client.cpp:267-295 | A broker that is no candidate yet campaigns one epoch up with what it has committed, and every broker in no newer epoch that has committed no more follows it once it hears of it. |
| `Election.CommitRefuses` | replication/replication_server.cpp:247-250 | Once a broker with the partition has committed more than a claim says, hearing the claim changes nothing, whatever its epoch. |
| `Election.SeniorKeepsRole` | replication/replication_server.cpp:247-250 | In every run, a leader that has the partition keeps its role as long as it has committed more than any claim ever made says. |
| `Election.TakesNoLaggard` | replication/replication_server.cpp:241-255 | In every run, every leader a broker ever took had claimed at least what that broker had committed by then, and the broker's epoch is that of the last leader it took, one more while it is a candidate. |
| `Election.OneWriter` | replication/replication_client.cpp:267-295 | In every run, whatever claims are made and delivered: at most one broker leads, it takes itself for the leader, and no broker accepts two leaders in one epoch. |
| `Election.NoSuccessor` | replication/replication_server.cpp:237-256 | Once the first leader has lost its role, no later state has any leader; epochs never decrease. |
| `Election.AgreeIfUncontested` | replication/replication_server.cpp:237-256 | In every run, all brokers that accepted a leader in an epoch accepted the same one, as long as only one candidate claimed it. |
| `Election.ContestedSplits` | replication/replication_server.cpp:237-256 | Whenever two brokers hear claims of two candidates for one epoch that is new to each, neither claim saying less than its hearer has committed, they disagree in every continuation. |
| `Election.SplitEpoch` | replication/replication_server.cpp:237-256 | A concrete run in which two brokers accept different leaders in the same epoch. |
| `Frames.EncodeFrame` | broker/request_handler.cpp:471-484 | The buffer holds the length in four octets, most significant first and cut to 32 bits, then the opcode, then the payload. |
| `Frames.ParsePrefix` | broker/frame_decoder.cpp:14-47 | Reading any prefix of printed frames gives the whole frames in it and keeps less than one frame. |
| `Frames.ParseAppend` | broker/frame_decoder.cpp:10-47 | Reading on from what was left over is reading all at once, for any bytes in any pieces. |
| `Decoding.FrameDecoder.Push` | broker/frame_decoder.cpp:5-57 | The cursor loop, wrapping size test, zero-length path and compaction do exactly what the value-level push does, frames emitted before a failure included. |
| `Decoding.FrameDecoder.Reset` | broker/include/broker/frame_decoder.hpp:123-126 | Gives back the initial decoder. |
| `Decoding.PushInOrder` | broker/frame_decoder.cpp:5-57 | A push that fits emits exactly the frames its bytes complete and keeps the rest; compaction is not observable. |
| `Decoding.PushFails` | broker/frame_decoder.cpp:6-30 | A push fails if and only if it overfills the buffer or meets a length past the limit. |
| `Decoding.RoundTrip` | broker/frame_decoder.cpp:5-57 | For every list of frames and every cutting into reads with room: no push fails, the frames come out in order and no other, the read position stays below 8192 and less than a frame waits. |
| `Decoding.LimitExact` | broker/frame_decoder.cpp:6-8 | All streams of frames up to a length, in all cuttings into reads up to a size, decode if and only if length + 3 + size is at most the limit + 4096 and the length is within the limit. |
| `Decoding.ZeroLengthFrame` | broker/frame_decoder.cpp:22-26 | A zero length leaves a fresh decoder if and only if nothing was read before it; past position 8191 the erase is out of bounds. |
| `Decoding.AfterZeroLength` | broker/frame_decoder.cpp:49-54 | Otherwise the next read fails if it is shorter than what had been read, and loses that many bytes if not. |
| `Metadata.HandleMetadata` | broker/request_handler.cpp:76-126 | The answer prints this broker, every peer and every partition with its leader, counts first; if everything fits its field, what a client reads from it is what `AnswerInforms` says. |
| `Metadata.AnswerInforms` | broker/request_handler.cpp:99-124 | Reading the answer finds this broker and every peer under its id with its host and port, nobody else, and for every partition the leader on record, or the partition's number modulo the number of brokers if there is none. |
| `Metadata.BrokerLayout` | broker/request_handler.cpp:87-97 | Octet by octet: id in four, host length in one, host, port in two, most significant first. |
| `Metadata.LeaderLayout` | broker/request_handler.cpp:119-123 | Octet by octet: partition number in two, leader id in four, most significant first. |
| `Metadata.ParseMetadata` | cli/cli_util.hpp:79-120 | Succeeds exactly on well-formed bytes, never reads past the end, and keeps the last entry of each key. |
| `Metadata.ReadPrinted` | cli/cli_util.hpp:79-120 | Reading a printed answer gives the brokers by id, last one winning, and the leader of each partition. |
| `Metadata.CutShort` | cli/cli_util.hpp:79-120 | Every byte is needed: an answer cut short anywhere is refused. |
| `Metadata.RoundTrip` | broker/request_handler.cpp:80-100 | With distinct ids, the client learns what the broker knows if and only if hosts have at most 255 bytes and there are fewer than 65536 brokers. |
| `Metadata.ByPartitionTotal` | broker/request_handler.cpp:108-124 | The client's table has an entry for every partition and no other. |

## Left out

- Sockets, pollers, notify pipes, accept loops and file descriptors: frames are atomic messages and files are byte sequences.
- Mutexes, condition variables and clocks: each region under a lock is one step, a deadline may cut a batch anywhere, and rotation is one step.
- Flushing to the device and cached timestamps: durability here means bytes in the file, and a timestamp is an input.
- Failed writes: an exception from the file system ends the process and is not modelled; its effect on the files is a crash.
- Heartbeats: their handler does nothing, so they have no content to model.
- Consistency across a change of leader: the code does not establish it, since nothing promotes a candidate.
- That a deferred acknowledgement is released in the end: no fairness of threads or of the network is modelled; `ReleasableIff` says when it still can be.
- 64-bit wrap-around of offsets, timestamps, file sizes and the 32-bit epoch: actions that would overflow one are not enabled.
- Torn index files: a crash cuts the log at any byte, while the index file keeps what was written to it.
- What the receive loop does after a handler has dropped the connection: a disconnect ends it.
- Number of brokers: taken as given with distinct ids 0, 1, 2 and so on, although the default peer list of the source contains the broker itself.
- Requests other than metadata, the topic registry, configuration files, command-line programs, benchmarks and the inline storage of small payloads.
- Metadata.HandleMetadata: a partition with no leader on record stands for the fallback branch of the source, which looking an entry up never takes because it creates the entry.
- OffsetIndex.Load: for a file that is no multiple of 16 bytes the model ignores the odd bytes, while the source still reads them.
- Reopened.ReopenedExact: the half that constructs a run is for a store without sealed segments; with sealed ones the active segment is not read until it is sealed itself, and by then its index may be out of order, for which the library's search specifies no result. It also needs options that let a few kilobytes be queued, and either one batch for 129 records, as the defaults have it, or a segment that far below its limit.

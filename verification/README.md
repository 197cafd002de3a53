# FluxMQ: a verified model of its log engine and session protocol

This project models, in Dafny, the parts of the FluxMQ broker whose correctness depends on crashes,
interleavings or byte-exact formats, and proves what they promise for every input and every run.

* **Session ownership** (`SessionOwnership.dfy`). Brokers claim, renew, release and take over client sessions
  with transactions on an owner key and a takeover key that hang on leases. A state machine with one step per
  transaction and one per local action between transactions; a lease can expire and a broker restart at any
  point. Class `Cluster` holds the calls themselves, with an arbitrary schedule of everybody else.
* **Exactly-once append** (`Dedupe.dfy`). The deduplication index in front of a queue's log, with plain appends,
  truncation, background barriers and crashes between any two steps. Class `Queue` holds the calls.
* **Group commit** (`GroupCommit.dfy`). Publishers that share one fsync, with rotations, truncation, failures and
  crashes. Class `Log` holds `syncThrough`.
* **The log engine** (`Encoding`, `Buffers`, `Batch`, `Recovery`, `Segment`, `Manager`, `FlatLog`). From varints
  and batches through segment files, recovery and scanning, up to the segment manager. `FlatLog` is the
  reference: one sequence with a head offset. The manager keeps real segment objects over real bytes.
* **Capture and restore** (`Snapshot.dfy`) of a queue that is in use, on the manager itself.
* **Consumer groups** (`ConsumerState.dfy`): pending entries in shards, snapshots and the operation log.
* **The time index** (`TimeIndex.dfy`), **AMQP 1.0 transfer splitting** (`Transfer.dfy`) and **the envelope codec**
  (`Wire.dfy`, `Envelope.dfy`, with `MapWalk.dfy` for map iteration order).

Parameters stand for what is not modelled: the checksum and the compressors (any functions with
`decompress(compress(x)) == x`), the clock, the order in which a map is iterated (a `Walk`), and which I/O calls
fail (`Faults`, `Weather`) or lose their answer (`Fate`). Offsets, timestamps and counters are unbounded where the
source has 64 bits; 16-bit and 32-bit fields, signed/unsigned reinterpretation and varint limits are written out.

## Where the code does not do what one might expect

Each of these is proved, with the exact condition under which the expected property holds.

* A batch of 65536 records or more encodes without an error but never decodes to itself: the count field has 16
  bits (`Batches.DecodeInvertsEncode`).
* An expired or oversized active segment that is still empty cannot be rotated: the new segment would have the
  same name, so the append fails (`Manager.SegmentManager.Append`, `Err(SegmentExists)`).
* An operation logged behind a torn line of a consumer group's log is lost at the next start, because replay stops
  at the torn line and opening the log does not remove it (`ConsumerGroups.AppendedIsReplayed`). So is every run
  behind it that has no compaction, and no other run (`ConsumerGroups.LostRun`, `ConsumerGroups.RestartAfterRun`).
* A delivery or restore of an offset that is pending for another consumer leaves the other consumer's index stale
  (`ConsumerGroups.PutIndex`).
* "Already present" can name a record that a crash still takes (`Dedupe.MixedFormsNotDurable`): if and only if the
  key was confirmed by the buffered form of the append and no flush, crash or truncation has covered its record since
  (`Dedupe.PresentIsDurableExactly`).
* `fenceLostSessionClaim` untracks a key before it closes the connection, so for a moment a session can be served
  under a lease its broker has replaced (`SessionOwnership.FenceWindow`): if and only if the broker was granted the
  new one while it was fencing that session (`SessionOwnership.StaleExactly`). Such a lease is never live
  (`SessionOwnership.NoTwoBrokersServe`).
* A takeover can end and leave its takeover key behind, which keeps everybody from claiming or taking over the client
  (`SessionOwnership.KeyLeftBehind`): if and only if the answer to taking it was lost, its release was given up or its
  broker restarted during the call, and the lease it was taken under still lives (`SessionOwnership.LeftBehindExactly`).
* The envelope decoder narrows the version to 16 bits before it checks it, so a record is accepted if and only if its
  version is 1 modulo 65536 (`Envelopes.VersionChecked`, `Envelopes.VersionDecides`; `Envelopes.VersionWraps` is
  version 65537).
* An envelope comes back unchanged exactly if no header or property has key and value both empty and no stream is
  present but all zero (`Envelopes.RoundTripExact`).
* Asked for a range beyond its own end, a segment's `ReadRange` reads its last batch again and again until it has
  enough messages, and asked for one that begins there it never returns (`Segments.PastTheEnd`). It ends with the
  messages that are there if and only if nothing is asked for, the range begins below the segment, the segment is
  empty, or the range begins inside it and either its end or its limit stays within (`Segments.ReadsFlatExactly`).
  The manager always stays within.

## Model

| member | source | states |
|---|---|---|
| SessionOwnership.NoTwoBrokersServe | cluster/etcd.go:1184-1442 | in every state of every run no client is served by two brokers whose claim leases are both live, every session is served under its broker's current lease unless it is being fenced and the lease it has is dead, and a takeover key pins the owner key |
| SessionOwnership.OwnerMovesOnlyByFinalize | cluster/etcd.go:2148-2232 | the owner key passes from one broker to another only when the holder of that lock's exact token finalizes, from and to the brokers the takeover names, and the lock is gone afterwards |
| SessionOwnership.FinalizeSpendsToken | cluster/etcd.go:2173-2220 | after a finalize no lock ever carries that token again, so at most one finalize succeeds per token, in every later state |
| SessionOwnership.StepInv | cluster/etcd.go:1184-1478 | every transaction, local step, expiry and restart keeps: serving under a live lease is backed by the owner key under that lease, and a handed-off source does not serve while the lock lasts |
| SessionOwnership.BehaviourInv | cluster/etcd.go:1184-1478 | the invariant holds in every state of every run |
| SessionOwnership.FenceWindow | cluster/etcd.go:1421-1429 | a concrete run in which a fenced session is still served under a replaced, dead lease |
| SessionOwnership.StaleExactly | cluster/etcd.go:1184-1435 | in every state of every run a session is served under a replaced lease if and only if its broker was granted a new lease while fencing it and has not closed it yet |
| SessionOwnership.KeysHangAlways | cluster/etcd.go:1372-1419 | in every state of every run each owner and takeover key hangs on a lease the store still honours, so one that nobody removes goes with its lease |
| SessionOwnership.LeftBehindExactly | cluster/etcd.go:2107-2232 | in every state of every run a takeover key whose call has ended is there if and only if the call left it behind (the answer to taking it lost, its release given up, or its broker restarted meanwhile) and the lease it was taken under still lives |
| SessionOwnership.KeyLeftBehind | cluster/etcd.go:2119-2130 | a concrete run in which the answer to taking the lock is lost, the key stays, and nobody can claim or take over the client |
| SessionOwnership.StepTouchesOnly | cluster/etcd.go:1184-1478 | a step touches no other client's keys and no other broker, and the end of a lease exactly the keys under it |
| SessionOwnership.ReleaseTakesOwnKey | cluster/etcd.go:1463-1467 | the delete of a release takes the owner key exactly if it is this broker's |
| SessionOwnership.RestartForgets | cluster/etcd.go:1184-1215 | a broker that starts again tracks and serves nothing, under a lease it never had, and its takeovers have ended |
| SessionOwnership.Cluster.RecoverSessionLease | cluster/etcd.go:1184-1215 | succeeds only with a lease other than the expected one; fails only if none was granted, and then the old one stays, or if the other keys could not be put back, and then the new one stays |
| SessionOwnership.Cluster.TryInitialSessionClaim | cluster/etcd.go:1372-1397 | an answer tells the truth about owner and takeover key at that moment; committed means served under a live lease; without an answer the caller knows nothing |
| SessionOwnership.Cluster.TryRenewSessionClaim | cluster/etcd.go:1399-1419 | the same for a renewal, and a refusal without a lock means another owner |
| SessionOwnership.Cluster.FenceLostSessionClaim | cluster/etcd.go:1421-1435 | the session is no longer served here; owner and takeover keys are untouched |
| SessionOwnership.Cluster.ReleaseSession | cluster/etcd.go:1456-1478 | the session is untracked and no longer served here; unless the transaction never arrives this broker does not own it any more; with nobody else acting exactly this broker's own key is gone |
| SessionOwnership.Cluster.AcquireSession | cluster/etcd.go:1315-1370 | acquired is answered if and only if the call's last step put the owner key, and then the session is served here under a live lease, owned and unlocked; each refusal names a true reason; exhausted means two dead leases and nothing put; with nobody else acting and every answer arriving the result is the one the keys decide, also through a dead lease |
| SessionOwnership.Cluster.TakeoverSession | cluster/etcd.go:2107-2171 | taken over is answered if and only if the call's last step moved the owner key, and then this broker alone serves the client under a live lease; a lost lock means the lease it was taken under ended; when the call has ended its takeover key is there if and only if one of the call's steps left it behind under a lease that still lives; each refusal names a true reason; with nobody else acting and every answer arriving the result is the one the keys decide |
| SessionOwnership.Cluster.AskSource | cluster/etcd.go:2121-2135 | fails only if the source or its answer is not reached; then the lock is released unless the release never arrives |
| SessionOwnership.Cluster.FinalizeTakeover | cluster/etcd.go:2173-2220 | the owner key moves only while the token still holds the lock, also when the answer is lost; success is answered exactly for such a move; otherwise the lock is released unless the release never arrives, and a lock found lost went with its lease; it is never refused for an owner key that came back, since the lock keeps one from coming back |
| SessionOwnership.Cluster.Unlock | cluster/etcd.go:2222-2232 | the takeover key is gone unless the transaction never arrives, and no other key or broker changes |
| Dedupe.ExactlyOnce | logstorage/dedupe.go:51-202 | in every state of every run at most one readable record at or above the truncation point carries a given key |
| Dedupe.StepInv | logstorage/dedupe_state.go:94-173 | every step and crash keeps each live keyed record covered: a pending entry at or below it, or an exact entry at it |
| Dedupe.PresentIsReadable | logstorage/dedupe.go:71-99 | "already present" names an offset at which that key can be read, whatever crashes and reuse of offsets came before |
| Dedupe.SyncedSuccessIsDurable | logstorage/dedupe.go:120-148 | in runs that use only the syncing form for a key every success for that key means the record is below the durable frontier, whatever other keys do; the condition is sufficient |
| Dedupe.PresentIsDurableExactly | logstorage/dedupe.go:71-99 | "already present" names a durable record if and only if the key was not confirmed there by the buffered form with no flush, survived crash or truncation to cover the record since |
| Dedupe.DurableStays | logstorage/dedupe.go:120-148 | a durable record stays readable at its offset through every later crash until it is truncated |
| Dedupe.MixedFormsNotDurable | logstorage/dedupe.go:71-99 | a concrete run mixing the forms in which "present" is answered for a record a crash can take |
| Dedupe.PruneBucket | logstorage/dedupe_state.go:144-173 | in whatever order the bucket is walked, pending entries below the bound move up to it, exact ones below it go, the rest stay |
| Dedupe.Queue.FindDedupeRecord | logstorage/dedupe.go:170-202 | finds the first record with the key at or after the scan start, or there is none up to the tail, while the log grows underneath |
| Dedupe.Queue.Settle | logstorage/dedupe.go:151-168 | what the running resolution finds is what the entry resolves to in the log as it then is |
| Dedupe.Queue.AppendOnce | logstorage/dedupe.go:51-148 | for every combination of faults which outcome is answered, both ways; without faults it is done; present if and only if the key's entry stands for a record that is there, which every record with the key at or above the truncation point makes so, then with its offset; otherwise exactly one record more is in the log, confirmed, and below the durable frontier in the syncing form; no other key's entry changes |
| Dedupe.Queue.Truncate | logstorage/adapter.go:464-473 | exactly the records below the new head are gone, every record at or above the bound stays, and the index is pruned under the same lock |
| GroupCommit.AcknowledgedSurvives | logstorage/groupcommit.go:59-103 | once a durable append has returned success, its record and all before it in the segment read the same in every later state, crashes included, until the segment is removed on request |
| GroupCommit.TwoBarriersSuffice | logstorage/groupcommit.go:59-103 | a publisher rides at most two successful barriers; after the second it can neither wait nor lead again |
| GroupCommit.CountersTrue | logstorage/groupcommit.go:59-103 | the barriers a publisher has ridden, to success or to failure, are those of the run that it led or waited for since it appended |
| GroupCommit.FailureBlocks | logstorage/manager.go:211-220 | after a failed barrier no step writes or seals anything until a flush of the active segment succeeds or the process starts again |
| GroupCommit.RetryFlushes | logstorage/manager.go:211-220 | the flush that lifts a failure makes the whole active segment durable and touches no other segment and no publisher |
| GroupCommit.OneBarrierPerSegment | logstorage/groupcommit.go:59-103 | two leaders of a barrier on the same segment are the same publisher |
| GroupCommit.StepInv | logstorage/segment.go:521-560 | every interleaving of appends, rotations, barriers, failures and crashes keeps published frontiers durable and sealed segments flushed |
| GroupCommit.OnDiskStays | logstorage/manager.go:337-348 | what is durable in a segment is never changed or lost by any step |
| GroupCommit.Log.SyncThrough | logstorage/groupcommit.go:59-103 | success means the caller's record is at or below its own segment's durable frontier; failure means its own fsync failed or the segment is closed, and the error is recorded for the next append; with a failing fsync it publishes nothing; alone it returns, with success exactly if the record was covered or neither failed; the loop ends |
| GroupCommit.Log.RunBarrier | logstorage/segment.go:521-560 | a led barrier fixes its coverage at what is written before it flushes, publishes at least its leader's record exactly if the fsync succeeds and the segment is open, and wakes the waiters |
| Encoding.GetPutUvarint | logstorage/encoding.go:28-40 | reading a varint anywhere in a buffer gives the value written and stops exactly behind it, for every 64-bit value |
| Encoding.GetPutFixed | logstorage/encoding.go:64-91 | a fixed-width little-endian integer reads back if it fits its width |
| Encoding.UvarintSize | logstorage/encoding.go:52-59 | the counted size is the number of bytes written |
| Encoding.SignedLengthSize | logstorage/encoding.go:43-49 | a length written signed takes zero or one byte more than unsigned |
| Buffers.BufferWriter.WriteUvarint | logstorage/encoding.go:167-171 | appends exactly the varint to what was written, in a buffer grown as needed |
| Buffers.BufferWriter.WriteRawBytes | logstorage/encoding.go:182-186 | appends exactly the bytes, keeping what was written through growth |
| Buffers.BufferReader.ReadPrefixed | logstorage/encoding.go:273-285 | reads the length-prefixed value at the cursor and moves behind it, or reports the error |
| Batches.DecodeInvertsEncode | logstorage/batch.go:91-256 | decoding an encoded batch gives the batch with its final flags, compressed or not, absent and empty key and value kept apart, if and only if it has fewer than 65536 records |
| Batches.ReadPutRecords | logstorage/batch.go:149-332 | every record list reads back from its encoding at any position, whatever order the header maps were walked in |
| Batches.FrameHeader | logstorage/batch.go:117-137 | every header field reads back as written and the checksum covers everything behind it |
| Batches.SizeBounds | logstorage/batch.go:401-423 | the size estimate is never above the uncompressed length and at most two bytes a record below it |
| Batches.HeadersSizeOrderFree | logstorage/batch.go:417-420 | the encoded size of a header map does not depend on iteration order |
| Batches.Size | logstorage/batch.go:401-423 | the running estimate meets that bound for every order in which encoding may walk the maps |
| Batches.EncodeRecords | logstorage/batch.go:149-186 | the buffer loop writes exactly the records' encoding |
| Batches.WriteFrame | logstorage/batch.go:113-143 | writing with a zero checksum and patching it in place gives the frame |
| Batches.DecodeRecords | logstorage/batch.go:259-332 | the reader loop yields the records or the first error, as the positional reading does |
| Batches.Decode | logstorage/batch.go:189-256 | the running decoder checks in the source's order and agrees with the specified decoding on every byte string |
| Batches.OpenBatch.Append | logstorage/batch.go:46-70 | flags say exactly which optional parts occur, deltas are the positions, the maximum timestamp bounds all and is some record's; the batch's messages are those it had and one more with exactly the given key, value, headers and time |
| Batches.AppendedMessages | logstorage/batch.go:426-455 | the messages of a batch with one more record are those before and that record at the next offset with the time it was appended |
| Batches.NewestMessage | logstorage/batch.go:62-64 | no message is newer than the batch's maximum timestamp, and one has it unless it is still zero |
| Batches.OpenBatch.EncodeTo | logstorage/batch.go:91-146 | the bytes, and the compression flag left behind in the batch |
| Recovery.LongestSoundPrefix | logstorage/recovery.go:44-98 | for every byte string recovery keeps the longest prefix made of framed, checksum-valid batches |
| Recovery.RecoveryIdempotent | logstorage/recovery.go:28-129 | recovering twice is recovering once |
| Recovery.RecoveredOpens | logstorage/segment.go:266-310 | whatever recovery leaves, scanning accepts |
| Recovery.TornAppendRecovers | logstorage/recovery.go:47-98 | a sound log followed by any strict prefix of one more batch recovers to exactly that log |
| Recovery.AppendKeepsSound | logstorage/segment.go:322-373 | appending an encoded batch leaves the file sound |
| Recovery.ScanFindsAppend | logstorage/segment.go:266-310 | what an append notes down is what scanning the written file finds |
| Recovery.RecoverSegment | logstorage/recovery.go:44-123 | the scan loop and truncation give exactly that prefix, with the record count its batches claim |
| Recovery.ScanSegment | logstorage/segment.go:266-310 | the scan loop rebuilds positions, next offset, count and size, or reports the first structural damage |
| Segments.WrittenImage | logstorage/segment.go:322-373 | for every sequence of appends, scanning the bytes rebuilds the live positions, next offset, count and size, and every position decodes to its batch |
| Segments.CrashLeavesFront | logstorage/recovery.go:44-123 | a file cut anywhere recovers to exactly the whole batches before the cut |
| Segments.FlattenSlice | logstorage/segment.go:428-446 | a batch's messages stand in the segment's flat list at the batch's own offsets |
| Segments.EncodedIsFrame | logstorage/batch.go:91-146 | every batch an append accepts is framed soundly and decodes to itself |
| Segments.Segment.Open | logstorage/segment.go:71-124 | opening a written file finds everything the writing segment knew |
| Segments.Segment.Append | logstorage/segment.go:322-373 | the file grows by the batch at the next offset and the segment still describes it; on any error nothing changed |
| Segments.Segment.FindBatchPosition | logstorage/segment.go:428-446 | binary search finds the batch an offset falls into exactly when the offset is at or above the base of a non-empty segment |
| Segments.Segment.Read | logstorage/segment.go:376-395 | exactly the message at that offset, or out of range |
| Segments.Segment.ReadRange | logstorage/segment.go:449-482 | for every range: closed, never ending exactly if the loop spins, or ended within max turns with the range read, which is exactly the flat slice when the caller stays within the segment |
| Segments.ReadsRange | logstorage/segment.go:449-482 | what the loop answers for every range, turn by turn: the slice, or past the end the slice and then the last batch's part of it repeated up to the limit, or never anything |
| Segments.ReadsFlatExactly | logstorage/segment.go:449-482 | the loop ends with the flat slice if and only if nothing is asked for, the range begins below the segment, the segment is empty, or the range begins inside and its end or its limit stays within |
| Segments.LastBatchAgain | logstorage/segment.go:428-446 | at the end of a segment that has something a turn reads the last batch again and stays where it is |
| Segments.NeverEnds | logstorage/segment.go:449-482 | a range that begins at or past the end of such a segment is never answered, however many turns are taken |
| Segments.PastTheEnd | logstorage/segment.go:449-482 | a segment with one message answers it twice when asked for offsets 0 and 1, and never answers when asked for offset 1 |
| FlatLog.EvolvesTransitive | logstorage/snapshot.go:21-30 | an earlier moment of an earlier moment is an earlier moment: no offset both have ever changes its message |
| Manager.SegmentManager.Load | logstorage/manager.go:61-99 | opening a directory that holds a log gives that log, with its head and tail |
| Manager.SegmentManager.LoadSegments | logstorage/manager.go:102-159 | each file opens as the segment that wrote it, all but the last read-only |
| Manager.SegmentManager.CreateSegment | logstorage/manager.go:162-195 | fails without a change exactly if a file with that base exists or creation fails; otherwise the log is the same with a new empty active segment and the one before read-only |
| Manager.SegmentManager.RotateIfDue | logstorage/manager.go:320-348 | rotation happens exactly if the active segment is full or too old and nothing fails, changes nothing in the log, and each failure has its exact condition |
| Manager.SegmentManager.Append | logstorage/manager.go:204-243 | the flat log grows by exactly the batch's messages at the old tail, through rotation; on error it is unchanged; when each error is answered, both ways, and success exactly if nothing stands in the way |
| Manager.SegmentManager.FindSegment | logstorage/manager.go:426-446 | finds the one segment holding an offset exactly if head <= offset < tail |
| Manager.SegmentManager.Read | logstorage/manager.go:351-365 | exactly the log's message at that offset |
| Manager.SegmentManager.ReadRange | logstorage/manager.go:385-423 | exactly the flat slice [start, min(end, tail, start + max)), across segments |
| Manager.SegmentManager.ReadMessages | logstorage/adapter.go:377-437 | batch-by-batch reading gives exactly the flat slice, starting inside a batch or crossing segments |
| Manager.SegmentManager.Truncate | logstorage/manager.go:474-514 | nothing at or above the bound is lost, the head ends at or below it with no whole segment below it left, and what went is closed; a log that ends below it restarts there empty |
| Manager.SegmentManager.ApplyTimeRetention | logstorage/manager.go:578-602 | drops exactly the stale segments in front, keeps the active one, and stops at the first segment that is young enough |
| Manager.SegmentManager.ApplySizeRetention | logstorage/manager.go:605-628 | drops a front until the size limit is met or one segment is left, and no segment more than that takes |
| Manager.SegmentManager.Close | logstorage/manager.go:657-687 | the log stays what it was, closed |
| Manager.SegmentManager.Reopen | logstorage/manager.go:61-99 | closing and opening again gives the same head, tail and messages |
| Manager.SegmentManager.CrashAndReopen | logstorage/recovery.go:28-129 | after a cut of the active file at any byte, recovery and opening give the log cut behind the last whole batch |
| Manager.SegmentManager.Offsets | logstorage/manager.go:385-423 | every message in the log carries the offset it stands at |
| Manager.ListingFront | logstorage/manager.go:102-159 | cutting the last file back to some of its frames leaves a directory that holds a front of the log |
| Snapshots.Capture | logstorage/snapshot.go:31-119 | beside any appends, truncations, retention and closing, also between the reading of the head and of the tail, a capture yields exactly the records of the log as it was when the tail was read, from the head read before, or an error that is true; with nobody else acting on an open queue whose records decode it succeeds |
| Snapshots.QueueSnapshot.Next | logstorage/snapshot.go:76-91 | each step yields the captured record at the next offset, ends exactly at the captured tail, or fails for a stated reason |
| Snapshots.QueueSnapshot.Fill | logstorage/snapshot.go:93-119 | one checked read of the current log gives the captured log's records |
| Snapshots.SliceStays | logstorage/snapshot.go:21-30 | reading a later moment of a log from an offset the earlier one had gives the earlier one's messages or nothing |
| Snapshots.RunAll | logstorage/manager.go:204-628 | any run of appends, truncations, retention and closing leaves every earlier moment of the log an earlier moment |
| Snapshots.Publish | logstorage/manager.go:305-309 | a message that nothing stands in the way of, and no other, lands at the tail with its own contents and the time it was published |
| Snapshots.PublishSeen | logstorage/dedupe.go:101-148 | publishing a message is exactly the write that the deduplication model takes it for, at the offset it expects |
| Snapshots.TruncateSeen | logstorage/adapter.go:464-473 | truncating the segmented log is exactly the deduplication model's truncation step |
| Snapshots.RestoreQueue | logstorage/snapshot.go:133-157 | an empty log positioned at the head |
| Snapshots.RestoreRecord | logstorage/snapshot.go:165-217 | refuses exactly an offset that does not continue the log before anything is written, else the record is at that offset unless the append is refused |
| Snapshots.Restore | logstorage/snapshot.go:133-217 | the same head and tail, at every offset the carried record, and an index in which every keyed record has its key and every key names the last record that carries it; it succeeds whenever the records continue each other and no append fails |
| Snapshots.Replicate | logstorage/snapshot.go:31-217 | capturing and restoring gives a queue with the head, tail and records the first had when the capture was opened, and an index from which deduplication can go on, however far it had come |
| Snapshots.RestoredInv | logstorage/snapshot.go:165-217 | the restored log and index with the captured queue's truncation point satisfy the invariant of deduplication |
| Snapshots.ExactlyOnceAfterRestore | logstorage/snapshot.go:159-164 | in every run behind a restore at most one record at or above the truncation point carries a given key |
| ConsumerGroups.CrashInCompaction | logstorage/consumer_state.go:943-989 | wherever a compaction is cut off, with any of the files new and the log whole, the next start finds the same owner for every offset and the same cursor, also if earlier compactions were cut off before |
| ConsumerGroups.OwnerReplayIdempotent | logstorage/consumer_state.go:310-477 | replaying a log over a state that already contains it changes no owner |
| ConsumerGroups.CursorReplayIdempotent | logstorage/consumer_state.go:340-346 | nor the cursor |
| ConsumerGroups.OwnerReplayed | logstorage/consumer_state.go:310-477 | the owner of one offset after a log depends on the log and its earlier owner alone |
| ConsumerGroups.EntryReplayed | logstorage/consumer_state.go:310-477 | what is kept of one offset after a log depends on the log and what was kept before alone |
| ConsumerGroups.AttemptsCounted | logstorage/consumer_state.go:420-477 | while an offset is neither handed out anew nor settled, each nack, claim and occurrence in a batch claim counts one attempt in 16 bits, a release none; the delivery time stays and the last attempt is the last operation on it |
| ConsumerGroups.DeliveryCounts | logstorage/consumer_state.go:340-477 | a delivery and n attempts behind it count n + 1, for whoever claimed the offset last |
| ConsumerGroups.DeliveredCounted | logstorage/consumer_state.go:340-346 | over every log the delivered total grows by the number of deliveries |
| ConsumerGroups.LostSuffix | logstorage/consumer_state.go:280-307 | losing any end of the log, even inside a line, gives the state after the operations before it |
| ConsumerGroups.AppendedIsReplayed | logstorage/consumer_state.go:280-307 | an operation written to the log is replayed next, unless a torn line lies before it, in which case it is never seen |
| ConsumerGroups.FullyCompacted | logstorage/consumer_state.go:943-989 | a finished compaction loads as exactly the live state |
| ConsumerGroups.FloorNeverDecreases | logstorage/consumer_state.go:480-505 | over every run of operations the acknowledgement floor never moves back |
| ConsumerGroups.NothingPendingBelowFloor | logstorage/consumer_state.go:396-505 | over every run of in-order operations no offset from 1 up to the floor is pending |
| ConsumerGroups.FloorAtFirstGap | logstorage/consumer_state.go:488-505 | over every run that skips no offset the offset above the floor is pending or not delivered yet |
| ConsumerGroups.AckReachesGap | logstorage/consumer_state.go:396-417 | in any state whatever, an acknowledgement, single or batched, that changes anything leaves the floor at the first gap |
| ConsumerGroups.PutIndex | logstorage/consumer_state.go:340-393 | a delivery or restore keeps the consumer index right if and only if the offset was not another consumer's |
| ConsumerGroups.MergedSharded | logstorage/consumer_state.go:110-112 | loaded shards hold each offset in the shard its remainder names and nowhere else |
| ConsumerGroups.ConsumerState.Open | logstorage/consumer_state.go:122-237 | loading and replaying gives the state the files describe, with indexes that agree if the replayed deliveries were polite |
| ConsumerGroups.ConsumerState.ReplayOpLog | logstorage/consumer_state.go:280-307 | the replay loop applies exactly the operations before the first torn line |
| ConsumerGroups.ConsumerState.ApplyOp | logstorage/consumer_state.go:310-337 | each operation on shards and group does to the flat state what it means, keeps offsets in their shards, and leaves the consumer indexes right if and only if it takes no offset from another consumer |
| ConsumerGroups.ConsumerState.TryAdvanceAckFloor | logstorage/consumer_state.go:488-505 | the floor moves to the last offset below the cursor up to which nothing is pending |
| ConsumerGroups.ConsumerState.Submit | logstorage/consumer_state.go:533-747 | apply then log: the log grows by exactly this operation; if the files led back to the live state they still do; behind a torn line the operation is lost; the index as for the operation |
| ConsumerGroups.ConsumerState.DeliverBatch | logstorage/consumer_state.go:589-611 | all applied before the first is logged, the log grows by exactly these deliveries, the files still lead back to the live state, and polite deliveries leave the indexes right |
| ConsumerGroups.ConsumerState.Compact | logstorage/consumer_state.go:943-989 | the files after any number of its writes; after all of them the snapshots are the live state and the log is empty |
| ConsumerGroups.ConsumerState.Run | logstorage/consumer_state.go:280-337 | after any run of operations, batches and compactions the snapshots hold the state at the last compaction and the log exactly the operations since; files that led back still do; polite runs leave the indexes right |
| ConsumerGroups.ConsumerState.RunWithFailures | logstorage/consumer_state.go:936-989 | over any run in which compactions may also fail after any of their writes the files still lead back to every owner and to the cursor |
| ConsumerGroups.RunFiles | logstorage/consumer_state.go:508-530 | for every run, what the snapshots and the log hold in terms of its operations before and after the last compaction |
| ConsumerGroups.RestartAfterRun | logstorage/consumer_state.go:195-307 | after any run, a start that finds any number of whole lines, torn or not, gives the state after a front of all operations ever told; the front reaches at least to the last compaction, and to the end if the log is whole |
| ConsumerGroups.LostRun | logstorage/consumer_state.go:280-307 | a run that begins behind a torn line and has no compaction leaves nothing that a start can see |
| ConsumerGroups.Restart | logstorage/consumer_state.go:122-165 | a start from files whose log has lost any end, perhaps within a line |
| ConsumerGroups.RunAndRestart | logstorage/consumer_state.go:122-307 | any run on a group and a restart that loses any end of the log give the group after a front of the run's operations, at least to the last compaction; with the log whole the state the run ended in; with agreeing indexes if the run was polite |
| ConsumerGroups.ConsumerState.GetPendingByConsumer | logstorage/consumer_state.go:774-793 | only pending entries, and all of that consumer's as long as the index agrees |
| ConsumerGroups.ConsumerState.Seed | logstorage/adapter.go:510-558 | a restored group has each carried entry with its owner and count, no other, the exact cursor and the committed floor, and indexes that agree |
| TimeIndexes.TimeIndex.Append | logstorage/timeindex.go:187-226 | entries stay sorted and an interval apart whatever the clock does, each is some batch's own, and every batch stays covered by an entry no later than it and less than an interval before it |
| TimeIndexes.TimeIndex.Lookup | logstorage/timeindex.go:229-253 | the offset returned is at or below that of every appended batch with a maximum timestamp at or after the time asked for, and is that of the last entry before that time, or of the first entry |
| Transfers.Connection.WriteTransfer | amqp1/connection.go:112-213 | one frame if it fits, else a split whose chunks concatenate to the payload, every frame but the last filled to the limit, more set on all but the last; too large exactly if the performative leaves no room; a failed write leaves exactly the frames the peer accepted |
| Transfers.Connection.WriteSplit | amqp1/connection.go:133-213 | the loop ends with such a split, or the peer stopped accepting frames |
| Transfers.WireForm | amqp1/connection.go:112-213 | read off the bytes alone, the receiver reassembles the payload, sees the more flag on every frame but the last, and reads every field of the first performative and the handle of the others |
| Transfers.PerformativeReads | amqp1/performatives/performatives.go:536-590 | handle, delivery-id, delivery-tag, message-format, settled and more read back from the body, whatever payload stands behind |
| Transfers.EncodedSizes | amqp1/performatives/performatives.go:536-590 | the flag does not change a performative's length and a continuation is no longer than the first |
| Envelopes.UnmarshalMarshal | message/codec.go:32-133 | decoding an encoded envelope gives it back in full and metadata mode, for every map iteration order, but for what an encoding cannot carry |
| Envelopes.RoundTripExact | message/codec.go:32-133 | it comes back unchanged if and only if no map entry has key and value both empty and no stream is present but all zero |
| Envelopes.MarshalBinary | message/codec.go:32-56 | the one-buffer encoder with in-place lengths writes the specified encoding, or refuses what does not validate |
| Envelopes.MixedReads | message/codec.go:358-381 | packed, unpacked and mixed subscription lists of the same numbers decode alike |
| Envelopes.AppendIds | message/codec.go:776-785 | a packed list is written straight behind its open tag |
| Envelopes.AppendMap | message/codec.go:139-152 | each map entry is nested in turn, and an empty one leaves nothing |
| Envelopes.PublisherReads | message/codec.go:135-243 | publisher metadata reads back, with or without the key |
| Envelopes.BrokerReads | message/codec.go:245-302 | broker metadata reads back from its five nested messages |
| Envelopes.QueueReads | message/codec.go:414-479 | queue metadata reads back, its stream included unless all zero |
| Envelopes.DeliveryReads | message/codec.go:345-409 | delivery metadata reads back |
| Envelopes.SourceReads | message/codec.go:304-343 | source metadata reads back for every supported protocol |
| Envelopes.StreamReads | message/codec.go:481-522 | stream metadata reads back |
| Envelopes.TransferReads | message/codec.go:524-573 | transfer metadata reads back, negative counts included |
| Envelopes.TraceReads | message/codec.go:575-603 | trace metadata reads back |
| Envelopes.VersionChecked | message/codec.go:79-126 | on every byte string: a record that can be walked is accepted if and only if the last version in it is 1 modulo 65536, and else refused with that remainder |
| Envelopes.VersionDecides | message/codec.go:79-126 | whatever 64-bit version stands in front of an encoded envelope, in both modes, the envelope comes back if and only if it is 1 modulo 65536 |
| Envelopes.VersionWraps | message/codec.go:79-83 | so a record that says version 65537 is accepted as version 1 |
| Wire.WalkWritten | message/codec.go:646-681 | walking over written fields visits exactly those fields in order |
| Wire.WalkFields | message/codec.go:646-681 | the loop does that on every byte string, ending at the first error |
| Wire.EndNested | message/codec.go:831-848 | the in-place back-patch leaves tag, varint length, body, or nothing for an empty body |
| Wire.ShiftUp | message/codec.go:838-845 | the overlapping move keeps every byte of the body |
| Wire.BeginNested | message/codec.go:816-824 | the tag and one reserved byte behind what was written |

## Left out

- Etcd start-up, transport, the watch loop and reconciliation in `cluster/`: only the key-value transactions, leases and the local steps between them are modelled; a lagging watch event that untracks a re-acquired key is not.
- `cluster/lifecycle.go` hands over sessions that are still connected by releasing them; the model's release ends the session.
- SessionOwnership.Cluster.AskSource: does not model the state a session hands over, only that the source has closed it.
- Watch-based waiting and back-off in `AcquireSession` callers: timing only.
- Deduplication entries' byte form (`encodeDedupeEntry`): a nine-byte record, easy; the index is a durable map.
- Retention that removes a record while a pending deduplication entry is being scanned for it: `ApplyRetention` has no caller in the repository.
- A delete or create that fails half-way through truncation or retention, and a write that fails after writing part of its bytes: each I/O call either happens or leaves things as they were, except where a crash is modelled.
- The durability of directory entries after a segment is deleted.
- Manager.SegmentManager.Truncate: does not model a crash between deleting every segment and creating the new one (`logstorage/manager.go:474-514`) on bytes; only `Dedupe.dfy` has it, as `CrashInTruncate`.
- Offset index files (`index.go`), `LookupByTime`, `LookupBefore` and the headers of index files: readers of batch positions do not need them.
- A failed write of a consumer group's operation log: every logged operation reaches the file, possibly torn by a crash.
- ConsumerGroups.ConsumerState.RunWithFailures: says nothing of delivery counts and the floor, which the code does not preserve when a log is replayed over snapshots that already contain it.
- Delivery counts, delivered totals and the floor after a crash inside a compaction: the code does not preserve them.
- A negative `maxMessages` of a segment's `ReadRange`, which panics.
- Redelivery and dead-letter candidate selection, `pel.go`, `cursor.go`: filters and legacy structures.
- JSON, bbolt, CRC and compressor internals: durable maps, lines and uninterpreted functions.
- Wrap-around of 64-bit offsets, counters and timestamps.
- Protocol Buffers groups (wire types 3 and 4), which nothing writes, count as malformed.
- Recovery.RecoverSegment: does not model `BytesTruncated` and the rebuilding of index files.
- Batches.DecodeInvertsEncode: assumes the payload is shorter than 2^32 bytes, the width of its length field, and the compressed flag initially clear.
- Envelopes.UnmarshalMarshal: assumes the encoding is shorter than 2^63 bytes.
- Transfers.WireForm: assumes a frame limit below 2^32, which the size field needs.

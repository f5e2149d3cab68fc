# Durable delivery and replication of the messenger

This project models the part of the messenger that must not lose or repeat anything:
state sync between equivalent devices, the offline outbox and its distribution, offline
reception, the file download lifecycle, and the chunk codec.

Two kinds of module go together.

* **Methods as they run.** Where the program changes tables, maps and slots step by step,
  a class or a method with loops does the same and is proved against functions on values
  (`MessageStore` with `Messages` and `Snapshots`, `StateSyncHandlers`, `OutboxStore`,
  `Distribution`, `Placement`'s two classes, `Receivers`, `DownloadRows`, `DownloadManagers`,
  `Codec`, `OfflineDecode`). Each method states its new fields outright and, beside that, which
  function on values they are, so that the theorems about runs apply to it.
* **Whole runs.** Each critical section of `s.mu`, `stateSyncMu`, `downloadMu`, `pendingMu`
  or `processingMu` is one atomic step of a transition function, anything may happen
  between two steps, and a theorem quantifies over every sequence of actions, failing I/O,
  lost, repeated and reordered packets and crashes included (`Replication*`, `WindowTheorems`,
  `FrozenTransfers`, `Placement`, `Reception`, `ReceptionCoverage`, `CursorRegress`,
  `Publication`, `DownloadRace`, `DownloadPanics`, `Outbox`).
  A safety theorem alone would also hold of steps that do nothing, so each of these has a
  partner that says an undisturbed exchange does its work (`ReplicationDelivery`,
  `PlacementDelivery`, `ReceptionDelivery`, `RetryDelivery`, `DownloadCompletion`), and where a theorem has a
  hypothesis or a claim fails, a run that gets there (`ReplicationWitnesses`).

The cursor theorems need to know which windows were exported. `ReplicationWindows` keeps, beside
the run, a history of every export from one replica to another: the cursor it read, its
checkpoint, the table it scanned, and when its acknowledgement was written.

Assumptions, all explicit in the model: equivalent devices are honest and draw fresh
transfer ids; a device's clock and the directory's clock never go back; a record gets the
directory's clock as its stamp; file ids and message ids are distinct, so a directory
record's persist flag depends only on its file; rows present at the start carry stamps from
the epoch on. Cryptography, JSON, gzip and SHA-256 appear as injective constructors or as
functions with their inverse law; the 64-bit registered hash is taken as collision-free.
Times are integers: microseconds for state stamps, nanoseconds for outbox deadlines, Unix
seconds for retry and download rows.

Where a natural claim is false of the code, the model keeps the code and states the exact
condition:

* A replica accepts an honest transfer exactly when the delta's JSON is at most 256 MiB; the
  sender checks the number of chunks but not this size (`Transfers.DecodeEncode`,
  `ReplicationTheorems.ImportedBytesAreSent`). Above it an undisturbed exchange fails, and leaves
  both replicas where the next one fails again (`ReplicationDelivery.OversizedExchange`); over
  every run, only exports within the limit ever move a cursor
  (`ReplicationLimits.OversizedNeverMoves`).
* Successive exports do not only share the boundary tick. Two acknowledged windows share more
  exactly when the later one read its cursor before the earlier one's acknowledgement was written
  (`WindowTheorems.WindowsOverlapExactly`, `WindowTheorems.LateIffReadBeforeWrite`), which two
  requests in a row reach (`ReplicationWitnesses.OverlapReached`). They always cover everything
  below the cursor (`WindowTheorems.WindowsCover`).
* The received counter is exact unless an empty chunk meets an unfilled slot
  (`Transfers.FillSlotCounts`, `Transfers.EmptyChunkCompletesEarly`). Honest senders send none.
* An empty message has no envelopes and cannot be assembled; an empty file can
  (`Codec.MessageRoundTrip`, `Codec.FileRoundTrip`).
* The processor of a file compares the total with the number of all stored chunks, in range or
  not. Stray chunks can therefore hide a gap: the pass neither requests, stops nor completes
  (`DownloadRows.StallsExactlyWhenJunkHidesAGap`). It indexes out of range exactly for a file
  advertised without chunks of which a chunk 0 is stored that unmarshals (`DownloadRows.OutOfRangeExactly`,
  `DownloadPanics.PanicReached`); while every file is advertised with chunks, no run does
  (`DownloadPanics.NoPanicWithChunks`).
* The receive cursor is not monotone (`CursorRegress.CursorMovesBack`). It falls exactly at the
  end of a safe poll that started below it and saw nothing above it
  (`CursorRegress.CursorFallsExactly`), so never while the polls of a recipient follow one another
  and read the cursor (`CursorRegress.SequentialPollsNeverFall`); a failed read alone suffices
  (`CursorRegress.FailedReadMovesBack`). Nothing is missed for that
  (`ReceptionCoverage.NoMissedReceive`).
* Replication can put a cancelled file back among the pending ones
  (`DownloadRace.ReplicationRequeuesCancelled`); a processor cannot.
* Storing other bytes under a queued chunk's key hides the queued bytes, until they are stored
  again or the row is removed (`Outbox.DurableExactly`).
* A snapshot import restamps rows, so cursor safety speaks of the stamps rows carry now. A row
  never loses its id, so what a peer once received it keeps.

Run `dafny verify dfyconfig.toml` to check everything.

## Model

| member | source | states |
|---|---|---|
| ReplicationTheorems.CursorSafety | internal/messenger/state_replication.go:153-220 | over every run of n replicas: if a's cursor for b is c, b holds every message id a has stamped below c |
| ReplicationTheorems.ChunksNeverRejected | internal/messenger/state_replication.go:313-345 | over every run: a chunk of an honest group, however late, repeated or overtaken by a newer transfer, is ignored, stored or completes its transfer, never rejected |
| ReplicationTheorems.ImportedBytesAreSent | internal/messenger/state_replication.go:347-388 | over every run: a transfer that reaches its import holds its sender's bytes, and decodes to the sender's delta exactly when the JSON fits 256 MiB |
| ReplicationTheorems.Convergence | internal/store/stateSyncStore.go:116-157 | over every run: if along paths of the group every cursor exceeds all of its sender's stamps, all replicas hold the same ids |
| ReplicationTheorems.InsertionsBounded | internal/store/stateSyncStore.go:116-157 | without new local messages, the rows inserted in a run are exactly the (replica, id) pairs that stop being missing, so imports re-insert nothing |
| ReplicationTheorems.PathHolds | internal/messenger/state_replication.go:153-220 | along a path of up-to-date cursors the ids of each replica are contained in the next one's |
| ReplicationInvariant.ApplyKeepsInv | internal/messenger/state_replication.go:153-435 | a step that grows one replica's state and leaves its own parts in order keeps the invariant of the whole group |
| ReplicationSteps.WindowClaim | internal/messenger/state_replication.go:153-172 | a checkpoint read before the scan covers: the export plus what the peer already had is everything stamped below the checkpoint, whatever writer holds the lock next |
| ReplicationSteps.AckedClaim | internal/messenger/state_replication.go:409-435 | a matching acknowledgement proves that the peer holds the transfer's ids, so the cursor may move to its checkpoint |
| ReplicationSteps.NextKeepsInv | internal/messenger/state_replication.go:110-435 | every step of every replica keeps the group invariant |
| ReplicationWindows.NextKeepsWindows | internal/messenger/state_replication.go:142-220 | every step of every replica keeps the window invariant: the cursor is the greatest acknowledged checkpoint, every open or sent export started at an earlier value of it, and all later writes are stamped at or above its checkpoint |
| WindowTheorems.WindowsFit | internal/messenger/state_replication.go:153-220 | over every run: each acknowledged window starts at the greatest checkpoint acknowledged before its cursor was read, its transfer carried exactly the rows it spans, and the table has since changed only at or above its checkpoint |
| WindowTheorems.WindowsCover | internal/store/stateSyncStore.go:62-114 | over every run, with overlapping transfers and crashes: every row stamped below the cursor was exported, under that very stamp, by an acknowledged transfer |
| WindowTheorems.WindowsOverlapExactly | internal/messenger/state_replication.go:142-172 | over every run: two acknowledged windows share a row beyond the boundary tick if and only if the later one read a cursor below the earlier one's checkpoint and a row kept its stamp inside both |
| WindowTheorems.LateIffReadBeforeWrite | internal/messenger/state_replication.go:420-435 | over every run, for an acknowledgement that raised the cursor: a later window read a cursor below it exactly when it read before that write |
| ReplicationWitnesses.OverlapReached | internal/messenger/state_replication.go:142-154 | two requests in a row: both exports read the cursor before the first write, both are acknowledged, and every row of the first is exported again |
| ReplicationDelivery.UndisturbedExchange | internal/messenger/state_replication.go:110-435 | from any state with two replicas at rest some run, undisturbed and within the size limit, ends with every exported id at the receiver and the sender's cursor at the checkpoint |
| ReplicationDelivery.OversizedExchange | internal/messenger/state_replication.go:242-280 | the same exchange above the size limit, whatever the number of chunks allowed: the receiver imports nothing, answers with an error and forgets the transfer, and the sender's cursor stays |
| ReplicationLimits.CursorsStandOnSmallExports | internal/messenger/state_replication.go:347-435 | over every run: a cursor always stands at the checkpoint of an export to that peer whose JSON is within the limit |
| ReplicationLimits.OversizedNeverMoves | internal/messenger/state_replication.go:242-280 | over every run in which each export to a peer is above the limit, the sender never has a cursor for that peer |
| ReplicationWitnesses.SyncedReached | internal/messenger/state_replication.go:110-435 | one exchange each way between two replicas at rest with the same ids reaches the hypothesis of Convergence |
| FrozenTransfers.SlotsFrozenWhileProcessing | internal/messenger/state_replication.go:313-407 | over every run: while a goroutine processes a transfer, no chunk, manifest or disconnect changes the object it reads |
| Transfers.DecodeEncode | internal/messenger/state_replication.go:242-280 | a delta decodes to itself if and only if its version is current and its JSON is at most 256 MiB |
| Transfers.HonestVerdict | internal/messenger/state_replication.go:347-375 | slots filled from one sender's pieces concatenate to the sender's bytes and pass checksum, decoding and checkpoint checks exactly within the size limit |
| Transfers.VerdictExactly | internal/messenger/state_replication.go:347-375 | over all slots, honest or not: a transfer decodes to a delta if and only if the checksum matches, the JSON fits the limit and unmarshals to it, and version and checkpoint agree |
| Transfers.HonestChunk | internal/messenger/state_replication.go:313-345 | an honest chunk is stored in its slot only, keeps the counter exact, completes the transfer exactly when the last slot fills, and touches no other peer |
| Transfers.RemovalsTouchOnePeer | internal/messenger/state_replication.go:131-140 | each removal (disconnect, failed transfer, finished import, ended send) takes the named peer's entries under its own guard and leaves every other peer's |
| Transfers.ManifestMeaning | internal/messenger/state_replication.go:282-311 | an unrequested manifest changes nothing, a malformed one drops the peer's request, a good one starts an empty transfer with its values; no other peer is touched |
| Transfers.ChunkTouchesOnePeer | internal/messenger/state_replication.go:313-345 | any chunk, honest or not, leaves other peers and all outgoing transfers alone |
| Transfers.AckMeaning | internal/messenger/state_replication.go:409-422 | an acknowledgement is matched if and only if it is error-free and names the current transfer and checkpoint; only a current error changes the maps |
| Transfers.FillSlotCounts | internal/messenger/state_replication.go:331-334 | the counter stays equal to the number of filled slots if and only if no empty chunk meets an unfilled slot |
| Transfers.EmptyChunkCompletesEarly | internal/messenger/state_replication.go:331-334 | two copies of one empty chunk complete a two-chunk transfer with no slot filled |
| StateSyncHandlers.StateSync.HandlePeerConnected | internal/messenger/state_replication.go:110-122 | requests state once per connection; nothing else changes |
| StateSyncHandlers.StateSync.RequestFailed | internal/messenger/state_replication.go:122-128 | a request that could not be sent is forgotten, so that the next connection asks again |
| StateSyncHandlers.StateSync.HandlePeerDisconnected | internal/messenger/state_replication.go:131-140 | a peer that is really gone is left in none of the three maps, and one that reconnected keeps everything; every other peer keeps its request mark, its incoming object and its outgoing transfer |
| StateSyncHandlers.StateSync.HandleManifest | internal/messenger/state_replication.go:282-311 | without a request nothing changes; a malformed manifest drops that peer's request and transfer; a good one starts a new object with empty slots and the manifest's id, checkpoint and digest; other peers and all outgoing transfers stay |
| StateSyncHandlers.StateSync.HandleChunk | internal/messenger/state_replication.go:313-345 | on the heap objects and slot arrays: maps and outcome are AcceptChunk of the old ones, and other peers' entries and all outgoing transfers stay |
| StateSyncHandlers.StateSync.ClearIncomingStateSync | internal/messenger/state_replication.go:400-407 | removes the finished transfer and its request mark only if the map still holds that very object, for every object this state ever made; other peers' entries and all outgoing transfers stay |
| StateSyncHandlers.StateSync.HandleAck | internal/messenger/state_replication.go:409-422 | an acknowledgement counts only with the current transfer id and checkpoint; only an error drops a transfer, and only that peer's; everything else stays |
| StateSyncHandlers.StateSync.InstallOutgoing | internal/messenger/state_replication.go:177-183 | a new outgoing transfer replaces the one to the same peer and no other |
| StateSyncHandlers.StateSync.DropOutgoing | internal/messenger/state_replication.go:184-194 | drops an outgoing transfer only under its own id and no other peer's; the same guarded removal ends an acknowledged one (lines 429-433) |
| StateSyncHandlers.CutChunks | internal/messenger/state_replication.go:153-220 | ceil(len/32768) chunks, each a non-empty piece of at most 32768 bytes in order |
| StateSyncHandlers.CheckImport | internal/messenger/state_replication.go:347-375 | the concatenation loop and the checks pass exactly when the checksum of the joined slots, the JSON size, the version and the checkpoint are right, and give the decoded delta |
| MessageStore.Store.SaveMessage | internal/store/messageStore.go:21-29 | succeeds exactly for a new id, and then adds one row with the sender, user, chat, content and time given and the stamp read inside the lock; every other row stays |
| MessageStore.Store.SetLastStateCheck | internal/store/stateSyncStore.go:39-60 | refuses an empty peer id and the zero time; otherwise the peer's check becomes the greater of old and new and other peers' stay |
| MessageStore.Store.GetLastStateCheck | internal/store/stateSyncStore.go:17-37 | the saved check, nothing for an unknown peer, an error for an empty id |
| MessageStore.Store.ExportMessagesForStateSync | internal/store/stateSyncStore.go:62-114 | exactly the rows stamped in the window, each with its columns, ordered by stamp and id; an error exactly when the checkpoint is zero or precedes the start |
| MessageStore.Store.ImportStateSyncMessages | internal/store/stateSyncStore.go:116-157 | the table gets exactly the missing ids; each new row carries the sender, user, chat, content and time of the first message of its id under one local stamp; existing rows stay; the messages reported are those firsts, in order |
| MessageStore.Store.ImportReplicationSnapshot | internal/store/replicationStore.go:145-230 | refuses other versions; otherwise each id or key of the snapshot takes the columns of its last entry, stamps never fall, and every other message, peer and group stays |
| MessageStore.Store.ExportReplicationSnapshot | internal/store/replicationStore.go:34-143 | every message, peer and group chat exactly once with its columns, messages by time and id, peers by last-seen time, groups by creation time |
| MessageStore.ImportThenExport | internal/store/replicationStore.go:34-230 | the two methods one after the other, on an empty store, give a well-formed snapshot back |
| MessageStore.SanitizeStateSyncMessages | internal/messenger/state_replication.go:223-240 | fails exactly on an undecodable message; otherwise drops every local path, points attachments at this device and keeps all else |
| Messages.InsertMissingMeaning | internal/store/stateSyncStore.go:116-157 | an import adds exactly the missing ids, under the local stamp, and leaves every existing row alone |
| Messages.InsertMissingColumns | internal/store/stateSyncStore.go:116-157 | each inserted row holds the columns of the first message of its id |
| Messages.InsertedMeaning | internal/store/stateSyncStore.go:116-157 | the reported messages name exactly the added ids, once each |
| Messages.InsertedInOrder | internal/store/stateSyncStore.go:116-157 | the reported messages are exactly the first one of each new id, in the order of the list |
| Messages.ImportIdempotent | internal/store/stateSyncStore.go:116-157 | importing a delta again inserts and changes nothing |
| Messages.ExportUnique | internal/store/stateSyncStore.go:62-114 | window and table determine the export, order included |
| Messages.UpsertMeaning | internal/store/replicationStore.go:145-170 | a snapshot touches exactly its own ids, each takes its last occurrence, and no stamp falls |
| Messages.UpsertColumns | internal/store/replicationStore.go:145-170 | each row a snapshot writes holds the columns of the last message of its id, under the greater of its stamp and the import's |
| Messages.UpsertIdempotent | internal/store/replicationStore.go:145-170 | repeating a snapshot import changes nothing but stamps |
| Messages.UpsertEvolves | internal/store/replicationStore.go:145-170 | a snapshot import keeps every id and moves stamps only to at least its own, which is what cursor safety needs of a writer |
| Messages.SnapshotRoundTrip | internal/store/replicationStore.go:34-86 | importing into an empty store and exporting gives the snapshot back exactly when it is ordered and names no id twice |
| Snapshots.UpsertRowsMeaning | internal/store/replicationStore.go:183-224 | an import of peers or groups touches exactly its own keys; each takes the columns of its last occurrence and every other row stays |
| Snapshots.UpsertRowsIdempotent | internal/store/replicationStore.go:183-224 | importing the same peers or groups again changes nothing |
| Snapshots.ImportMerges | internal/store/replicationStore.go:145-230 | importing into a store that already holds rows: all three tables gain exactly the snapshot's keys, each with the columns of its last entry, and keep every other row |
| Snapshots.ExportDetermined | internal/store/replicationStore.go:34-143 | the stored rows determine the exported snapshot, order included |
| Snapshots.WholeSnapshotRoundTrip | internal/store/replicationStore.go:34-143 | messages, peers and group chats: importing into an empty store and exporting gives the snapshot back exactly when each list is ordered and names no key twice |
| Outbox.QueueAccepts | internal/store/outgoingStore.go:10-37 | a send is accepted exactly when the message is new and every chunk is non-empty, lives, and has an unused key of its own |
| Outbox.QueueMeaning | internal/store/outgoingStore.go:10-37 | an accepted send adds exactly its own message, with its columns under the stamp of the transaction, and exactly its chunks' rows with their bytes |
| Outbox.AddChunksMeaning | internal/store/outgoingStore.go:20-34 | accepted chunks land in both tables with their bytes, unplaced, beside untouched rows; otherwise nothing does |
| Outbox.OutboxDurable | internal/store/chunkStore.go:17-33 | after an accepted send and until its ttl, reading a chunk returns the queued bytes after any sequence of cleanups, deletions, placements, sends, imports and restarts |
| Outbox.DurableExactly | internal/store/chunkStore.go:8-33 | after an accepted send and until the ttl, over every sequence of operations: the queued bytes are readable if and only if the last store under the key or removal of its row is not a store of other bytes |
| Outbox.RetryIffNotExpired | internal/messenger/chunk_delivery.go:16-18 | the rounded-up remaining ttl is positive exactly while the row is not expired |
| Outbox.ForwardedCopyLifetime | internal/messenger/chunk_delivery.go:16-18 | a forwarded copy outlives the original deadline by less than one second plus transit, and never dies earlier |
| Outbox.FallbackAgreesWithRetryAndCleanup | internal/store/chunkExpiry.go:7-52 | the read fallback, the retry filter and the cleanup agree at every instant |
| OutboxStore.Store.QueueOutgoing | internal/store/outgoingStore.go:10-37 | accepts exactly a new message whose chunks are non-empty, live, and have unused distinct keys; then the message row with its columns and one unplaced chunk and pending row for each chunk are there beside all old rows, and otherwise nothing changes |
| OutboxStore.Store.GetChunk | internal/store/chunkStore.go:17-33 | the chunk row's bytes; without one, the pending row's bytes exactly until its ttl; nothing otherwise |
| OutboxStore.Store.StoreChunk | internal/store/chunkStore.go:8-15 | replaces the row under the key with these bytes, created now |
| OutboxStore.Store.MarkChunkPlaced | internal/store/pendingChunkStore.go:34-39 | sets the placed mark of that row and of no other |
| OutboxStore.Store.GetUnplacedChunks | internal/store/pendingChunkStore.go:14-32 | exactly the unplaced rows, once each, oldest first |
| OutboxStore.Store.DeleteExpiredChunks | internal/store/chunkStore.go:81-83 | removes exactly the expired chunk rows with a positive ttl |
| OutboxStore.Store.DeleteExpiredPendingChunks | internal/store/pendingChunkStore.go:68-70 | removes exactly the expired pending rows with a positive ttl |
| OutboxStore.Store.DeleteChunksWithMessage | internal/store/chunkStore.go:85-91 | removes the chunks of stored messages, except of files that still have a pending row |
| OutboxStore.Store.DeleteChunk | internal/store/chunkStore.go:93-98 | removes that row and no other |
| OutboxStore.Store.DeleteChunks | internal/store/chunkStore.go:35-40 | removes exactly the rows of the file |
| OutboxStore.ScanExpired | internal/store/chunkExpiry.go:7-35 | the scan collects exactly the expired keys |
| Distribution.SendFile | internal/messenger/chunk_delivery.go:87-115 | against the record of what was sent: one file's unexpired chunks, in order, each once, in batches of 1 to 16, with exactly the chunks of acknowledged batches marked |
| Distribution.GroupByFile | internal/messenger/chunk_delivery.go:50-54 | the groups hold each file's chunks in their original order and nothing else |
| Distribution.GroupByRecipient | internal/messenger/chunk_delivery.go:36-41 | the groups hold each recipient's chunks alive at their own clock reading, in their original order, and nothing else |
| Distribution.AdvertiseOwn | internal/messenger/chunk_delivery.go:55-61 | every file is offered to the directory at this device, whatever it answers |
| Distribution.DistributeChunksForRecipient | internal/messenger/chunk_delivery.go:50-118 | one recipient: its files are advertised at this device, then each selected peer is visited in turn; a skipped peer is left alone, any other is connected to once, and one that is reached gets each unexpired chunk the directory lets it hold exactly once |
| Distribution.DistributeChunks | internal/messenger/chunk_delivery.go:29-118 | a pass over all recipients, against the records of what was tried, registered and sent: one round for each recipient with a chunk still alive, nothing else is asked or sent, and exactly the chunks of acknowledged batches are marked |
| Distribution.SentExactly | internal/messenger/chunk_delivery.go:29-118 | a chunk alive throughout a pass is sent to a peer exactly as often as the peer is selected for its recipient, fit, reached and allowed by the directory; a chunk expired before it, or not in the list, is sent nowhere |
| Distribution.SentOnce | internal/messenger/chunk_delivery.go:72-117 | a peer selected once for its recipient: it is tried exactly when it is not this device, no fake and not the recipient, and gets the chunk exactly once if reached and the directory refused no registration of it, else never |
| Distribution.NeverToUnfit | internal/messenger/chunk_delivery.go:72-78 | this device, fake peers and the recipient are never sent a chunk, however often selected |
| Distribution.UnexpiredMeaning | internal/messenger/chunk_delivery.go:16-18 | whatever the clock does during the pass: chunks alive at its end are kept, chunks expired before it are not, none is doubled |
| Placement.AckManager.AcceptChunkStoreAck | internal/webrtc/chunk_ack.go:24-35 | only the first acknowledgement from the addressed peer for a waiting request is kept; every other waiter is as before |
| Placement.AckManager.Await | internal/webrtc/chunk_ack.go:39-62 | confirms only an error-free acknowledgement and always removes the waiter |
| Placement.AckManager.SendConfirmed | internal/webrtc/chunk_ack.go:37-62 | a batch counts as confirmed if and only if it was sent and the first acknowledgement that came from the addressed peer under its request id has no error; other waiters see theirs, and its own waiter is gone |
| Placement.StoragePeer.StoreChunkBatch | internal/webrtc/chunk_ack.go:11-22 | the acknowledgement has an error exactly when some chunk is refused; exactly the chunks that are not refused are committed |
| Placement.StoragePeer.HandleChunkStore | internal/messenger/chunks.go:17-51 | a chunk is accepted exactly when its hash is right and the store works, and then its bytes are committed under its key; otherwise nothing changes |
| Placement.PlacementSound | internal/messenger/chunk_delivery.go:91-115 | over every run with lost, late, repeated and foreign acknowledgements: a row is marked placed only if some other peer has committed those exact bytes |
| Placement.NextKeeps | internal/webrtc/chunk_ack.go:11-62 | every step of sender, storage peers and network keeps the placement invariant |
| PlacementDelivery.UndisturbedBatch | internal/messenger/chunk_delivery.go:91-115 | with nothing lost, a batch ends committed at the peer, with all of its rows marked and otherwise unchanged |
| Receivers.TrackStore.StoreFailedChunk | internal/store/trackStore.go:34-45 | inserts a retry row with the default ttl for a missing one, and never renews an existing row |
| Receivers.TrackStore.DeleteExpiredFailedChunks | internal/store/trackStore.go:85-90 | removes exactly the retry rows whose ttl ran out |
| Receivers.TrackStore.DeleteFailedMessage | internal/store/trackStore.go:92-97 | removes exactly the retry rows of the file |
| Receivers.Receiver.TryProcessMsg | internal/messenger/messages.go:169-178 | takes the message's slot exactly when it is free |
| Receivers.Receiver.TrackAll | internal/messenger/messages.go:199-205 | succeeds exactly when the database takes every record, and then every record has a retry row; no row is lost or altered |
| Receivers.Receiver.CollectAndProcessMessage | internal/messenger/messages.go:186-355 | tracked exactly when the slot was free and the message is saved or its retry rows could be written; the outcome is the one the chunks at hand decode to; a message is saved, with its decrypted payload, and published exactly when decrypted and the save works; retry rows go exactly when it is saved or left as a file, and those of a file only with a known sender and all its chunks at hand; exactly the mismatching rows leave the chunk table; the slot is freed |
| Receivers.FileLeftWhenReady | internal/messenger/messages.go:208-278 | whatever the lookups of an honest file's records answered: the file is left for its message if and only if its sender is known and each of its chunks is at hand |
| Receivers.Receiver.Group | internal/messenger/messages.go:131-155 | finds the greatest stamp; each group holds exactly the records of its file that are neither saved nor waiting |
| Receivers.Receiver.Poll | internal/messenger/messages.go:119-165 | collects each file with new records exactly once and moves this recipient's cursor exactly when some stamp exceeds the cursor it read, the message of every new record is free and its retry row can be written, and the cursor write works; then the cursor is the greatest stamp and every message of the reply is saved, waiting, or a file |
| Receivers.Receiver.CheckRecipientMessages | internal/messenger/messages.go:119-166 | the cursor moves exactly when a poll may move it, to the reply's greatest stamp, and then every message of the reply is saved, waiting, or a file, or a retry row of it had run out when the retry came; other recipients' cursors stay; a failed request changes nothing |
| Receivers.Receiver.RetryFailedChunks | internal/messenger/chunks.go:101-128 | removes exactly the recipient's rows that ran out and that the database lets go, collects each other listed file that the directory knows exactly once with the directory's records, and loses no other waiting message |
| ReceptionCoverage.NoMissedReceive | internal/messenger/messages.go:119-205 | over every run of concurrent polls, retries, direct deliveries, imports, cleanups and crashes: a message record stamped before the saved cursor has its message stored, or a retry row for its file, or had an expired retry row removed |
| ReceptionCoverage.DeleteRetryGrows | internal/messenger/chunks.go:110-114 | a retry that deletes by key removes the expired row it listed, or the file was settled in between |
| ReceptionCoverage.AdvanceKeeps | internal/messenger/messages.go:163-165 | moving the cursor keeps the coverage invariant, whatever other polls wrote meanwhile |
| ReceptionCoverage.CollectingOk | internal/messenger/messages.go:186-205 | each step of a collection keeps retry rows until the message is settled, and reports tracked only with retry state written |
| ReceptionDelivery.UndisturbedPoll | internal/messenger/messages.go:119-355 | an undisturbed poll of a new message stores it, publishes it once, leaves no retry row and puts the cursor at the greatest stamp |
| RetryDelivery.UndisturbedRetry | internal/messenger/chunks.go:101-128 | an undisturbed retry of a waiting message stores it, publishes it once and removes exactly its retry rows |
| RetryDelivery.ExpiredRowGoes | internal/messenger/chunks.go:110-114 | an undisturbed retry of a row that ran out removes that row and nothing else |
| RetryDelivery.UndisturbedDelivery | internal/messenger/messages.go:20-60 | a direct delivery or local send stores and publishes a new message once, and changes nothing for a stored one |
| CursorRegress.CursorMovesBack | internal/store/trackStore.go:24-32 | a reachable state and a step in which the receive cursor falls |
| CursorRegress.CursorFallsExactly | internal/messenger/messages.go:119-165 | in any state a step lowers a receive cursor if and only if it ends a safe poll whose write succeeds, that started below the cursor and saw nothing above it |
| CursorRegress.SequentialPollsNeverFall | internal/messenger/messages.go:119-165 | over every run in which a poll of the recipient starts only while none is in flight and reads its cursor: no step lowers the cursor |
| CursorRegress.FailedReadMovesBack | internal/store/trackStore.go:13-32 | with a single poll in flight the cursor still falls after a failed read |
| Publication.PublishedAtMostOnce | internal/messenger/messages.go:20-60 | over every run of direct, offline, local-send and import paths: each id is published at most once, and its row is committed |
| Publication.OneWorkerPerMessage | internal/messenger/messages.go:169-184 | over every run: no two polls or retries work on one message at a time |
| OfflineDecode.CollectChunks | internal/messenger/messages.go:208-239 | the loop takes the first usable chunk of each index, and tracks again or deletes exactly the others |
| OfflineDecode.ChosenMeaning | internal/messenger/messages.go:208-239 | what is taken is usable, no index twice, and every index with a usable chunk once |
| OfflineDecode.Decode | internal/messenger/messages.go:241-299 | the unmarshal, count, sender, persist and decryption checks in their order: a file is left for its message only with enough envelopes and a known sender |
| OfflineDecode.OfflineDecodeIsRight | internal/messenger/messages.go:208-298 | for an honest sender the sent payload is decrypted if and only if every chunk is at hand, and nothing else ever comes out |
| OfflineDecode.LeftExactlyWhenComplete | internal/messenger/messages.go:256-278 | the records of a file whose honest envelopes all name their number: it is left for its message if and only if the sender is known and every index is at hand; otherwise it waits, collects nothing or lacks the sender, and is never decrypted |
| OfflineDecode.OfflineFileIsRight | internal/messenger/messages.go:208-278 | so for every file the sender encrypts: left for its message exactly with a known sender and every chunk at hand |
| OfflineDecode.UnknownSender | internal/messenger/messages.go:262-278 | an unknown sender gives neither a payload nor a file left for its message, whatever was collected |
| Codec.SplitAndEncrypt | internal/chunk/chunk.go:29-74 | one envelope for each 1024-byte piece, in order, with the ids, number and index, the piece sealed under the key agreed with the recipient, and the sender's signature over exactly these fields |
| Codec.SplitAndEncryptFile | internal/chunk/chunk.go:135-167 | the same under the file's key and without a recipient, with one envelope for an empty file |
| Codec.AssembleAndDecrypt | internal/chunk/chunk.go:76-133 | an error unless every envelope verifies and opens; otherwise the chunks joined in index order |
| Codec.AssembleAndDecryptFile | internal/chunk/chunk.go:169-216 | the same under the file's key |
| Codec.MessageRoundTrip | internal/chunk/chunk.go:29-133 | any permutation of a message's envelopes gives it back if and only if it is not empty |
| Codec.FileRoundTrip | internal/chunk/chunk.go:135-216 | any permutation of a file's envelopes gives it back, the empty file included |
| Pieces.PieceShape | internal/chunk/chunk.go:40-49 | all pieces but the last have exactly the piece size, none is empty |
| Pieces.SplitFlatten | internal/chunk/chunk.go:40-49 | cutting and concatenating is the identity; shared by the 1024-byte and the 32768-byte split |
| DownloadRows.Store.TrackFileDownload | internal/store/fileDownloadStore.go:24-55 | a new file gets this first-seen time, the deadline one ttl later, its name and total and no mark; a known one keeps first-seen time, deadline and marks; no other row changes; returns the row; refuses an empty id or a ttl that is not positive |
| DownloadRows.FirstTrack | internal/store/fileDownloadStore.go:24-55 | tracking an unknown file: the given time, name and total, the deadline one ttl later, no mark; it is active exactly before that deadline and with a positive total |
| DownloadRows.LaterTrack | internal/store/fileDownloadStore.go:24-55 | tracking a known file: only its name and total may change |
| DownloadRows.Store.MarkFileDownloadCompleted | internal/store/fileDownloadStore.go:101-119 | succeeds exactly for a known file that is not cancelled, and then sets its completion and path; nothing else changes |
| DownloadRows.Store.CancelFileDownload | internal/store/fileDownloadStore.go:123-139 | succeeds exactly for a known file neither completed nor cancelled, and then marks it stopped and cancelled at that time; nothing else changes |
| DownloadRows.Store.ResetFileDownloadCompletion | internal/store/fileDownloadStore.go:176-184 | clears completion and path of that row and nothing else |
| DownloadRows.Store.MarkFileDownloadStopped | internal/store/fileDownloadStore.go:186-196 | stamps that row if it is not completed and changes nothing else |
| DownloadRows.Store.ListActiveFileDownloads | internal/store/fileDownloadStore.go:150-174 | each active file once, by first-seen time and id, with its name and total, and a received count at most the total and equal to it exactly when every index is stored |
| DownloadRows.RowsStayOk | internal/store/fileDownloadStore.go:24-196 | over every operation sequence: never completed and cancelled at once, and cancelled implies stopped |
| DownloadRows.RowHistory | internal/store/fileDownloadStore.go:24-196 | over every operation sequence: rows stay, first-seen and deadline never change, a cancellation is permanent |
| DownloadRows.ReceivedCount | internal/store/fileDownloadStore.go:153-158 | the counted indices are at most the total, and all of it exactly when none below it is missing |
| DownloadRows.MissingMeaning | internal/messenger/messenger.go:512-519 | the chunks asked for are exactly the missing ones, in order |
| DownloadRows.StallsExactlyWhenJunkHidesAGap | internal/messenger/messenger.go:488-551 | what a pass decides from the stored chunks: for an incomplete file it neither requests, stops nor completes if and only if at least as many stray chunks are stored as are missing; a complete file is assembled exactly when its chunk 0 unmarshals |
| DownloadRows.JunkStallExists | internal/messenger/messenger.go:488-551 | such a file exists |
| DownloadRows.OutOfRangeExactly | internal/messenger/messenger.go:523-536 | a pass indexes past its slots if and only if the file is advertised without chunks and a chunk 0 is stored that unmarshals |
| DownloadPanics.NoPanicWithChunks | internal/messenger/messenger.go:468-551 | over every run in which each file is advertised with at least one chunk: no step panics |
| DownloadPanics.PanicReached | internal/messenger/messages.go:324-326 | a received file advertised without chunks, with a chunk 0 stored that unmarshals, is processed up to the step that panics |
| DownloadManagers.Manager.CancelFileDownload | internal/messenger/downloads.go:21-33 | a successful cancel marks the row, kills the context every processor shares and drops the pending entry; a failed one changes nothing |
| DownloadManagers.Manager.BeginFileDownload | internal/messenger/downloads.go:35-58 | no context for a cancelled file; otherwise the one live context of the file |
| DownloadManagers.Manager.EndFileDownload | internal/messenger/downloads.go:60-67 | kills and forgets the file's context only |
| DownloadManagers.Manager.CompleteFileDownload | internal/messenger/downloads.go:71-104 | the file appears exactly when write, lookup and rename work, the context lives and the row is not cancelled; the row is completed with it unless the mark fails |
| DownloadManagers.CancelBetween | internal/messenger/downloads.go:21-104 | a processor that began before a cancel and completes after it leaves the disk as it was |
| DownloadRace.NothingAfterCancel | internal/messenger/downloads.go:21-104 | over every interleaving: no rename, no file_ready and no second cancel follows a successful cancel |
| DownloadRace.RenamedFilesMatch | internal/messenger/messenger.go:581-596 | over every interleaving: each renamed file hashes to the advertised hash |
| DownloadRace.CancelledFileIsQuiet | internal/messenger/downloads.go:21-58 | over every interleaving: with downloadMu free, a cancelled file has no live context and no pending entry made by a processor |
| DownloadRace.NothingAskedOnceCancelled | internal/messenger/messenger.go:502-519 | over every interleaving: once a file is cancelled and downloadMu is free, no step asks for another chunk of it |
| DownloadRace.CancelledIsNotPending | internal/messenger/downloads.go:21-58 | over every run in which replication queues no download: with downloadMu free, a cancelled file is not pending |
| DownloadRace.ReplicationRequeuesCancelled | internal/messenger/relogin_replication.go:287-293 | replication does put a cancelled file back among the pending ones |
| DownloadRace.StepKeeps | internal/messenger/messenger.go:468-668 | every phase of a processor keeps the invariant of rows, contexts, lock and log |
| DownloadRace.CancelKeeps | internal/messenger/downloads.go:21-33 | every phase of a cancel keeps it, with processors running in between |
| DownloadCompletion.UndisturbedDownload | internal/messenger/messenger.go:468-608 | an undisturbed processor with all chunks renames, completes and announces the file, and leaves no lock, slot, context or pending entry |
| DownloadCompletion.UndisturbedRequest | internal/messenger/messenger.go:488-520 | an incomplete file before its deadline: an undisturbed pass asks for exactly the missing chunks and leaves the file pending, unmarked, with its deadline |
| DownloadCompletion.UndisturbedStop | internal/messenger/messenger.go:488-499 | an incomplete file at or after its deadline: an undisturbed pass asks for nothing, marks it stopped and leaves it neither pending nor in a context |
| DownloadCompletion.UndisturbedAdoption | internal/messenger/messenger.go:640-668 | an unmarked file already on disk with the right content is completed and announced without asking for a chunk |
| DownloadCompletion.CompletedFile | internal/messenger/messenger.go:621-640 | a completed file whose bytes are still right is announced again; one whose bytes are not loses its completion and is processed as new, under its old deadline |
| DownloadCompletion.UndisturbedCancel | internal/messenger/downloads.go:21-33 | an undisturbed cancel marks the row, kills the live context and drops the pending entry, with processors still running |

## Left out

- Real cryptography, base64, JSON, gzip and SHA-256: symbolic, with their inverse laws.
- WebRTC connections, the WebSocket and HTTP clients, and signalling: a packet may arrive, late, repeatedly or never.
- Which devices count as equivalent (`isAuthorizedReplicaPeer`, `refreshReplicaConnections`): the group is given.
- Relogin transfer reassembly: same shape as state sync; only its snapshot import appears.
- Group invites and invite text: they run before the save and are not exactly-once.
- The directory server: a record set with a clock. Its own expiry is the forgetting of any record. An advertised holder need not have the chunk.
- Liveness that depends on timers, worker pools or peers being online; only undisturbed runs are shown to finish.
- A local clock that steps back: stamps and checkpoints are read from a clock that never does.
- How the peers of a pass are chosen (a parameter for each recipient), the `TryLock` around a pass, its end at shutdown, and the detection of repeated registrations in `registerChunkLocation`.
- Placement.PlacementSound: request ids are random, so an acknowledgement that guesses an id before it is drawn is not modelled.
- Outbox.OutboxDurable: excepts stores of different bytes under the same key; Outbox.DurableExactly says when such a store does hide the queued ones.
- Distribution.DistributeChunks: files whose registration the directory refuses in this pass are excepted, because the program skips them until the next pass; writing a placed mark is taken to succeed.
- Receivers.Receiver.CollectAndProcessMessage: the chunks a peer sends while the loop runs appear only as what the lookup of each record answers.
- ReceptionCoverage.NoMissedReceive: says nothing of files (persist records), whose retry rows the program clears once their chunks are stored.
- WindowTheorems.WindowsCover: rows stamped before the epoch, which a schema migration could leave, are never exported and not covered.
- DownloadRace.RenamedFilesMatch: no claim about a crash between the rename and the completed mark; the next pass then finds the file in place.
- Disk failure, SQL migrations, history pagination, read marks, and the test-only store methods.
- Which peers a processor asks for a missing chunk, and what they answer: only the asking is a step.

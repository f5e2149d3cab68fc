/** The sender's durable outbox: messages, chunks and pending_chunks, as tables.
    internal/store/outgoingStore.go, chunkStore.go, pendingChunkStore.go and
    chunkExpiry.go. Times are nanoseconds, ttls are seconds. */
module Outbox {
  import opened Basics
  import opened Messages

  const SECOND: int := 1_000_000_000

  datatype Key = Key(fileId: string, index: int)
  datatype ChunkRow = ChunkRow(data: seq<byte>, created: int, ttl: int)
  datatype PendingRow = PendingRow(recipientId: string, senderId: string, data: seq<byte>, hash: string,
                                   signature: string, created: int, placed: bool, ttl: int, persist: bool)
  datatype PendingChunk = PendingChunk(key: Key, row: PendingRow)
  datatype Tables = Tables(messages: Table, chunks: map<Key, ChunkRow>, pending: map<Key, PendingRow>)

  // ---- One notion of expiry ----

  function Deadline(created: int, ttl: int): int {
    created + ttl * SECOND
  }

  predicate Expired(created: int, ttl: int, now: int) {
    now >= Deadline(created, ttl)
  }

  /** ceil of the seconds left, as remainingChunkTTL computes it. */
  function RemainingTTL(created: int, ttl: int, now: int): int {
    -((now - Deadline(created, ttl)) / SECOND)
  }

  /** The retry filter and the expiry test agree at every instant. */
  lemma {:induction false} RetryIffNotExpired(created: int, ttl: int, now: int)
    ensures RemainingTTL(created, ttl, now) > 0 <==> !Expired(created, ttl, now)
  {
  }

  /** A copy forwarded with the remaining ttl lives at least as long as the original
      and outlives it by less than a second plus the time in transit. */
  lemma {:induction false} ForwardedCopyLifetime(created: int, ttl: int, sent: int, stored: int)
    requires sent <= stored
    ensures var copy := Deadline(stored, RemainingTTL(created, ttl, sent));
            Deadline(created, ttl) <= copy < Deadline(created, ttl) + SECOND + (stored - sent)
  {
    var late := sent - Deadline(created, ttl);
    assert late == (late / SECOND) * SECOND + late % SECOND;
  }

  // ---- Queueing ----

  function QueueMessage(t: Tables, m: Message, now: int): Option<Tables> {
    if m.uid in t.messages then None else Some(t.(messages := t.messages[m.uid := RowOf(m, now)]))
  }

  function AddChunk(t: Tables, c: PendingChunk): Option<Tables> {
    if c.row.data == [] || c.row.ttl <= 0 || c.key in t.chunks || c.key in t.pending then None else
      Some(t.(chunks := t.chunks[c.key := ChunkRow(c.row.data, c.row.created, c.row.ttl)],
              pending := t.pending[c.key := c.row.(placed := false)]))
  }

  function AddChunks(t: Tables, chunks: seq<PendingChunk>): Option<Tables> {
    if chunks == [] then Some(t) else
      match AddChunks(t, chunks[..|chunks|-1])
      case None => None
      case Some(t') => AddChunk(t', chunks[|chunks|-1])
  }

  /** The whole transaction. */
  function Queue(t: Tables, m: Message, chunks: seq<PendingChunk>, now: int): Option<Tables> {
    match QueueMessage(t, m, now)
    case None => None
    case Some(t') => AddChunks(t', chunks)
  }

  predicate Queueable(t: Tables, chunks: seq<PendingChunk>) {
    && (forall c <- chunks :: c.row.data != [] && c.row.ttl > 0 && c.key !in t.chunks && c.key !in t.pending)
    && (forall i, j :: 0 <= i < j < |chunks| ==> chunks[i].key != chunks[j].key)
  }

  predicate HasKey(chunks: seq<PendingChunk>, k: Key) {
    exists c <- chunks :: c.key == k
  }

  lemma {:induction false} AddChunksMeaning(t: Tables, chunks: seq<PendingChunk>)
    ensures AddChunks(t, chunks).Some? <==> Queueable(t, chunks)
    ensures AddChunks(t, chunks).Some? ==>
              var t' := AddChunks(t, chunks).value;
              && t'.messages == t.messages
              && (forall k :: k in t'.chunks <==> k in t.chunks || HasKey(chunks, k))
              && (forall k :: k in t'.pending <==> k in t.pending || HasKey(chunks, k))
              && (forall k <- t.chunks :: t'.chunks[k] == t.chunks[k])
              && (forall k <- t.pending :: t'.pending[k] == t.pending[k])
              && (forall c <- chunks :: t'.chunks[c.key] == ChunkRow(c.row.data, c.row.created, c.row.ttl)
                                        && t'.pending[c.key] == c.row.(placed := false))
  {
    if chunks != [] {
      var init, c := chunks[..|chunks|-1], chunks[|chunks|-1];
      assert chunks == init + [c];
      AddChunksMeaning(t, init);
      QueueableStep(t, init, c);
    }
  }

  lemma {:induction false} QueueableStep(t: Tables, init: seq<PendingChunk>, c: PendingChunk)
    ensures Queueable(t, init + [c]) <==>
              && Queueable(t, init)
              && c.row.data != [] && c.row.ttl > 0
              && c.key !in t.chunks && c.key !in t.pending && !HasKey(init, c.key)
    ensures forall k :: HasKey(init + [c], k) <==> HasKey(init, k) || k == c.key
  {
    var all := init + [c];
    assert all[|init|] == c && all[..|init|] == init;
    forall k
      ensures HasKey(all, k) <==> HasKey(init, k) || k == c.key
    {
      if k == c.key { assert c in all; }
      if HasKey(init, k) { var d :| d in init && d.key == k; assert d in all; }
    }
    if HasKey(init, c.key) {
      var i :| 0 <= i < |init| && init[i].key == c.key;
      assert all[i].key == all[|init|].key;
      assert !Queueable(t, all);
    }
    if Queueable(t, all) {
      assert forall d <- init :: d in all;
      assert forall i, j :: 0 <= i < j < |init| ==> all[i].key != all[j].key;
      assert c in all;
    }
  }

  /** A send is accepted exactly when the message is new and every chunk is
      non-empty, has a positive ttl, and has a key of its own that is not in use. */
  lemma {:induction false} QueueAccepts(t: Tables, m: Message, chunks: seq<PendingChunk>, now: int)
    ensures Queue(t, m, chunks, now).Some? <==> m.uid !in t.messages && Queueable(t, chunks)
  {
    if m.uid !in t.messages {
      AddChunksMeaning(QueueMessage(t, m, now).value, chunks);
    }
  }

  /** An accepted send saves the message with its columns under the clock reading, and each
      chunk in both tables with all of its columns, unplaced; every other row stays. */
  lemma {:induction false} QueueMeaning(t: Tables, m: Message, chunks: seq<PendingChunk>, now: int)
    requires Queue(t, m, chunks, now).Some?
    ensures var t' := Queue(t, m, chunks, now).value;
            && t'.messages.Keys == t.messages.Keys + {m.uid} && m.uid !in t.messages
            && HoldsMessage(t'.messages[m.uid], m, now)
            && (forall id <- t.messages :: t'.messages[id] == t.messages[id])
    ensures var t' := Queue(t, m, chunks, now).value;
            && (forall k :: k in t'.chunks <==> k in t.chunks || HasKey(chunks, k))
            && (forall k <- t.chunks :: t'.chunks[k] == t.chunks[k])
            && (forall k :: k in t'.pending <==> k in t.pending || HasKey(chunks, k))
            && (forall k <- t.pending :: t'.pending[k] == t.pending[k])
    ensures var t' := Queue(t, m, chunks, now).value;
            forall c <- chunks ::
              && c.key in t'.chunks && c.key in t'.pending
              && t'.chunks[c.key] == ChunkRow(c.row.data, c.row.created, c.row.ttl)
              && t'.pending[c.key] == PendingRow(c.row.recipientId, c.row.senderId, c.row.data, c.row.hash,
                                                 c.row.signature, c.row.created, false, c.row.ttl, c.row.persist)
  {
    AddChunksMeaning(QueueMessage(t, m, now).value, chunks);
    forall c <- chunks
      ensures HasKey(chunks, c.key)
    {
    }
  }

  // ---- The other operations ----

  function GetChunk(t: Tables, k: Key, now: int): Option<seq<byte>> {
    if k in t.chunks then Some(t.chunks[k].data)
    else if k in t.pending && !Expired(t.pending[k].created, t.pending[k].ttl, now) then Some(t.pending[k].data)
    else None
  }

  /** Anything the program does to the three tables after a send. */
  datatype Op =
    | StoreChunk(key: Key, data: seq<byte>, ttl: int)
    | DeleteChunk(key: Key)
    | DeleteFile(fileId: string)
    | ExpireChunks
    | ExpirePending
    | DropDelivered
    | Place(key: Key)
    | SaveMessage(m: Message)
    | ImportMessages(messages: seq<Message>)
    | QueueAnother(m: Message, chunks: seq<PendingChunk>)
    | Restart

  function WithoutExpiredChunks(chunks: map<Key, ChunkRow>, now: int): map<Key, ChunkRow> {
    map k <- chunks | !(chunks[k].ttl > 0 && Expired(chunks[k].created, chunks[k].ttl, now)) :: chunks[k]
  }

  function WithoutExpiredPending(pending: map<Key, PendingRow>, now: int): map<Key, PendingRow> {
    map k <- pending | !(pending[k].ttl > 0 && Expired(pending[k].created, pending[k].ttl, now)) :: pending[k]
  }

  /** Chunks of stored messages, except of files that still have a pending row. */
  predicate Droppable(t: Tables, k: Key) {
    k.fileId in t.messages && forall p <- t.pending :: p.fileId != k.fileId
  }

  function Do(t: Tables, op: Op, now: int): Tables {
    match op
    case StoreChunk(k, data, ttl) => t.(chunks := t.chunks[k := ChunkRow(data, now, ttl)])
    case DeleteChunk(k) => t.(chunks := t.chunks - {k})
    case DeleteFile(f) => t.(chunks := map k <- t.chunks | k.fileId != f :: t.chunks[k])
    case ExpireChunks => t.(chunks := WithoutExpiredChunks(t.chunks, now))
    case ExpirePending => t.(pending := WithoutExpiredPending(t.pending, now))
    case DropDelivered => t.(chunks := map k <- t.chunks | !Droppable(t, k) :: t.chunks[k])
    case Place(k) => if k in t.pending then t.(pending := t.pending[k := t.pending[k].(placed := true)]) else t
    case SaveMessage(m) => t.(messages := InsertMissing(t.messages, [m], now))
    case ImportMessages(ms) => t.(messages := Upsert(t.messages, ms, now))
    case QueueAnother(m, cs) => var r := Queue(t, m, cs, now); if r.Some? then r.value else t
    case Restart => t
  }

  function Run(t: Tables, ops: seq<(Op, int)>): Tables {
    if ops == [] then t else
      var last := ops[|ops|-1];
      Do(Run(t, ops[..|ops|-1]), last.0, last.1)
  }

  // ---- Durability ----

  /** The pending row of c is intact, and any chunk row under its key has its bytes. */
  predicate Keeps(t: Tables, c: PendingChunk) {
    && c.key in t.pending
    && t.pending[c.key].data == c.row.data && t.pending[c.key].created == c.row.created
    && t.pending[c.key].ttl == c.row.ttl
    && (c.key in t.chunks ==> t.chunks[c.key].data == c.row.data)
  }

  predicate Foreign(op: Op, c: PendingChunk) {
    op.StoreChunk? && op.key == c.key && op.data != c.row.data
  }

  lemma {:induction false} DoKeeps(t: Tables, op: Op, now: int, c: PendingChunk)
    requires Keeps(t, c) && !Foreign(op, c) && now < Deadline(c.row.created, c.row.ttl)
    ensures Keeps(Do(t, op, now), c)
  {
    if op.QueueAnother? && Queue(t, op.m, op.chunks, now).Some? {
      AddChunksMeaning(QueueMessage(t, op.m, now).value, op.chunks);
    }
  }

  lemma {:induction false} RunKeeps(t: Tables, ops: seq<(Op, int)>, c: PendingChunk)
    requires Keeps(t, c)
    requires forall step <- ops :: !Foreign(step.0, c) && step.1 < Deadline(c.row.created, c.row.ttl)
    ensures Keeps(Run(t, ops), c)
  {
    if ops != [] {
      RunKeeps(t, ops[..|ops|-1], c);
      DoKeeps(Run(t, ops[..|ops|-1]), ops[|ops|-1].0, ops[|ops|-1].1, c);
    }
  }

  /** After an accepted send, and until a chunk's ttl runs out, reading the chunk
      returns the queued bytes after any sequence of cleanups, deletions, stores of
      the same bytes, placements, other sends, imports and restarts. */
  lemma {:induction false} OutboxDurable(t: Tables, m: Message, chunks: seq<PendingChunk>, sent: int, ops: seq<(Op,
                                        int)>,
                      c: PendingChunk, now: int)
    requires Queue(t, m, chunks, sent).Some? && c in chunks
    requires forall step <- ops :: !Foreign(step.0, c) && step.1 < Deadline(c.row.created, c.row.ttl)
    requires now < Deadline(c.row.created, c.row.ttl)
    ensures GetChunk(Run(Queue(t, m, chunks, sent).value, ops), c.key, now) == Some(c.row.data)
  {
    AddChunksMeaning(QueueMessage(t, m, sent).value, chunks);
    RunKeeps(Queue(t, m, chunks, sent).value, ops, c);
  }

  // ---- The exception ----

  /** Of the stores under c's key and the removals of its row, the last is a store of
      other bytes. */
  predicate HiddenByStore(t: Tables, ops: seq<(Op, int)>, c: PendingChunk) {
    ops != [] &&
    var init := ops[..|ops|-1];
    var (op, now) := ops[|ops|-1];
    if op.StoreChunk? && op.key == c.key then op.data != c.row.data
    else c.key in Do(Run(t, init), op, now).chunks && HiddenByStore(t, init, c)
  }

  /** The pending row of c is intact, and its chunk row has other bytes just if hidden. */
  predicate KeepsUnless(t: Tables, c: PendingChunk, hidden: bool) {
    && c.key in t.pending
    && t.pending[c.key].data == c.row.data && t.pending[c.key].created == c.row.created
    && t.pending[c.key].ttl == c.row.ttl
    && (hidden <==> c.key in t.chunks && t.chunks[c.key].data != c.row.data)
  }

  lemma {:induction false} DoKeepsUnless(t: Tables, op: Op, now: int, c: PendingChunk, hidden: bool)
    requires KeepsUnless(t, c, hidden) && now < Deadline(c.row.created, c.row.ttl)
    ensures var hidden' := if op.StoreChunk? && op.key == c.key then op.data != c.row.data
                           else c.key in Do(t, op, now).chunks && hidden;
            KeepsUnless(Do(t, op, now), c, hidden')
  {
    if op.QueueAnother? && Queue(t, op.m, op.chunks, now).Some? {
      AddChunksMeaning(QueueMessage(t, op.m, now).value, op.chunks);
    }
  }

  lemma {:induction false} RunKeepsUnless(t: Tables, ops: seq<(Op, int)>, c: PendingChunk)
    requires Keeps(t, c)
    requires forall step <- ops :: step.1 < Deadline(c.row.created, c.row.ttl)
    ensures KeepsUnless(Run(t, ops), c, HiddenByStore(t, ops, c))
  {
    if ops != [] {
      var init := ops[..|ops|-1];
      var (op, now) := ops[|ops|-1];
      RunKeepsUnless(t, init, c);
      DoKeepsUnless(Run(t, init), op, now, c, HiddenByStore(t, init, c));
      hide Do, KeepsUnless, Keeps;
    }
  }

  /** After an accepted send, and until the chunk's ttl runs out, any sequence of
      operations leaves the queued bytes readable if and only if the last store under the
      key or removal of its row is not a store of other bytes. */
  lemma {:induction false} DurableExactly(t: Tables, m: Message, chunks: seq<PendingChunk>, sent: int,
                                          ops: seq<(Op, int)>, c: PendingChunk, now: int)
    requires Queue(t, m, chunks, sent).Some? && c in chunks
    requires forall step <- ops :: step.1 < Deadline(c.row.created, c.row.ttl)
    requires now < Deadline(c.row.created, c.row.ttl)
    ensures var t0 := Queue(t, m, chunks, sent).value;
            GetChunk(Run(t0, ops), c.key, now) == Some(c.row.data) <==> !HiddenByStore(t0, ops, c)
  {
    AddChunksMeaning(QueueMessage(t, m, sent).value, chunks);
    RunKeepsUnless(Queue(t, m, chunks, sent).value, ops, c);
    hide Do, Queue;
  }

  /** Without the chunk row, the pending fallback answers exactly while the retry
      filter still retries, which is exactly while the cleanup keeps the row. */
  lemma {:induction false} FallbackAgreesWithRetryAndCleanup(t: Tables, k: Key, now: int)
    requires k !in t.chunks && k in t.pending && t.pending[k].ttl > 0
    ensures var row := t.pending[k];
            && (GetChunk(t, k, now).Some? <==> RemainingTTL(row.created, row.ttl, now) > 0)
            && (GetChunk(t, k, now).Some? <==> k in Do(t, ExpirePending, now).pending)
  {
    RetryIffNotExpired(t.pending[k].created, t.pending[k].ttl, now);
  }
}

/** The outbox methods of the SQLite store as they run, each one critical section of
    the store mutex; `now` is the clock it reads. */
module OutboxStore {
  import opened Basics
  import opened Messages
  import opened Outbox

  class Store {
    var messages: Table
    var chunks: map<Key, ChunkRow>
    var pending: map<Key, PendingRow>

    ghost function View(): Tables
      reads this
    {
      Tables(messages, chunks, pending)
    }

    constructor ()
      ensures View() == Tables(map[], map[], map[])
    {
      messages := map[];
      chunks := map[];
      pending := map[];
    }

    /** All or nothing: the message and every chunk, or no change at all. */
    method QueueOutgoing(m: Message, list: seq<PendingChunk>, now: int) returns (ok: bool)
      modifies this
      ensures ok <==>
                && m.uid !in old(messages)
                && (forall c <- list ::
                      c.row.data != [] && c.row.ttl > 0 && c.key !in old(chunks) && c.key !in old(pending))
                && (forall i, j :: 0 <= i < j < |list| ==> list[i].key != list[j].key)
      ensures ok ==> messages == old(messages)[m.uid := Row(m.login, m.senderLogin, m.chatId, m.data, m.createdAt, now)]
      ensures ok ==>
                && (forall k :: k in chunks <==> k in old(chunks) || HasKey(list, k))
                && (forall k <- old(chunks) :: chunks[k] == old(chunks)[k])
                && (forall k :: k in pending <==> k in old(pending) || HasKey(list, k))
                && (forall k <- old(pending) :: pending[k] == old(pending)[k])
                && forall c <- list ::
                     && c.key in chunks && c.key in pending
                     && chunks[c.key] == ChunkRow(c.row.data, c.row.created, c.row.ttl)
                     && pending[c.key] == PendingRow(c.row.recipientId, c.row.senderId, c.row.data, c.row.hash,
                                                     c.row.signature, c.row.created, false, c.row.ttl, c.row.persist)
      ensures !ok ==> messages == old(messages) && chunks == old(chunks) && pending == old(pending)
      ensures ok ==> Queue(old(View()), m, list, now) == Some(View())
      ensures !ok ==> View() == old(View())
    {
      QueueAccepts(View(), m, list, now);
      if m.uid in messages {
        return false;
      }
      var txMessages, txChunks, txPending := messages[m.uid := RowOf(m, now)], chunks, pending;
      ghost var start := Tables(txMessages, chunks, pending);
      var i := 0;
      while i < |list|
        invariant 0 <= i <= |list|
        invariant View() == old(View())
        invariant AddChunks(start, list[..i]) == Some(Tables(txMessages, txChunks, txPending))
      {
        var c := list[i];
        assert list[..i+1][..i] == list[..i];
        if |c.row.data| == 0 || c.row.ttl <= 0 || c.key in txChunks || c.key in txPending {
          AddChunksFail(start, list, i);
          return false;
        }
        txChunks := txChunks[c.key := ChunkRow(c.row.data, c.row.created, c.row.ttl)];
        txPending := txPending[c.key := c.row.(placed := false)];
        i := i + 1;
      }
      assert list[..i] == list;
      QueueMeaning(View(), m, list, now);
      messages, chunks, pending := txMessages, txChunks, txPending;
      ok := true;
    }

    /** INSERT OR REPLACE. */
    method StoreChunk(k: Key, data: seq<byte>, ttl: int, now: int)
      modifies this`chunks
      ensures chunks == old(chunks)[k := ChunkRow(data, now, ttl)]
      ensures View() == Do(old(View()), Op.StoreChunk(k, data, ttl), now)
    {
      chunks := chunks[k := ChunkRow(data, now, ttl)];
    }

    method DeleteChunk(k: Key)
      modifies this`chunks
      ensures chunks == old(chunks) - {k}
      ensures forall now :: View() == Do(old(View()), Op.DeleteChunk(k), now)
    {
      chunks := chunks - {k};
    }

    /** Every chunk of one file. */
    method DeleteChunks(fileId: string)
      modifies this`chunks
      ensures forall k :: k in chunks <==> k in old(chunks) && k.fileId != fileId
      ensures forall k <- chunks :: chunks[k] == old(chunks)[k]
      ensures forall now :: View() == Do(old(View()), DeleteFile(fileId), now)
    {
      chunks := map k <- chunks | k.fileId != fileId :: chunks[k];
    }

    method GetChunk(k: Key, now: int) returns (data: Option<seq<byte>>)
      ensures k in chunks ==> data == Some(chunks[k].data)
      ensures k !in chunks && k in pending ==>
                data == if now < pending[k].created + pending[k].ttl * 1_000_000_000 then Some(pending[k].data)
                        else None
      ensures k !in chunks && k !in pending ==> data == None
      ensures data == Outbox.GetChunk(View(), k, now)
    {
      if k in chunks {
        return Some(chunks[k].data);
      }
      if k !in pending || now >= pending[k].created + pending[k].ttl * SECOND {
        return None;
      }
      data := Some(pending[k].data);
    }

    method MarkChunkPlaced(k: Key)
      modifies this`pending
      ensures pending.Keys == old(pending).Keys
      ensures forall j <- pending :: pending[j] == if j == k then old(pending)[j].(placed := true) else old(pending)[j]
      ensures forall now :: View() == Do(old(View()), Place(k), now)
    {
      if k in pending {
        pending := pending[k := pending[k].(placed := true)];
      }
    }

    /** The rows not yet placed, oldest first. */
    method GetUnplacedChunks() returns (list: seq<PendingChunk>)
      ensures forall c <- list :: c.key in pending && c.row == pending[c.key] && !c.row.placed
      ensures forall k <- pending :: !pending[k].placed ==> PendingChunk(k, pending[k]) in list
      ensures forall i, j :: 0 <= i < j < |list| ==> list[i].key != list[j].key
      ensures forall i, j :: 0 <= i < j < |list| ==> list[i].row.created <= list[j].row.created
    {
      list := [];
      var todo := set k <- pending | !pending[k].placed;
      while todo != {}
        invariant todo <= pending.Keys
        invariant forall k <- todo :: !pending[k].placed
        invariant forall c <- list :: c.key in pending && c.row == pending[c.key] && !c.row.placed && c.key !in todo
        invariant forall k <- pending :: !pending[k].placed ==> k in todo || PendingChunk(k, pending[k]) in list
        invariant forall i, j :: 0 <= i < j < |list| ==> list[i].key != list[j].key
        invariant forall i, j :: 0 <= i < j < |list| ==> list[i].row.created <= list[j].row.created
        invariant forall c <- list, k <- todo :: c.row.created <= pending[k].created
        decreases todo
      {
        OldestExists(pending, todo);
        var k :| k in todo && forall j <- todo :: pending[k].created <= pending[j].created;
        list := list + [PendingChunk(k, pending[k])];
        todo := todo - {k};
      }
    }

    /** Removes exactly the expired rows with a positive ttl. */
    method DeleteExpiredChunks(now: int)
      modifies this`chunks
      ensures forall k :: k in chunks <==>
                && k in old(chunks)
                && !(old(chunks)[k].ttl > 0 && now >= old(chunks)[k].created + old(chunks)[k].ttl * 1_000_000_000)
      ensures forall k <- chunks :: chunks[k] == old(chunks)[k]
      ensures View() == Do(old(View()), ExpireChunks, now)
    {
      var expired := ScanExpired(map k <- chunks :: (chunks[k].created, chunks[k].ttl), now);
      chunks := DeleteKeys(chunks, expired);
    }

    method DeleteExpiredPendingChunks(now: int)
      modifies this`pending
      ensures forall k :: k in pending <==>
                && k in old(pending)
                && !(old(pending)[k].ttl > 0 && now >= old(pending)[k].created + old(pending)[k].ttl * 1_000_000_000)
      ensures forall k <- pending :: pending[k] == old(pending)[k]
      ensures View() == Do(old(View()), ExpirePending, now)
    {
      var expired := ScanExpired(map k <- pending :: (pending[k].created, pending[k].ttl), now);
      pending := DeleteKeys(pending, expired);
    }

    method DeleteChunksWithMessage()
      modifies this`chunks
      ensures forall k :: k in chunks <==>
                k in old(chunks) && !(k.fileId in messages && forall p <- pending :: p.fileId != k.fileId)
      ensures forall k <- chunks :: chunks[k] == old(chunks)[k]
      ensures forall now :: View() == Do(old(View()), DropDelivered, now)
    {
      chunks := map k <- chunks | !(k.fileId in messages && forall p <- pending :: p.fileId != k.fileId) :: chunks[k];
    }
  }

  /** Once a chunk is refused, so is every longer list. */
  lemma {:induction false} AddChunksFail(t: Tables, list: seq<PendingChunk>, i: nat)
    requires i < |list|
    requires AddChunks(t, list[..i]).Some? && AddChunk(AddChunks(t, list[..i]).value, list[i]).None?
    ensures !Queueable(t, list)
  {
    assert list[..i+1][..i] == list[..i];
    AddChunksMeaning(t, list[..i+1]);
    assert forall c <- list[..i+1] :: c in list;
    assert forall a, b :: 0 <= a < b < i + 1 ==> list[..i+1][a] == list[a] && list[..i+1][b] == list[b];
  }

  lemma {:induction false} OldestExists(pending: map<Key, PendingRow>, ids: set<Key>)
    requires ids <= pending.Keys && ids != {}
    ensures exists k :: k in ids && forall j <- ids :: pending[k].created <= pending[j].created
  {
    var k := LeastExists(ids, (i, j) => i in pending && j in pending && pending[i].created <= pending[j].created);
    assert forall j <- ids :: pending[k].created <= pending[j].created;
  }

  /** The scan loop: created and ttl of every row in, expired keys out. */
  method ScanExpired(rows: map<Key, (int, int)>, now: int) returns (expired: seq<Key>)
    ensures forall k :: k in expired <==> k in rows && rows[k].1 > 0 && Expired(rows[k].0, rows[k].1, now)
  {
    expired := [];
    var todo := rows.Keys;
    while todo != {}
      invariant todo <= rows.Keys
      invariant forall k ::
                  k in expired <==> k in rows && k !in todo && rows[k].1 > 0 && Expired(rows[k].0, rows[k].1, now)
      decreases todo
    {
      var k :| k in todo;
      if rows[k].1 > 0 && !(now < rows[k].0 + rows[k].1 * SECOND) {
        expired := expired + [k];
      }
      todo := todo - {k};
    }
  }

  /** The delete loop. */
  method DeleteKeys<V>(rows: map<Key, V>, keys: seq<Key>) returns (kept: map<Key, V>)
    ensures kept == map k <- rows | k !in keys :: rows[k]
  {
    kept := rows;
    var i := 0;
    while i < |keys|
      invariant 0 <= i <= |keys|
      invariant kept == map k <- rows | k !in keys[..i] :: rows[k]
    {
      assert keys[..i+1] == keys[..i] + [keys[i]];
      kept := kept - {keys[i]};
      i := i + 1;
    }
    assert keys[..i] == keys;
  }
}

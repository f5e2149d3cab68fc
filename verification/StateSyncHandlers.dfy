/** The state-sync handlers of the messenger on their mutable maps and transfer
    objects. Each method is one stateSyncMu section and is proved to change the
    maps as the value-level step of Transfers says. */
module StateSyncHandlers {
  import opened Basics
  import opened Pieces
  import opened Messages
  import opened Transfers

  class IncomingTransfer {
    const serial: nat
    const transferId: TransferId
    const checkpoint: int
    const expectedHash: Digest
    const chunks: array<Option<seq<byte>>>
    var received: int
    var processing: bool

    constructor (serial: nat, transferId: TransferId, checkpoint: int, expectedHash: Digest, count: nat)
      ensures View() == Incoming(serial, transferId, checkpoint, expectedHash, seq(count, _ => None), 0, false)
      ensures fresh(chunks)
    {
      this.serial := serial;
      this.transferId := transferId;
      this.checkpoint := checkpoint;
      this.expectedHash := expectedHash;
      this.chunks := new Option<seq<byte>>[count](_ => None);
      this.received := 0;
      this.processing := false;
    }

    ghost function View(): Incoming
      reads this, chunks
    {
      Incoming(serial, transferId, checkpoint, expectedHash, chunks[..], received, processing)
    }

    /** Copies a chunk into its slot if the slot is nil, counting it even when the
        copy is nil again; then marks a complete transfer as processing. */
    method Store(chunk: SyncChunk) returns (complete: bool)
      requires 0 <= chunk.index < chunks.Length
      modifies this, chunks
      ensures chunks[..] == if old(chunks[chunk.index]).None? && chunk.data != []
                            then old(chunks[..])[chunk.index := Some(chunk.data)] else old(chunks[..])
      ensures received == old(received) + if old(chunks[chunk.index]).None? then 1 else 0
      ensures complete <==> received == chunks.Length
      ensures processing <==> old(processing) || complete
      ensures complete <==> FillSlot(old(View()), chunk).received == chunks.Length
      ensures View() == if complete then FillSlot(old(View()), chunk).(processing := true)
                        else FillSlot(old(View()), chunk)
    {
      if chunks[chunk.index].None? {
        chunks[chunk.index] := if chunk.data == [] then None else Some(chunk.data);
        received := received + 1;
      }
      complete := received == chunks.Length;
      if complete {
        processing := true;
      }
    }
  }

  class StateSync {
    var requested: set<PeerId>
    var incoming: map<PeerId, IncomingTransfer>
    var outgoing: map<PeerId, Outgoing>
    var nextSerial: nat
    ghost var issued: seq<IncomingTransfer>  // every transfer object ever made, by serial

    ghost function Objects(): set<object>
      reads this`incoming
    {
      (set p <- incoming :: incoming[p] as object) + (set p <- incoming :: incoming[p].chunks as object)
    }

    /** Distinct peers have distinct transfer objects. */
    ghost predicate Apart()
      reads this`incoming
    {
      forall p <- incoming, q <- incoming :: p != q ==>
        incoming[p] != incoming[q] && incoming[p].chunks != incoming[q].chunks
    }

    /** The values of the incoming objects. */
    ghost function Contents(): map<PeerId, Incoming>
      reads this`incoming, Objects()
    {
      map p <- incoming :: incoming[p].View()
    }

    /** Serials tell the objects apart that were ever made. */
    ghost predicate Known()
      reads this`incoming, this`issued, this`nextSerial
    {
      && |issued| == nextSerial && (forall n :: 0 <= n < nextSerial ==> issued[n].serial == n)
      && (forall p <- incoming :: incoming[p] in issued)
    }

    ghost predicate Valid()
      reads this`incoming, this`issued, this`nextSerial
    {
      Apart() && Known()
    }

    ghost function View(): SyncMaps
      reads this, Objects()
    {
      SyncMaps(requested, Contents(), outgoing)
    }

    constructor ()
      ensures Valid() && View() == EMPTY_MAPS
    {
      requested := {};
      incoming := map[];
      outgoing := map[];
      nextSerial := 0;
      issued := [];
    }

    method Forget(peer: PeerId)
      requires Valid()
      modifies this`incoming
      ensures Valid() && incoming == old(incoming) - {peer}
      ensures Contents() == old(Contents()) - {peer}
    {
      incoming := incoming - {peer};
    }

    method Fresh(transferId: TransferId, checkpoint: int, hash: Digest, count: nat) returns (t: IncomingTransfer)
      requires Valid()
      ensures Valid() && Contents() == old(Contents())
      ensures forall p <- incoming :: incoming[p] != t && incoming[p].chunks != t.chunks
      ensures t.View() == Incoming(nextSerial, transferId, checkpoint, hash, seq(count, _ => None), 0, false)
    {
      t := new IncomingTransfer(nextSerial, transferId, checkpoint, hash, count);
    }

    method Place(peer: PeerId, t: IncomingTransfer)
      requires Apart()
      requires forall p <- incoming :: incoming[p] != t && incoming[p].chunks != t.chunks
      modifies this`incoming
      ensures Apart() && incoming == old(incoming)[peer := t]
      ensures Contents() == old(Contents())[peer := t.View()]
    {
      incoming := incoming[peer := t];
    }

    /** A new transfer object takes the next serial. */
    method Hold(peer: PeerId, t: IncomingTransfer)
      requires Valid() && t.serial == nextSerial
      requires forall p <- incoming :: incoming[p] != t && incoming[p].chunks != t.chunks
      modifies this`incoming, this`issued, this`nextSerial
      ensures Valid() && nextSerial == old(nextSerial) + 1 && incoming == old(incoming)[peer := t]
      ensures Contents() == old(Contents())[peer := t.View()]
    {
      issued := issued + [t];
      nextSerial := nextSerial + 1;
      assert Contents() == old(Contents());
      hide Contents;
      Place(peer, t);
    }

    method DropIncoming(peer: PeerId)
      requires Valid()
      modifies this`requested, this`incoming
      ensures Valid()
      ensures requested == old(requested) - {peer} && incoming == old(incoming) - {peer}
      ensures View() == old(View()).DropIncoming(peer)
    {
      Forget(peer);
      label Forgotten:
      requested := requested - {peer};
      assert Contents() == old@Forgotten(Contents());
    }

    /** True when a request is to be sent. */
    method HandlePeerConnected(peer: PeerId) returns (send: bool)
      requires Valid()
      modifies this`requested
      ensures Valid()
      ensures send <==> peer !in old(requested)
      ensures View() == old(View()).(requested := old(requested) + {peer})
    {
      send := peer !in requested;
      if send {
        requested := requested + {peer};
      }
    }

    /** The request could not be sent. */
    method RequestFailed(peer: PeerId)
      requires Valid()
      modifies this`requested
      ensures Valid()
      ensures View() == old(View()).(requested := old(requested) - {peer})
    {
      requested := requested - {peer};
    }

    method HandlePeerDisconnected(peer: PeerId, connected: bool)
      requires Valid()
      modifies this`requested, this`incoming, this`outgoing
      ensures Valid()
      ensures connected ==> requested == old(requested) && incoming == old(incoming) && outgoing == old(outgoing)
      ensures !connected ==> peer !in requested && peer !in incoming && peer !in outgoing
      ensures forall p :: p != peer ==>
                && (p in requested <==> p in old(requested))
                && (p in incoming <==> p in old(incoming)) && (p in incoming ==> incoming[p] == old(incoming)[p])
                && (p in outgoing <==> p in old(outgoing)) && (p in outgoing ==> outgoing[p] == old(outgoing)[p])
      ensures View() == if connected then old(View()) else old(View()).Disconnect(peer)
    {
      if connected {
        return;
      }
      Forget(peer);
      label Forgotten:
      requested := requested - {peer};
      outgoing := outgoing - {peer};
      assert Contents() == old@Forgotten(Contents());
    }

    method HandleManifest(peer: PeerId, manifest: Manifest)
      requires Valid()
      modifies this`requested, this`incoming, this`issued, this`nextSerial
      ensures Valid()
      ensures peer !in old(requested) ==> requested == old(requested) && incoming == old(incoming)
      ensures peer in old(requested) ==>
                if manifest.Manifest? && manifest.transferId != "" && manifest.checkpoint > 0
                   && 0 < manifest.chunkCount <= 4096 && manifest.sha256.Some?
                then
                  && requested == old(requested)
                  && peer in incoming && incoming == old(incoming)[peer := incoming[peer]]
                  && incoming[peer].serial == old(nextSerial) && incoming[peer].transferId == manifest.transferId
                  && incoming[peer].checkpoint == manifest.checkpoint
                  && incoming[peer].expectedHash == manifest.sha256.value
                  && incoming[peer].chunks[..] == seq(manifest.chunkCount, _ => None)
                  && incoming[peer].received == 0 && !incoming[peer].processing
                else requested == old(requested) - {peer} && incoming == old(incoming) - {peer}
      ensures View() == AcceptManifest(old(View()), peer, manifest, old(nextSerial))
    {
      if peer !in requested {
        return;
      }
      if manifest.ManifestError? {
        DropIncoming(peer);
        return;
      }
      if manifest.transferId == "" || manifest.checkpoint <= 0 || manifest.chunkCount <= 0
         || manifest.chunkCount > MAX_CHUNK_COUNT || manifest.sha256.None? {
        DropIncoming(peer);
        return;
      }
      var t := Fresh(manifest.transferId, manifest.checkpoint, manifest.sha256.value, manifest.chunkCount);
      hide Contents, Apart, Known;
      Hold(peer, t);
    }

    /** Stores a chunk of a transfer that is still incomplete; the other transfers stay. */
    method FillSlotOf(peer: PeerId, chunk: SyncChunk) returns (complete: bool)
      requires Apart() && peer in incoming && 0 <= chunk.index < incoming[peer].chunks.Length
      modifies incoming[peer], incoming[peer].chunks
      ensures forall p <- incoming :: p != peer ==> incoming[p].View() == old(incoming[p].View())
      ensures incoming[peer].chunks[..] ==
                if old(incoming[peer].chunks[chunk.index]).None? && chunk.data != []
                then old(incoming[peer].chunks[..])[chunk.index := Some(chunk.data)] else old(incoming[peer].chunks[..])
      ensures incoming[peer].received ==
                old(incoming[peer].received) + if old(incoming[peer].chunks[chunk.index]).None? then 1 else 0
      ensures complete <==> incoming[peer].received == incoming[peer].chunks.Length
      ensures incoming[peer].processing <==> old(incoming[peer].processing) || complete
      ensures var filled := FillSlot(old(incoming[peer].View()), chunk);
              && (complete <==> filled.received == |filled.slots|)
              && incoming[peer].View() == if complete then filled.(processing := true) else filled
    {
      hide FillSlot;
      complete := incoming[peer].Store(chunk);
    }

    method StoreChunk(peer: PeerId, chunk: SyncChunk) returns (complete: bool)
      requires Apart() && peer in incoming && 0 <= chunk.index < incoming[peer].chunks.Length
      modifies Objects()
      ensures forall p <- incoming :: p != peer ==> incoming[p].View() == old(incoming[p].View())
      ensures incoming[peer].chunks[..] ==
                if old(incoming[peer].chunks[chunk.index]).None? && chunk.data != []
                then old(incoming[peer].chunks[..])[chunk.index := Some(chunk.data)] else old(incoming[peer].chunks[..])
      ensures incoming[peer].received ==
                old(incoming[peer].received) + if old(incoming[peer].chunks[chunk.index]).None? then 1 else 0
      ensures complete <==> incoming[peer].received == incoming[peer].chunks.Length
      ensures incoming[peer].processing <==> old(incoming[peer].processing) || complete
      ensures peer in Contents()
      ensures var filled := FillSlot(old(Contents())[peer], chunk);
              && (complete <==> filled.received == |filled.slots|)
              && Contents() == old(Contents())[peer := if complete then filled.(processing := true) else filled]
    {
      hide FillSlot;
      complete := FillSlotOf(peer, chunk);
    }

    /** `done` is the transfer that this chunk completed, if any; `rejected` is the
        checkpoint to put in an error acknowledgement, if any. */
    method HandleChunk(peer: PeerId, chunk: SyncChunk)
      returns (done: IncomingTransfer?, rejected: Option<int>)
      requires Valid()
      modifies this`requested, this`incoming, Objects()
      ensures Valid()
      ensures forall p <- old(incoming) :: p != peer ==>
                p in incoming && incoming[p] == old(incoming)[p] && incoming[p].View() == old(incoming[p].View())
      ensures peer !in old(incoming) || old(incoming)[peer].transferId != chunk.transferId
              || old(incoming[peer].processing) ==>
                && requested == old(requested) && incoming == old(incoming) && done == null && rejected.None?
                && (peer in incoming ==> incoming[peer].View() == old(incoming[peer].View()))
      ensures peer in old(incoming) && old(incoming)[peer].transferId == chunk.transferId
              && !old(incoming[peer].processing) ==>
                var t := old(incoming)[peer];
                if chunk.index < 0 || chunk.index >= t.chunks.Length || |chunk.data| > 32768 then
                  && requested == old(requested) - {peer} && incoming == old(incoming) - {peer}
                  && done == null && rejected == Some(t.checkpoint)
                else
                  && requested == old(requested) && incoming == old(incoming) && rejected.None?
                  && t.chunks[..] == (if old(incoming[peer].chunks[chunk.index]).None? && chunk.data != []
                                      then old(incoming[peer].chunks[..])[chunk.index := Some(chunk.data)]
                                      else old(incoming[peer].chunks[..]))
                  && t.received == old(incoming[peer].received)
                                   + (if old(incoming[peer].chunks[chunk.index]).None? then 1 else 0)
                  && t.processing == (t.received == t.chunks.Length)
                  && done == if t.processing then t else null
      ensures done != null ==> done in issued
      ensures var (maps, outcome) := AcceptChunk(old(View()), peer, chunk);
              && View() == maps
              && (rejected.Some? <==> outcome.ChunkRejected?)
              && (rejected.Some? ==> outcome == ChunkRejected(rejected.value))
              && (done != null <==> outcome.Complete?)
              && (done != null ==> outcome == Complete(done.View()) && peer in incoming && incoming[peer] == done)
    {
      hide FillSlot;
      done, rejected := null, None;
      if peer !in incoming || incoming[peer].transferId != chunk.transferId || incoming[peer].processing {
        return;
      }
      var t := incoming[peer];
      if chunk.index < 0 || chunk.index >= t.chunks.Length || |chunk.data| > MAX_CHUNK_BYTES {
        DropIncoming(peer);
        rejected := Some(t.checkpoint);
        return;
      }
      var complete := StoreChunk(peer, chunk);
      if complete {
        done := t;
      }
    }

    /** Removes exactly the transfer object that finished, one that this object made. */
    method ClearIncomingStateSync(peer: PeerId, transfer: IncomingTransfer)
      requires Valid() && transfer in issued
      modifies this`requested, this`incoming
      ensures Valid()
      ensures if peer in old(incoming) && old(incoming)[peer] == transfer
              then requested == old(requested) - {peer} && incoming == old(incoming) - {peer}
              else requested == old(requested) && incoming == old(incoming)
      ensures View() == old(View()).ClearIncoming(peer, transfer.serial)
    {
      if peer in incoming && incoming[peer] == transfer {
        DropIncoming(peer);
      }
    }

    method InstallOutgoing(peer: PeerId, transfer: Outgoing)
      requires Valid()
      modifies this`outgoing
      ensures Valid()
      ensures View() == old(View()).(outgoing := old(outgoing)[peer := transfer])
    {
      outgoing := outgoing[peer := transfer];
    }

    method HandleAck(peer: PeerId, ack: Ack) returns (matched: Option<int>)
      requires Valid()
      modifies this`outgoing
      ensures Valid()
      ensures var current := peer in old(outgoing) && old(outgoing)[peer].transferId == ack.transferId
                             && old(outgoing)[peer].checkpoint == ack.checkpoint;
              && matched == (if current && !ack.error then Some(ack.checkpoint) else None)
              && outgoing == if current && ack.error then old(outgoing) - {peer} else old(outgoing)
      ensures var (maps, outcome) := AcceptAck(old(View()), peer, ack);
              && View() == maps
              && (matched.Some? <==> outcome.AckMatched?)
              && (matched.Some? ==> outcome == AckMatched(matched.value))
    {
      matched := None;
      if peer !in outgoing || outgoing[peer].transferId != ack.transferId
        || outgoing[peer].checkpoint != ack.checkpoint {
        return;
      }
      if ack.error {
        outgoing := outgoing - {peer};
        return;
      }
      matched := Some(ack.checkpoint);
    }

    method DropOutgoing(peer: PeerId, transferId: TransferId)
      requires Valid()
      modifies this`outgoing
      ensures Valid()
      ensures outgoing == if peer in old(outgoing) && old(outgoing)[peer].transferId == transferId
                          then old(outgoing) - {peer} else old(outgoing)
      ensures View() == old(View()).DropOutgoing(peer, transferId)
    {
      if peer in outgoing && outgoing[peer].transferId == transferId {
        outgoing := outgoing - {peer};
      }
    }
  }

  /** The sending loop: the pieces of the compressed delta in order, each non-empty,
      none above the receiver's limit, and together the whole delta. */
  method CutChunks(transferId: TransferId, compressed: seq<byte>) returns (chunks: seq<SyncChunk>)
    ensures |chunks| == Count(|compressed|, MAX_CHUNK_BYTES)
    ensures forall i :: 0 <= i < |chunks| ==>
              chunks[i] == SyncChunk(transferId, i, Piece(compressed, MAX_CHUNK_BYTES, i))
    ensures forall c <- chunks :: 0 < |c.data| <= MAX_CHUNK_BYTES
  {
    var chunkCount := (|compressed| + MAX_CHUNK_BYTES - 1) / MAX_CHUNK_BYTES;
    chunks := [];
    var index := 0;
    while index < chunkCount
      invariant 0 <= index <= chunkCount
      invariant |chunks| == index
      invariant forall i :: 0 <= i < index ==>
                  chunks[i] == SyncChunk(transferId, i, Piece(compressed, MAX_CHUNK_BYTES, i))
      invariant forall c <- chunks :: 0 < |c.data| <= MAX_CHUNK_BYTES
    {
      PieceShape(compressed, MAX_CHUNK_BYTES, index);
      CountBounds(|compressed|, MAX_CHUNK_BYTES, index);
      var start := index * MAX_CHUNK_BYTES;
      var end := Min(start + MAX_CHUNK_BYTES, |compressed|);
      chunks := chunks + [SyncChunk(transferId, index, compressed[start..end])];
      index := index + 1;
    }
  }

  /** The concatenation loop and the three checks of finishStateSyncImport. */
  method CheckImport(w: Wire, t: IncomingTransfer) returns (r: Result<Delta>)
    ensures r == Verdict(w, t.View())
    ensures var compressed := Flatten(SlotBytes(t.chunks[..]));
            forall d :: r == Ok(d) <==>
              && t.expectedHash.bytes == compressed
              && w.unzip(compressed).Some? && |w.unzip(compressed).value| <= MAX_DECODED_BYTES
              && w.unmarshal(w.unzip(compressed).value) == Some(d)
              && d.version == STATE_SYNC_VERSION && d.checkpoint == t.checkpoint
  {
    var compressed: seq<byte> := [];
    var i := 0;
    while i < t.chunks.Length
      invariant 0 <= i <= t.chunks.Length
      invariant compressed == Flatten(SlotBytes(t.chunks[..])[..i])
    {
      var all := SlotBytes(t.chunks[..]);
      assert all[..i+1][..i] == all[..i];
      var piece := t.chunks[i];
      compressed := compressed + (if piece.Some? then piece.value else []);
      i := i + 1;
    }
    assert SlotBytes(t.chunks[..])[..i] == SlotBytes(t.chunks[..]);
    forall d
      ensures Verdict(w, t.View()) == Ok(d) <==>
                && t.expectedHash.bytes == compressed
                && w.unzip(compressed).Some? && |w.unzip(compressed).value| <= MAX_DECODED_BYTES
                && w.unmarshal(w.unzip(compressed).value) == Some(d)
                && d.version == STATE_SYNC_VERSION && d.checkpoint == t.checkpoint
    {
      VerdictExactly(w, t.View(), d);
    }
    if Sha256(compressed) != t.expectedHash {
      return Err("state sync checksum mismatch");
    }
    var delta := Decode(w, compressed);
    if delta.Err? {
      return delta;
    }
    if delta.value.checkpoint != t.checkpoint {
      return Err("state sync checkpoint mismatch");
    }
    r := delta;
  }
}

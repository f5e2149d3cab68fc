/** Wire form of a state-sync delta and the in-memory maps that its handlers change
    under stateSyncMu (internal/messenger/state_replication.go), as values. */
module Transfers {
  import opened Basics
  import opened Pieces
  import opened Messages

  const STATE_SYNC_VERSION := 1
  const MAX_CHUNK_BYTES: nat := 32 * 1024
  const MAX_CHUNK_COUNT: nat := 4096
  const MAX_DECODED_BYTES: nat := 256 * 1024 * 1024

  type TransferId = string

  // ---- Encoding ----

  datatype Delta = Delta(version: int, checkpoint: int, messages: seq<Message>)

  /** JSON and gzip, known only through their inverse laws. */
  datatype Wire = Wire(marshal: Delta -> seq<byte>, unmarshal: seq<byte> -> Option<Delta>,
                       zip: seq<byte> -> seq<byte>, unzip: seq<byte> -> Option<seq<byte>>)

  ghost predicate Lawful(w: Wire) {
    && (forall d :: w.unmarshal(w.marshal(d)) == Some(d))
    && (forall raw :: w.unzip(w.zip(raw)) == Some(raw) && w.zip(raw) != [])
  }

  /** A collision-free digest. */
  datatype Digest = Sha256(bytes: seq<byte>)

  function Encode(w: Wire, d: Delta): seq<byte> {
    w.zip(w.marshal(d))
  }

  function Decode(w: Wire, compressed: seq<byte>): Result<Delta> {
    match w.unzip(compressed)
    case None => Err("open or decompress state sync delta")
    case Some(raw) =>
      if |raw| > MAX_DECODED_BYTES then Err("state sync delta exceeds the decoded size limit") else
      match w.unmarshal(raw)
      case None => Err("decode state sync delta")
      case Some(d) => if d.version != STATE_SYNC_VERSION then Err("unsupported state sync version") else Ok(d)
  }

  /** A sender's delta decodes back exactly when it is of the current version and
      its JSON fits the decoder's limit; the encoder checks neither. */
  lemma {:induction false} DecodeEncode(w: Wire, d: Delta)
    requires Lawful(w)
    ensures Decode(w, Encode(w, d)) == Ok(d) <==>
              d.version == STATE_SYNC_VERSION && |w.marshal(d)| <= MAX_DECODED_BYTES
    ensures Decode(w, Encode(w, d)).Ok? ==> Decode(w, Encode(w, d)) == Ok(d)
  {
    assert w.unzip(w.zip(w.marshal(d))) == Some(w.marshal(d));
  }

  // ---- Messages on the data channel ----

  datatype Manifest = ManifestError
                    | Manifest(transferId: TransferId, checkpoint: int, chunkCount: int, sha256: Option<Digest>)
  datatype SyncChunk = SyncChunk(transferId: TransferId, index: int, data: seq<byte>)
  datatype Ack = Ack(transferId: TransferId, checkpoint: int, error: bool)

  // ---- The maps ----

  /** `obj` is the identity of the Go pointer. A slot that was never filled, or was
      filled with no bytes, is nil. */
  datatype Incoming = Incoming(obj: nat, transferId: TransferId, checkpoint: int, digest: Digest,
                               slots: seq<Option<seq<byte>>>, received: int, processing: bool)
  datatype Outgoing = Outgoing(transferId: TransferId, checkpoint: int)

  datatype SyncMaps = SyncMaps(requested: set<PeerId>, incoming: map<PeerId, Incoming>, outgoing: map<PeerId, Outgoing>)
  {
    function DropIncoming(peer: PeerId): SyncMaps {
      this.(requested := requested - {peer}, incoming := incoming - {peer})
    }

    function Disconnect(peer: PeerId): SyncMaps {
      SyncMaps(requested - {peer}, incoming - {peer}, outgoing - {peer})
    }

    function DropOutgoing(peer: PeerId, transferId: TransferId): SyncMaps {
      if peer in outgoing && outgoing[peer].transferId == transferId then this.(outgoing := outgoing - {peer}) else this
    }

    /** clearIncomingStateSync: only the very transfer that finished is removed. */
    function ClearIncoming(peer: PeerId, obj: nat): SyncMaps {
      if peer in incoming && incoming[peer].obj == obj then DropIncoming(peer) else this
    }
  }

  const EMPTY_MAPS := SyncMaps({}, map[], map[])

  predicate ValidManifest(m: Manifest) {
    && m.Manifest?
    && m.transferId != "" && m.checkpoint > 0
    && 0 < m.chunkCount <= MAX_CHUNK_COUNT
    && m.sha256.Some?
  }

  function FreshIncoming(m: Manifest, obj: nat): Incoming
    requires ValidManifest(m)
  {
    Incoming(obj, m.transferId, m.checkpoint, m.sha256.value, seq(m.chunkCount, _ => None), 0, false)
  }

  function AcceptManifest(maps: SyncMaps, peer: PeerId, m: Manifest, obj: nat): SyncMaps {
    if peer !in maps.requested then maps
    else if !ValidManifest(m) then maps.DropIncoming(peer)
    else maps.(incoming := maps.incoming[peer := FreshIncoming(m, obj)])
  }

  datatype ChunkOutcome = ChunkIgnored | ChunkRejected(checkpoint: int) | ChunkStored | Complete(transfer: Incoming)

  /** A copied chunk; copying no bytes leaves nil. */
  function Copied(data: seq<byte>): Option<seq<byte>> {
    if data == [] then None else Some(data)
  }

  function FillSlot(t: Incoming, c: SyncChunk): Incoming
    requires 0 <= c.index < |t.slots|
  {
    if t.slots[c.index].Some? then t else
      t.(slots := t.slots[c.index := Copied(c.data)], received := t.received + 1)
  }

  function AcceptChunk(maps: SyncMaps, peer: PeerId, c: SyncChunk): (SyncMaps, ChunkOutcome) {
    if peer !in maps.incoming || maps.incoming[peer].transferId != c.transferId || maps.incoming[peer].processing then
      (maps, ChunkIgnored)
    else
      var t := maps.incoming[peer];
      if c.index < 0 || c.index >= |t.slots| || |c.data| > MAX_CHUNK_BYTES then
        (maps.DropIncoming(peer), ChunkRejected(t.checkpoint))
      else
        var t' := FillSlot(t, c);
        if t'.received != |t'.slots| then
          (maps.(incoming := maps.incoming[peer := t']), ChunkStored)
        else
          var done := t'.(processing := true);
          (maps.(incoming := maps.incoming[peer := done]), Complete(done))
  }

  datatype AckOutcome = AckIgnored | AckRefused | AckMatched(checkpoint: int)

  function AcceptAck(maps: SyncMaps, peer: PeerId, ack: Ack): (SyncMaps, AckOutcome) {
    if peer !in maps.outgoing || maps.outgoing[peer] != Outgoing(ack.transferId, ack.checkpoint) then
      (maps, AckIgnored)
    else if ack.error then
      (maps.(outgoing := maps.outgoing - {peer}), AckRefused)
    else
      (maps, AckMatched(ack.checkpoint))
  }

  // ---- One peer at a time ----

  /** Every other peer keeps its request mark, its incoming object and its outgoing transfer. */
  ghost predicate OthersKept(before: SyncMaps, after: SyncMaps, peer: PeerId) {
    forall p :: p != peer ==>
      && (p in after.requested <==> p in before.requested)
      && (p in after.incoming <==> p in before.incoming)
      && (p in before.incoming ==> after.incoming[p] == before.incoming[p])
      && (p in after.outgoing <==> p in before.outgoing)
      && (p in before.outgoing ==> after.outgoing[p] == before.outgoing[p])
  }

  /** A disconnect forgets all three entries of the peer, the other removals what they name,
      and none of them anything of another peer. */
  lemma {:induction false} RemovalsTouchOnePeer(maps: SyncMaps, peer: PeerId, obj: nat, id: TransferId)
    ensures var gone := maps.Disconnect(peer);
            && peer !in gone.requested && peer !in gone.incoming && peer !in gone.outgoing
            && OthersKept(maps, gone, peer)
    ensures OthersKept(maps, maps.DropIncoming(peer), peer) && maps.DropIncoming(peer).outgoing == maps.outgoing
    ensures var cleared := maps.ClearIncoming(peer, obj);
            && OthersKept(maps, cleared, peer) && cleared.outgoing == maps.outgoing
            && (if peer in maps.incoming && maps.incoming[peer].obj == obj
                then peer !in cleared.incoming && peer !in cleared.requested else cleared == maps)
    ensures var dropped := maps.DropOutgoing(peer, id);
            && OthersKept(maps, dropped, peer)
            && dropped.requested == maps.requested && dropped.incoming == maps.incoming
            && (if peer in maps.outgoing && maps.outgoing[peer].transferId == id
                then peer !in dropped.outgoing else dropped == maps)
  {
  }

  /** A chunk touches nothing but the incoming transfer and the request mark of its sender. */
  lemma {:induction false} ChunkTouchesOnePeer(maps: SyncMaps, peer: PeerId, c: SyncChunk)
    ensures OthersKept(maps, AcceptChunk(maps, peer, c).0, peer)
    ensures AcceptChunk(maps, peer, c).0.outgoing == maps.outgoing
  {
    hide FillSlot;
  }

  /** An acknowledgement counts only for the very transfer and checkpoint outstanding to its
      sender; an error ends that transfer, and nothing else ever changes. */
  lemma {:induction false} AckMeaning(maps: SyncMaps, peer: PeerId, ack: Ack)
    ensures var (after, outcome) := AcceptAck(maps, peer, ack);
            var current := peer in maps.outgoing && maps.outgoing[peer].transferId == ack.transferId
                           && maps.outgoing[peer].checkpoint == ack.checkpoint;
            && OthersKept(maps, after, peer)
            && after.requested == maps.requested && after.incoming == maps.incoming
            && (outcome == AckMatched(ack.checkpoint) <==> current && !ack.error)
            && (if current && ack.error then peer !in after.outgoing else after == maps)
  {
  }

  /** A manifest is taken from a peer that was asked, if it is well formed; a failure or a
      malformed one makes this device forget that it asked; from any other peer it is
      ignored. What is taken starts out empty, and no other peer's entries change. */
  lemma {:induction false} ManifestMeaning(maps: SyncMaps, peer: PeerId, m: Manifest, obj: nat)
    ensures OthersKept(maps, AcceptManifest(maps, peer, m, obj), peer)
    ensures AcceptManifest(maps, peer, m, obj).outgoing == maps.outgoing
    ensures var after := AcceptManifest(maps, peer, m, obj);
            var wellFormed := m.Manifest? && m.transferId != "" && m.checkpoint > 0
                              && 0 < m.chunkCount <= MAX_CHUNK_COUNT && m.sha256.Some?;
            && (peer !in maps.requested ==> after == maps)
            && (peer in maps.requested && !wellFormed ==> peer !in after.requested && peer !in after.incoming)
            && (peer in maps.requested && wellFormed ==>
                  && peer in after.requested && peer in after.incoming
                  && var t := after.incoming[peer];
                     && t.obj == obj && t.transferId == m.transferId && t.checkpoint == m.checkpoint
                     && t.digest == m.sha256.value && !t.processing && t.received == 0
                     && |t.slots| == m.chunkCount && Filled(t.slots) == 0)
  {
    if peer in maps.requested && ValidManifest(m) {
      FilledBounds(FreshIncoming(m, obj).slots);
    }
  }

  // ---- Finishing an import ----

  function SlotBytes(slots: seq<Option<seq<byte>>>): seq<seq<byte>> {
    seq(|slots|, i requires 0 <= i < |slots| => if slots[i].Some? then slots[i].value else [])
  }

  /** Checksum, decoding and checkpoint checks, in that order. */
  function Verdict(w: Wire, t: Incoming): Result<Delta> {
    var compressed := Flatten(SlotBytes(t.slots));
    if Sha256(compressed) != t.digest then Err("state sync checksum mismatch") else
    match Decode(w, compressed)
    case Err(e) => Err(e)
    case Ok(d) => if d.checkpoint != t.checkpoint then Err("state sync checkpoint mismatch") else Ok(d)
  }

  /** An import is accepted if and only if the checksum of the concatenated slots is the
      announced one, they decompress to at most 256 MiB of JSON of the current version, and
      the checkpoint inside is the announced one; and then it is the delta inside. */
  lemma {:induction false} VerdictExactly(w: Wire, t: Incoming, d: Delta)
    ensures Verdict(w, t) == Ok(d) <==>
              var compressed := Flatten(SlotBytes(t.slots));
              && t.digest.bytes == compressed
              && w.unzip(compressed).Some? && |w.unzip(compressed).value| <= MAX_DECODED_BYTES
              && w.unmarshal(w.unzip(compressed).value) == Some(d)
              && d.version == STATE_SYNC_VERSION && d.checkpoint == t.checkpoint
  {
  }

  /** The slots of a transfer hold only the sender's own pieces. */
  ghost predicate HoldsPiecesOf(t: Incoming, bytes: seq<byte>) {
    && |t.slots| == Count(|bytes|, MAX_CHUNK_BYTES)
    && forall i :: 0 <= i < |t.slots| ==> t.slots[i] == None || t.slots[i] == Some(Piece(bytes, MAX_CHUNK_BYTES, i))
  }

  /** When every slot is filled from the sender's pieces, the imported bytes are the
      sender's, and the verdict is the sender's delta exactly when its JSON fits
      the decoder's limit. */
  lemma {:induction false} HonestVerdict(w: Wire, t: Incoming, d: Delta)
    requires Lawful(w)
    requires d.version == STATE_SYNC_VERSION
    requires t.digest == Sha256(Encode(w, d)) && t.checkpoint == d.checkpoint
    requires HoldsPiecesOf(t, Encode(w, d)) && Filled(t.slots) == |t.slots|
    ensures Flatten(SlotBytes(t.slots)) == Encode(w, d)
    ensures Verdict(w, t) == Ok(d) <==> |w.marshal(d)| <= MAX_DECODED_BYTES
    ensures Verdict(w, t).Ok? ==> Verdict(w, t) == Ok(d)
  {
    var bytes := Encode(w, d);
    FilledBounds(t.slots);
    assert SlotBytes(t.slots) == Split(bytes, MAX_CHUNK_BYTES);
    SplitFlatten(bytes, MAX_CHUNK_BYTES);
    DecodeEncode(w, d);
  }

  // ---- The received counter ----

  /** Storing a chunk keeps `received` equal to the number of filled slots exactly
      when it does not store an empty chunk into an unfilled slot. */
  lemma {:induction false} FillSlotCounts(t: Incoming, c: SyncChunk)
    requires 0 <= c.index < |t.slots|
    requires t.received == Filled(t.slots)
    ensures FillSlot(t, c).received == Filled(FillSlot(t, c).slots) <==> t.slots[c.index].Some? || c.data != []
  {
    FilledUpdate(t.slots, c.index, Copied(c.data));
  }

  /** So empty chunks do break the counter: two copies of one empty chunk complete
      a two-chunk transfer in which nothing was filled. */
  lemma {:induction false} EmptyChunkCompletesEarly(peer: PeerId, m: Manifest, obj: nat)
    requires ValidManifest(m) && m.chunkCount == 2
    ensures var empty := SyncChunk(m.transferId, 0, []);
            var start := AcceptManifest(SyncMaps({peer}, map[], map[]), peer, m, obj);
            var (once, first) := AcceptChunk(start, peer, empty);
            var (twice, second) := AcceptChunk(once, peer, empty);
            first == ChunkStored && second.Complete? && Filled(second.transfer.slots) == 0
  {
    var start := FreshIncoming(m, obj);
    FilledBounds(start.slots);
    assert start.slots[0 := None] == start.slots;
  }

  /** For an honest sender a chunk is never rejected; it keeps the slots holding
      pieces of the data and the counter exact; and a transfer completes exactly
      when its last slot is filled. */
  lemma {:induction false} HonestChunk(maps: SyncMaps, peer: PeerId, c: SyncChunk, bytes: seq<byte>)
    requires peer in maps.incoming
    requires maps.incoming[peer].transferId == c.transferId && !maps.incoming[peer].processing
    requires HoldsPiecesOf(maps.incoming[peer], bytes)
    requires maps.incoming[peer].received == Filled(maps.incoming[peer].slots)
    requires 0 <= c.index < Count(|bytes|, MAX_CHUNK_BYTES) && c.data == Piece(bytes, MAX_CHUNK_BYTES, c.index)
    ensures !AcceptChunk(maps, peer, c).1.ChunkRejected? && !AcceptChunk(maps, peer, c).1.ChunkIgnored?
    ensures peer in AcceptChunk(maps, peer, c).0.incoming
    ensures var t := AcceptChunk(maps, peer, c).0.incoming[peer];
            && HoldsPiecesOf(t, bytes)
            && t.received == Filled(t.slots)
            && t.slots[c.index].Some?
            && (forall i :: 0 <= i < |t.slots| && i != c.index ==> t.slots[i] == maps.incoming[peer].slots[i])
            && (AcceptChunk(maps, peer, c).1.Complete? <==> Filled(t.slots) == |t.slots|)
    ensures OthersKept(maps, AcceptChunk(maps, peer, c).0, peer)
    ensures AcceptChunk(maps, peer, c).0.requested == maps.requested
    ensures AcceptChunk(maps, peer, c).0.outgoing == maps.outgoing
  {
    PieceShape(bytes, MAX_CHUNK_BYTES, c.index);
    FillSlotCounts(maps.incoming[peer], c);
  }
}

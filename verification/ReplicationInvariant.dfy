/** The invariant of the replicated group and the proof that every step keeps it. */
module ReplicationInvariant {
  import opened Basics
  import opened Pieces
  import opened Messages
  import M = MessageStore
  import opened Transfers
  import opened Replication

  // ---- The invariant ----

  /** No later commit of this replica carries a smaller stamp: that of the writer
      holding the lock, or else the clock. */
  function Horizon(rep: Replica): int {
    if rep.lock.Some? then rep.lock.value.stamp else rep.clock
  }

  /** b holds everything a has stamped strictly below c, apart from `extra`, and
      this cannot be broken by a later commit of a. */
  ghost predicate Claim(s: System, a: PeerId, b: PeerId, c: int, extra: set<MsgId>) {
    && a in s.replicas && b in s.replicas
    && c <= Horizon(s.replicas[a])
    && forall id <- s.replicas[a].rows ::
         s.replicas[a].rows[id].stamp < c ==> id in s.replicas[b].rows || id in extra
  }

  ghost predicate PeerOk(s: System, r: PeerId, p: PeerId) {
    r in s.replicas && p in s.replicas && p != r
  }

  ghost predicate TransferOk(w: Wire, s: System, id: TransferId, t: Transfer) {
    && id != "" && PeerOk(s, t.from, t.to)
    && t.checkpoint > 0
    && Claim(s, t.from, t.to, t.checkpoint, Ids(t.messages))
    && Ids(t.messages) <= s.replicas[t.from].rows.Keys
    && 0 < Count(|Bytes(w, t)|, MAX_CHUNK_BYTES) <= MAX_CHUNK_COUNT
  }

  /** id is a transfer from a to b. */
  predicate Between(s: System, id: TransferId, a: PeerId, b: PeerId) {
    id in s.transfers && s.transfers[id].from == a && s.transfers[id].to == b
  }

  ghost predicate Delivered(s: System, id: TransferId) {
    && id in s.transfers && s.transfers[id].to in s.replicas
    && Ids(s.transfers[id].messages) <= s.replicas[s.transfers[id].to].rows.Keys
  }

  /** A partly received transfer at r from p. */
  ghost predicate IncomingOk(w: Wire, s: System, r: PeerId, p: PeerId, t: Incoming) {
    && Between(s, t.transferId, p, r)
    && t.checkpoint == s.transfers[t.transferId].checkpoint
    && t.digest == Sha256(Bytes(w, s.transfers[t.transferId]))
    && HoldsPiecesOf(t, Bytes(w, s.transfers[t.transferId]))
    && t.received == Filled(t.slots)
    && (t.processing <==> Filled(t.slots) == |t.slots|)
  }

  /** An acknowledgement without error that b sends to a. */
  ghost predicate AckOk(s: System, b: PeerId, a: PeerId, ack: Ack) {
    && PeerOk(s, b, a)
    && (!ack.error ==> Between(s, ack.transferId, a, b)
                       && ack.checkpoint == s.transfers[ack.transferId].checkpoint
                       && Delivered(s, ack.transferId))
  }

  ghost predicate PacketOk(w: Wire, s: System, p: Packet) {
    && PeerOk(s, p.from, p.to)
    && match p.payload
       case Request => true
       case ManifestMsg(ManifestError) => true
       case ManifestMsg(m) => Between(s, m.transferId, p.from, p.to)
         && m == ManifestOf(w, m.transferId, s.transfers[m.transferId])
       case ChunkMsg(c) =>
         && Between(s, c.transferId, p.from, p.to)
         && 0 <= c.index < Count(|Bytes(w, s.transfers[c.transferId])|, MAX_CHUNK_BYTES)
         && c.data == Piece(Bytes(w, s.transfers[c.transferId]), MAX_CHUNK_BYTES, c.index)
       case AckMsg(ack) => AckOk(s, p.from, p.to, ack)
  }

  ghost predicate TaskOk(w: Wire, s: System, r: PeerId, task: Task) {
    && PeerOk(s, r, task.peer)
    && match task
       case ReadClock(p, since) => Claim(s, r, p, since, {})
       case Scan(p, since, checkpoint) => Claim(s, r, p, since, {}) && 0 < checkpoint <= s.replicas[r].clock
       case Install(p, checkpoint, ms) =>
         checkpoint > 0 && Claim(s, r, p, checkpoint, Ids(ms)) && Ids(ms) <= s.replicas[r].rows.Keys
       case SendNext(p, id, next) => Between(s, id, r, p)
         && -1 <= next < Count(|Bytes(w, s.transfers[id])|, MAX_CHUNK_BYTES)
       case Finish(p, t) => IncomingOk(w, s, r, p, t) && t.processing
       case Import(p, t, ms) => IncomingOk(w, s, r, p, t) && t.processing && ms == s.transfers[t.transferId].messages
       case Clear(p, t, failed) => IncomingOk(w, s, r, p, t) && t.processing && (!failed ==> Delivered(s, t.transferId))
       case SendAck(p, ack) => AckOk(s, r, p, ack)
       case SetCursor(p, id, checkpoint) => Claim(s, r, p, checkpoint, {})
       case _ => true
  }

  ghost predicate OutgoingOk(s: System, r: PeerId, p: PeerId, out: Outgoing) {
    Between(s, out.transferId, r, p) && out.checkpoint == s.transfers[out.transferId].checkpoint
  }

  ghost predicate MapsOk(w: Wire, s: System, r: PeerId, maps: SyncMaps) {
    && (forall p <- maps.incoming :: IncomingOk(w, s, r, p, maps.incoming[p]))
    && (forall p <- maps.outgoing :: OutgoingOk(s, r, p, maps.outgoing[p]))
  }

  ghost predicate TasksOk(w: Wire, s: System, r: PeerId, tasks: map<nat, Task>) {
    forall k <- tasks :: TaskOk(w, s, r, tasks[k])
  }

  ghost predicate CursorsOk(s: System, r: PeerId, cursors: map<PeerId, int>) {
    forall p <- cursors :: PeerOk(s, r, p) && Claim(s, r, p, cursors[p], {})
  }

  /** The lock holder stamped no later than now, and an import writes the very
      messages of the task that waits for it. */
  predicate LockOk(rep: Replica) {
    rep.lock.Some? ==>
      && 0 < rep.lock.value.stamp <= rep.clock
      && (rep.lock.value.ImportFor? ==>
            rep.lock.value.task in rep.tasks && rep.tasks[rep.lock.value.task].Import?
            && rep.tasks[rep.lock.value.task].messages == rep.lock.value.messages)
  }

  predicate RowsOk(t: Table) {
    forall id <- t :: t[id].stamp >= 0
  }

  ghost predicate ReplicaOk(w: Wire, s: System, r: PeerId, rep: Replica) {
    && rep.clock > 0 && LockOk(rep) && RowsOk(rep.rows)
    && CursorsOk(s, r, rep.cursors)
    && MapsOk(w, s, r, rep.maps)
    && TasksOk(w, s, r, rep.tasks)
  }

  ghost predicate Inv(w: Wire, s: System) {
    && (forall r <- s.replicas :: ReplicaOk(w, s, r, s.replicas[r]))
    && (forall p <- s.net :: PacketOk(w, s, p))
    && (forall id <- s.transfers :: TransferOk(w, s, id, s.transfers[id]))
  }

  // ---- What steps leave true ----

  ghost predicate ReplicaGrows(a: Replica, b: Replica) {
    && a.clock <= b.clock
    && Horizon(a) <= Horizon(b)
    && Evolves(a.rows, b.rows, Horizon(a))
  }

  ghost predicate Grows(s: System, s': System) {
    && s'.replicas.Keys == s.replicas.Keys
    && (forall r <- s.replicas :: ReplicaGrows(s.replicas[r], s'.replicas[r]))
    && (forall id <- s.transfers :: id in s'.transfers && s'.transfers[id] == s.transfers[id])
  }

  lemma {:induction false} ClaimStable(s: System, s': System, a: PeerId, b: PeerId, c: int, extra: set<MsgId>)
    requires Grows(s, s') && Claim(s, a, b, c, extra)
    ensures Claim(s', a, b, c, extra)
  {
    assert ReplicaGrows(s.replicas[a], s'.replicas[a]) && ReplicaGrows(s.replicas[b], s'.replicas[b]);
  }

  lemma {:induction false} DeliveredStable(s: System, s': System, id: TransferId)
    requires Grows(s, s') && Delivered(s, id)
    ensures Delivered(s', id)
  {
    var to := s.transfers[id].to;
    assert ReplicaGrows(s.replicas[to], s'.replicas[to]);
  }

  lemma {:induction false} TransferStable(w: Wire, s: System, s': System, id: TransferId, t: Transfer)
    requires Grows(s, s') && TransferOk(w, s, id, t)
    ensures TransferOk(w, s', id, t)
  {
    ClaimStable(s, s', t.from, t.to, t.checkpoint, Ids(t.messages));
    assert ReplicaGrows(s.replicas[t.from], s'.replicas[t.from]);
  }

  lemma {:induction false} PacketStable(w: Wire, s: System, s': System, p: Packet)
    requires Grows(s, s') && PacketOk(w, s, p)
    ensures PacketOk(w, s', p)
  {
    if p.payload.AckMsg? && !p.payload.ack.error {
      DeliveredStable(s, s', p.payload.ack.transferId);
    }
  }

  lemma {:induction false} TaskStable(w: Wire, s: System, s': System, r: PeerId, task: Task)
    requires Grows(s, s') && TaskOk(w, s, r, task)
    ensures TaskOk(w, s', r, task)
  {
    assert ReplicaGrows(s.replicas[r], s'.replicas[r]);
    match task
    case ReadClock(p, since) => ClaimStable(s, s', r, p, since, {});
    case Scan(p, since, checkpoint) => ClaimStable(s, s', r, p, since, {});
    case Install(p, checkpoint, ms) => ClaimStable(s, s', r, p, checkpoint, Ids(ms));
    case Clear(p, t, failed) => if !failed { DeliveredStable(s, s', t.transferId); }
    case SendAck(p, ack) => if !ack.error { DeliveredStable(s, s', ack.transferId); }
    case SetCursor(p, id, checkpoint) => ClaimStable(s, s', r, p, checkpoint, {});
    case _ =>
  }

  lemma {:induction false} ReplicaStable(w: Wire, s: System, s': System, r: PeerId, rep: Replica)
    requires Grows(s, s') && ReplicaOk(w, s, r, rep)
    ensures ReplicaOk(w, s', r, rep)
  {
    forall k <- rep.tasks
      ensures TaskOk(w, s', r, rep.tasks[k])
    {
      TaskStable(w, s, s', r, rep.tasks[k]);
    }
    forall p <- rep.cursors
      ensures PeerOk(s', r, p) && Claim(s', r, p, rep.cursors[p], {})
    {
      ClaimStable(s, s', r, p, rep.cursors[p], {});
    }
  }

  /** The obligations of one step: it only grows, and what it changes is in order
      in the state it leads to. */
  ghost predicate EffectOk(w: Wire, s: System, r: PeerId, e: Effect) {
    && r in s.replicas
    && ReplicaGrows(s.replicas[r], e.replica)
    && s.transfers.Keys !! e.begun.Keys
    && (var s' := Apply(s, r, e);
        && ReplicaOk(w, s', r, e.replica)
        && (forall p <- e.sent :: PacketOk(w, s', p))
        && (forall id <- e.begun :: TransferOk(w, s', id, e.begun[id])))
  }

  lemma {:induction false} ApplyGrows(s: System, r: PeerId, e: Effect)
    requires r in s.replicas && ReplicaGrows(s.replicas[r], e.replica) && s.transfers.Keys !! e.begun.Keys
    ensures Grows(s, Apply(s, r, e))
  {
  }

  lemma {:induction false} ApplyKeepsInv(w: Wire, s: System, r: PeerId, e: Effect)
    requires Inv(w, s) && EffectOk(w, s, r, e)
    ensures Inv(w, Apply(s, r, e))
  {
    var s' := Apply(s, r, e);
    ApplyGrows(s, r, e);
    forall q <- s'.replicas
      ensures ReplicaOk(w, s', q, s'.replicas[q])
    {
      if q != r {
        ReplicaStable(w, s, s', q, s.replicas[q]);
      }
    }
    forall p <- s'.net
      ensures PacketOk(w, s', p)
    {
      if p !in e.sent {
        PacketStable(w, s, s', p);
      }
    }
    forall id <- s'.transfers
      ensures TransferOk(w, s', id, s'.transfers[id])
    {
      if id !in e.begun {
        TransferStable(w, s, s', id, s.transfers[id]);
      }
    }
  }
}

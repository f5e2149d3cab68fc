/** Every step of a replica meets the obligations of the invariant. */
module ReplicationSteps {
  import opened Basics
  import opened Pieces
  import opened Messages
  import M = MessageStore
  import opened Transfers
  import opened Replication
  import opened ReplicationInvariant

  /** The old replica is still in order in the state a step leads to. */
  lemma {:induction false} Before(w: Wire, s: System, r: PeerId, e: Effect)
    requires Inv(w, s) && r in s.replicas
    requires ReplicaGrows(s.replicas[r], e.replica) && s.transfers.Keys !! e.begun.Keys
    ensures Grows(s, Apply(s, r, e))
    ensures ReplicaOk(w, Apply(s, r, e), r, s.replicas[r])
  {
    hide EffectOk, ReplicaGrows, TaskOk, MapsOk, CursorsOk, PacketOk, TransferOk, LockOk, RowsOk;
    ApplyGrows(s, r, e);
    ReplicaStable(w, s, Apply(s, r, e), r, s.replicas[r]);
  }

  /** The effect changes only maps, tasks and the object counter. */
  predicate Quiet(s: System, r: PeerId, e: Effect) {
    && r in s.replicas && s.transfers.Keys !! e.begun.Keys
    && e.replica == s.replicas[r].(maps := e.replica.maps, tasks := e.replica.tasks, nextObj := e.replica.nextObj)
  }

  lemma {:induction false} QuietGrows(s: System, r: PeerId, e: Effect)
    requires Quiet(s, r, e)
    ensures Grows(s, Apply(s, r, e))
  {
    ApplyGrows(s, r, e);
  }

  lemma {:induction false} IncomingStable(w: Wire, s: System, s': System, r: PeerId, p: PeerId, t: Incoming)
    requires Grows(s, s') && IncomingOk(w, s, r, p, t)
    ensures IncomingOk(w, s', r, p, t)
  {
  }

  lemma {:induction false} MapsStable(w: Wire, s: System, s': System, r: PeerId, maps: SyncMaps)
    requires Grows(s, s') && MapsOk(w, s, r, maps)
    ensures MapsOk(w, s', r, maps)
  {
  }

  /** What was in order about the acting replica's maps and about one of its tasks
      still is after a quiet step. */
  lemma {:induction false} QuietKeeps(w: Wire, s: System, r: PeerId, e: Effect, k: nat)
    requires Inv(w, s) && Quiet(s, r, e)
    ensures Grows(s, Apply(s, r, e))
    ensures MapsOk(w, Apply(s, r, e), r, s.replicas[r].maps)
    ensures k in s.replicas[r].tasks ==> TaskOk(w, Apply(s, r, e), r, s.replicas[r].tasks[k])
  {
    hide ReplicaGrows, PacketOk, TransferOk, TaskOk, IncomingOk, OutgoingOk, CursorsOk;
    QuietGrows(s, r, e);
    MapsStable(w, s, Apply(s, r, e), r, s.replicas[r].maps);
    if k in s.replicas[r].tasks {
      TaskStable(w, s, Apply(s, r, e), r, s.replicas[r].tasks[k]);
    }
  }

  /** A quiet step that only replaces, adds or retires task k. */
  lemma {:induction false} QuietStep(w: Wire, s: System, r: PeerId, e: Effect, k: nat)
    requires Inv(w, s) && Quiet(s, r, e)
    requires forall j <- e.replica.tasks :: j != k ==>
             j in s.replicas[r].tasks && e.replica.tasks[j] == s.replicas[r].tasks[j]
    requires forall j <- s.replicas[r].tasks :: j != k ==> j in e.replica.tasks
    requires k in s.replicas[r].tasks ==> !s.replicas[r].tasks[k].Import?
    requires k in e.replica.tasks ==> TaskOk(w, Apply(s, r, e), r, e.replica.tasks[k])
    requires MapsOk(w, Apply(s, r, e), r, e.replica.maps)
    requires forall p <- e.sent :: PacketOk(w, Apply(s, r, e), p)
    requires forall id <- e.begun :: TransferOk(w, Apply(s, r, e), id, e.begun[id])
    ensures EffectOk(w, s, r, e)
  {
    hide Inv, TaskOk, MapsOk, PacketOk, TransferOk, CursorsOk, RowsOk, Grows, Claim;
    Before(w, s, r, e);
  }

  /** A step whose guard fails. */
  lemma {:induction false} IdleOk(w: Wire, s: System, r: PeerId)
    requires Inv(w, s) && r in s.replicas
    ensures EffectOk(w, s, r, Local(s.replicas[r]))
  {
    Before(w, s, r, Local(s.replicas[r]));
  }

  /** With no cursor the window starts at the epoch, before every stamp. */
  lemma {:induction false} EpochClaim(w: Wire, s: System, r: PeerId, p: PeerId)
    requires Inv(w, s) && PeerOk(s, r, p)
    ensures Claim(s, r, p, 0, {})
  {
    assert ReplicaOk(w, s, r, s.replicas[r]);
  }

  lemma {:induction false} KnowReplica(w: Wire, s: System, r: PeerId)
    requires Inv(w, s) && r in s.replicas
    ensures s.replicas[r].clock > 0
    ensures forall p <- s.replicas[r].cursors :: PeerOk(s, r, p) && Claim(s, r, p, s.replicas[r].cursors[p], {})
  {
    assert ReplicaOk(w, s, r, s.replicas[r]);
  }

  lemma {:induction false} KnowPacket(w: Wire, s: System, packet: Packet)
    requires Inv(w, s) && packet in s.net
    ensures PacketOk(w, s, packet)
  {
  }

  lemma {:induction false} KnowTask(w: Wire, s: System, r: PeerId, k: nat)
    requires Inv(w, s) && r in s.replicas && k in s.replicas[r].tasks
    ensures TaskOk(w, s, r, s.replicas[r].tasks[k])
  {
  }

  lemma {:induction false} KnowIncoming(w: Wire, s: System, r: PeerId, p: PeerId)
    requires Inv(w, s) && r in s.replicas && p in s.replicas[r].maps.incoming
    ensures IncomingOk(w, s, r, p, s.replicas[r].maps.incoming[p])
  {
  }

  lemma {:induction false} TickOk(w: Wire, s: System, r: PeerId, elapsed: nat)
    requires Inv(w, s) && r in s.replicas
    ensures EffectOk(w, s, r, Tick(s.replicas[r], elapsed))
  {
    var e := Tick(s.replicas[r], elapsed);
    Before(w, s, r, e);
  }

  lemma {:induction false} BeginOk(w: Wire, s: System, r: PeerId, write: Write)
    requires Inv(w, s) && r in s.replicas
    ensures EffectOk(w, s, r, Begin(s.replicas[r], write))
  {
    Before(w, s, r, Begin(s.replicas[r], write));
  }

  lemma {:induction false} BeginImportOk(w: Wire, s: System, r: PeerId, k: nat)
    requires Inv(w, s) && r in s.replicas
    ensures EffectOk(w, s, r, BeginImport(s.replicas[r], k))
  {
    Before(w, s, r, BeginImport(s.replicas[r], k));
  }

  /** Every commit stamps at the horizon, so rows only grow above it. */
  lemma {:induction false} CommitEvolves(t: Table, write: Write)
    ensures Evolves(t, Commit(t, write), write.stamp)
    ensures RowsOk(t) && write.stamp >= 0 ==> RowsOk(Commit(t, write))
    ensures write.ImportFor? ==> Ids(write.messages) <= Commit(t, write).Keys
  {
    match write
    case Save(stamp, m) => ImportEvolves(t, [m], stamp);
    case Snapshot(stamp, ms) => UpsertEvolves(t, ms, stamp);
    case ImportFor(stamp, ms, _) => ImportEvolves(t, ms, stamp);
  }

  lemma {:induction false} EndWriteOk(w: Wire, s: System, r: PeerId, commit: bool)
    requires Inv(w, s) && r in s.replicas
    ensures EffectOk(w, s, r, EndWrite(s.replicas[r], commit))
  {
    var rep := s.replicas[r];
    var e := EndWrite(rep, commit);
    if rep.lock.Some? {
      CommitEvolves(rep.rows, rep.lock.value);
    }
    Before(w, s, r, e);
    if rep.lock.Some? && rep.lock.value.ImportFor? {
      EndImportOk(w, s, r, commit);
    }
  }

  lemma {:induction false} EndImportOk(w: Wire, s: System, r: PeerId, commit: bool)
    requires Inv(w, s) && r in s.replicas
    requires s.replicas[r].lock.Some? && s.replicas[r].lock.value.ImportFor?
    requires ReplicaGrows(s.replicas[r], EndWrite(s.replicas[r], commit).replica)
    ensures TasksOk(w, Apply(s, r, EndWrite(s.replicas[r], commit)), r, EndWrite(s.replicas[r], commit).replica.tasks)
  {
    hide Inv, PacketOk, TransferOk, OutgoingOk, Claim, MapsOk, CursorsOk, RowsOk, Grows, AckOk, HoldsPiecesOf,
         InsertMissing;
    var rep := s.replicas[r];
    var e := EndWrite(rep, commit);
    var k := rep.lock.value.task;
    CommitEvolves(rep.rows, rep.lock.value);
    Before(w, s, r, e);
    assert TaskOk(w, Apply(s, r, e), r, rep.tasks[k]);
  }

  lemma {:induction false} ConnectOk(w: Wire, s: System, r: PeerId, peer: PeerId, k: nat)
    requires Inv(w, s) && r in s.replicas && peer in s.replicas && peer != r
    ensures EffectOk(w, s, r, Connect(s.replicas[r], peer, k))
  {
    hide Inv, EffectOk, ReplicaOk, TasksOk, CursorsOk, Grows, ReplicaGrows, TransferOk, Claim, IncomingOk, OutgoingOk,
      Delivered;
    var rep := s.replicas[r];
    if peer in rep.maps.requested || k in rep.tasks {
      IdleOk(w, s, r);
    } else {
      QuietKeeps(w, s, r, Connect(rep, peer, k), k);
      QuietStep(w, s, r, Connect(rep, peer, k), k);
    }
  }

  lemma {:induction false} DisconnectOk(w: Wire, s: System, r: PeerId, peer: PeerId)
    requires Inv(w, s) && r in s.replicas
    ensures EffectOk(w, s, r, Disconnect(s.replicas[r], peer))
  {
    Before(w, s, r, Disconnect(s.replicas[r], peer));
  }

  lemma {:induction false} CrashOk(w: Wire, s: System, r: PeerId)
    requires Inv(w, s) && r in s.replicas
    ensures EffectOk(w, s, r, Crash(s.replicas[r]))
  {
    Before(w, s, r, Crash(s.replicas[r]));
  }

  // ---- Sending a delta ----

  lemma {:induction false} ReadCursorOk(w: Wire, s: System, r: PeerId, k: nat, ok: bool)
    requires Inv(w, s) && r in s.replicas && k in s.replicas[r].tasks && s.replicas[r].tasks[k].ReadCursor?
    ensures EffectOk(w, s, r, RunTask(w, s, r, s.replicas[r], k, ok))
  {
    hide Inv, EffectOk, ReplicaOk, TasksOk, CursorsOk, Grows, ReplicaGrows, TransferOk, Claim, IncomingOk, OutgoingOk,
      Delivered;
    var rep := s.replicas[r];
    var e := RunTask(w, s, r, rep, k, ok);
    QuietKeeps(w, s, r, e, k);
    var p := rep.tasks[k].peer;
    KnowReplica(w, s, r);
    KnowTask(w, s, r, k);
    EpochClaim(w, s, r, p);
    if p in rep.cursors {
      ClaimStable(s, Apply(s, r, e), r, p, rep.cursors[p], {});
    } else {
      ClaimStable(s, Apply(s, r, e), r, p, 0, {});
    }
    QuietStep(w, s, r, e, k);
  }

  lemma {:induction false} ReadClockOk(w: Wire, s: System, r: PeerId, k: nat, ok: bool)
    requires Inv(w, s) && r in s.replicas && k in s.replicas[r].tasks && s.replicas[r].tasks[k].ReadClock?
    ensures EffectOk(w, s, r, RunTask(w, s, r, s.replicas[r], k, ok))
  {
    hide Inv, EffectOk, ReplicaOk, TasksOk, CursorsOk, Grows, ReplicaGrows, TransferOk, Claim, IncomingOk, OutgoingOk,
      Delivered;
    var e := RunTask(w, s, r, s.replicas[r], k, ok);
    KnowReplica(w, s, r);
    QuietKeeps(w, s, r, e, k);
    QuietStep(w, s, r, e, k);
  }

  /** The heart of cursor safety. The scan holds the lock, so no writer with an
      earlier stamp is still in flight: what is stamped below the checkpoint is
      either below the old cursor, and already at the peer, or in the window. */
  lemma {:induction false} ScanOk(w: Wire, s: System, r: PeerId, k: nat, out: seq<Message>)
    requires Inv(w, s) && r in s.replicas
    ensures EffectOk(w, s, r, RunScan(s.replicas[r], k, out))
  {
    hide Inv, EffectOk, ReplicaOk, TasksOk, CursorsOk, Grows, ReplicaGrows, TransferOk, Claim, IncomingOk, OutgoingOk,
      Delivered;
    var rep := s.replicas[r];
    var e := RunScan(rep, k, out);
    if k !in rep.tasks || !rep.tasks[k].Scan? {
      IdleOk(w, s, r);
    } else {
      var Scan(p, since, checkpoint) := rep.tasks[k];
      QuietKeeps(w, s, r, e, k);
      if rep.lock.None? && checkpoint >= since && IsExport(rep.rows, since, checkpoint, out) {
        KnowTask(w, s, r, k);
        WindowClaim(s, r, p, since, checkpoint, out);
        ClaimStable(s, Apply(s, r, e), r, p, checkpoint, Ids(out));
      }
      QuietStep(w, s, r, e, k);
    }
  }

  lemma {:induction false} WindowClaim(s: System, r: PeerId, p: PeerId, since: int, checkpoint: int, out: seq<Message>)
    requires r in s.replicas && s.replicas[r].lock.None? && checkpoint <= s.replicas[r].clock
    requires Claim(s, r, p, since, {})
    requires IsExport(s.replicas[r].rows, since, checkpoint, out)
    ensures Claim(s, r, p, checkpoint, Ids(out))
    ensures Ids(out) <= s.replicas[r].rows.Keys
  {
    forall id <- s.replicas[r].rows | since <= s.replicas[r].rows[id].stamp < checkpoint
      ensures id in Ids(out)
    {
      assert InWindow(s.replicas[r].rows, since, checkpoint, id);
    }
  }

  lemma {:induction false} InstallOk(w: Wire, s: System, r: PeerId, k: nat, id: TransferId, out: seq<Message>)
    requires Inv(w, s) && r in s.replicas
    ensures EffectOk(w, s, r, RunInstall(w, s, r, s.replicas[r], k, id, out))
  {
    hide Inv, EffectOk, ReplicaOk, TasksOk, CursorsOk, Grows, ReplicaGrows, Claim, IncomingOk, Delivered;
    var rep := s.replicas[r];
    var e := RunInstall(w, s, r, rep, k, id, out);
    if k !in rep.tasks || !rep.tasks[k].Install? {
      IdleOk(w, s, r);
    } else {
      QuietKeeps(w, s, r, e, k);
      if M.IsSanitized(rep.tasks[k].messages, out, r) {
        M.SanitizedIds(rep.tasks[k].messages, out, r);
      }
      QuietStep(w, s, r, e, k);
    }
  }

  lemma {:induction false} SendPieceOk(w: Wire, s: System, r: PeerId, k: nat, ok: bool)
    requires Inv(w, s) && r in s.replicas && k in s.replicas[r].tasks && s.replicas[r].tasks[k].SendNext?
    ensures EffectOk(w, s, r, RunTask(w, s, r, s.replicas[r], k, ok))
  {
    hide Inv, EffectOk, ReplicaOk, TasksOk, CursorsOk, Grows, ReplicaGrows, TransferOk, Claim, IncomingOk, OutgoingOk,
      Delivered;
    var e := SendPiece(w, s, r, s.replicas[r], k, ok);
    QuietKeeps(w, s, r, e, k);
    QuietStep(w, s, r, e, k);
  }

  // ---- Finishing an import ----

  lemma {:induction false} FinishOk(w: Wire, s: System, r: PeerId, k: nat, ok: bool)
    requires Lawful(w) && Inv(w, s)
    requires r in s.replicas && k in s.replicas[r].tasks && s.replicas[r].tasks[k].Finish?
    ensures EffectOk(w, s, r, RunTask(w, s, r, s.replicas[r], k, ok))
  {
    hide Inv, EffectOk, ReplicaOk, TasksOk, CursorsOk, Grows, ReplicaGrows, TransferOk, Claim, OutgoingOk, Delivered;
    var e := RunTask(w, s, r, s.replicas[r], k, ok);
    QuietKeeps(w, s, r, e, k);
    KnowTask(w, s, r, k);
    FinishVerdict(w, s, r, s.replicas[r].tasks[k].peer, s.replicas[r].tasks[k].transfer);
    QuietStep(w, s, r, e, k);
  }

  /** An import that passes its checks holds the very messages of its transfer. */
  lemma {:induction false} FinishVerdict(w: Wire, s: System, r: PeerId, p: PeerId, t: Incoming)
    requires Lawful(w) && IncomingOk(w, s, r, p, t) && t.processing
    ensures Verdict(w, t).Ok? ==> Verdict(w, t).value.messages == s.transfers[t.transferId].messages
    ensures Flatten(SlotBytes(t.slots)) == Bytes(w, s.transfers[t.transferId])
  {
    var transfer := s.transfers[t.transferId];
    HonestVerdict(w, t, Delta(STATE_SYNC_VERSION, transfer.checkpoint, transfer.messages));
  }

  lemma {:induction false} ClearOk(w: Wire, s: System, r: PeerId, k: nat, ok: bool)
    requires Inv(w, s) && r in s.replicas && k in s.replicas[r].tasks && s.replicas[r].tasks[k].Clear?
    ensures EffectOk(w, s, r, RunTask(w, s, r, s.replicas[r], k, ok))
  {
    hide Inv, EffectOk, ReplicaOk, TasksOk, CursorsOk, Grows, ReplicaGrows, TransferOk, Claim, OutgoingOk, Delivered;
    var e := RunTask(w, s, r, s.replicas[r], k, ok);
    QuietKeeps(w, s, r, e, k);
    QuietStep(w, s, r, e, k);
  }

  lemma {:induction false} SetCursorOk(w: Wire, s: System, r: PeerId, k: nat, ok: bool)
    requires Inv(w, s) && r in s.replicas && k in s.replicas[r].tasks && s.replicas[r].tasks[k].SetCursor?
    ensures EffectOk(w, s, r, RunTask(w, s, r, s.replicas[r], k, ok))
  {
    hide Inv, PacketOk, TransferOk, OutgoingOk, IncomingOk, MapsOk, RowsOk, Grows, AckOk;
    var e := RunTask(w, s, r, s.replicas[r], k, ok);
    Before(w, s, r, e);
    assert TaskOk(w, Apply(s, r, e), r, s.replicas[r].tasks[k]);
  }

  /** The tasks that only send one packet, drop a map entry, or fail to scan. */
  lemma {:induction false} SmallTaskOk(w: Wire, s: System, r: PeerId, k: nat, ok: bool)
    requires Inv(w, s) && r in s.replicas && k in s.replicas[r].tasks
    requires var t := s.replicas[r].tasks[k];
             t.SendRequest? || t.SendFailure? || t.SendAck? || t.DropTransfer? || t.Scan?
    ensures EffectOk(w, s, r, RunTask(w, s, r, s.replicas[r], k, ok))
  {
    hide Inv, EffectOk, ReplicaOk, TasksOk, CursorsOk, Grows, ReplicaGrows, TransferOk, Claim, IncomingOk, OutgoingOk,
      Delivered;
    var e := RunTask(w, s, r, s.replicas[r], k, ok);
    QuietKeeps(w, s, r, e, k);
    QuietStep(w, s, r, e, k);
  }

  lemma {:induction false} RunTaskOk(w: Wire, s: System, r: PeerId, k: nat, ok: bool)
    requires Lawful(w) && Inv(w, s) && r in s.replicas
    ensures EffectOk(w, s, r, RunTask(w, s, r, s.replicas[r], k, ok))
  {
    hide Inv, EffectOk, SendPiece;
    if k !in s.replicas[r].tasks {
      IdleOk(w, s, r);
    } else {
      match s.replicas[r].tasks[k]
      case ReadCursor(_) => ReadCursorOk(w, s, r, k, ok);
      case ReadClock(_, _) => ReadClockOk(w, s, r, k, ok);
      case SendNext(_, _, _) => SendPieceOk(w, s, r, k, ok);
      case Finish(_, _) => FinishOk(w, s, r, k, ok);
      case Clear(_, _, _) => ClearOk(w, s, r, k, ok);
      case SetCursor(_, _, _) => SetCursorOk(w, s, r, k, ok);
      case Install(_, _, _) => IdleOk(w, s, r);
      case Import(_, _, _) => IdleOk(w, s, r);
      case _ => SmallTaskOk(w, s, r, k, ok);
    }
  }

  // ---- Receiving ----

  lemma {:induction false} ReceiveOk(w: Wire, s: System, r: PeerId, packet: Packet, k: nat)
    requires Inv(w, s) && r in s.replicas && packet in s.net && packet.to == r
    ensures EffectOk(w, s, r, Receive(s.replicas[r], packet, k))
  {
    match packet.payload
    case Request => ReceiveRequestOk(w, s, r, packet, k);
    case ManifestMsg(_) => ReceiveManifestOk(w, s, r, packet, k);
    case ChunkMsg(_) => ReceiveChunkOk(w, s, r, packet, k);
    case AckMsg(_) => ReceiveAckOk(w, s, r, packet, k);
  }

  lemma {:induction false} ReceiveRequestOk(w: Wire, s: System, r: PeerId, packet: Packet, k: nat)
    requires Inv(w, s) && r in s.replicas && packet in s.net && packet.to == r && packet.payload.Request?
    ensures EffectOk(w, s, r, Receive(s.replicas[r], packet, k))
  {
    hide Inv, EffectOk, ReplicaOk, TasksOk, CursorsOk, Grows, ReplicaGrows, TransferOk, Claim, IncomingOk, OutgoingOk,
      Delivered;
    var e := Receive(s.replicas[r], packet, k);
    QuietKeeps(w, s, r, e, k);
    KnowPacket(w, s, packet);
    if k in s.replicas[r].tasks { IdleOk(w, s, r); } else { QuietStep(w, s, r, e, k); }
  }

  lemma {:induction false} ReceiveManifestOk(w: Wire, s: System, r: PeerId, packet: Packet, k: nat)
    requires Inv(w, s) && r in s.replicas && packet in s.net && packet.to == r && packet.payload.ManifestMsg?
    ensures EffectOk(w, s, r, Receive(s.replicas[r], packet, k))
  {
    hide Inv, EffectOk, ReplicaOk, TasksOk, CursorsOk, Grows, ReplicaGrows, TransferOk, Claim, OutgoingOk, Delivered;
    var rep := s.replicas[r];
    var e := Receive(rep, packet, k);
    if k in rep.tasks {
      IdleOk(w, s, r);
    } else {
      QuietKeeps(w, s, r, e, k);
      KnowPacket(w, s, packet);
      var m := packet.payload.manifest;
      if ValidManifest(m) {
        FilledBounds(FreshIncoming(m, rep.nextObj).slots);
      }
      QuietStep(w, s, r, e, k);
    }
  }

  lemma {:induction false} ReceiveChunkOk(w: Wire, s: System, r: PeerId, packet: Packet, k: nat)
    requires Inv(w, s) && r in s.replicas && packet in s.net && packet.to == r && packet.payload.ChunkMsg?
    ensures EffectOk(w, s, r, Receive(s.replicas[r], packet, k))
  {
    hide Inv, EffectOk, ReplicaOk, TasksOk, CursorsOk, Grows, ReplicaGrows, TransferOk, Claim, IncomingOk, OutgoingOk,
      Delivered;
    var rep := s.replicas[r];
    var e := Receive(rep, packet, k);
    if k in rep.tasks {
      IdleOk(w, s, r);
    } else {
      QuietKeeps(w, s, r, e, k);
      KnowPacket(w, s, packet);
      var c, p := packet.payload.chunk, packet.from;
      if p in rep.maps.incoming && rep.maps.incoming[p].transferId == c.transferId && !rep.maps.incoming[p].processing {
        KnowIncoming(w, s, r, p);
        ChunkIncoming(w, s, r, rep.maps, packet);
        IncomingStable(w, s, Apply(s, r, e), r, p, AcceptChunk(rep.maps, p, c).0.incoming[p]);
      }
      QuietStep(w, s, r, e, k);
    }
  }

  /** An honest chunk is accepted, and leaves the transfer in order. */
  lemma {:induction false} ChunkIncoming(w: Wire, s: System, r: PeerId, maps: SyncMaps, packet: Packet)
    requires packet.payload.ChunkMsg? && PacketOk(w, s, packet) && packet.to == r
    requires var p, c := packet.from, packet.payload.chunk;
             p in maps.incoming && maps.incoming[p].transferId == c.transferId
             && !maps.incoming[p].processing && IncomingOk(w, s, r, p, maps.incoming[p])
    ensures var (maps', outcome) := AcceptChunk(maps, packet.from, packet.payload.chunk);
            && packet.from in maps'.incoming
            && maps' == maps.(incoming := maps.incoming[packet.from := maps'.incoming[packet.from]])
            && IncomingOk(w, s, r, packet.from, maps'.incoming[packet.from])
            && (outcome == ChunkStored || outcome == Complete(maps'.incoming[packet.from]))
            && (outcome.Complete? ==> maps'.incoming[packet.from].processing)
  {
    HonestChunk(maps, packet.from, packet.payload.chunk, Bytes(w, s.transfers[packet.payload.chunk.transferId]));
  }

  lemma {:induction false} ReceiveAckOk(w: Wire, s: System, r: PeerId, packet: Packet, k: nat)
    requires Inv(w, s) && r in s.replicas && packet in s.net && packet.to == r && packet.payload.AckMsg?
    ensures EffectOk(w, s, r, Receive(s.replicas[r], packet, k))
  {
    hide Inv, EffectOk, ReplicaOk, TasksOk, CursorsOk, Grows, ReplicaGrows, TransferOk, Claim, IncomingOk, OutgoingOk,
      Delivered;
    var rep := s.replicas[r];
    var e := Receive(rep, packet, k);
    if k in rep.tasks {
      IdleOk(w, s, r);
    } else {
      QuietKeeps(w, s, r, e, k);
      KnowPacket(w, s, packet);
      var ack, p := packet.payload.ack, packet.from;
      if !ack.error {
        AckedClaim(w, s, ack.transferId);
        ClaimStable(s, Apply(s, r, e), r, p, ack.checkpoint, {});
      }
      QuietStep(w, s, r, e, k);
    }
  }

  /** A delivered transfer lets its sender's cursor move to its checkpoint. */
  lemma {:induction false} AckedClaim(w: Wire, s: System, id: TransferId)
    requires Inv(w, s) && Delivered(s, id)
    ensures Claim(s, s.transfers[id].from, s.transfers[id].to, s.transfers[id].checkpoint, {})
  {
    assert TransferOk(w, s, id, s.transfers[id]);
  }

  /** Every action of a replica meets the obligations. */
  lemma {:induction false} EffectIsOk(w: Wire, s: System, r: PeerId, a: Action)
    requires Lawful(w) && Inv(w, s) && r in s.replicas
    ensures EffectOk(w, s, r, EffectOf(w, s, r, a))
  {
    hide Inv, EffectOk, Apply, Receive, RunTask, RunScan, RunInstall, EndWrite, BeginImport, Begin, Connect, Disconnect,
      Crash, Tick;
    match a
    case ATick(elapsed) => TickOk(w, s, r, elapsed);
    case ABegin(write) => BeginOk(w, s, r, write);
    case ABeginImport(k) => BeginImportOk(w, s, r, k);
    case AEndWrite(commit) => EndWriteOk(w, s, r, commit);
    case AConnect(peer, k) =>
      if peer in s.replicas && peer != r { ConnectOk(w, s, r, peer, k); } else { IdleOk(w, s, r); }
    case ADisconnect(peer) => DisconnectOk(w, s, r, peer);
    case ARun(k, ok) => RunTaskOk(w, s, r, k, ok);
    case AScan(k, out) => ScanOk(w, s, r, k, out);
    case AInstall(k, id, out) => InstallOk(w, s, r, k, id, out);
    case AReceive(packet, k) =>
      if packet in s.net && packet.to == r { ReceiveOk(w, s, r, packet, k); } else { IdleOk(w, s, r); }
    case ACrash => CrashOk(w, s, r);
  }

  /** Every step of every replica keeps the invariant, and only grows. */
  lemma {:induction false} NextKeepsInv(w: Wire, s: System, step: (PeerId, Action))
    requires Lawful(w) && Inv(w, s)
    ensures Inv(w, Next(w, s, step))
    ensures step.0 in s.replicas ==> ReplicaGrows(s.replicas[step.0], EffectOf(w, s, step.0, step.1).replica)
  {
    hide Inv, EffectOf, ReplicaOk, PacketOk, TransferOk, ReplicaGrows;
    if step.0 in s.replicas {
      EffectIsOk(w, s, step.0, step.1);
      ApplyKeepsInv(w, s, step.0, EffectOf(w, s, step.0, step.1));
    }
  }
}

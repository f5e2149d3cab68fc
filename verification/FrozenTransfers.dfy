/** The importing goroutine reads the very slots the chunk handler filled: once a
    transfer is being processed, no later chunk, manifest or disconnect changes the
    object it works on. */
module FrozenTransfers {
  import opened Basics
  import opened Messages
  import opened Transfers
  import opened Replication

  predicate Works(task: Task) {
    task.Finish? || task.Import? || task.Clear?
  }

  /** The map either no longer holds a task's object or holds it unchanged. */
  predicate Live(maps: SyncMaps, nextObj: nat, task: Task) {
    Works(task) ==>
      && task.transfer.processing
      && task.transfer.obj < nextObj
      && (task.peer in maps.incoming && maps.incoming[task.peer].obj == task.transfer.obj ==>
            maps.incoming[task.peer] == task.transfer)
  }

  predicate ObjectsOld(maps: SyncMaps, nextObj: nat) {
    forall p <- maps.incoming :: maps.incoming[p].obj < nextObj
  }

  predicate Frozen(rep: Replica) {
    && ObjectsOld(rep.maps, rep.nextObj)
    && forall k <- rep.tasks :: Live(rep.maps, rep.nextObj, rep.tasks[k])
  }

  /** Handlers only drop entries, leave them, or replace them by newer objects. */
  lemma {:induction false} ManifestKeepsLive(rep: Replica, peer: PeerId, m: Manifest, task: Task)
    requires ObjectsOld(rep.maps, rep.nextObj) && Live(rep.maps, rep.nextObj, task)
    ensures ObjectsOld(AcceptManifest(rep.maps, peer, m, rep.nextObj), rep.nextObj + 1)
    ensures Live(AcceptManifest(rep.maps, peer, m, rep.nextObj), rep.nextObj + 1, task)
  {
  }

  lemma {:induction false} ChunkKeepsLive(rep: Replica, peer: PeerId, c: SyncChunk, task: Task)
    requires ObjectsOld(rep.maps, rep.nextObj) && Live(rep.maps, rep.nextObj, task)
    ensures ObjectsOld(AcceptChunk(rep.maps, peer, c).0, rep.nextObj)
    ensures Live(AcceptChunk(rep.maps, peer, c).0, rep.nextObj, task)
    ensures var (maps, outcome) := AcceptChunk(rep.maps, peer, c);
            outcome.Complete? ==> Live(maps, rep.nextObj, Finish(peer, outcome.transfer))
  {
  }

  lemma {:induction false} ReceiveFrozen(rep: Replica, packet: Packet, k: nat)
    requires Frozen(rep)
    ensures Frozen(Receive(rep, packet, k).replica)
  {
    hide AcceptManifest, AcceptChunk, ObjectsOld, Live;
    var rep' := Receive(rep, packet, k).replica;
    match packet.payload
    case ManifestMsg(m) =>
      ManifestKeepsLive(rep, packet.from, m, SendRequest(packet.from)) by {
        FreshTaskLive(rep, SendRequest(packet.from));
      }
      forall j <- rep.tasks {
        ManifestKeepsLive(rep, packet.from, m, rep.tasks[j]);
      }
    case ChunkMsg(c) =>
      ChunkKeepsLive(rep, packet.from, c, SendRequest(packet.from)) by { FreshTaskLive(rep, SendRequest(packet.from)); }
      forall j <- rep.tasks {
        ChunkKeepsLive(rep, packet.from, c, rep.tasks[j]);
      }
      forall j <- rep'.tasks
        ensures Live(rep'.maps, rep'.nextObj, rep'.tasks[j])
      {
        if !Works(rep'.tasks[j]) { FreshTaskLive(rep', rep'.tasks[j]); }
      }
    case Request =>
      FreshTaskLive(rep', ReadCursor(packet.from));
    case AckMsg(ack) =>
      forall j <- rep'.tasks
        ensures Live(rep'.maps, rep'.nextObj, rep'.tasks[j])
      {
        if !Works(rep'.tasks[j]) { FreshTaskLive(rep', rep'.tasks[j]); } else { SameIncoming(rep, rep', rep.tasks[j]); }
      }
      SameIncoming(rep, rep', SendRequest(packet.from)) by { FreshTaskLive(rep, SendRequest(packet.from)); }
  }

  lemma {:induction false} FreshTaskLive(rep: Replica, task: Task)
    requires !Works(task)
    ensures Live(rep.maps, rep.nextObj, task)
  {
  }

  lemma {:induction false} SameIncoming(rep: Replica, rep': Replica, task: Task)
    requires rep'.nextObj == rep.nextObj
    requires forall p <- rep'.maps.incoming :: p in rep.maps.incoming && rep'.maps.incoming[p] == rep.maps.incoming[p]
    requires ObjectsOld(rep.maps, rep.nextObj) && Live(rep.maps, rep.nextObj, task)
    ensures ObjectsOld(rep'.maps, rep'.nextObj) && Live(rep'.maps, rep'.nextObj, task)
  {
  }

  /** A step that only drops incoming entries, and whose working tasks carry on with
      the transfer of a working task of the same peer. */
  lemma {:induction false} CarriesOn(rep: Replica, rep': Replica)
    requires Frozen(rep) && rep'.nextObj == rep.nextObj
    requires forall p <- rep'.maps.incoming :: p in rep.maps.incoming && rep'.maps.incoming[p] == rep.maps.incoming[p]
    requires forall k <- rep'.tasks :: Works(rep'.tasks[k]) ==>
               k in rep.tasks && Works(rep.tasks[k])
               && rep'.tasks[k].peer == rep.tasks[k].peer && rep'.tasks[k].transfer == rep.tasks[k].transfer
    ensures Frozen(rep')
  {
    forall k <- rep'.tasks
      ensures Live(rep'.maps, rep'.nextObj, rep'.tasks[k])
    {
      if Works(rep'.tasks[k]) {
        assert Live(rep.maps, rep.nextObj, rep.tasks[k]);
      }
    }
  }

  lemma {:induction false} SendPieceFrozen(w: Wire, s: System, r: PeerId, rep: Replica, k: nat, ok: bool)
    requires Frozen(rep)
    ensures Frozen(SendPiece(w, s, r, rep, k, ok).replica)
  {
    hide Frozen, Bytes, ManifestOf;
    CarriesOn(rep, SendPiece(w, s, r, rep, k, ok).replica);
  }

  lemma {:induction false} RunTaskFrozen(w: Wire, s: System, r: PeerId, rep: Replica, k: nat, ok: bool)
    requires Frozen(rep)
    ensures Frozen(RunTask(w, s, r, rep, k, ok).replica)
  {
    hide Frozen, SendPiece, Verdict;
    if k in rep.tasks {
      match rep.tasks[k]
      case SendNext(_, _, _) => SendPieceFrozen(w, s, r, rep, k, ok);
      case _ => CarriesOn(rep, RunTask(w, s, r, rep, k, ok).replica);
    }
  }

  lemma {:induction false} ScanFrozen(rep: Replica, k: nat, out: seq<Message>)
    requires Frozen(rep)
    ensures Frozen(RunScan(rep, k, out).replica)
  {
    hide Frozen, IsExport;
    CarriesOn(rep, RunScan(rep, k, out).replica);
  }

  lemma {:induction false} InstallFrozen(w: Wire, s: System, r: PeerId, rep: Replica, k: nat, id: TransferId,
                                        out: seq<Message>)
    requires Frozen(rep)
    ensures Frozen(RunInstall(w, s, r, rep, k, id, out).replica)
  {
    hide Frozen, Bytes;
    CarriesOn(rep, RunInstall(w, s, r, rep, k, id, out).replica);
  }

  lemma {:induction false} StepFrozen(w: Wire, s: System, r: PeerId, a: Action)
    requires r in s.replicas && Frozen(s.replicas[r])
    ensures Frozen(EffectOf(w, s, r, a).replica)
  {
    hide Frozen, Receive, RunTask, RunScan, RunInstall, Commit;
    var rep := s.replicas[r];
    match a
    case ARun(k, ok) => RunTaskFrozen(w, s, r, rep, k, ok);
    case AScan(k, out) => ScanFrozen(rep, k, out);
    case AInstall(k, id, out) => InstallFrozen(w, s, r, rep, k, id, out);
    case AReceive(packet, k) => ReceiveFrozen(rep, packet, k);
    case _ => CarriesOn(rep, EffectOf(w, s, r, a).replica);
  }

  ghost predicate AllFrozen(s: System) {
    forall r <- s.replicas :: Frozen(s.replicas[r])
  }

  lemma {:induction false} NextFrozen(w: Wire, s: System, step: (PeerId, Action))
    requires AllFrozen(s)
    ensures AllFrozen(Next(w, s, step))
  {
    hide Frozen, EffectOf;
    if step.0 in s.replicas {
      StepFrozen(w, s, step.0, step.1);
    }
  }

  /** In every run: while a goroutine processes a transfer, the map either no longer
      holds that transfer or holds it slot for slot as it was when it completed. */
  lemma {:induction false} SlotsFrozenWhileProcessing(w: Wire, s: System, steps: seq<(PeerId, Action)>)
    requires Initial(s)
    ensures AllFrozen(Exec(w, s, steps))
  {
    hide Next;
    if steps != [] {
      SlotsFrozenWhileProcessing(w, s, steps[..|steps|-1]);
      NextFrozen(w, Exec(w, s, steps[..|steps|-1]), steps[|steps|-1]);
    }
  }
}

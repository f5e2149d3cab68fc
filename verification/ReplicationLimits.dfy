/** What the decoder's size limit means for the cursors of a whole run: only exports
    within the limit ever move them. */
module ReplicationLimits {
  import opened Basics
  import opened Messages
  import opened Transfers
  import opened Replication
  import opened ReplicationInvariant
  import opened ReplicationSteps
  import T = ReplicationTheorems

  // ---- What success at a peer tells about the size ----

  predicate Fits(w: Wire, transfers: map<TransferId, Transfer>, id: TransferId) {
    id in transfers && Small(w, transfers[id])
  }

  /** The checkpoint of a transfer from r to p within the limit. */
  predicate SmallExport(w: Wire, transfers: map<TransferId, Transfer>, r: PeerId, p: PeerId, c: int, id: TransferId) {
    Fits(w, transfers, id) && transfers[id].from == r && transfers[id].to == p && transfers[id].checkpoint == c
  }

  predicate TaskFits(w: Wire, transfers: map<TransferId, Transfer>, r: PeerId, task: Task) {
    match task
    case Import(_, t, _) => Fits(w, transfers, t.transferId)
    case Clear(_, t, failed) => !failed ==> Fits(w, transfers, t.transferId)
    case SendAck(_, ack) => !ack.error ==> Fits(w, transfers, ack.transferId)
    case SetCursor(p, id, c) => SmallExport(w, transfers, r, p, c, id)
    case _ => true
  }

  predicate PacketFits(w: Wire, transfers: map<TransferId, Transfer>, packet: Packet) {
    packet.payload.AckMsg? && !packet.payload.ack.error ==> Fits(w, transfers, packet.payload.ack.transferId)
  }

  ghost predicate CursorFits(w: Wire, transfers: map<TransferId, Transfer>, r: PeerId, p: PeerId, c: int) {
    exists id :: SmallExport(w, transfers, r, p, c, id)
  }

  ghost predicate ReplicaFits(w: Wire, transfers: map<TransferId, Transfer>, r: PeerId, rep: Replica) {
    && (forall k <- rep.tasks :: TaskFits(w, transfers, r, rep.tasks[k]))
    && (forall p <- rep.cursors :: CursorFits(w, transfers, r, p, rep.cursors[p]))
  }

  ghost predicate Limited(w: Wire, s: System) {
    && (forall r <- s.replicas :: ReplicaFits(w, s.transfers, r, s.replicas[r]))
    && (forall packet <- s.net :: PacketFits(w, s.transfers, packet))
  }

  // ---- Every step keeps it ----

  ghost predicate EffectFits(w: Wire, s: System, r: PeerId, e: Effect) {
    && ReplicaFits(w, s.transfers, r, e.replica)
    && (forall packet <- e.sent :: PacketFits(w, s.transfers, packet))
  }

  /** No new task but k, which fits like each packet sent, and no new cursor. */
  predicate Plain(w: Wire, transfers: map<TransferId, Transfer>, r: PeerId, rep: Replica, e: Effect, k: nat) {
    && e.replica.cursors == rep.cursors
    && (forall j <- e.replica.tasks :: j != k ==> j in rep.tasks && e.replica.tasks[j] == rep.tasks[j])
    && (k in e.replica.tasks ==>
          || (k in rep.tasks && e.replica.tasks[k] == rep.tasks[k])
          || TaskFits(w, transfers, r, e.replica.tasks[k]))
    && (forall packet <- e.sent :: PacketFits(w, transfers, packet))
  }

  lemma {:induction false} PlainFits(w: Wire, s: System, r: PeerId, e: Effect, k: nat)
    requires r in s.replicas && Limited(w, s) && Plain(w, s.transfers, r, s.replicas[r], e, k)
    ensures EffectFits(w, s, r, e)
  {
    hide TaskFits, CursorFits, PacketFits;
    assert ReplicaFits(w, s.transfers, r, s.replicas[r]);
  }

  /** A transfer passes its checks only within the limit. */
  lemma {:induction false} VerdictFits(w: Wire, s: System, r: PeerId, p: PeerId, t: Incoming)
    requires Lawful(w) && IncomingOk(w, s, r, p, t) && t.processing
    ensures Verdict(w, t).Ok? ==> Fits(w, s.transfers, t.transferId)
  {
    var transfer := s.transfers[t.transferId];
    HonestVerdict(w, t, Delta(STATE_SYNC_VERSION, transfer.checkpoint, transfer.messages));
  }

  lemma {:induction false} FinishFits(w: Wire, s: System, r: PeerId, k: nat, ok: bool)
    requires Lawful(w) && Inv(w, s) && Limited(w, s)
    requires r in s.replicas && k in s.replicas[r].tasks && s.replicas[r].tasks[k].Finish?
    ensures EffectFits(w, s, r, RunTask(w, s, r, s.replicas[r], k, ok))
  {
    hide Inv, Limited, EffectFits, Verdict, Fits, Lawful;
    KnowTask(w, s, r, k);
    VerdictFits(w, s, r, s.replicas[r].tasks[k].peer, s.replicas[r].tasks[k].transfer);
    hide TaskOk, IncomingOk;
    PlainFits(w, s, r, RunTask(w, s, r, s.replicas[r], k, ok), k);
  }

  lemma {:induction false} CursorWriteFits(w: Wire, s: System, r: PeerId, k: nat, ok: bool)
    requires Limited(w, s) && r in s.replicas && k in s.replicas[r].tasks && s.replicas[r].tasks[k].SetCursor?
    ensures EffectFits(w, s, r, RunTask(w, s, r, s.replicas[r], k, ok))
  {
    hide SmallExport, PacketFits;
    var rep := s.replicas[r];
    var e := RunTask(w, s, r, rep, k, ok);
    var SetCursor(p, id, c) := rep.tasks[k];
    assert ReplicaFits(w, s.transfers, r, rep) && TaskFits(w, s.transfers, r, rep.tasks[k]);
    assert CursorFits(w, s.transfers, r, p, c);
  }

  lemma {:induction false} SendPieceFits(w: Wire, s: System, r: PeerId, k: nat, ok: bool)
    requires Limited(w, s) && r in s.replicas
    ensures EffectFits(w, s, r, SendPiece(w, s, r, s.replicas[r], k, ok))
  {
    hide Limited, EffectFits, Bytes, ManifestOf;
    PlainFits(w, s, r, SendPiece(w, s, r, s.replicas[r], k, ok), k);
  }

  lemma {:induction false} TaskKnown(w: Wire, s: System, r: PeerId, k: nat)
    requires Limited(w, s) && r in s.replicas && k in s.replicas[r].tasks
    ensures TaskFits(w, s.transfers, r, s.replicas[r].tasks[k])
  {
    assert ReplicaFits(w, s.transfers, r, s.replicas[r]);
  }

  lemma {:induction false} OtherTasksPlain(w: Wire, s: System, r: PeerId, rep: Replica, k: nat, ok: bool)
    requires k in rep.tasks && TaskFits(w, s.transfers, r, rep.tasks[k])
    requires !rep.tasks[k].Finish? && !rep.tasks[k].SetCursor? && !rep.tasks[k].SendNext?
    ensures Plain(w, s.transfers, r, rep, RunTask(w, s, r, rep, k, ok), k)
  {
    hide Fits, SmallExport, SendPiece, Verdict;
  }

  lemma {:induction false} RunTaskFits(w: Wire, s: System, r: PeerId, k: nat, ok: bool)
    requires Lawful(w) && Inv(w, s) && Limited(w, s) && r in s.replicas
    ensures EffectFits(w, s, r, RunTask(w, s, r, s.replicas[r], k, ok))
  {
    hide Inv, Limited, EffectFits, SendPiece, Verdict;
    if k !in s.replicas[r].tasks {
      PlainFits(w, s, r, Local(s.replicas[r]), k);
    } else if s.replicas[r].tasks[k].Finish? {
      FinishFits(w, s, r, k, ok);
    } else if s.replicas[r].tasks[k].SetCursor? {
      CursorWriteFits(w, s, r, k, ok);
    } else if s.replicas[r].tasks[k].SendNext? {
      SendPieceFits(w, s, r, k, ok);
    } else {
      TaskKnown(w, s, r, k);
      OtherTasksPlain(w, s, r, s.replicas[r], k, ok);
      hide RunTask, Plain;
      PlainFits(w, s, r, RunTask(w, s, r, s.replicas[r], k, ok), k);
    }
  }

  lemma {:induction false} OutgoingKnown(w: Wire, s: System, r: PeerId, p: PeerId)
    requires Inv(w, s) && r in s.replicas && p in s.replicas[r].maps.outgoing
    ensures OutgoingOk(s, r, p, s.replicas[r].maps.outgoing[p])
  {
    assert ReplicaOk(w, s, r, s.replicas[r]);
  }

  /** A matching acknowledgement is about this replica's own transfer to that peer. */
  lemma {:induction false} AckPlain(w: Wire, s: System, r: PeerId, rep: Replica, packet: Packet, k: nat)
    requires packet.payload.AckMsg? && PacketFits(w, s.transfers, packet)
    requires packet.from in rep.maps.outgoing ==> OutgoingOk(s, r, packet.from, rep.maps.outgoing[packet.from])
    ensures Plain(w, s.transfers, r, rep, Receive(rep, packet, k), k)
  {
    hide Small;
  }

  lemma {:induction false} OtherPacketsPlain(w: Wire, s: System, r: PeerId, rep: Replica, packet: Packet, k: nat)
    requires !packet.payload.AckMsg?
    ensures Plain(w, s.transfers, r, rep, Receive(rep, packet, k), k)
  {
    hide AcceptChunk, AcceptManifest, Fits, SmallExport;
  }

  lemma {:induction false} ReceiveFits(w: Wire, s: System, r: PeerId, packet: Packet, k: nat)
    requires Inv(w, s) && Limited(w, s) && r in s.replicas && packet in s.net
    ensures EffectFits(w, s, r, Receive(s.replicas[r], packet, k))
  {
    assert PacketFits(w, s.transfers, packet);
    hide Inv, Limited, EffectFits, Receive, Plain, PacketFits, OutgoingOk;
    if packet.payload.AckMsg? {
      if packet.from in s.replicas[r].maps.outgoing { OutgoingKnown(w, s, r, packet.from); }
      AckPlain(w, s, r, s.replicas[r], packet, k);
    } else {
      OtherPacketsPlain(w, s, r, s.replicas[r], packet, k);
    }
    PlainFits(w, s, r, Receive(s.replicas[r], packet, k), k);
  }

  /** The end of an import: what was imported was within the limit. */
  lemma {:induction false} EndWriteFits(w: Wire, s: System, r: PeerId, commit: bool)
    requires Limited(w, s) && r in s.replicas
    ensures EffectFits(w, s, r, EndWrite(s.replicas[r], commit))
  {
    var rep := s.replicas[r];
    assert ReplicaFits(w, s.transfers, r, rep);
    var k := if rep.lock.Some? && rep.lock.value.ImportFor? then rep.lock.value.task else 0;
    assert k in rep.tasks ==> TaskFits(w, s.transfers, r, rep.tasks[k]);
    hide Limited, EffectFits, ReplicaFits, Fits, Replication.Commit;
    PlainFits(w, s, r, EndWrite(rep, commit), k);
  }

  lemma {:induction false} ExportPlain(w: Wire, s: System, r: PeerId, rep: Replica, k: nat, id: TransferId,
                                       out: seq<Message>)
    ensures Plain(w, s.transfers, r, rep, RunScan(rep, k, out), k)
    ensures Plain(w, s.transfers, r, rep, RunInstall(w, s, r, rep, k, id, out), k)
  {
    hide IsExport, Bytes;
  }

  lemma {:induction false} LocalPlain(w: Wire, s: System, r: PeerId, a: Action) returns (k: nat)
    requires r in s.replicas
    requires !a.ARun? && !a.AEndWrite? && !a.AReceive? && !a.AScan? && !a.AInstall?
    ensures Plain(w, s.transfers, r, s.replicas[r], EffectOf(w, s, r, a), k)
  {
    hide RunTask, EndWrite, Receive, RunScan, RunInstall;
    k := if a.AConnect? then a.task else 0;
  }

  lemma {:induction false} ActionFits(w: Wire, s: System, r: PeerId, a: Action)
    requires Lawful(w) && Inv(w, s) && Limited(w, s) && r in s.replicas
    ensures EffectFits(w, s, r, EffectOf(w, s, r, a))
  {
    hide Inv, Limited, EffectFits, Receive, RunTask, EndWrite, RunScan, RunInstall, Plain;
    match a
    case ARun(k, ok) => RunTaskFits(w, s, r, k, ok);
    case AEndWrite(commit) => EndWriteFits(w, s, r, commit);
    case AReceive(packet, k) =>
      if packet in s.net && packet.to == r {
        ReceiveFits(w, s, r, packet, k);
      } else {
        NothingPlain(w, s, r, k);
        PlainFits(w, s, r, Local(s.replicas[r]), k);
      }
    case AScan(k, out) =>
      ExportPlain(w, s, r, s.replicas[r], k, "", out);
      PlainFits(w, s, r, RunScan(s.replicas[r], k, out), k);
    case AInstall(k, id, out) =>
      ExportPlain(w, s, r, s.replicas[r], k, id, out);
      PlainFits(w, s, r, RunInstall(w, s, r, s.replicas[r], k, id, out), k);
    case _ =>
      var k := LocalPlain(w, s, r, a);
      hide EffectOf;
      PlainFits(w, s, r, EffectOf(w, s, r, a), k);
  }

  lemma {:induction false} NothingPlain(w: Wire, s: System, r: PeerId, k: nat)
    requires r in s.replicas
    ensures Plain(w, s.transfers, r, s.replicas[r], Local(s.replicas[r]), k)
  {
  }

  /** Transfers are never forgotten or changed. */
  lemma {:induction false} MoreTransfers(w: Wire, transfers: map<TransferId, Transfer>,
                                         begun: map<TransferId, Transfer>, r: PeerId, rep: Replica)
    requires ReplicaFits(w, transfers, r, rep) && transfers.Keys !! begun.Keys
    ensures ReplicaFits(w, transfers + begun, r, rep)
  {
    hide Small;
    forall p <- rep.cursors
      ensures CursorFits(w, transfers + begun, r, p, rep.cursors[p])
    {
      var id :| SmallExport(w, transfers, r, p, rep.cursors[p], id);
      assert SmallExport(w, transfers + begun, r, p, rep.cursors[p], id);
    }
  }

  lemma {:induction false} ApplyKeepsLimited(w: Wire, s: System, r: PeerId, e: Effect)
    requires Limited(w, s) && r in s.replicas && EffectFits(w, s, r, e) && s.transfers.Keys !! e.begun.Keys
    ensures Limited(w, Apply(s, r, e))
  {
    hide ReplicaFits, Small;
    var s' := Apply(s, r, e);
    forall q <- s'.replicas
      ensures ReplicaFits(w, s'.transfers, q, s'.replicas[q])
    {
      MoreTransfers(w, s.transfers, e.begun, q, s'.replicas[q]);
    }
  }

  lemma {:induction false} NextKeepsLimited(w: Wire, s: System, step: (PeerId, Action))
    requires Lawful(w) && Inv(w, s) && Limited(w, s)
    ensures Limited(w, Next(w, s, step))
  {
    hide Inv, Limited, EffectOf, EffectFits, Apply, ReplicaOk, ReplicaGrows, PacketOk, TransferOk;
    if step.0 in s.replicas {
      ActionFits(w, s, step.0, step.1);
      EffectIsOk(w, s, step.0, step.1);
      ApplyKeepsLimited(w, s, step.0, EffectOf(w, s, step.0, step.1));
    }
  }

  lemma {:induction false} RunKeepsLimited(w: Wire, s: System, steps: seq<(PeerId, Action)>)
    requires Lawful(w) && Initial(s)
    ensures Limited(w, Exec(w, s, steps))
  {
    T.InitialInv(w, s);
    if steps != [] {
      var init := steps[..|steps|-1];
      RunKeepsLimited(w, s, init);
      T.RunKeepsInv(w, s, init);
      hide Inv, Next, Limited, Initial;
      NextKeepsLimited(w, Exec(w, s, init), steps[|steps|-1]);
    }
  }

  // ---- Theorems ----

  /** In every run a cursor for b stands at the checkpoint of an export from a to b whose
      JSON is within the limit. */
  lemma {:induction false} CursorsStandOnSmallExports(w: Wire, s: System, steps: seq<(PeerId, Action)>, a: PeerId,
                                                      b: PeerId)
    requires Lawful(w) && Initial(s)
    requires a in Exec(w, s, steps).replicas && b in Exec(w, s, steps).replicas[a].cursors
    ensures var end := Exec(w, s, steps);
            exists id :: Between(end, id, a, b) && Small(w, end.transfers[id])
                         && end.transfers[id].checkpoint == end.replicas[a].cursors[b]
  {
    RunKeepsLimited(w, s, steps);
    var end := Exec(w, s, steps);
    assert ReplicaFits(w, end.transfers, a, end.replicas[a]);
    assert CursorFits(w, end.transfers, a, b, end.replicas[a].cursors[b]);
    hide Exec, Small;
    var id :| SmallExport(w, end.transfers, a, b, end.replicas[a].cursors[b], id);
    assert Between(end, id, a, b);
  }

  /** While every export from a to b stays above the limit, a never has a cursor for b:
      each new export starts from the beginning again. */
  lemma {:induction false} OversizedNeverMoves(w: Wire, s: System, steps: seq<(PeerId, Action)>, a: PeerId, b: PeerId)
    requires Lawful(w) && Initial(s) && a in Exec(w, s, steps).replicas
    requires var end := Exec(w, s, steps);
             forall id <- end.transfers :: Between(end, id, a, b) ==> !Small(w, end.transfers[id])
    ensures b !in Exec(w, s, steps).replicas[a].cursors
  {
    hide Initial, Exec, Small;
    if b in Exec(w, s, steps).replicas[a].cursors {
      CursorsStandOnSmallExports(w, s, steps, a, b);
    }
  }
}

/** n replicas of one user exchanging state-sync deltas. One step is one critical
    section of internal/messenger/state_replication.go or of the store, or one
    network event; any other step may run in between. The network is the set of
    packets ever sent: a packet may be delivered late, repeatedly or never. */
module Replication {
  import opened Basics
  import opened Pieces
  import opened Messages
  import M = MessageStore
  import opened Transfers

  /** What a handler goroutine will do next. */
  datatype Task =
    | SendRequest(peer: PeerId)
    | ReadCursor(peer: PeerId)
    | ReadClock(peer: PeerId, since: int)
    | Scan(peer: PeerId, since: int, checkpoint: int)
    | Install(peer: PeerId, checkpoint: int, messages: seq<Message>)
    | SendNext(peer: PeerId, transferId: TransferId, next: int)  // -1 is the manifest
    | SendFailure(peer: PeerId)
    | Finish(peer: PeerId, transfer: Incoming)
    | Import(peer: PeerId, transfer: Incoming, messages: seq<Message>)
    | Clear(peer: PeerId, transfer: Incoming, failed: bool)
    | SendAck(peer: PeerId, ack: Ack)
    | SetCursor(peer: PeerId, transferId: TransferId, checkpoint: int)
    | DropTransfer(peer: PeerId, transferId: TransferId)

  /** A transaction that holds the store lock and has read its stamp. */
  datatype Write = Save(stamp: int, message: Message)
                 | Snapshot(stamp: int, messages: seq<Message>)
                 | ImportFor(stamp: int, messages: seq<Message>, task: nat)

  function Commit(t: Table, write: Write): Table {
    match write
    case Save(stamp, m) => InsertMissing(t, [m], stamp)
    case Snapshot(stamp, ms) => Upsert(t, ms, stamp)
    case ImportFor(stamp, ms, _) => InsertMissing(t, ms, stamp)
  }

  /** Rows and cursors survive a crash; everything else is memory. */
  datatype Replica = Replica(clock: int, rows: Table, cursors: map<PeerId, int>, lock: Option<Write>,
                             maps: SyncMaps, tasks: map<nat, Task>, nextObj: nat)
  {
    function With(k: nat, task: Task): Replica {
      this.(tasks := tasks[k := task])
    }

    function Without(k: nat): Replica {
      this.(tasks := tasks - {k})
    }
  }

  datatype Payload = Request | ManifestMsg(manifest: Manifest) | ChunkMsg(chunk: SyncChunk) | AckMsg(ack: Ack)
  datatype Packet = Packet(from: PeerId, to: PeerId, payload: Payload)

  /** What a transfer id stands for; ids are never reused. */
  datatype Transfer = Transfer(from: PeerId, to: PeerId, checkpoint: int, messages: seq<Message>)

  datatype System = System(replicas: map<PeerId, Replica>, net: set<Packet>, transfers: map<TransferId, Transfer>)

  function Bytes(w: Wire, t: Transfer): seq<byte> {
    Encode(w, Delta(STATE_SYNC_VERSION, t.checkpoint, t.messages))
  }

  /** The receiver's decoder takes the delta; no sender checks this. */
  predicate Small(w: Wire, t: Transfer) {
    |w.marshal(Delta(STATE_SYNC_VERSION, t.checkpoint, t.messages))| <= MAX_DECODED_BYTES
  }

  function ManifestOf(w: Wire, id: TransferId, t: Transfer): Manifest {
    ManifestMsgOf(id, t.checkpoint, Bytes(w, t))
  }

  function ManifestMsgOf(id: TransferId, checkpoint: int, bytes: seq<byte>): Manifest {
    Manifest(id, checkpoint, Count(|bytes|, MAX_CHUNK_BYTES), Some(Sha256(bytes)))
  }

  /** The change one step makes: the acting replica, packets sent, transfers begun. */
  datatype Effect = Effect(replica: Replica, sent: set<Packet>, begun: map<TransferId, Transfer>)

  function Local(replica: Replica): Effect {
    Effect(replica, {}, map[])
  }

  // ---- Steps of one replica ----

  /** Any amount of time passes. */
  function Tick(rep: Replica, elapsed: nat): Effect {
    Local(rep.(clock := rep.clock + elapsed))
  }

  /** A writer takes the store lock and reads the clock. */
  function Begin(rep: Replica, write: Write): Effect {
    if rep.lock.None? && write.stamp == rep.clock && !write.ImportFor? then Local(rep.(lock := Some(write)))
    else Local(rep)
  }

  function BeginImport(rep: Replica, k: nat): Effect {
    if rep.lock.None? && k in rep.tasks && rep.tasks[k].Import? then
      Local(rep.(lock := Some(ImportFor(rep.clock, rep.tasks[k].messages, k))))
    else Local(rep)
  }

  /** The transaction commits, or rolls back, and the lock is released. */
  function EndWrite(rep: Replica, commit: bool): Effect {
    if rep.lock.None? then Local(rep) else
      var write := rep.lock.value;
      var free := rep.(lock := None, rows := if commit then Commit(rep.rows, write) else rep.rows);
      if write.ImportFor? && write.task in rep.tasks && rep.tasks[write.task].Import? then
        var task := rep.tasks[write.task];
        Local(free.With(write.task, Clear(task.peer, task.transfer, !commit)))
      else Local(free)
  }

  function Connect(rep: Replica, peer: PeerId, k: nat): Effect {
    if peer in rep.maps.requested || k in rep.tasks then Local(rep) else
      Local(rep.(maps := rep.maps.(requested := rep.maps.requested + {peer})).With(k, SendRequest(peer)))
  }

  function Disconnect(rep: Replica, peer: PeerId): Effect {
    Local(rep.(maps := rep.maps.Disconnect(peer)))
  }

  function Crash(rep: Replica): Effect {
    Local(rep.(lock := None, maps := EMPTY_MAPS, tasks := map[]))
  }

  /** A task that needs no choice beyond whether its send or its database call succeeds;
      RunScan is the scan that does. A failed cursor write leaves the outgoing transfer
      for a repeated acknowledgement. */
  function RunTask(w: Wire, s: System, r: PeerId, rep: Replica, k: nat, ok: bool): Effect {
    if k !in rep.tasks then Local(rep) else
    match rep.tasks[k]
    case SendRequest(p) =>
      if ok then Effect(rep.Without(k), {Packet(r, p, Request)}, map[])
      else Local(rep.(maps := rep.maps.(requested := rep.maps.requested - {p})).Without(k))
    case ReadCursor(p) =>
      if rep.lock.Some? then Local(rep)
      else if !ok then Local(rep.With(k, SendFailure(p)))
      else Local(rep.With(k, ReadClock(p, if p in rep.cursors then rep.cursors[p] else 0)))
    case ReadClock(p, since) => Local(rep.With(k, Scan(p, since, rep.clock)))
    case Scan(p, _, _) => if rep.lock.Some? || ok then Local(rep) else Local(rep.With(k, SendFailure(p)))
    case SendNext(p, id, next) => SendPiece(w, s, r, rep, k, ok)
    case SendFailure(p) => Effect(rep.Without(k), if ok then {Packet(r, p, ManifestMsg(ManifestError))} else {}, map[])
    case Finish(p, t) =>
      var verdict := Verdict(w, t);
      Local(rep.With(k, if verdict.Ok? then Import(p, t, verdict.value.messages) else Clear(p, t, true)))
    case Clear(p, t, failed) =>
      Local(rep.(maps := rep.maps.ClearIncoming(p, t.obj)).With(k, SendAck(p, Ack(t.transferId, t.checkpoint, failed))))
    case SendAck(p, ack) => Effect(rep.Without(k), if ok then {Packet(r, p, AckMsg(ack))} else {}, map[])
    case SetCursor(p, id, checkpoint) =>
      if rep.lock.Some? then Local(rep)
      else if !ok then Local(rep.Without(k))
      else
        var at := if p in rep.cursors then Max(rep.cursors[p], checkpoint) else checkpoint;
        Local(rep.(cursors := rep.cursors[p := at]).With(k, DropTransfer(p, id)))
    case DropTransfer(p, id) => Local(rep.(maps := rep.maps.DropOutgoing(p, id)).Without(k))
    case _ => Local(rep)
  }

  /** The manifest, then the chunks in order; a failed send abandons the transfer. */
  function SendPiece(w: Wire, s: System, r: PeerId, rep: Replica, k: nat, ok: bool): Effect {
    if k !in rep.tasks || !rep.tasks[k].SendNext? || rep.tasks[k].transferId !in s.transfers then Local(rep) else
      var SendNext(p, id, next) := rep.tasks[k];
      var transfer := s.transfers[id];
      var count := Count(|Bytes(w, transfer)|, MAX_CHUNK_BYTES);
      if !ok then Local(rep.(maps := rep.maps.DropOutgoing(p, id)).With(k, SendFailure(p)))
      else
        var rest := if next + 1 < count then rep.With(k, SendNext(p, id, next + 1)) else rep.Without(k);
        var payload :=
          if 0 <= next < count then ChunkMsg(SyncChunk(id, next, Piece(Bytes(w, transfer), MAX_CHUNK_BYTES, next)))
                       else ManifestMsg(ManifestOf(w, id, transfer));
        Effect(rest, {Packet(r, p, payload)}, map[])
  }

  /** The export scan, under the store lock. `out` is what the query returned. */
  ghost function RunScan(rep: Replica, k: nat, out: seq<Message>): Effect {
    if k !in rep.tasks || !rep.tasks[k].Scan? || rep.lock.Some? then Local(rep) else
      var Scan(p, since, checkpoint) := rep.tasks[k];
      if checkpoint < since then Local(rep.With(k, SendFailure(p)))
      else if IsExport(rep.rows, since, checkpoint, out) then Local(rep.With(k, Install(p, checkpoint, out)))
      else Local(rep)
  }

  /** The sanitized delta `out` is recorded as the peer's outgoing transfer under a
      fresh id, replacing any older one. */
  ghost function RunInstall(w: Wire, s: System, r: PeerId, rep: Replica, k: nat, id: TransferId,
                            out: seq<Message>): Effect {
    if k !in rep.tasks || !rep.tasks[k].Install? then Local(rep) else
      var Install(p, checkpoint, messages) := rep.tasks[k];
      var transfer := Transfer(r, p, checkpoint, out);
      if exists m <- messages :: m.data.NotJson? then Local(rep.With(k, SendFailure(p)))
      else if !M.IsSanitized(messages, out, r) || id in s.transfers || id == "" then Local(rep)
      else if !(0 < Count(|Bytes(w, transfer)|, MAX_CHUNK_BYTES) <= MAX_CHUNK_COUNT)
        then Local(rep.With(k, SendFailure(p)))
      else
        var maps := rep.maps.(outgoing := rep.maps.outgoing[p := Outgoing(id, checkpoint)]);
        Effect(rep.(maps := maps).With(k, SendNext(p, id, -1)), {}, map[id := transfer])
  }

  /** Delivery of a packet; `k` names the goroutine it may start. */
  function Receive(rep: Replica, packet: Packet, k: nat): Effect {
    if k in rep.tasks then Local(rep) else
    match packet.payload
    case Request => Local(rep.With(k, ReadCursor(packet.from)))
    case ManifestMsg(m) =>
      Local(rep.(maps := AcceptManifest(rep.maps, packet.from, m, rep.nextObj), nextObj := rep.nextObj + 1))
    case ChunkMsg(c) =>
      var (maps, outcome) := AcceptChunk(rep.maps, packet.from, c);
      var rep' := rep.(maps := maps);
      (match outcome
       case ChunkRejected(checkpoint) => Local(rep'.With(k, SendAck(packet.from, Ack(c.transferId, checkpoint, true))))
       case Complete(t) => Local(rep'.With(k, Finish(packet.from, t)))
       case _ => Local(rep'))
    case AckMsg(ack) =>
      var (maps, outcome) := AcceptAck(rep.maps, packet.from, ack);
      var rep' := rep.(maps := maps);
      (match outcome
       case AckMatched(checkpoint) => Local(rep'.With(k, SetCursor(packet.from, ack.transferId, checkpoint)))
       case _ => Local(rep'))
  }

  // ---- Runs ----

  datatype Action =
    | ATick(elapsed: nat)
    | ABegin(write: Write)
    | ABeginImport(task: nat)
    | AEndWrite(commit: bool)
    | AConnect(peer: PeerId, task: nat)
    | ADisconnect(peer: PeerId)
    | ARun(task: nat, ok: bool)
    | AScan(task: nat, out: seq<Message>)
    | AInstall(task: nat, id: TransferId, out: seq<Message>)
    | AReceive(packet: Packet, task: nat)
    | ACrash

  ghost function EffectOf(w: Wire, s: System, r: PeerId, a: Action): Effect
    requires r in s.replicas
  {
    var rep := s.replicas[r];
    match a
    case ATick(elapsed) => Tick(rep, elapsed)
    case ABegin(write) => Begin(rep, write)
    case ABeginImport(k) => BeginImport(rep, k)
    case AEndWrite(commit) => EndWrite(rep, commit)
    case AConnect(peer, k) => if peer in s.replicas && peer != r then Connect(rep, peer, k) else Local(rep)
    case ADisconnect(peer) => Disconnect(rep, peer)
    case ARun(k, ok) => RunTask(w, s, r, rep, k, ok)
    case AScan(k, out) => RunScan(rep, k, out)
    case AInstall(k, id, out) => RunInstall(w, s, r, rep, k, id, out)
    case AReceive(packet, k) => if packet in s.net && packet.to == r then Receive(rep, packet, k) else Local(rep)
    case ACrash => Crash(rep)
  }

  function Apply(s: System, r: PeerId, e: Effect): System {
    System(s.replicas[r := e.replica], s.net + e.sent, s.transfers + e.begun)
  }

  /** One step: replica r does a. */
  ghost function Next(w: Wire, s: System, step: (PeerId, Action)): System {
    if step.0 in s.replicas then Apply(s, step.0, EffectOf(w, s, step.0, step.1)) else s
  }

  ghost function Exec(w: Wire, s: System, steps: seq<(PeerId, Action)>): System {
    if steps == [] then s else Next(w, Exec(w, s, steps[..|steps|-1]), steps[|steps|-1])
  }

  /** A group at rest: any rows with stamps from the epoch on, nothing in flight. */
  ghost predicate Initial(s: System) {
    && s.net == {} && s.transfers == map[]
    && forall r <- s.replicas ::
         && s.replicas[r].clock > 0
         && (forall id <- s.replicas[r].rows :: s.replicas[r].rows[id].stamp >= 0)
         && s.replicas[r].cursors == map[] && s.replicas[r].lock.None?
         && s.replicas[r].maps == EMPTY_MAPS && s.replicas[r].tasks == map[]
  }
}

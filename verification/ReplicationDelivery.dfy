/** The exchange does its work: from any state in which two replicas are at rest, some
    run brings the second up to date and moves the first one's cursor. */
module ReplicationDelivery {
  import opened Basics
  import opened Pieces
  import opened Messages
  import M = MessageStore
  import opened Transfers
  import opened Replication
  import opened ReplicationWindows

  /** Runs of one system, watched for the exports from a to b. */
  datatype Scene = Scene(w: Wire, start: System, a: PeerId, b: PeerId)
  datatype Moment = Moment(s: System, h: History)

  ghost predicate Reach(sc: Scene, m: Moment) {
    exists steps :: Exec(sc.w, sc.start, steps) == m.s && HistoryOf(sc.w, sc.start, steps, sc.a, sc.b) == m.h
  }

  lemma {:induction false} Stay(sc: Scene)
    ensures Reach(sc, Moment(sc.start, NO_HISTORY))
  {
    assert Exec(sc.w, sc.start, []) == sc.start && HistoryOf(sc.w, sc.start, [], sc.a, sc.b) == NO_HISTORY;
  }

  lemma {:induction false} Go(sc: Scene, m: Moment, step: (PeerId, Action)) returns (m': Moment)
    requires Reach(sc, m)
    ensures Reach(sc, m')
    ensures m' == Moment(Next(sc.w, m.s, step), Observe(sc.w, m.s, m.h, sc.a, sc.b, step))
  {
    hide Next, Observe;
    var steps :| Exec(sc.w, sc.start, steps) == m.s && HistoryOf(sc.w, sc.start, steps, sc.a, sc.b) == m.h;
    m' := Moment(Next(sc.w, m.s, step), Observe(sc.w, m.s, m.h, sc.a, sc.b, step));
    assert (steps + [step])[..|steps|] == steps;
    assert Exec(sc.w, sc.start, steps + [step]) == m'.s;
  }

  /** A goroutine's step, and a delivery. */
  lemma {:induction false} GoRun(sc: Scene, m: Moment, r: PeerId, k: nat) returns (m': Moment)
    requires Reach(sc, m) && r in m.s.replicas
    ensures Reach(sc, m') && m'.s == Apply(m.s, r, RunTask(sc.w, m.s, r, m.s.replicas[r], k, true))
    ensures m'.h == if r == sc.a then ObserveRun(m.s.replicas[r], m.h, sc.b, k, true) else m.h
  {
    hide Reach, RunTask, Apply, ObserveRun;
    m' := Go(sc, m, (r, ARun(k, true)));
  }

  lemma {:induction false} GoReceive(sc: Scene, m: Moment, packet: Packet, k: nat) returns (m': Moment)
    requires Reach(sc, m) && packet in m.s.net && packet.to in m.s.replicas
    ensures Reach(sc, m') && m'.s == Apply(m.s, packet.to, Receive(m.s.replicas[packet.to], packet, k)) && m'.h == m.h
  {
    hide Reach, Receive, Apply;
    m' := Go(sc, m, (packet.to, AReceive(packet, k)));
  }

  predicate AtRest(rep: Replica) {
    rep.lock.None? && rep.maps == EMPTY_MAPS && rep.tasks == map[]
  }

  function Since(rep: Replica, peer: PeerId): int {
    if peer in rep.cursors then rep.cursors[peer] else 0
  }

  /** Only replica r changed, to rep; no packet is lost and no transfer forgotten. */
  predicate Only(s: System, s': System, r: PeerId, rep: Replica) {
    s'.replicas == s.replicas[r := rep] && s.net <= s'.net && s'.transfers == s.transfers
  }

  predicate Two(sc: Scene, m: Moment) {
    sc.a != sc.b && sc.a in m.s.replicas && sc.b in m.s.replicas
  }

  // ---- b asks ----

  lemma {:induction false} Ask(sc: Scene, m: Moment) returns (m': Moment)
    requires Reach(sc, m) && Two(sc, m) && AtRest(m.s.replicas[sc.b])
    ensures Reach(sc, m') && m'.h == m.h && Packet(sc.b, sc.a, Request) in m'.s.net
    ensures Only(m.s, m'.s, sc.b, m.s.replicas[sc.b].(maps := SyncMaps({sc.a}, map[], map[])))
  {
    hide Reach;
    var m1 := Go(sc, m, (sc.b, AConnect(sc.a, 0)));
    assert m1.s.replicas[sc.b].maps == SyncMaps({sc.a}, map[], map[]);
    m' := GoRun(sc, m1, sc.b, 0);
    assert m'.s.replicas[sc.b].tasks == map[];
  }

  // ---- a answers ----

  lemma {:induction false} Hears(sc: Scene, m: Moment, k: nat) returns (m': Moment)
    requires Reach(sc, m) && Two(sc, m) && Packet(sc.b, sc.a, Request) in m.s.net && k !in m.s.replicas[sc.a].tasks
    ensures Reach(sc, m') && m'.h == m.h
    ensures Only(m.s, m'.s, sc.a, m.s.replicas[sc.a].With(k, ReadCursor(sc.b)))
  {
    hide Reach;
    m' := GoReceive(sc, m, Packet(sc.b, sc.a, Request), k);
  }

  lemma {:induction false} Reads(sc: Scene, m: Moment, k: nat) returns (m': Moment)
    requires Reach(sc, m) && Two(sc, m) && m.s.replicas[sc.a].lock.None?
    requires k in m.s.replicas[sc.a].tasks && m.s.replicas[sc.a].tasks[k] == ReadCursor(sc.b)
    ensures var since := Since(m.s.replicas[sc.a], sc.b);
            && Only(m.s, m'.s, sc.a, m.s.replicas[sc.a].With(k, ReadClock(sc.b, since)))
            && m'.h == m.h.(open := m.h.open[k := Window(since, |m.h.acked|, 0, map[], "")])
    ensures Reach(sc, m')
  {
    hide Reach;
    m' := GoRun(sc, m, sc.a, k);
  }

  /** The clock is read, and then the rows are. */
  lemma {:induction false} Scans(sc: Scene, m: Moment, k: nat, exported: seq<Message>) returns (m': Moment)
    requires Reach(sc, m) && Two(sc, m) && m.s.replicas[sc.a].lock.None? && k in m.h.open
    requires k in m.s.replicas[sc.a].tasks && m.s.replicas[sc.a].tasks[k].ReadClock?
             && m.s.replicas[sc.a].tasks[k].peer == sc.b
    requires var ra := m.s.replicas[sc.a];
             ra.tasks[k].since <= ra.clock && IsExport(ra.rows, ra.tasks[k].since, ra.clock, exported)
    ensures Reach(sc, m')
    ensures var ra := m.s.replicas[sc.a];
            && Only(m.s, m'.s, sc.a, ra.With(k, Install(sc.b, ra.clock, exported)))
            && m'.h == m.h.(open := m.h.open[k := m.h.open[k].(checkpoint := ra.clock, table := ra.rows)])
  {
    hide Reach, IsExport;
    var ra := m.s.replicas[sc.a];
    var m1 := GoRun(sc, m, sc.a, k);
    assert m1.s.replicas[sc.a] == ra.With(k, Scan(sc.b, ra.tasks[k].since, ra.clock)) && m1.h == m.h;
    m' := Go(sc, m1, (sc.a, AScan(k, exported)));
    assert m'.s.replicas[sc.a] == ra.With(k, Install(sc.b, ra.clock, exported));
  }

  predicate Legal(w: Wire, t: Transfer) {
    0 < PieceCount(w, t) <= MAX_CHUNK_COUNT
  }

  lemma {:induction false} Begun(sc: Scene, m: Moment, k: nat, id: TransferId, exported: seq<Message>, t: Transfer)
    returns (m': Moment)
    requires Reach(sc, m) && Two(sc, m) && m.s.replicas[sc.a].maps == EMPTY_MAPS && k in m.h.open
    requires k in m.s.replicas[sc.a].tasks && m.s.replicas[sc.a].tasks[k] == Install(sc.b, t.checkpoint, exported)
    requires M.IsSanitized(exported, t.messages, sc.a) && id !in m.s.transfers && id != ""
    requires t.from == sc.a && t.to == sc.b && Legal(sc.w, t)
    ensures Reach(sc, m') && m'.s.transfers == m.s.transfers[id := t] && m'.s.net == m.s.net
    ensures m'.s.replicas == m.s.replicas[sc.a := m.s.replicas[sc.a].With(k, SendNext(sc.b, id, -1)).(
              maps := SyncMaps({}, map[], map[sc.b := Outgoing(id, t.checkpoint)]))]
    ensures m'.h == m.h.(transfers := m.h.transfers[id := m.h.open[k].(id := id)])
  {
    forall x <- exported
      ensures x.data.Json?
    {
      var i :| 0 <= i < |exported| && exported[i] == x;
      assert M.SanitizedMessage(exported[i], t.messages[i], sc.a);
    }
    hide Reach, M.IsSanitized, Bytes;
    assert t == Transfer(sc.a, sc.b, t.checkpoint, t.messages);
    m' := Go(sc, m, (sc.a, AInstall(k, id, t.messages)));
    assert m'.s.replicas[sc.a].maps == SyncMaps({}, map[], map[sc.b := Outgoing(id, t.checkpoint)]);
  }

  function PieceCount(w: Wire, t: Transfer): nat {
    Count(|Bytes(w, t)|, MAX_CHUNK_BYTES)
  }

  function ChunkOf(w: Wire, id: TransferId, t: Transfer, i: nat): SyncChunk
    requires i < PieceCount(w, t)
  {
    SyncChunk(id, i, Piece(Bytes(w, t), MAX_CHUNK_BYTES, i))
  }

  /** All packets of the transfer from index i on are in the network; -1 is the manifest. */
  ghost predicate SentFrom(w: Wire, net: set<Packet>, id: TransferId, t: Transfer, i: int) {
    && (i < 0 ==> Packet(t.from, t.to, ManifestMsg(ManifestOf(w, id, t))) in net)
    && forall j: nat :: i <= j < PieceCount(w, t) ==> Packet(t.from, t.to, ChunkMsg(ChunkOf(w, id, t, j))) in net
  }

  /** The transfer is under way from a to b. */
  predicate Under(sc: Scene, m: Moment, id: TransferId, t: Transfer) {
    Two(sc, m) && t.from == sc.a && t.to == sc.b && id in m.s.transfers && m.s.transfers[id] == t
  }

  lemma {:induction false} SendOne(sc: Scene, m: Moment, k: nat, id: TransferId, t: Transfer, i: int)
    returns (m': Moment)
    requires Reach(sc, m) && Under(sc, m, id, t) && -1 <= i < PieceCount(sc.w, t)
    requires k in m.s.replicas[sc.a].tasks && m.s.replicas[sc.a].tasks[k] == SendNext(sc.b, id, i)
    ensures Reach(sc, m') && m'.h == m.h
    ensures var ra := m.s.replicas[sc.a];
            Only(m.s, m'.s, sc.a,
                 if i + 1 < PieceCount(sc.w, t) then ra.With(k, SendNext(sc.b, id, i + 1)) else ra.Without(k))
    ensures i < 0 ==> Packet(t.from, t.to, ManifestMsg(ManifestOf(sc.w, id, t))) in m'.s.net
    ensures i >= 0 ==> Packet(t.from, t.to, ChunkMsg(ChunkOf(sc.w, id, t, i))) in m'.s.net
  {
    hide Reach, Bytes, Piece, Count, ManifestOf;
    m' := GoRun(sc, m, sc.a, k);
  }

  lemma {:induction false} SendAll(sc: Scene, m: Moment, k: nat, id: TransferId, t: Transfer, i: int)
    returns (m': Moment)
    requires Reach(sc, m) && Under(sc, m, id, t) && -1 <= i < PieceCount(sc.w, t)
    requires k in m.s.replicas[sc.a].tasks && m.s.replicas[sc.a].tasks[k] == SendNext(sc.b, id, i)
    ensures Reach(sc, m') && m'.h == m.h && SentFrom(sc.w, m'.s.net, id, t, i)
    ensures Only(m.s, m'.s, sc.a, m.s.replicas[sc.a].Without(k))
    decreases PieceCount(sc.w, t) - i
  {
    hide Reach, PieceCount, ManifestOf, ChunkOf;
    m' := SendOne(sc, m, k, id, t, i);
    if i + 1 < PieceCount(sc.w, t) {
      m' := SendAll(sc, m', k, id, t, i + 1);
      var tasks := m.s.replicas[sc.a].tasks;
      assert tasks[k := SendNext(sc.b, id, i + 1)] - {k} == tasks - {k};
    }
  }

  // ---- b receives ----

  /** The transfer at b after its first n chunks. */
  function Partial(w: Wire, id: TransferId, t: Transfer, obj: nat, n: nat): Incoming
    requires n <= PieceCount(w, t)
  {
    var count := PieceCount(w, t);
    var slots := seq(count, j requires 0 <= j < count =>
                       if j < n then Some(Piece(Bytes(w, t), MAX_CHUNK_BYTES, j)) else None);
    Incoming(obj, id, t.checkpoint, Sha256(Bytes(w, t)), slots, n, false)
  }

  /** b waits for the rest of the transfer. */
  predicate Awaits(sc: Scene, m: Moment, id: TransferId, t: Transfer, obj: nat, n: nat)
    requires n <= PieceCount(sc.w, t)
  {
    && Under(sc, m, id, t) && m.s.replicas[sc.b].tasks == map[]
    && m.s.replicas[sc.b].maps == SyncMaps({sc.a}, map[sc.a := Partial(sc.w, id, t, obj, n)], map[])
  }

  lemma {:induction false} ReceiveManifest(sc: Scene, m: Moment, id: TransferId, t: Transfer) returns (m': Moment)
    requires Reach(sc, m) && Under(sc, m, id, t) && m.s.replicas[sc.b].tasks == map[]
    requires m.s.replicas[sc.b].maps == SyncMaps({sc.a}, map[], map[])
    requires Packet(t.from, t.to, ManifestMsg(ManifestOf(sc.w, id, t))) in m.s.net
    requires id != "" && t.checkpoint > 0 && Legal(sc.w, t)
    ensures Reach(sc, m') && m'.h == m.h
    ensures var rb := m.s.replicas[sc.b];
            && Awaits(sc, m', id, t, rb.nextObj, 0)
            && Only(m.s, m'.s, sc.b, rb.(maps := m'.s.replicas[sc.b].maps, nextObj := rb.nextObj + 1))
  {
    hide Reach, Bytes, Count;
    m' := GoReceive(sc, m, Packet(t.from, t.to, ManifestMsg(ManifestOf(sc.w, id, t))), 0);
    var rb := m.s.replicas[sc.b];
    assert FreshIncoming(ManifestOf(sc.w, id, t), rb.nextObj) == Partial(sc.w, id, t, rb.nextObj, 0);
  }

  /** The n-th chunk fills the n-th slot. */
  lemma {:induction false} FillNext(w: Wire, id: TransferId, t: Transfer, obj: nat, n: nat)
    requires n < PieceCount(w, t)
    ensures 0 <= n < |Partial(w, id, t, obj, n).slots|
    ensures FillSlot(Partial(w, id, t, obj, n), ChunkOf(w, id, t, n)) == Partial(w, id, t, obj, n + 1)
    ensures |ChunkOf(w, id, t, n).data| <= MAX_CHUNK_BYTES
  {
    PieceShape(Bytes(w, t), MAX_CHUNK_BYTES, n);
    hide Bytes, Piece, Count;
    var before, after := Partial(w, id, t, obj, n), Partial(w, id, t, obj, n + 1);
    assert before.slots[n := after.slots[n]] == after.slots;
  }

  /** The whole transfer, being processed. */
  function Whole(w: Wire, id: TransferId, t: Transfer, obj: nat): Incoming {
    Partial(w, id, t, obj, PieceCount(w, t)).(processing := true)
  }

  /** b's goroutine is about to import the whole transfer. */
  predicate Importing(sc: Scene, m: Moment, done: Incoming, task: Task) {
    && Two(sc, m) && m.s.replicas[sc.b].tasks == map[0 := task]
    && m.s.replicas[sc.b].maps == SyncMaps({sc.a}, map[sc.a := done], map[])
  }

  lemma {:induction false} ReceiveOne(sc: Scene, m: Moment, id: TransferId, t: Transfer, obj: nat, n: nat)
    returns (m': Moment)
    requires Reach(sc, m) && n < PieceCount(sc.w, t) && Awaits(sc, m, id, t, obj, n)
    requires Packet(t.from, t.to, ChunkMsg(ChunkOf(sc.w, id, t, n))) in m.s.net
    ensures Reach(sc, m') && m'.h == m.h && Two(sc, m')
    ensures Only(m.s, m'.s, sc.b,
                 m.s.replicas[sc.b].(maps := m'.s.replicas[sc.b].maps, tasks := m'.s.replicas[sc.b].tasks))
    ensures n + 1 < PieceCount(sc.w, t) ==> Awaits(sc, m', id, t, obj, n + 1)
    ensures n + 1 == PieceCount(sc.w, t) ==>
              Importing(sc, m', Whole(sc.w, id, t, obj), Finish(sc.a, Whole(sc.w, id, t, obj)))
  {
    FillNext(sc.w, id, t, obj, n);
    hide Reach, Bytes, Piece, Count, FillSlot;
    m' := GoReceive(sc, m, Packet(t.from, t.to, ChunkMsg(ChunkOf(sc.w, id, t, n))), 0);
    var before, after := Partial(sc.w, id, t, obj, n), Partial(sc.w, id, t, obj, n + 1);
    assert map[sc.a := before][sc.a := after] == map[sc.a := after];
    assert map[sc.a := before][sc.a := after.(processing := true)] == map[sc.a := after.(processing := true)];
  }

  lemma {:induction false} ReceiveAll(sc: Scene, m: Moment, id: TransferId, t: Transfer, obj: nat, n: nat)
    returns (m': Moment)
    requires Reach(sc, m) && n < PieceCount(sc.w, t) && Awaits(sc, m, id, t, obj, n)
             && SentFrom(sc.w, m.s.net, id, t, n)
    ensures Reach(sc, m') && m'.h == m.h && Two(sc, m')
    ensures Only(m.s, m'.s, sc.b,
                 m.s.replicas[sc.b].(maps := m'.s.replicas[sc.b].maps, tasks := m'.s.replicas[sc.b].tasks))
    ensures Importing(sc, m', Whole(sc.w, id, t, obj), Finish(sc.a, Whole(sc.w, id, t, obj)))
    decreases PieceCount(sc.w, t) - n
  {
    hide Reach, PieceCount, ChunkOf, Partial;
    m' := ReceiveOne(sc, m, id, t, obj, n);
    if n + 1 < PieceCount(sc.w, t) {
      m' := ReceiveAll(sc, m', id, t, obj, n + 1);
    }
  }

  // ---- b imports and acknowledges ----

  lemma {:induction false} WholeVerdict(w: Wire, id: TransferId, t: Transfer, obj: nat)
    requires Lawful(w)
    ensures if Small(w, t)
            then Verdict(w, Whole(w, id, t, obj)) == Ok(Delta(STATE_SYNC_VERSION, t.checkpoint, t.messages))
            else Verdict(w, Whole(w, id, t, obj)).Err?
  {
    FilledBounds(Whole(w, id, t, obj).slots);
    HonestVerdict(w, Whole(w, id, t, obj), Delta(STATE_SYNC_VERSION, t.checkpoint, t.messages));
  }

  lemma {:induction false} ImportAll(sc: Scene, m: Moment, done: Incoming, d: Delta) returns (m': Moment)
    requires Reach(sc, m) && Importing(sc, m, done, Finish(sc.a, done)) && m.s.replicas[sc.b].lock.None?
    requires Verdict(sc.w, done) == Ok(d)
    ensures Reach(sc, m') && m'.h == m.h && Importing(sc, m', done, Clear(sc.a, done, false))
    ensures var rb := m.s.replicas[sc.b];
            Only(m.s, m'.s, sc.b, rb.(rows := InsertMissing(rb.rows, d.messages, rb.clock),
                                      tasks := m'.s.replicas[sc.b].tasks))
  {
    hide Reach, InsertMissing, Verdict;
    var m1 := GoRun(sc, m, sc.b, 0);
    assert m1.s.replicas[sc.b].tasks == map[0 := Import(sc.a, done, d.messages)];
    m' := Inserts(sc, m1, done, d.messages);
  }

  lemma {:induction false} Inserts(sc: Scene, m: Moment, done: Incoming, messages: seq<Message>) returns (m': Moment)
    requires Reach(sc, m) && Importing(sc, m, done, Import(sc.a, done, messages)) && m.s.replicas[sc.b].lock.None?
    ensures Reach(sc, m') && m'.h == m.h && Importing(sc, m', done, Clear(sc.a, done, false))
    ensures var rb := m.s.replicas[sc.b];
            Only(m.s, m'.s, sc.b, rb.(rows := InsertMissing(rb.rows, messages, rb.clock),
                                      tasks := m'.s.replicas[sc.b].tasks))
  {
    var rb := m.s.replicas[sc.b];
    hide Reach, InsertMissing, RunTask, Receive;
    var m1 := Go(sc, m, (sc.b, ABeginImport(0)));
    assert m1.s.replicas[sc.b] == rb.(lock := Some(ImportFor(rb.clock, messages, 0)));
    m' := Go(sc, m1, (sc.b, AEndWrite(true)));
    assert m'.s.replicas[sc.b].tasks == map[0 := Clear(sc.a, done, false)];
  }

  lemma {:induction false} Acknowledge(sc: Scene, m: Moment, done: Incoming, failed: bool) returns (m': Moment)
    requires Reach(sc, m) && Importing(sc, m, done, Clear(sc.a, done, failed))
    ensures Reach(sc, m') && m'.h == m.h
    ensures Packet(sc.b, sc.a, AckMsg(Ack(done.transferId, done.checkpoint, failed))) in m'.s.net
    ensures Only(m.s, m'.s, sc.b, m.s.replicas[sc.b].(maps := EMPTY_MAPS, tasks := map[]))
  {
    hide Reach;
    var m1 := GoRun(sc, m, sc.b, 0);
    assert m1.s.replicas[sc.b].tasks == map[0 := SendAck(sc.a, Ack(done.transferId, done.checkpoint, failed))];
    assert m1.s.replicas[sc.b].maps == EMPTY_MAPS;
    m' := GoRun(sc, m1, sc.b, 0);
    assert m'.s.replicas[sc.b].tasks == map[];
  }

  // ---- a advances ----

  /** a's transfer waits for its acknowledgement. */
  predicate Sent(sc: Scene, m: Moment, id: TransferId, checkpoint: int) {
    && Two(sc, m) && m.s.replicas[sc.a].lock.None?
    && m.s.replicas[sc.a].maps == SyncMaps({}, map[], map[sc.b := Outgoing(id, checkpoint)])
  }

  lemma {:induction false} Advance(sc: Scene, m: Moment, k: nat, id: TransferId, checkpoint: int) returns (m': Moment)
    requires Reach(sc, m) && Sent(sc, m, id, checkpoint) && k !in m.s.replicas[sc.a].tasks && id in m.h.transfers
    requires Packet(sc.b, sc.a, AckMsg(Ack(id, checkpoint, false))) in m.s.net
    ensures Reach(sc, m') && m'.h == m.h.(acked := m.h.acked + [m.h.transfers[id]])
    ensures var ra := m.s.replicas[sc.a];
            Only(m.s, m'.s, sc.a, ra.(maps := EMPTY_MAPS, cursors := ra.cursors[sc.b :=
              if sc.b in ra.cursors then Max(ra.cursors[sc.b], checkpoint) else checkpoint]))
  {
    hide Reach;
    var ra := m.s.replicas[sc.a];
    var m1 := GoReceive(sc, m, Packet(sc.b, sc.a, AckMsg(Ack(id, checkpoint, false))), k);
    assert m1.s.replicas[sc.a] == ra.With(k, SetCursor(sc.b, id, checkpoint));
    m' := Writes(sc, m1, k, id, checkpoint);
    assert ra.tasks[k := SetCursor(sc.b, id, checkpoint)] - {k} == ra.tasks;
  }

  lemma {:induction false} Writes(sc: Scene, m: Moment, k: nat, id: TransferId, checkpoint: int) returns (m': Moment)
    requires Reach(sc, m) && Sent(sc, m, id, checkpoint) && id in m.h.transfers
    requires k in m.s.replicas[sc.a].tasks && m.s.replicas[sc.a].tasks[k] == SetCursor(sc.b, id, checkpoint)
    ensures Reach(sc, m') && m'.h == m.h.(acked := m.h.acked + [m.h.transfers[id]])
    ensures var ra := m.s.replicas[sc.a];
            Only(m.s, m'.s, sc.a, ra.Without(k).(maps := EMPTY_MAPS, cursors := ra.cursors[sc.b :=
              if sc.b in ra.cursors then Max(ra.cursors[sc.b], checkpoint) else checkpoint]))
  {
    hide Reach;
    var ra := m.s.replicas[sc.a];
    var m1 := GoRun(sc, m, sc.a, k);
    assert m1.s.replicas[sc.a].tasks == ra.tasks[k := DropTransfer(sc.b, id)];
    m' := GoRun(sc, m1, sc.a, k);
    assert ra.tasks[k := DropTransfer(sc.b, id)] - {k} == ra.tasks - {k};
    assert m'.s.replicas[sc.a].maps == EMPTY_MAPS;
  }

  /** An error acknowledgement drops the transfer and leaves the cursor alone. */
  lemma {:induction false} Refused(sc: Scene, m: Moment, k: nat, id: TransferId, checkpoint: int) returns (m': Moment)
    requires Reach(sc, m) && Sent(sc, m, id, checkpoint) && k !in m.s.replicas[sc.a].tasks
    requires Packet(sc.b, sc.a, AckMsg(Ack(id, checkpoint, true))) in m.s.net
    ensures Reach(sc, m') && m'.h == m.h && Only(m.s, m'.s, sc.a, m.s.replicas[sc.a].(maps := EMPTY_MAPS))
  {
    hide Reach;
    m' := GoReceive(sc, m, Packet(sc.b, sc.a, AckMsg(Ack(id, checkpoint, true))), k);
    assert m'.s.replicas[sc.a].maps == EMPTY_MAPS;
  }

  // ---- The exchange ----

  /** a has read its cursor in task k, b has asked, nothing else goes on between them. */
  ghost predicate Ready(sc: Scene, m: Moment, k: nat) {
    && Two(sc, m) && m.s.replicas[sc.a].lock.None? && m.s.replicas[sc.a].maps == EMPTY_MAPS
    && k in m.s.replicas[sc.a].tasks && m.s.replicas[sc.a].tasks[k].ReadClock?
    && m.s.replicas[sc.a].tasks[k].peer == sc.b
    && k in m.h.open
    && m.s.replicas[sc.b].lock.None? && m.s.replicas[sc.b].tasks == map[]
    && m.s.replicas[sc.b].maps == SyncMaps({sc.a}, map[], map[])
  }

  /** What a will export from `since` on, and the transfer that carries it. */
  ghost predicate Exported(sc: Scene, ra: Replica, since: int, t: Transfer, exported: seq<Message>) {
    && t.from == sc.a && t.to == sc.b && t.checkpoint == ra.clock && ra.clock > 0 && since <= ra.clock
    && IsExport(ra.rows, since, ra.clock, exported) && M.IsSanitized(exported, t.messages, sc.a)
    && Legal(sc.w, t)
  }

  lemma {:induction false} Sends(sc: Scene, m: Moment, k: nat, id: TransferId, t: Transfer, exported: seq<Message>)
    returns (m': Moment)
    requires Reach(sc, m) && Ready(sc, m, k) && id !in m.s.transfers && id != ""
    requires Exported(sc, m.s.replicas[sc.a], m.s.replicas[sc.a].tasks[k].since, t, exported)
    ensures Reach(sc, m') && Sent(sc, m', id, t.checkpoint) && SentFrom(sc.w, m'.s.net, id, t, -1)
            && Under(sc, m', id, t)
    ensures m'.s.transfers == m.s.transfers[id := t] && m.s.net <= m'.s.net
    ensures m'.s.replicas == m.s.replicas[sc.a := m.s.replicas[sc.a].Without(k).(maps := m'.s.replicas[sc.a].maps)]
    ensures var ra := m.s.replicas[sc.a];
            var win := m.h.open[k].(checkpoint := ra.clock, table := ra.rows);
            m'.h == m.h.(open := m.h.open[k := win], transfers := m.h.transfers[id := win.(id := id)])
  {
    hide Reach, IsExport, M.IsSanitized, SentFrom, PieceCount;
    var ra := m.s.replicas[sc.a];
    var m2 := Scans(sc, m, k, exported);
    var m3 := Begun(sc, m2, k, id, exported, t);
    m' := SendAll(sc, m3, k, id, t, -1);
    assert ra.tasks[k := Install(sc.b, ra.clock, exported)][k := SendNext(sc.b, id, -1)] - {k} == ra.tasks - {k};
  }

  /** b holds the whole transfer and is about to finish it. */
  lemma {:induction false} Receives(sc: Scene, m: Moment, id: TransferId, t: Transfer) returns (m': Moment)
    requires Reach(sc, m) && Under(sc, m, id, t) && id != "" && t.checkpoint > 0 && Legal(sc.w, t)
    requires m.s.replicas[sc.b].tasks == map[] && m.s.replicas[sc.b].maps == SyncMaps({sc.a}, map[], map[])
    requires SentFrom(sc.w, m.s.net, id, t, -1)
    ensures Reach(sc, m') && m'.h == m.h
    ensures var rb, done := m.s.replicas[sc.b], Whole(sc.w, id, t, m.s.replicas[sc.b].nextObj);
            && Importing(sc, m', done, Finish(sc.a, done))
            && Only(m.s, m'.s, sc.b, rb.(maps := m'.s.replicas[sc.b].maps, tasks := m'.s.replicas[sc.b].tasks,
                                         nextObj := rb.nextObj + 1))
  {
    assert SentFrom(sc.w, m.s.net, id, t, 0);
    hide Reach, SentFrom, PieceCount, ManifestOf;
    var m1 := ReceiveManifest(sc, m, id, t);
    assert SentFrom(sc.w, m1.s.net, id, t, 0) by { SentStays(sc.w, m.s.net, m1.s.net, id, t); }
    m' := ReceiveAll(sc, m1, id, t, m.s.replicas[sc.b].nextObj, 0);
  }

  lemma {:induction false} SentStays(w: Wire, net: set<Packet>, net': set<Packet>, id: TransferId, t: Transfer)
    requires SentFrom(w, net, id, t, 0) && net <= net'
    ensures SentFrom(w, net', id, t, 0)
  {
  }

  /** The rest of an exchange within the size limit: b holds what was exported, a's cursor
      is the greater of the old one and the checkpoint, and the window is acknowledged. */
  lemma {:induction false} Delivers(sc: Scene, m: Moment, k: nat, id: TransferId, t: Transfer, exported: seq<Message>)
    returns (m': Moment)
    requires Lawful(sc.w) && Reach(sc, m) && Ready(sc, m, k) && id !in m.s.transfers && id != ""
    requires Exported(sc, m.s.replicas[sc.a], m.s.replicas[sc.a].tasks[k].since, t, exported) && Small(sc.w, t)
    ensures Reach(sc, m') && m'.s.transfers == m.s.transfers[id := t] && m.s.net <= m'.s.net
    ensures var ra, rb := m.s.replicas[sc.a], m.s.replicas[sc.b];
            m'.s.replicas == m.s.replicas[
              sc.a := ra.Without(k).(cursors := ra.cursors[sc.b :=
                if sc.b in ra.cursors then Max(ra.cursors[sc.b], ra.clock) else ra.clock])][
              sc.b := rb.(rows := InsertMissing(rb.rows, t.messages, rb.clock), maps := EMPTY_MAPS,
                          nextObj := rb.nextObj + 1)]
    ensures var win := m.h.open[k].(checkpoint := m.s.replicas[sc.a].clock, table := m.s.replicas[sc.a].rows);
            m'.h == History(m.h.open[k := win], m.h.transfers[id := win.(id := id)], m.h.acked + [win.(id := id)])
  {
    hide Reach, SentFrom, PieceCount, ManifestOf, InsertMissing, Verdict, IsExport, M.IsSanitized, Partial;
    var m1 := Sends(sc, m, k, id, t, exported);
    var m2 := Receives(sc, m1, id, t);
    var done := Whole(sc.w, id, t, m1.s.replicas[sc.b].nextObj);
    WholeVerdict(sc.w, id, t, m1.s.replicas[sc.b].nextObj);
    WholeNames(sc.w, id, t, m1.s.replicas[sc.b].nextObj);
    hide Whole, Lawful, Small;
    var m3 := ImportAll(sc, m2, done, Delta(STATE_SYNC_VERSION, t.checkpoint, t.messages));
    var m4 := Acknowledge(sc, m3, done, false);
    m' := Advance(sc, m4, k, id, t.checkpoint);
  }

  lemma {:induction false} WholeNames(w: Wire, id: TransferId, t: Transfer, obj: nat)
    ensures Whole(w, id, t, obj).transferId == id && Whole(w, id, t, obj).checkpoint == t.checkpoint
  {
  }

  // ---- Whole exchanges ----

  /** b asks, a hears in task k and reads its cursor. */
  lemma {:induction false} Opens(sc: Scene, m: Moment, k: nat) returns (m': Moment)
    requires Reach(sc, m) && Two(sc, m) && AtRest(m.s.replicas[sc.a]) && AtRest(m.s.replicas[sc.b])
    ensures Reach(sc, m') && Ready(sc, m', k) && m.s.net <= m'.s.net && m'.s.transfers == m.s.transfers
    ensures var since := Since(m.s.replicas[sc.a], sc.b);
            && m'.s.replicas == m.s.replicas[sc.a := m.s.replicas[sc.a].(tasks := map[k := ReadClock(sc.b, since)])][
                 sc.b := m.s.replicas[sc.b].(maps := SyncMaps({sc.a}, map[], map[]))]
            && m'.h == m.h.(open := m.h.open[k := Window(since, |m.h.acked|, 0, map[], "")])
  {
    hide Reach;
    var m1 := Ask(sc, m);
    var m2 := Hears(sc, m1, k);
    m' := Reads(sc, m2, k);
    assert m'.s.replicas[sc.a].tasks == map[k := ReadClock(sc.b, Since(m.s.replicas[sc.a], sc.b))];
  }

  /** Two replicas at rest, and the export that an exchange between them would carry. */
  ghost predicate Exchange(sc: Scene, m: Moment, id: TransferId, t: Transfer, exported: seq<Message>) {
    && Two(sc, m) && AtRest(m.s.replicas[sc.a]) && AtRest(m.s.replicas[sc.b])
    && Exported(sc, m.s.replicas[sc.a], Since(m.s.replicas[sc.a], sc.b), t, exported)
    && id !in m.s.transfers && id != ""
  }

  /** What a completed exchange leaves: both at rest again, the rows inserted at b under
      its own stamp, and a's cursor for b at a's clock. */
  ghost predicate Exchanged(sc: Scene, m: Moment, m': Moment, t: Transfer) {
    && Two(sc, m) && Two(sc, m')
    && AtRest(m'.s.replicas[sc.a]) && AtRest(m'.s.replicas[sc.b])
    && m'.s.replicas == m.s.replicas[sc.a := m'.s.replicas[sc.a]][sc.b := m'.s.replicas[sc.b]]
    && m'.s.replicas[sc.a].rows == m.s.replicas[sc.a].rows && m'.s.replicas[sc.a].clock == m.s.replicas[sc.a].clock
    && m'.s.replicas[sc.a].cursors == m.s.replicas[sc.a].cursors[sc.b := m.s.replicas[sc.a].clock]
    && m'.s.replicas[sc.b].cursors == m.s.replicas[sc.b].cursors
    && m'.s.replicas[sc.b].clock == m.s.replicas[sc.b].clock
    && m'.s.replicas[sc.b].rows == InsertMissing(m.s.replicas[sc.b].rows, t.messages, m.s.replicas[sc.b].clock)
  }

  lemma {:induction false} RunExchange(sc: Scene, m: Moment, id: TransferId, t: Transfer, exported: seq<Message>)
    returns (m': Moment)
    requires Lawful(sc.w) && Reach(sc, m) && Exchange(sc, m, id, t, exported) && Small(sc.w, t)
    ensures Reach(sc, m') && Exchanged(sc, m, m', t) && m'.s.transfers == m.s.transfers[id := t]
  {
    hide Reach, InsertMissing, IsExport, M.IsSanitized, Lawful, Small, Legal;
    var m1 := Opens(sc, m, 0);
    m' := Delivers(sc, m1, 0, id, t, exported);
    assert m'.s.replicas[sc.a].tasks == map[];
  }

  /** From any state in which two replicas are at rest, an exchange within the size limits
      that nothing disturbs ends with every exported message in the receiver's table and
      the sender's cursor at the checkpoint. */
  lemma {:induction false} UndisturbedExchange(sc: Scene, id: TransferId, t: Transfer, exported: seq<Message>)
    returns (m': Moment)
    requires Lawful(sc.w) && Exchange(sc, Moment(sc.start, NO_HISTORY), id, t, exported) && Small(sc.w, t)
    ensures Reach(sc, m') && Exchanged(sc, Moment(sc.start, NO_HISTORY), m', t)
    ensures m'.s.replicas[sc.a].cursors[sc.b] == t.checkpoint
    ensures m'.s.replicas[sc.b].rows.Keys == sc.start.replicas[sc.b].rows.Keys + Ids(exported)
  {
    Stay(sc);
    m' := RunExchange(sc, Moment(sc.start, NO_HISTORY), id, t, exported);
    var rb := sc.start.replicas[sc.b];
    M.SanitizedIds(exported, t.messages, sc.a);
    InsertMissingMeaning(rb.rows, t.messages, rb.clock);
    hide Reach, InsertMissing, IsExport, M.IsSanitized, Lawful, Small, Legal;
  }

  /** Above the size limit, which no sender checks, the same exchange fails at the
      receiver: it imports nothing, answers with an error, and the sender forgets the
      transfer and keeps its cursor, so the next exchange starts from the same place. */
  lemma {:induction false} OversizedExchange(sc: Scene, id: TransferId, t: Transfer, exported: seq<Message>)
    returns (m': Moment)
    requires Lawful(sc.w) && Exchange(sc, Moment(sc.start, NO_HISTORY), id, t, exported) && !Small(sc.w, t)
    ensures Reach(sc, m') && Two(sc, m') && m'.h.acked == []
    ensures Packet(sc.b, sc.a, AckMsg(Ack(id, t.checkpoint, true))) in m'.s.net
    ensures var ra, rb := sc.start.replicas[sc.a], sc.start.replicas[sc.b];
            m'.s.replicas == sc.start.replicas[sc.a := ra][sc.b := rb.(nextObj := rb.nextObj + 1)]
  {
    Stay(sc);
    hide Reach, SentFrom, PieceCount, ManifestOf, Verdict, IsExport, M.IsSanitized, Partial;
    var m1 := Opens(sc, Moment(sc.start, NO_HISTORY), 0);
    var m2 := Sends(sc, m1, 0, id, t, exported);
    var m3 := Receives(sc, m2, id, t);
    var obj := m2.s.replicas[sc.b].nextObj;
    WholeVerdict(sc.w, id, t, obj);
    WholeNames(sc.w, id, t, obj);
    hide Whole, Lawful, Small;
    var m4 := Rejects(sc, m3, Whole(sc.w, id, t, obj));
    var m5 := Acknowledge(sc, m4, Whole(sc.w, id, t, obj), true);
    m' := Refused(sc, m5, 0, id, t.checkpoint);
    assert m'.s.replicas[sc.a].tasks == map[];
  }

  lemma {:induction false} Rejects(sc: Scene, m: Moment, done: Incoming) returns (m': Moment)
    requires Reach(sc, m) && Importing(sc, m, done, Finish(sc.a, done)) && Verdict(sc.w, done).Err?
    ensures Reach(sc, m') && m'.h == m.h && Importing(sc, m', done, Clear(sc.a, done, true))
    ensures Only(m.s, m'.s, sc.b, m.s.replicas[sc.b].(tasks := m'.s.replicas[sc.b].tasks))
  {
    hide Reach, Verdict;
    m' := GoRun(sc, m, sc.b, 0);
    assert m'.s.replicas[sc.b].tasks == map[0 := Clear(sc.a, done, true)];
  }
}

/** What holds in every run of a replicated group. */
module ReplicationTheorems {
  import opened Basics
  import opened Pieces
  import opened Messages
  import opened Transfers
  import opened Replication
  import opened ReplicationInvariant
  import opened ReplicationSteps

  lemma {:induction false} InitialInv(w: Wire, s: System)
    requires Initial(s)
    ensures Inv(w, s)
  {
  }

  lemma {:induction false} RunKeepsInv(w: Wire, s: System, steps: seq<(PeerId, Action)>)
    requires Lawful(w) && Inv(w, s)
    ensures Inv(w, Exec(w, s, steps))
  {
    hide Inv, Next;
    if steps != [] {
      RunKeepsInv(w, s, steps[..|steps|-1]);
      NextKeepsInv(w, Exec(w, s, steps[..|steps|-1]), steps[|steps|-1]);
    }
  }

  // ---- Cursor safety ----

  /** However requests, transfers, chunks and acknowledgements are lost, repeated,
      reordered or overtaken, and whatever disconnects and crashes happen: when a's
      cursor for b is c, b holds every message that a has stamped below c. */
  lemma {:induction false} CursorSafety(w: Wire, s: System, steps: seq<(PeerId, Action)>, a: PeerId, b: PeerId,
                                        id: MsgId)
    requires Lawful(w) && Initial(s)
    requires var end := Exec(w, s, steps);
             && a in end.replicas && b in end.replicas[a].cursors
             && id in end.replicas[a].rows
             && end.replicas[a].rows[id].stamp < end.replicas[a].cursors[b]
    ensures b in Exec(w, s, steps).replicas && id in Exec(w, s, steps).replicas[b].rows
  {
    InitialInv(w, s);
    RunKeepsInv(w, s, steps);
    KnowReplica(w, Exec(w, s, steps), a);
  }

  // ---- Transfers ----

  /** In every run the chunks of an honest group are never rejected: a chunk
      addressed to r is ignored, stored, or completes its transfer. */
  lemma {:induction false} ChunksNeverRejected(w: Wire, s: System, steps: seq<(PeerId, Action)>, packet: Packet)
    requires Lawful(w) && Initial(s)
    requires packet in Exec(w, s, steps).net && packet.payload.ChunkMsg?
    ensures packet.to in Exec(w, s, steps).replicas
    ensures !AcceptChunk(Exec(w, s, steps).replicas[packet.to].maps, packet.from, packet.payload.chunk).1.ChunkRejected?
  {
    var end := Exec(w, s, steps);
    InitialInv(w, s);
    RunKeepsInv(w, s, steps);
    KnowPacket(w, end, packet);
    var maps, p, c := end.replicas[packet.to].maps, packet.from, packet.payload.chunk;
    if p in maps.incoming && maps.incoming[p].transferId == c.transferId && !maps.incoming[p].processing {
      KnowIncoming(w, end, packet.to, p);
      ChunkIncoming(w, end, packet.to, maps, packet);
    }
  }

  /** Whenever an import starts, its concatenated slots are the bytes its sender
      encoded, and it passes the checks exactly when the delta's JSON fits the
      decoder's limit, which no sender checks. */
  lemma {:induction false} ImportedBytesAreSent(w: Wire, s: System, steps: seq<(PeerId, Action)>, r: PeerId, k: nat)
    requires Lawful(w) && Initial(s)
    requires var end := Exec(w, s, steps);
             r in end.replicas && k in end.replicas[r].tasks && end.replicas[r].tasks[k].Finish?
    ensures var end := Exec(w, s, steps);
            var t := end.replicas[r].tasks[k].transfer;
            && t.transferId in end.transfers
            && (var sent := end.transfers[t.transferId];
                var delta := Delta(STATE_SYNC_VERSION, sent.checkpoint, sent.messages);
                && sent.to == r && sent.from == end.replicas[r].tasks[k].peer
                && Flatten(SlotBytes(t.slots)) == Encode(w, delta)
                && (Verdict(w, t) == Ok(delta) <==> |w.marshal(delta)| <= MAX_DECODED_BYTES))
  {
    var end := Exec(w, s, steps);
    InitialInv(w, s);
    RunKeepsInv(w, s, steps);
    KnowTask(w, end, r, k);
    var t := end.replicas[r].tasks[k].transfer;
    var sent := end.transfers[t.transferId];
    HonestVerdict(w, t, Delta(STATE_SYNC_VERSION, sent.checkpoint, sent.messages));
  }

  // ---- Convergence ----

  /** a has acknowledged to itself that b is up to date: its cursor for b is above
      every stamp it has. */
  ghost predicate Synced(s: System, a: PeerId, b: PeerId) {
    && a in s.replicas && b in s.replicas[a].cursors
    && forall id <- s.replicas[a].rows :: s.replicas[a].rows[id].stamp < s.replicas[a].cursors[b]
  }

  ghost predicate SyncedEdge(s: System, path: seq<PeerId>, i: int)
    requires 0 <= i < |path| - 1
  {
    Synced(s, path[i], path[i+1])
  }

  ghost predicate SyncedPath(s: System, path: seq<PeerId>, a: PeerId, b: PeerId) {
    && path != [] && path[0] == a && path[|path|-1] == b
    && forall i :: 0 <= i < |path| - 1 ==> SyncedEdge(s, path, i)
  }

  ghost predicate StronglySynced(s: System) {
    forall a <- s.replicas, b <- s.replicas :: exists path :: SyncedPath(s, path, a, b)
  }

  lemma {:induction false} PathHolds(w: Wire, s: System, path: seq<PeerId>, a: PeerId, b: PeerId)
    requires Inv(w, s) && a in s.replicas && SyncedPath(s, path, a, b)
    ensures b in s.replicas && s.replicas[a].rows.Keys <= s.replicas[b].rows.Keys
  {
    if |path| > 1 {
      var mid := path[1];
      assert SyncedEdge(s, path, 0);
      KnowReplica(w, s, a);
      assert Claim(s, a, mid, s.replicas[a].cursors[mid], {});
      forall i | 0 <= i < |path| - 2
        ensures SyncedEdge(s, path[1..], i)
      {
        assert SyncedEdge(s, path, i + 1);
      }
      PathHolds(w, s, path[1..], mid, b);
    }
  }

  /** When synced edges connect the group strongly, all replicas hold the same ids. */
  lemma {:induction false} Convergence(w: Wire, s: System, steps: seq<(PeerId, Action)>, a: PeerId, b: PeerId)
    requires Lawful(w) && Initial(s)
    requires StronglySynced(Exec(w, s, steps))
    requires a in Exec(w, s, steps).replicas && b in Exec(w, s, steps).replicas
    ensures Exec(w, s, steps).replicas[a].rows.Keys == Exec(w, s, steps).replicas[b].rows.Keys
  {
    var end := Exec(w, s, steps);
    InitialInv(w, s);
    RunKeepsInv(w, s, steps);
    var there :| SyncedPath(end, there, a, b);
    var back :| SyncedPath(end, back, b, a);
    PathHolds(w, end, there, a, b);
    PathHolds(w, end, back, b, a);
  }

  // ---- Bounded traffic ----

  ghost function Held(s: System): set<(PeerId, MsgId)> {
    set r <- s.replicas, id <- s.replicas[r].rows :: (r, id)
  }

  ghost function Universe(s: System): set<MsgId> {
    set r <- s.replicas, id <- s.replicas[r].rows :: id
  }

  /** The (replica, id) pairs that some other replica could still supply. */
  ghost function Missing(s: System): set<(PeerId, MsgId)> {
    set r <- s.replicas, id <- Universe(s) | id !in s.replicas[r].rows :: (r, id)
  }

  /** Rows inserted by one step. */
  ghost function InsertedBy(s: System, step: (PeerId, Action)): nat {
    if step.0 in s.replicas && step.1 == AEndWrite(true)
       && s.replicas[step.0].lock.Some? && s.replicas[step.0].lock.value.ImportFor?
    then |Inserted(s.replicas[step.0].rows, s.replicas[step.0].lock.value.messages)| else 0
  }

  ghost function Insertions(w: Wire, s: System, steps: seq<(PeerId, Action)>): nat {
    if steps == [] then 0 else
      Insertions(w, s, steps[..|steps|-1]) + InsertedBy(Exec(w, s, steps[..|steps|-1]), steps[|steps|-1])
  }

  /** No local message and no snapshot is being written. */
  predicate NoLocalWrite(s: System) {
    forall r <- s.replicas :: s.replicas[r].lock.Some? ==> s.replicas[r].lock.value.ImportFor?
  }

  predicate NoNewMessages(steps: seq<(PeerId, Action)>) {
    forall step <- steps :: !step.1.ABegin?
  }

  lemma {:induction false} TasksLeaveRows(w: Wire, s: System, r: PeerId, rep: Replica, k: nat, ok: bool)
    ensures RunTask(w, s, r, rep, k, ok).replica.rows == rep.rows
    ensures RunTask(w, s, r, rep, k, ok).replica.lock == rep.lock
  {
    if k in rep.tasks {
      match rep.tasks[k]
      case SendNext(_, _, _) =>
      case _ =>
    }
  }

  lemma {:induction false} ScansLeaveRows(w: Wire, s: System, r: PeerId, rep: Replica, k: nat, id: TransferId,
                                        out: seq<Message>)
    ensures RunScan(rep, k, out).replica.rows == rep.rows
    ensures RunScan(rep, k, out).replica.lock == rep.lock
    ensures RunInstall(w, s, r, rep, k, id, out).replica.rows == rep.rows
    ensures RunInstall(w, s, r, rep, k, id, out).replica.lock == rep.lock
  {
  }

  lemma {:induction false} PacketsLeaveRows(rep: Replica, packet: Packet, k: nat)
    ensures Receive(rep, packet, k).replica.rows == rep.rows
    ensures Receive(rep, packet, k).replica.lock == rep.lock
  {
  }

  /** Only the end of a write changes rows, and only a local write begins one. */
  lemma {:induction false} OnlyCommitsInsert(w: Wire, s: System, r: PeerId, a: Action)
    requires r in s.replicas && !a.AEndWrite?
    ensures EffectOf(w, s, r, a).replica.rows == s.replicas[r].rows
    ensures !a.ABegin? ==>
              var lock := EffectOf(w, s, r, a).replica.lock;
              lock == s.replicas[r].lock || lock.None? || lock.value.ImportFor?
  {
    hide Receive, RunTask, RunScan, RunInstall;
    match a
    case ARun(k, ok) => TasksLeaveRows(w, s, r, s.replicas[r], k, ok);
    case AScan(k, out) => ScansLeaveRows(w, s, r, s.replicas[r], k, "", out);
    case AInstall(k, id, out) => ScansLeaveRows(w, s, r, s.replicas[r], k, id, out);
    case AReceive(packet, k) => PacketsLeaveRows(s.replicas[r], packet, k);
    case _ =>
  }

  lemma {:induction false} SameRowsSameSets(s: System, s': System)
    requires s.replicas.Keys == s'.replicas.Keys
    requires forall r <- s.replicas :: s'.replicas[r].rows.Keys == s.replicas[r].rows.Keys
    ensures Held(s') == Held(s) && Universe(s') == Universe(s) && Missing(s') == Missing(s)
  {
  }

  lemma {:induction false} PairUp(r: PeerId, ids: set<MsgId>)
    ensures |set id <- ids :: (r, id)| == |ids|
  {
    if ids != {} {
      var x :| x in ids;
      PairUp(r, ids - {x});
      assert (set id <- ids :: (r, id)) == (set id <- ids - {x} :: (r, id)) + {(r, x)};
    }
  }

  /** What an import is about to write is somewhere in the group already. */
  lemma {:induction false} ImportKnown(w: Wire, s: System, r: PeerId)
    requires Inv(w, s) && r in s.replicas
    requires s.replicas[r].lock.Some? && s.replicas[r].lock.value.ImportFor?
    ensures Ids(s.replicas[r].lock.value.messages) <= Universe(s)
  {
    var write := s.replicas[r].lock.value;
    assert ReplicaOk(w, s, r, s.replicas[r]);
    KnowTask(w, s, r, write.task);
    var id := s.replicas[r].tasks[write.task].transfer.transferId;
    assert TransferOk(w, s, id, s.transfers[id]);
  }

  lemma {:induction false} UniverseKept(s: System, s': System, r: PeerId, ids: set<MsgId>)
    requires r in s.replicas && s'.replicas.Keys == s.replicas.Keys
    requires forall q <- s.replicas :: q != r ==> s'.replicas[q].rows.Keys == s.replicas[q].rows.Keys
    requires s'.replicas[r].rows.Keys == s.replicas[r].rows.Keys + ids
    requires ids <= Universe(s)
    ensures Universe(s') == Universe(s)
  {
    forall id <- Universe(s)
      ensures id in Universe(s')
    {
      var q :| q in s.replicas && id in s.replicas[q].rows.Keys;
      assert q in s'.replicas && id in s'.replicas[q].rows.Keys;
    }
    forall id <- Universe(s')
      ensures id in Universe(s)
    {
      var q :| q in s'.replicas && id in s'.replicas[q].rows.Keys;
    }
  }

  /** Committing an import turns missing pairs into held ones, one per reported row. */
  lemma {:induction false} ImportFills(s: System, s': System, r: PeerId, ids: set<MsgId>)
    requires r in s.replicas && s'.replicas.Keys == s.replicas.Keys
    requires forall q <- s.replicas :: q != r ==> s'.replicas[q].rows.Keys == s.replicas[q].rows.Keys
    requires s'.replicas[r].rows.Keys == s.replicas[r].rows.Keys + ids
    requires ids <= Universe(s)
    ensures |Missing(s)| == |ids - s.replicas[r].rows.Keys| + |Missing(s')|
  {
    var added := ids - s.replicas[r].rows.Keys;
    var pairs := set id <- added :: (r, id);
    UniverseKept(s, s', r, ids);
    assert Missing(s) == Missing(s') + pairs;
    assert Missing(s') !! pairs;
    PairUp(r, added);
  }

  predicate Commits(s: System, step: (PeerId, Action)) {
    step.0 in s.replicas && step.1 == AEndWrite(true) && s.replicas[step.0].lock.Some?
  }

  lemma {:induction false} StepFills(w: Wire, s: System, step: (PeerId, Action))
    requires Inv(w, s) && NoLocalWrite(s) && !step.1.ABegin?
    ensures |Missing(s)| == InsertedBy(s, step) + |Missing(Next(w, s, step))|
  {
    hide Inv, Missing, Held, Universe, Next;
    if Commits(s, step) {
      CommitFills(w, s, step.0);
    } else {
      RowsKept(w, s, step);
      SameRowsSameSets(s, Next(w, s, step));
    }
  }

  lemma {:induction false} RowsKept(w: Wire, s: System, step: (PeerId, Action))
    requires !Commits(s, step)
    ensures Next(w, s, step).replicas.Keys == s.replicas.Keys
    ensures forall r <- s.replicas :: Next(w, s, step).replicas[r].rows == s.replicas[r].rows
  {
    hide Receive, RunTask, RunScan, RunInstall, BeginImport, Begin, Connect, Disconnect, Crash, Tick;
    if step.0 in s.replicas && !step.1.AEndWrite? {
      OnlyCommitsInsert(w, s, step.0, step.1);
    }
  }

  lemma {:induction false} CommittedRows(w: Wire, s: System, r: PeerId)
    requires Commits(s, (r, AEndWrite(true))) && s.replicas[r].lock.value.ImportFor?
    ensures var s' := Next(w, s, (r, AEndWrite(true)));
            && s'.replicas.Keys == s.replicas.Keys
            && (forall q <- s.replicas :: q != r ==> s'.replicas[q].rows.Keys == s.replicas[q].rows.Keys)
            && s'.replicas[r].rows.Keys == s.replicas[r].rows.Keys + Ids(s.replicas[r].lock.value.messages)
  {
    hide Receive, RunTask, RunScan, RunInstall, InsertMissing;
    var write := s.replicas[r].lock.value;
    InsertMissingMeaning(s.replicas[r].rows, write.messages, write.stamp);
  }

  lemma {:induction false} CommitFills(w: Wire, s: System, r: PeerId)
    requires Inv(w, s) && NoLocalWrite(s) && Commits(s, (r, AEndWrite(true)))
    ensures |Missing(s)| == InsertedBy(s, (r, AEndWrite(true))) + |Missing(Next(w, s, (r, AEndWrite(true))))|
  {
    hide Inv, Missing, Universe, Inserted, Next;
    var messages := s.replicas[r].lock.value.messages;
    ImportKnown(w, s, r);
    CommittedRows(w, s, r);
    InsertedMeaning(s.replicas[r].rows, messages);
    ImportFills(s, Next(w, s, (r, AEndWrite(true))), r, Ids(messages));
  }

  lemma {:induction false} NoLocalWriteKept(w: Wire, s: System, step: (PeerId, Action))
    requires NoLocalWrite(s) && !step.1.ABegin?
    ensures NoLocalWrite(Next(w, s, step))
  {
    hide Receive, RunTask, RunScan, RunInstall, BeginImport, Begin, Connect, Disconnect, Crash, Tick;
    if step.0 in s.replicas && !step.1.AEndWrite? {
      OnlyCommitsInsert(w, s, step.0, step.1);
    }
  }

  lemma {:induction false} NoLocalWriteRun(w: Wire, s: System, steps: seq<(PeerId, Action)>)
    requires NoLocalWrite(s) && NoNewMessages(steps)
    ensures NoLocalWrite(Exec(w, s, steps))
  {
    hide NoLocalWrite, Next;
    if steps != [] {
      NoLocalWriteRun(w, s, steps[..|steps|-1]);
      NoLocalWriteKept(w, Exec(w, s, steps[..|steps|-1]), steps[|steps|-1]);
    }
  }

  /** While no message is written locally, every inserted row fills one pair that
      was missing when the run began, and none is filled twice: the insertions of
      the whole run are what is no longer missing. */
  lemma {:induction false} InsertionsBounded(w: Wire, s: System, steps: seq<(PeerId, Action)>)
    requires Lawful(w) && Inv(w, s) && NoLocalWrite(s) && NoNewMessages(steps)
    ensures Insertions(w, s, steps) + |Missing(Exec(w, s, steps))| == |Missing(s)|
  {
    hide Inv, NoLocalWrite, Next, Missing, InsertedBy;
    if steps != [] {
      var init := steps[..|steps|-1];
      InsertionsBounded(w, s, init);
      RunKeepsInv(w, s, init);
      NoLocalWriteRun(w, s, init);
      StepFills(w, Exec(w, s, init), steps[|steps|-1]);
    }
  }
}

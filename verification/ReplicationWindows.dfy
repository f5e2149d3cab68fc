/** Export windows over whole runs: which rows each acknowledged transfer from one replica
    to another exported, how the windows fit together, and when they overlap. */
module ReplicationWindows {
  import opened Basics
  import opened Messages
  import M = MessageStore
  import opened Transfers
  import opened Replication
  import opened ReplicationInvariant
  import opened ReplicationSteps

  /** One export: the window, the table its scan saw, the transfer that carries it, and
      how many windows had been acknowledged when its cursor was read. */
  datatype Window = Window(since: int, before: nat, checkpoint: int, table: Table, id: TransferId)

  /** What a run did for one ordered pair of replicas: the exports under way by task,
      those installed by transfer, and the acknowledged ones in the order in which their
      cursor writes happened. */
  datatype History = History(open: map<nat, Window>, transfers: map<TransferId, Window>, acked: seq<Window>)

  const NO_HISTORY := History(map[], map[], [])

  // ---- The history of a run ----

  function ObserveRun(rep: Replica, h: History, b: PeerId, k: nat, ok: bool): History {
    if k !in rep.tasks || !ok || rep.lock.Some? || rep.tasks[k].peer != b then h else
    match rep.tasks[k]
    case ReadCursor(_) =>
      var since := if b in rep.cursors then rep.cursors[b] else 0;
      h.(open := h.open[k := Window(since, |h.acked|, 0, map[], "")])
    case SetCursor(_, id, _) => if id in h.transfers then h.(acked := h.acked + [h.transfers[id]]) else h
    case _ => h
  }

  /** A scan that yields an export. */
  ghost predicate Exports(rep: Replica, k: nat, out: seq<Message>) {
    && k in rep.tasks && rep.tasks[k].Scan? && rep.lock.None? && rep.tasks[k].checkpoint >= rep.tasks[k].since
    && IsExport(rep.rows, rep.tasks[k].since, rep.tasks[k].checkpoint, out)
  }

  ghost function ObserveScan(rep: Replica, h: History, b: PeerId, k: nat, out: seq<Message>): History {
    if !Exports(rep, k, out) || rep.tasks[k].peer != b || k !in h.open then h
    else h.(open := h.open[k := h.open[k].(checkpoint := rep.tasks[k].checkpoint, table := rep.rows)])
  }

  function ObserveInstall(rep: Replica, h: History, b: PeerId, k: nat, id: TransferId, begun: bool): History {
    if !begun || k !in rep.tasks || rep.tasks[k].peer != b || k !in h.open then h
    else h.(transfers := h.transfers[id := h.open[k].(id := id)])
  }

  /** What a step adds to the history of exports from a to b. */
  ghost function Observe(w: Wire, s: System, h: History, a: PeerId, b: PeerId, step: (PeerId, Action)): History {
    if step.0 != a || a !in s.replicas then h else
    match step.1
    case ARun(k, ok) => ObserveRun(s.replicas[a], h, b, k, ok)
    case AScan(k, out) => ObserveScan(s.replicas[a], h, b, k, out)
    case AInstall(k, id, _) => ObserveInstall(s.replicas[a], h, b, k, id, id in EffectOf(w, s, a, step.1).begun)
    case _ => h
  }

  ghost function HistoryOf(w: Wire, s: System, steps: seq<(PeerId, Action)>, a: PeerId, b: PeerId): History {
    if steps == [] then NO_HISTORY else
      var init := steps[..|steps|-1];
      Observe(w, Exec(w, s, init), HistoryOf(w, s, init, a, b), a, b, steps[|steps|-1])
  }

  // ---- The invariant ----

  /** The greatest checkpoint of some acknowledged windows, 0 for none. */
  function Greatest(ws: seq<Window>): int {
    if ws == [] then 0 else Max(Greatest(ws[..|ws|-1]), ws[|ws|-1].checkpoint)
  }

  /** The window starts at the greatest checkpoint acknowledged before its cursor was read. */
  predicate Starts(acked: seq<Window>, win: Window) {
    win.before <= |acked| && win.since == Greatest(acked[..win.before])
  }

  /** Whatever was written after the scan is stamped at or above the checkpoint. */
  ghost predicate Scanned(rep: Replica, win: Window) {
    win.since <= win.checkpoint <= Horizon(rep) && win.checkpoint > 0 && Evolves(win.table, rep.rows, win.checkpoint)
  }

  /** The transfer carries exactly the rows in the window, sanitized. */
  ghost predicate Carries(t: Transfer, win: Window) {
    && t.checkpoint == win.checkpoint
    && exists ms :: IsExport(win.table, win.since, win.checkpoint, ms) && M.IsSanitized(ms, t.messages, t.from)
  }

  ghost predicate OpenOk(rep: Replica, h: History, b: PeerId, k: nat, task: Task) {
    task.peer == b ==>
      match task
      case ReadClock(_, since) => k in h.open && h.open[k].since == since && Starts(h.acked, h.open[k])
      case Scan(_, since, _) => k in h.open && h.open[k].since == since && Starts(h.acked, h.open[k])
      case Install(_, checkpoint, ms) =>
        && k in h.open && Starts(h.acked, h.open[k]) && Scanned(rep, h.open[k]) && h.open[k].checkpoint == checkpoint
        && IsExport(h.open[k].table, h.open[k].since, checkpoint, ms)
      case SetCursor(_, id, checkpoint) => id in h.transfers && h.transfers[id].checkpoint == checkpoint
      case _ => true
  }

  ghost predicate TasksOpen(rep: Replica, h: History, b: PeerId) {
    forall k <- rep.tasks :: OpenOk(rep, h, b, k, rep.tasks[k])
  }

  ghost predicate CarriedOk(s: System, rep: Replica, h: History, a: PeerId, b: PeerId, id: TransferId) {
    && Between(s, id, a, b) && id in h.transfers && h.transfers[id].id == id
    && Starts(h.acked, h.transfers[id]) && Scanned(rep, h.transfers[id]) && Carries(s.transfers[id], h.transfers[id])
  }

  ghost predicate TransfersKnown(s: System, rep: Replica, h: History, a: PeerId, b: PeerId) {
    && (forall id <- s.transfers :: Between(s, id, a, b) ==> id in h.transfers)
    && (forall id <- h.transfers :: CarriedOk(s, rep, h, a, b, id))
  }

  ghost predicate AckedOk(rep: Replica, h: History) {
    forall m :: 0 <= m < |h.acked| ==>
      && h.acked[m].id in h.transfers && h.transfers[h.acked[m].id] == h.acked[m]
      && h.acked[m].before <= m && Starts(h.acked, h.acked[m]) && Scanned(rep, h.acked[m])
  }

  /** The cursor is the greatest acknowledged checkpoint. */
  predicate CursorIs(rep: Replica, h: History, b: PeerId) {
    if b in rep.cursors then h.acked != [] && rep.cursors[b] == Greatest(h.acked) else h.acked == []
  }

  ghost predicate WindowsOk(s: System, h: History, a: PeerId, b: PeerId) {
    a in s.replicas ==>
      && CursorIs(s.replicas[a], h, b) && AckedOk(s.replicas[a], h)
      && TransfersKnown(s, s.replicas[a], h, a, b) && TasksOpen(s.replicas[a], h, b)
  }

  // ---- What growth keeps ----

  lemma {:induction false} ScannedStable(rep: Replica, rep': Replica, win: Window)
    requires ReplicaGrows(rep, rep') && Scanned(rep, win)
    ensures Scanned(rep', win)
  {
  }

  predicate Extends(acked: seq<Window>, acked': seq<Window>) {
    |acked| <= |acked'| && acked'[..|acked|] == acked
  }

  lemma {:induction false} StartsStable(acked: seq<Window>, acked': seq<Window>, win: Window)
    requires Extends(acked, acked') && Starts(acked, win)
    ensures Starts(acked', win)
  {
    assert acked'[..win.before] == acked[..win.before];
  }

  /** The history only gets longer, apart from the export under way in task k. */
  predicate Remembers(h: History, h': History, k: nat) {
    && Extends(h.acked, h'.acked)
    && (forall id <- h.transfers :: id in h'.transfers && h'.transfers[id] == h.transfers[id])
    && (forall j <- h.open :: j != k ==> j in h'.open && h'.open[j] == h.open[j])
  }

  lemma {:induction false} OpenStable(rep: Replica, rep': Replica, h: History, h': History, b: PeerId, k: nat, j: nat,
                                      task: Task)
    requires ReplicaGrows(rep, rep') && Remembers(h, h', k) && OpenOk(rep, h, b, j, task)
    requires j != k || (j in h.open ==> j in h'.open && h'.open[j] == h.open[j])
    ensures OpenOk(rep', h', b, j, task)
  {
    hide ReplicaGrows, Scanned, Starts, Extends, IsExport;
    if task.peer == b && (task.ReadClock? || task.Scan? || task.Install?) {
      StartsStable(h.acked, h'.acked, h.open[j]);
      if task.Install? {
        ScannedStable(rep, rep', h.open[j]);
      }
    }
  }

  lemma {:induction false} CarriedStable(s: System, s': System, rep: Replica, rep': Replica, h: History, h': History,
                                         a: PeerId, b: PeerId, k: nat, id: TransferId)
    requires ReplicaGrows(rep, rep') && Remembers(h, h', k) && id in h.transfers && CarriedOk(s, rep, h, a, b, id)
    requires id in s.transfers ==> id in s'.transfers && s'.transfers[id] == s.transfers[id]
    ensures CarriedOk(s', rep', h', a, b, id)
  {
    hide ReplicaGrows, Scanned, Starts, Extends, Carries;
    StartsStable(h.acked, h'.acked, h.transfers[id]);
    ScannedStable(rep, rep', h.transfers[id]);
  }

  lemma {:induction false} AckedStable(rep: Replica, rep': Replica, h: History, h': History, k: nat)
    requires ReplicaGrows(rep, rep') && Remembers(h, h', k) && AckedOk(rep, h) && h'.acked == h.acked
    ensures AckedOk(rep', h')
  {
    hide ReplicaGrows, Scanned, Starts;
    forall m | 0 <= m < |h.acked|
      ensures Scanned(rep', h.acked[m])
    {
      ScannedStable(rep, rep', h.acked[m]);
    }
  }

  // ---- Steps of other replicas ----

  lemma {:induction false} OthersKeep(w: Wire, s: System, h: History, a: PeerId, b: PeerId, step: (PeerId, Action))
    requires WindowsOk(s, h, a, b) && step.0 != a
    ensures WindowsOk(Next(w, s, step), h, a, b)
  {
    hide EffectOf, OpenOk, AckedOk, Carries, Starts, Scanned;
    if step.0 in s.replicas {
      BegunByActor(w, s, step);
    }
    var s' := Next(w, s, step);
    if a in s'.replicas {
      assert s'.replicas[a] == s.replicas[a];
    }
  }

  /** A step begins transfers only of its own replica, under unused ids. */
  lemma {:induction false} BegunByActor(w: Wire, s: System, step: (PeerId, Action))
    requires step.0 in s.replicas
    ensures var begun := EffectOf(w, s, step.0, step.1).begun;
            forall id <- begun :: id !in s.transfers && begun[id].from == step.0
  {
    hide RunTask, Receive, RunInstall;
    var rep := s.replicas[step.0];
    match step.1
    case ARun(k, ok) => RunBeginsNone(w, s, step.0, rep, k, ok);
    case AReceive(packet, k) => ReceiveBeginsNone(rep, packet, k);
    case AInstall(k, id, out) => InstallBegins(w, s, step.0, rep, k, id, out);
    case _ =>
  }

  lemma {:induction false} RunBeginsNone(w: Wire, s: System, r: PeerId, rep: Replica, k: nat, ok: bool)
    ensures RunTask(w, s, r, rep, k, ok).begun == map[]
  {
    hide Verdict, Bytes, ManifestOf;
  }

  lemma {:induction false} ReceiveBeginsNone(rep: Replica, packet: Packet, k: nat)
    ensures Receive(rep, packet, k).begun == map[]
  {
    hide AcceptManifest, AcceptChunk, AcceptAck;
  }

  lemma {:induction false} InstallBegins(w: Wire, s: System, r: PeerId, rep: Replica, k: nat, id: TransferId,
                                         out: seq<Message>)
    ensures var begun := RunInstall(w, s, r, rep, k, id, out).begun;
            forall i <- begun :: i == id && i !in s.transfers && begun[i].from == r
  {
    hide M.IsSanitized, Bytes;
  }

  // ---- Steps of a ----

  /** A step of a that begins no transfer and writes no cursor, and leaves the task it
      touches in order. */
  lemma {:induction false} PlainKeep(s: System, s': System, h: History, h': History, a: PeerId, b: PeerId, k: nat)
    requires a in s.replicas && a in s'.replicas && WindowsOk(s, h, a, b)
    requires s'.transfers == s.transfers && ReplicaGrows(s.replicas[a], s'.replicas[a])
    requires s'.replicas[a].cursors == s.replicas[a].cursors
    requires Remembers(h, h', k) && h'.acked == h.acked && h'.transfers == h.transfers
    requires forall j <- s'.replicas[a].tasks | j != k ::
               j in s.replicas[a].tasks && s'.replicas[a].tasks[j] == s.replicas[a].tasks[j]
    requires k in s'.replicas[a].tasks ==> OpenOk(s'.replicas[a], h', b, k, s'.replicas[a].tasks[k])
    ensures WindowsOk(s', h', a, b)
  {
    hide OpenOk, CarriedOk, ReplicaGrows, AckedOk, Remembers;
    var rep, rep' := s.replicas[a], s'.replicas[a];
    AckedStable(rep, rep', h, h', k);
    forall id <- h.transfers
      ensures CarriedOk(s', rep', h', a, b, id)
    {
      CarriedStable(s, s', rep, rep', h, h', a, b, k, id);
    }
    forall j <- rep'.tasks | j != k
      ensures OpenOk(rep', h', b, j, rep'.tasks[j])
    {
      OpenStable(rep, rep', h, h', b, k, j, rep'.tasks[j]) by { RemembersOthers(h, h', k, j); }
    }
  }

  lemma {:induction false} RemembersOthers(h: History, h': History, k: nat, j: nat)
    requires Remembers(h, h', k) && j != k
    ensures j in h.open ==> j in h'.open && h'.open[j] == h.open[j]
  {
  }

  lemma {:induction false} RemembersSelf(h: History, k: nat)
    ensures Remembers(h, h, k)
  {
  }

  /** Tasks that say nothing about a window. */
  predicate Silent(task: Task) {
    !task.ReadClock? && !task.Scan? && !task.Install? && !task.SetCursor?
  }

  lemma {:induction false} SilentOk(rep: Replica, h: History, b: PeerId, k: nat, task: Task)
    requires Silent(task)
    ensures OpenOk(rep, h, b, k, task)
  {
  }

  /** Every task is as before, or task k and silent. */
  predicate Tame(rep: Replica, e: Effect, k: nat) {
    && e.replica.cursors == rep.cursors && e.begun == map[]
    && forall j <- e.replica.tasks ::
         (j in rep.tasks && e.replica.tasks[j] == rep.tasks[j]) || (j == k && Silent(e.replica.tasks[j]))
  }

  lemma {:induction false} TameKeeps(s: System, h: History, a: PeerId, b: PeerId, e: Effect, k: nat)
    requires a in s.replicas && WindowsOk(s, h, a, b) && Tame(s.replicas[a], e, k)
             && ReplicaGrows(s.replicas[a], e.replica)
    ensures WindowsOk(Apply(s, a, e), h, a, b)
  {
    hide ReplicaGrows, OpenOk, CarriedOk, AckedOk, Remembers, TransfersKnown;
    var s' := Apply(s, a, e);
    RemembersSelf(h, k);
    assert s'.transfers == s.transfers;
    if k in e.replica.tasks {
      if k in s.replicas[a].tasks && e.replica.tasks[k] == s.replicas[a].tasks[k] {
        OpenStable(s.replicas[a], e.replica, h, h, b, k, k, e.replica.tasks[k]);
      } else {
        SilentOk(e.replica, h, b, k, e.replica.tasks[k]);
      }
    }
    PlainKeep(s, s', h, h, a, b, k);
  }

  /** Actions other than a task's own step, an export, an installation or a delivery. */
  lemma {:induction false} SmallTame(w: Wire, s: System, a: PeerId, action: Action) returns (k: nat)
    requires a in s.replicas
    requires !action.ARun? && !action.AScan? && !action.AInstall? && !action.AReceive?
    ensures Tame(s.replicas[a], EffectOf(w, s, a, action), k)
  {
    hide Commit;
    k := if action.AConnect? then action.task
         else if action.AEndWrite? && s.replicas[a].lock.Some? && s.replicas[a].lock.value.ImportFor? then
           s.replicas[a].lock.value.task
         else 0;
  }

  lemma {:induction false} ReceiveTame(rep: Replica, packet: Packet, k: nat)
    requires !packet.payload.AckMsg?
    ensures Tame(rep, Receive(rep, packet, k), k)
  {
    hide AcceptManifest, AcceptChunk;
  }

  lemma {:induction false} RunTame(w: Wire, s: System, a: PeerId, rep: Replica, k: nat, ok: bool)
    requires k in rep.tasks && !rep.tasks[k].ReadCursor? && !rep.tasks[k].ReadClock? && !rep.tasks[k].SetCursor?
    ensures Tame(rep, RunTask(w, s, a, rep, k, ok), k)
  {
    hide Verdict, Bytes, ManifestOf;
  }

  /** Reading the cursor opens a window that starts where the cursor is. */
  lemma {:induction false} ReadCursorKeeps(w: Wire, s: System, h: History, a: PeerId, b: PeerId, k: nat, ok: bool)
    requires a in s.replicas && k in s.replicas[a].tasks && s.replicas[a].tasks[k].ReadCursor? && WindowsOk(s, h, a, b)
    requires ReplicaGrows(s.replicas[a], RunTask(w, s, a, s.replicas[a], k, ok).replica)
    ensures WindowsOk(Apply(s, a, RunTask(w, s, a, s.replicas[a], k, ok)), ObserveRun(s.replicas[a], h, b, k, ok), a, b)
  {
    hide ReplicaGrows, CarriedOk, AckedOk, TransfersKnown, Scanned, TasksOpen;
    var rep := s.replicas[a];
    var e := RunTask(w, s, a, rep, k, ok);
    var h' := ObserveRun(rep, h, b, k, ok);
    assert h.acked[..|h.acked|] == h.acked;
    assert s.transfers + e.begun == s.transfers;
    if rep.lock.Some? || !ok {
      RemembersSelf(h, k);
      assert OpenOk(e.replica, h', b, k, e.replica.tasks[k]);
    }
    PlainKeep(s, Apply(s, a, e), h, h', a, b, k);
  }

  lemma {:induction false} TaskOpen(rep: Replica, h: History, b: PeerId, k: nat)
    requires TasksOpen(rep, h, b) && k in rep.tasks
    ensures OpenOk(rep, h, b, k, rep.tasks[k])
  {
  }

  lemma {:induction false} ReadClockKeeps(w: Wire, s: System, h: History, a: PeerId, b: PeerId, k: nat, ok: bool)
    requires a in s.replicas && k in s.replicas[a].tasks && s.replicas[a].tasks[k].ReadClock? && WindowsOk(s, h, a, b)
    requires ReplicaGrows(s.replicas[a], RunTask(w, s, a, s.replicas[a], k, ok).replica)
    ensures WindowsOk(Apply(s, a, RunTask(w, s, a, s.replicas[a], k, ok)), ObserveRun(s.replicas[a], h, b, k, ok), a, b)
  {
    hide ReplicaGrows, CarriedOk, AckedOk, TransfersKnown, Scanned, TasksOpen, Remembers;
    var rep := s.replicas[a];
    var e := RunTask(w, s, a, rep, k, ok);
    TaskOpen(rep, h, b, k);
    RemembersSelf(h, k);
    assert s.transfers + e.begun == s.transfers;
    PlainKeep(s, Apply(s, a, e), h, h, a, b, k);
  }

  /** The scan holds the lock, so its window stays ahead of every later stamp. */
  lemma {:induction false} ScanKeeps(s: System, h: History, a: PeerId, b: PeerId, k: nat, out: seq<Message>)
    requires a in s.replicas && WindowsOk(s, h, a, b)
             && ReplicaGrows(s.replicas[a], RunScan(s.replicas[a], k, out).replica)
    requires k in s.replicas[a].tasks && s.replicas[a].tasks[k].Scan? ==>
             0 < s.replicas[a].tasks[k].checkpoint <= s.replicas[a].clock
    ensures WindowsOk(Apply(s, a, RunScan(s.replicas[a], k, out)), ObserveScan(s.replicas[a], h, b, k, out), a, b)
  {
    hide ReplicaGrows, CarriedOk, AckedOk, TransfersKnown, TasksOpen, IsExport;
    var rep := s.replicas[a];
    var e := RunScan(rep, k, out);
    var h' := ObserveScan(rep, h, b, k, out);
    assert s.transfers + e.begun == s.transfers;
    if k in rep.tasks {
      TaskOpen(rep, h, b, k);
      if e.replica.tasks[k] == rep.tasks[k] {
        RemembersSelf(h, k);
        OpenStable(rep, e.replica, h, h, b, k, k, rep.tasks[k]);
      }
    }
    PlainKeep(s, Apply(s, a, e), h, h', a, b, k);
  }

  /** An acknowledgement starts a cursor write only for an installed transfer. */
  lemma {:induction false} AckKeeps(s: System, h: History, a: PeerId, b: PeerId, packet: Packet, k: nat)
    requires a in s.replicas && WindowsOk(s, h, a, b) && packet.payload.AckMsg?
    requires ReplicaGrows(s.replicas[a], Receive(s.replicas[a], packet, k).replica)
    requires forall p <- s.replicas[a].maps.outgoing :: OutgoingOk(s, a, p, s.replicas[a].maps.outgoing[p])
    ensures WindowsOk(Apply(s, a, Receive(s.replicas[a], packet, k)), h, a, b)
  {
    hide ReplicaGrows, AckedOk, CarriedOk, OpenOk, TransfersKnown, TasksOpen, Remembers;
    var rep := s.replicas[a];
    var e := Receive(rep, packet, k);
    RemembersSelf(h, k);
    assert s.transfers + e.begun == s.transfers;
    if k in rep.tasks {
      TaskOpen(rep, h, b, k);
      OpenStable(rep, e.replica, h, h, b, k, k, rep.tasks[k]);
    } else {
      MatchedOk(s, h, a, b, packet, k);
    }
    PlainKeep(s, Apply(s, a, e), h, h, a, b, k);
  }

  lemma {:induction false} MatchedOk(s: System, h: History, a: PeerId, b: PeerId, packet: Packet, k: nat)
    requires a in s.replicas && TransfersKnown(s, s.replicas[a], h, a, b) && packet.payload.AckMsg?
    requires k !in s.replicas[a].tasks
    requires forall p <- s.replicas[a].maps.outgoing :: OutgoingOk(s, a, p, s.replicas[a].maps.outgoing[p])
    ensures var rep' := Receive(s.replicas[a], packet, k).replica;
            k in rep'.tasks ==> OpenOk(rep', h, b, k, rep'.tasks[k])
  {
    hide Scanned, Starts, IsExport, M.IsSanitized;
    var p, id := packet.from, packet.payload.ack.transferId;
    if p == b && p in s.replicas[a].maps.outgoing && s.replicas[a].maps.outgoing[p].transferId == id {
      assert id in h.transfers && CarriedOk(s, s.replicas[a], h, a, b, id);
    }
  }

  /** Installing ties the window to a transfer. */
  lemma {:induction false} InstallKeeps(w: Wire, s: System, h: History, a: PeerId, b: PeerId, k: nat, id: TransferId,
                                        out: seq<Message>)
    requires a in s.replicas && WindowsOk(s, h, a, b)
    requires ReplicaGrows(s.replicas[a], RunInstall(w, s, a, s.replicas[a], k, id, out).replica)
    ensures var e := RunInstall(w, s, a, s.replicas[a], k, id, out);
            WindowsOk(Apply(s, a, e), ObserveInstall(s.replicas[a], h, b, k, id, id in e.begun), a, b)
  {
    hide ReplicaGrows, Scanned, TasksOpen, IsExport, Bytes, M.IsSanitized;
    var rep := s.replicas[a];
    var e := RunInstall(w, s, a, rep, k, id, out);
    if e.begun == map[] {
      InstallFails(w, s, a, rep, k, id, out);
      hide RunInstall, WindowsOk;
      TameKeeps(s, h, a, b, e, k);
    } else {
      TaskOpen(rep, h, b, k);
      Installs(s, h, a, b, k, id, Transfer(a, rep.tasks[k].peer, rep.tasks[k].checkpoint, out), e);
    }
  }

  lemma {:induction false} InstallFails(w: Wire, s: System, a: PeerId, rep: Replica, k: nat, id: TransferId,
                                        out: seq<Message>)
    requires RunInstall(w, s, a, rep, k, id, out).begun == map[]
    ensures Tame(rep, RunInstall(w, s, a, rep, k, id, out), k)
  {
    hide Bytes, M.IsSanitized;
    if id in map[id := Transfer(a, "", 0, out)] {}
  }

  lemma {:induction false} Installs(s: System, h: History, a: PeerId, b: PeerId, k: nat, id: TransferId, t: Transfer,
                                    e: Effect)
    requires a in s.replicas && WindowsOk(s, h, a, b) && ReplicaGrows(s.replicas[a], e.replica)
    requires k in s.replicas[a].tasks && s.replicas[a].tasks[k].Install?
    requires OpenOk(s.replicas[a], h, b, k, s.replicas[a].tasks[k])
    requires t.from == a && t.to == s.replicas[a].tasks[k].peer && t.checkpoint == s.replicas[a].tasks[k].checkpoint
    requires M.IsSanitized(s.replicas[a].tasks[k].messages, t.messages, a) && id !in s.transfers
    requires e.begun == map[id := t] && e.replica.cursors == s.replicas[a].cursors
    requires e.replica.tasks == s.replicas[a].tasks[k := SendNext(t.to, id, -1)]
    ensures WindowsOk(Apply(s, a, e), ObserveInstall(s.replicas[a], h, b, k, id, true), a, b)
  {
    hide ReplicaGrows, OpenOk, AckedOk, Remembers, Carries, Starts, Scanned;
    var s', rep := Apply(s, a, e), s.replicas[a];
    var h' := ObserveInstall(rep, h, b, k, id, true);
    InstallRemembers(s, rep, h, a, b, k, id);
    AckedStable(rep, e.replica, h, h', k);
    forall i <- h.transfers
      ensures CarriedOk(s', e.replica, h', a, b, i)
    {
      assert CarriedOk(s, rep, h, a, b, i);
      CarriedStable(s, s', rep, e.replica, h, h', a, b, k, i);
    }
    if t.to == b {
      InstalledOk(rep, e.replica, h, b, k, t);
    }
    SilentOk(e.replica, h', b, k, SendNext(t.to, id, -1));
    forall j <- e.replica.tasks | j != k
      ensures OpenOk(e.replica, h', b, j, e.replica.tasks[j])
    {
      OpenStable(rep, e.replica, h, h', b, k, j, rep.tasks[j]) by { RemembersOthers(h, h', k, j); }
    }
  }

  lemma {:induction false} InstallRemembers(s: System, rep: Replica, h: History, a: PeerId, b: PeerId, k: nat,
                                            id: TransferId)
    requires TransfersKnown(s, rep, h, a, b) && id !in s.transfers
    requires k in rep.tasks && OpenOk(rep, h, b, k, rep.tasks[k]) && rep.tasks[k].Install?
    ensures var h' := ObserveInstall(rep, h, b, k, id, true);
            && Remembers(h, h', k) && h'.acked == h.acked && h'.open == h.open
            && h'.transfers == if rep.tasks[k].peer == b then h.transfers[id := h.open[k].(id := id)] else h.transfers
  {
    hide Scanned, Starts, Carries, IsExport;
    assert h.acked[..|h.acked|] == h.acked;
    assert id in h.transfers ==> CarriedOk(s, rep, h, a, b, id);
  }

  lemma {:induction false} InstalledOk(rep: Replica, rep': Replica, h: History, b: PeerId, k: nat, t: Transfer)
    requires ReplicaGrows(rep, rep') && k in rep.tasks && rep.tasks[k].Install? && rep.tasks[k].peer == b
    requires OpenOk(rep, h, b, k, rep.tasks[k]) && t.checkpoint == rep.tasks[k].checkpoint
    requires M.IsSanitized(rep.tasks[k].messages, t.messages, t.from)
    ensures k in h.open
    ensures forall id: TransferId :: var win := h.open[k].(id := id);
              Starts(h.acked, win) && Scanned(rep', win) && Carries(t, win)
  {
    ScannedStable(rep, rep', h.open[k]);
    hide ReplicaGrows, IsExport, M.IsSanitized, Evolves;
  }

  /** The cursor write appends its window, and the cursor is again the greatest
      acknowledged checkpoint. */
  lemma {:induction false} SetCursorKeeps(w: Wire, s: System, h: History, a: PeerId, b: PeerId, k: nat, ok: bool)
    requires a in s.replicas && k in s.replicas[a].tasks && s.replicas[a].tasks[k].SetCursor? && WindowsOk(s, h, a, b)
    requires ReplicaGrows(s.replicas[a], RunTask(w, s, a, s.replicas[a], k, ok).replica)
    ensures WindowsOk(Apply(s, a, RunTask(w, s, a, s.replicas[a], k, ok)), ObserveRun(s.replicas[a], h, b, k, ok), a, b)
  {
    hide ReplicaGrows, Scanned, TasksOpen, Starts, Carries;
    var rep := s.replicas[a];
    var e := RunTask(w, s, a, rep, k, ok);
    var h' := ObserveRun(rep, h, b, k, ok);
    TaskOpen(rep, h, b, k);
    assert s.transfers + e.begun == s.transfers;
    if rep.lock.Some? || !ok || rep.tasks[k].peer != b {
      RemembersSelf(h, k);
      if rep.lock.Some? {
        OpenStable(rep, e.replica, h, h, b, k, k, rep.tasks[k]);
      }
      CursorElsewhere(s, h, a, b, e, k);
    } else {
      CursorWritten(s, h, h', a, b, e, k);
    }
  }

  lemma {:induction false} CursorElsewhere(s: System, h: History, a: PeerId, b: PeerId, e: Effect, k: nat)
    requires a in s.replicas && WindowsOk(s, h, a, b) && ReplicaGrows(s.replicas[a], e.replica)
    requires Apply(s, a, e).transfers == s.transfers && CursorIs(e.replica, h, b)
    requires forall j <- e.replica.tasks | j != k ::
               j in s.replicas[a].tasks && e.replica.tasks[j] == s.replicas[a].tasks[j]
    requires k in e.replica.tasks ==> OpenOk(e.replica, h, b, k, e.replica.tasks[k])
    ensures WindowsOk(Apply(s, a, e), h, a, b)
  {
    hide OpenOk, CarriedOk, ReplicaGrows, AckedOk, Remembers, CursorIs;
    var rep, s' := s.replicas[a], Apply(s, a, e);
    RemembersSelf(h, k);
    AckedStable(rep, e.replica, h, h, k);
    forall id <- h.transfers
      ensures CarriedOk(s', e.replica, h, a, b, id)
    {
      CarriedStable(s, s', rep, e.replica, h, h, a, b, k, id);
    }
    forall j <- e.replica.tasks | j != k
      ensures OpenOk(e.replica, h, b, j, e.replica.tasks[j])
    {
      OpenStable(rep, e.replica, h, h, b, k, j, e.replica.tasks[j]);
    }
  }

  lemma {:induction false} CursorWritten(s: System, h: History, h': History, a: PeerId, b: PeerId, e: Effect, k: nat)
    requires a in s.replicas && WindowsOk(s, h, a, b) && ReplicaGrows(s.replicas[a], e.replica)
    requires k in s.replicas[a].tasks && s.replicas[a].tasks[k].SetCursor? && s.replicas[a].tasks[k].peer == b
    requires Apply(s, a, e).transfers == s.transfers
    requires var t := s.replicas[a].tasks[k];
             && OpenOk(s.replicas[a], h, b, k, t)
             && h' == h.(acked := h.acked + [h.transfers[t.transferId]])
             && e.replica.cursors == s.replicas[a].cursors[b :=
                  if b in s.replicas[a].cursors then Max(s.replicas[a].cursors[b], t.checkpoint) else t.checkpoint]
             && e.replica.tasks == s.replicas[a].tasks[k := DropTransfer(b, t.transferId)]
    ensures WindowsOk(Apply(s, a, e), h', a, b)
  {
    hide ReplicaGrows, Scanned, Starts, Carries;
    var rep, s' := s.replicas[a], Apply(s, a, e);
    var win := h.transfers[rep.tasks[k].transferId];
    assert CarriedOk(s, rep, h, a, b, win.id);
    assert h'.acked[..|h.acked|] == h.acked;
    assert Greatest(h'.acked) == Max(Greatest(h.acked), win.checkpoint);
    assert win.checkpoint > 0 by { ScannedPositive(rep, win); }
    assert Remembers(h, h', k);
    AckedAppend(rep, e.replica, h, h', win, k);
    hide CarriedOk, OpenOk, AckedOk, Greatest, Remembers;
    SameTransfersKnown(s, s', rep, e.replica, h, h', a, b, k);
    DropOpened(rep, e.replica, h, h', b, k, rep.tasks[k].transferId);
  }

  lemma {:induction false} SameTransfersKnown(s: System, s': System, rep: Replica, rep': Replica, h: History,
                                              h': History, a: PeerId, b: PeerId, k: nat)
    requires ReplicaGrows(rep, rep') && Remembers(h, h', k) && TransfersKnown(s, rep, h, a, b)
    requires s'.transfers == s.transfers && h'.transfers == h.transfers
    ensures TransfersKnown(s', rep', h', a, b)
  {
    hide ReplicaGrows, Remembers, CarriedOk;
    forall id <- h.transfers
      ensures CarriedOk(s', rep', h', a, b, id)
    {
      CarriedStable(s, s', rep, rep', h, h', a, b, k, id);
    }
  }

  lemma {:induction false} DropOpened(rep: Replica, rep': Replica, h: History, h': History, b: PeerId, k: nat,
                                      id: TransferId)
    requires ReplicaGrows(rep, rep') && Remembers(h, h', k) && TasksOpen(rep, h, b)
    requires k in rep.tasks && rep'.tasks == rep.tasks[k := DropTransfer(b, id)]
    ensures TasksOpen(rep', h', b)
  {
    SilentOk(rep', h', b, k, DropTransfer(b, id));
    hide ReplicaGrows, Remembers, OpenOk;
    forall j <- rep'.tasks
      ensures OpenOk(rep', h', b, j, rep'.tasks[j])
    {
      if j != k {
        OpenStable(rep, rep', h, h', b, k, j, rep.tasks[j]);
      }
    }
  }

  lemma {:induction false} ScannedPositive(rep: Replica, win: Window)
    requires Scanned(rep, win)
    ensures win.checkpoint > 0
  {
  }

  lemma {:induction false} AckedAppend(rep: Replica, rep': Replica, h: History, h': History, win: Window, k: nat)
    requires ReplicaGrows(rep, rep') && AckedOk(rep, h) && Remembers(h, h', k)
    requires win.id in h.transfers && h.transfers[win.id] == win && Starts(h.acked, win) && Scanned(rep, win)
    requires h'.transfers == h.transfers && h'.acked == h.acked + [win]
    ensures AckedOk(rep', h')
  {
    hide ReplicaGrows, Scanned, Remembers;
    assert h'.acked[..|h.acked|] == h.acked;
    forall m | 0 <= m < |h'.acked|
      ensures Scanned(rep', h'.acked[m]) && Starts(h'.acked, h'.acked[m])
    {
      assert h'.acked[m] == if m < |h.acked| then h.acked[m] else win;
      ScannedStable(rep, rep', h'.acked[m]);
      StartsStable(h.acked, h'.acked, h'.acked[m]);
    }
  }

  lemma {:induction false} RunKeepsWindowsOf(w: Wire, s: System, h: History, a: PeerId, b: PeerId, k: nat, ok: bool)
    requires a in s.replicas && WindowsOk(s, h, a, b)
    requires ReplicaGrows(s.replicas[a], RunTask(w, s, a, s.replicas[a], k, ok).replica)
    ensures WindowsOk(Apply(s, a, RunTask(w, s, a, s.replicas[a], k, ok)), ObserveRun(s.replicas[a], h, b, k, ok), a, b)
  {
    hide WindowsOk, ReplicaGrows, Apply;
    var rep := s.replicas[a];
    if k in rep.tasks && rep.tasks[k].ReadCursor? {
      ReadCursorKeeps(w, s, h, a, b, k, ok);
    } else if k in rep.tasks && rep.tasks[k].ReadClock? {
      ReadClockKeeps(w, s, h, a, b, k, ok);
    } else if k in rep.tasks && rep.tasks[k].SetCursor? {
      SetCursorKeeps(w, s, h, a, b, k, ok);
    } else {
      if k in rep.tasks { RunTame(w, s, a, rep, k, ok); }
      hide SendPiece;
      TameKeeps(s, h, a, b, RunTask(w, s, a, rep, k, ok), k);
    }
  }

  lemma {:induction false} ScanTaskKnown(w: Wire, s: System, a: PeerId, k: nat)
    requires Inv(w, s) && a in s.replicas && k in s.replicas[a].tasks && s.replicas[a].tasks[k].Scan?
    ensures 0 < s.replicas[a].tasks[k].checkpoint <= s.replicas[a].clock
  {
    KnowTask(w, s, a, k);
  }

  lemma {:induction false} OutgoingKnown(w: Wire, s: System, a: PeerId)
    requires Inv(w, s) && a in s.replicas
    ensures forall p <- s.replicas[a].maps.outgoing :: OutgoingOk(s, a, p, s.replicas[a].maps.outgoing[p])
  {
    assert ReplicaOk(w, s, a, s.replicas[a]);
  }

  lemma {:induction false} ActionKeeps(w: Wire, s: System, h: History, a: PeerId, b: PeerId, action: Action)
    requires Lawful(w) && Inv(w, s) && a in s.replicas && WindowsOk(s, h, a, b)
    ensures WindowsOk(Next(w, s, (a, action)), Observe(w, s, h, a, b, (a, action)), a, b)
  {
    hide Inv, WindowsOk, ReplicaGrows, Apply, RunTask, RunScan, RunInstall, Receive, ObserveRun, ObserveScan,
         ObserveInstall;
    NextKeepsInv(w, s, (a, action));
    match action
    case ARun(k, ok) => RunKeepsWindowsOf(w, s, h, a, b, k, ok);
    case AScan(k, out) =>
      if k in s.replicas[a].tasks && s.replicas[a].tasks[k].Scan? { ScanTaskKnown(w, s, a, k); }
      ScanKeeps(s, h, a, b, k, out);
    case AInstall(k, id, out) => InstallKeeps(w, s, h, a, b, k, id, out);
    case AReceive(packet, k) => ReceiveKeeps(w, s, h, a, b, packet, k);
    case _ =>
      var k := SmallTame(w, s, a, action);
      hide EffectOf;
      TameKeeps(s, h, a, b, EffectOf(w, s, a, action), k);
  }

  lemma {:induction false} ReceiveKeeps(w: Wire, s: System, h: History, a: PeerId, b: PeerId, packet: Packet, k: nat)
    requires Inv(w, s) && a in s.replicas && WindowsOk(s, h, a, b)
    requires ReplicaGrows(s.replicas[a], EffectOf(w, s, a, AReceive(packet, k)).replica)
    ensures WindowsOk(Apply(s, a, EffectOf(w, s, a, AReceive(packet, k))), h, a, b)
  {
    hide Inv, WindowsOk, ReplicaGrows, Apply, Receive;
    if packet !in s.net || packet.to != a {
      TameKeeps(s, h, a, b, Local(s.replicas[a]), 0);
    } else if packet.payload.AckMsg? {
      OutgoingKnown(w, s, a);
      AckKeeps(s, h, a, b, packet, k);
    } else {
      ReceiveTame(s.replicas[a], packet, k);
      TameKeeps(s, h, a, b, Receive(s.replicas[a], packet, k), k);
    }
  }

  lemma {:induction false} NextKeepsWindows(w: Wire, s: System, h: History, a: PeerId, b: PeerId,
                                            step: (PeerId, Action))
    requires Lawful(w) && Inv(w, s) && WindowsOk(s, h, a, b)
    ensures WindowsOk(Next(w, s, step), Observe(w, s, h, a, b, step), a, b)
  {
    if step.0 != a {
      OthersKeep(w, s, h, a, b, step);
    } else if a in s.replicas {
      hide Inv, WindowsOk, Next, Observe;
      assert step == (a, step.1);
      ActionKeeps(w, s, h, a, b, step.1);
    } else {
      assert WindowsOk(Next(w, s, step), h, a, b);
    }
  }
}

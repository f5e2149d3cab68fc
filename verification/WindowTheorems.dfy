/** Window coverage over every run: acknowledged exports from one replica to another
    together cover every row stamped below the cursor, and which of them overlap. */
module WindowTheorems {
  import opened Basics
  import opened Messages
  import M = MessageStore
  import opened Transfers
  import opened Replication
  import opened ReplicationInvariant
  import opened ReplicationWindows
  import T = ReplicationTheorems

  lemma {:induction false} StartsWithoutWindows(s: System, a: PeerId, b: PeerId)
    requires Initial(s)
    ensures WindowsOk(s, NO_HISTORY, a, b)
  {
  }

  lemma {:induction false} RunKeepsWindows(w: Wire, s: System, steps: seq<(PeerId, Action)>, a: PeerId, b: PeerId)
    requires Lawful(w) && Initial(s)
    ensures Inv(w, Exec(w, s, steps))
    ensures WindowsOk(Exec(w, s, steps), HistoryOf(w, s, steps, a, b), a, b)
  {
    hide Inv, WindowsOk, Next, Observe, Initial;
    T.InitialInv(w, s);
    T.RunKeepsInv(w, s, steps);
    if steps == [] {
      StartsWithoutWindows(s, a, b);
    } else {
      var init := steps[..|steps|-1];
      RunKeepsWindows(w, s, init, a, b);
      NextKeepsWindows(w, Exec(w, s, init), HistoryOf(w, s, init, a, b), a, b, steps[|steps|-1]);
    }
  }

  // ---- How the windows fit together ----

  /** In every run: the cursor is the greatest acknowledged checkpoint; each acknowledged
      window starts at the greatest checkpoint acknowledged before its cursor was read,
      carried exactly the rows it spans, and everything written since its scan is stamped
      at or above its checkpoint. */
  lemma {:induction false} WindowsFit(w: Wire, s: System, steps: seq<(PeerId, Action)>, a: PeerId, b: PeerId, m: nat)
    requires Lawful(w) && Initial(s) && a in s.replicas
    requires m < |HistoryOf(w, s, steps, a, b).acked|
    ensures a in Exec(w, s, steps).replicas
    ensures var rep := Exec(w, s, steps).replicas[a];
            var acked := HistoryOf(w, s, steps, a, b).acked;
            && b in rep.cursors && rep.cursors[b] == Greatest(acked)
            && acked[m].before <= m && acked[m].since == Greatest(acked[..acked[m].before])
            && acked[m].since <= acked[m].checkpoint && Evolves(acked[m].table, rep.rows, acked[m].checkpoint)
    ensures var end := Exec(w, s, steps);
            var win := HistoryOf(w, s, steps, a, b).acked[m];
            Between(end, win.id, a, b) && Carries(end.transfers[win.id], win)
  {
    hide Inv, Initial, IsExport, M.IsSanitized, Observe, Next;
    RunKeepsWindows(w, s, steps, a, b);
    SameReplicas(w, s, steps);
    var end, h := Exec(w, s, steps), HistoryOf(w, s, steps, a, b);
    assert CarriedOk(end, end.replicas[a], h, a, b, h.acked[m].id);
  }

  lemma {:induction false} SameReplicas(w: Wire, s: System, steps: seq<(PeerId, Action)>)
    ensures Exec(w, s, steps).replicas.Keys == s.replicas.Keys
  {
    if steps != [] {
      hide EffectOf;
      SameReplicas(w, s, steps[..|steps|-1]);
    }
  }

  /** The row is in the window, under the stamp it had at the scan. */
  predicate Covers(win: Window, id: MsgId) {
    InWindow(win.table, win.since, win.checkpoint, id)
  }

  /** A row stamped below what the first n windows reach is in one of them. */
  lemma {:induction false} FirstCover(rep: Replica, h: History, n: nat, id: MsgId) returns (m: nat)
    requires AckedOk(rep, h) && n <= |h.acked|
    requires id in rep.rows && 0 <= rep.rows[id].stamp < Greatest(h.acked[..n])
    ensures m < n && Covers(h.acked[m], id) && h.acked[m].table[id].stamp == rep.rows[id].stamp
    decreases n
  {
    var stamp := rep.rows[id].stamp;
    assert n > 0 && h.acked[..n][..n-1] == h.acked[..n-1];
    var win := h.acked[n-1];
    assert Scanned(rep, win) && Starts(h.acked, win);
    if stamp < Greatest(h.acked[..n-1]) {
      m := FirstCover(rep, h, n - 1, id);
    } else if stamp >= win.since {
      m := n - 1;
    } else {
      m := FirstCover(rep, h, win.before, id);
    }
  }

  /** In every run, with overlapping transfers, late acknowledgements, disconnects and
      crashes: every row a has stamped below its cursor for b was exported to b, under
      that very stamp, by an acknowledged transfer. */
  lemma {:induction false} WindowsCover(w: Wire, s: System, steps: seq<(PeerId, Action)>, a: PeerId, b: PeerId,
                                        id: MsgId)
    requires Lawful(w) && Initial(s) && a in s.replicas
    requires var end := Exec(w, s, steps);
             && a in end.replicas && b in end.replicas[a].cursors && id in end.replicas[a].rows
             && end.replicas[a].rows[id].stamp < end.replicas[a].cursors[b]
    ensures var acked := HistoryOf(w, s, steps, a, b).acked;
            exists m :: 0 <= m < |acked| && Covers(acked[m], id)
                        && acked[m].table[id].stamp == Exec(w, s, steps).replicas[a].rows[id].stamp
  {
    hide Initial, Observe, Next, PacketOk, TransferOk, CursorsOk, MapsOk;
    RunKeepsWindows(w, s, steps, a, b);
    var end, h := Exec(w, s, steps), HistoryOf(w, s, steps, a, b);
    assert ReplicaOk(w, end, a, end.replicas[a]);
    assert h.acked[..|h.acked|] == h.acked;
    var m := FirstCover(end.replicas[a], h, |h.acked|, id);
  }

  // ---- Overlap ----

  /** When window j read its cursor, no write had brought it up to i's checkpoint. */
  predicate Late(acked: seq<Window>, i: nat, j: nat)
    requires i < j < |acked| && acked[j].before <= j
  {
    forall m :: 0 <= m < acked[j].before ==> acked[m].checkpoint < acked[i].checkpoint
  }

  /** Both windows exported the row under one stamp, other than on a tick at which one
      ends and the other starts. */
  predicate SharedBeyond(x: Window, y: Window, id: MsgId) {
    && Covers(x, id) && Covers(y, id) && x.table[id].stamp == y.table[id].stamp
    && !(x.table[id].stamp == x.checkpoint == y.since)
  }

  /** The row kept its stamp from one scan to the other, inside both windows. */
  predicate KeptInBoth(x: Window, y: Window, id: MsgId) {
    && id in x.table && id in y.table && x.table[id].stamp == y.table[id].stamp
    && Max(x.since, y.since) <= x.table[id].stamp <= Min(x.checkpoint, y.checkpoint)
  }

  lemma {:induction false} GreatestBelow(ws: seq<Window>, c: int)
    ensures Greatest(ws) < c <==> 0 < c && forall m :: 0 <= m < |ws| ==> ws[m].checkpoint < c
  {
    if ws != [] {
      GreatestBelow(ws[..|ws|-1], c);
    }
  }

  /** A window starts before an earlier-acknowledged one ends exactly when it read its
      cursor before any write had reached that end. */
  lemma {:induction false} StartsBeforeEndIffLate(rep: Replica, h: History, i: nat, j: nat)
    requires AckedOk(rep, h) && i < j < |h.acked|
    ensures h.acked[j].before <= j
    ensures h.acked[j].since < h.acked[i].checkpoint <==> Late(h.acked, i, j)
  {
    assert Scanned(rep, h.acked[i]) && Starts(h.acked, h.acked[j]);
    GreatestBelow(h.acked[..h.acked[j].before], h.acked[i].checkpoint);
    assert forall m :: 0 <= m < h.acked[j].before ==> h.acked[..h.acked[j].before][m] == h.acked[m];
  }

  /** In every run, two acknowledged windows share a row beyond the boundary tick if and
      only if the later one read its cursor before any write had brought it up to the
      earlier one's checkpoint, and a row kept its stamp inside both. */
  lemma {:induction false} WindowsOverlapExactly(w: Wire, s: System, steps: seq<(PeerId, Action)>, a: PeerId, b: PeerId,
                                                 i: nat, j: nat)
    requires Lawful(w) && Initial(s) && a in s.replicas
    requires i < j < |HistoryOf(w, s, steps, a, b).acked|
    ensures var acked := HistoryOf(w, s, steps, a, b).acked;
            && acked[j].before <= j
            && ((exists id :: SharedBeyond(acked[i], acked[j], id)) <==>
                  Late(acked, i, j) && exists id :: KeptInBoth(acked[i], acked[j], id))
  {
    hide Inv, Initial, Observe, Next, Late;
    RunKeepsWindows(w, s, steps, a, b);
    SameReplicas(w, s, steps);
    var rep, h := Exec(w, s, steps).replicas[a], HistoryOf(w, s, steps, a, b);
    StartsBeforeEndIffLate(rep, h, i, j);
    OverlapOf(h.acked[i], h.acked[j]);
  }

  lemma {:induction false} OverlapOf(x: Window, y: Window)
    ensures (exists id :: SharedBeyond(x, y, id)) <==> y.since < x.checkpoint && exists id :: KeptInBoth(x, y, id)
  {
    if id :| SharedBeyond(x, y, id) {
      assert KeptInBoth(x, y, id);
    }
    if y.since < x.checkpoint {
      if id :| KeptInBoth(x, y, id) {
        assert SharedBeyond(x, y, id);
      }
    }
  }

  /** For a write that raised the cursor, reading late means reading before that write. */
  lemma {:induction false} LateIffReadBeforeWrite(w: Wire, s: System, steps: seq<(PeerId, Action)>, a: PeerId,
                                                  b: PeerId, i: nat, j: nat)
    requires Lawful(w) && Initial(s) && a in s.replicas
    requires i < j < |HistoryOf(w, s, steps, a, b).acked|
    requires var acked := HistoryOf(w, s, steps, a, b).acked;
             forall m :: 0 <= m < i ==> acked[m].checkpoint < acked[i].checkpoint
    ensures var acked := HistoryOf(w, s, steps, a, b).acked;
            acked[j].before <= j && (Late(acked, i, j) <==> acked[j].before <= i)
  {
    hide Inv, Initial, Observe, Next;
    RunKeepsWindows(w, s, steps, a, b);
    SameReplicas(w, s, steps);
    var rep, h := Exec(w, s, steps).replicas[a], HistoryOf(w, s, steps, a, b);
    StartsBeforeEndIffLate(rep, h, i, j);
  }
}

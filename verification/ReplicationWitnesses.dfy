/** Runs that reach what the theorems speak of: two acknowledged windows that share a row,
    and a group that is strongly synced. */
module ReplicationWitnesses {
  import opened Basics
  import opened Messages
  import M = MessageStore
  import opened Transfers
  import opened Replication
  import opened ReplicationWindows
  import opened ReplicationDelivery
  import T = ReplicationTheorems
  import W = WindowTheorems

  // ---- Overlapping windows ----

  /** The connection drops; b forgets that it asked. */
  lemma {:induction false} Drops(sc: Scene, m: Moment) returns (m': Moment)
    requires Reach(sc, m) && Two(sc, m) && m.s.replicas[sc.b].maps == SyncMaps({sc.a}, map[], map[])
    ensures Reach(sc, m') && m'.h == m.h && Only(m.s, m'.s, sc.b, m.s.replicas[sc.b].(maps := EMPTY_MAPS))
  {
    hide Reach;
    m' := Go(sc, m, (sc.b, ADisconnect(sc.a)));
    assert m'.s.replicas[sc.b].maps == EMPTY_MAPS;
  }

  /** b asks, drops, and asks again; a starts both answers before it writes any cursor. */
  lemma {:induction false} AskedTwice(sc: Scene, m: Moment) returns (m': Moment)
    requires Reach(sc, m) && Two(sc, m) && AtRest(m.s.replicas[sc.a]) && AtRest(m.s.replicas[sc.b])
    requires sc.b !in m.s.replicas[sc.a].cursors && m.h == NO_HISTORY
    ensures Reach(sc, m') && m.s.net <= m'.s.net && m'.s.transfers == m.s.transfers
    ensures m'.s.replicas == m.s.replicas[
              sc.a := m.s.replicas[sc.a].(tasks := map[0 := ReadClock(sc.b, 0), 1 := ReadClock(sc.b, 0)])][
              sc.b := m.s.replicas[sc.b].(maps := SyncMaps({sc.a}, map[], map[]))]
    ensures m'.h == History(map[0 := Window(0, 0, 0, map[], ""), 1 := Window(0, 0, 0, map[], "")], map[], [])
  {
    hide Reach;
    var m1 := Ask(sc, m);
    var m2 := Hears(sc, m1, 0);
    var m3 := Drops(sc, m2);
    var m4 := Ask(sc, m3);
    var m5 := Hears(sc, m4, 1);
    var m6 := Reads(sc, m5, 0);
    m' := Reads(sc, m6, 1);
    assert m'.s.replicas[sc.a].tasks == map[0 := ReadClock(sc.b, 0), 1 := ReadClock(sc.b, 0)];
  }

  function FullWindow(ra: Replica, id: TransferId): Window {
    Window(0, 0, ra.clock, ra.rows, id)
  }

  lemma {:induction false} FirstDelivered(sc: Scene, id: TransferId, t: Transfer, exported: seq<Message>)
    returns (m: Moment)
    requires Lawful(sc.w) && Initial(sc.start) && Two(sc, Moment(sc.start, NO_HISTORY))
    requires Exported(sc, sc.start.replicas[sc.a], 0, t, exported) && Small(sc.w, t) && id != ""
    ensures Reach(sc, m) && Ready(sc, m, 1) && m.s.transfers == map[id := t]
    ensures var ra := sc.start.replicas[sc.a];
            && m.s.replicas[sc.a].rows == ra.rows && m.s.replicas[sc.a].clock == ra.clock
            && m.s.replicas[sc.a].tasks[1] == ReadClock(sc.b, 0)
            && m.h.open[1] == Window(0, 0, 0, map[], "") && m.h.acked == [FullWindow(ra, id)]
  {
    Stay(sc);
    hide Reach, IsExport, M.IsSanitized, Lawful, Small, Legal, InsertMissing;
    var m1 := AskedTwice(sc, Moment(sc.start, NO_HISTORY));
    var m2 := Delivers(sc, m1, 0, id, t, exported);
    assert m2.s.replicas[sc.a].tasks == map[1 := ReadClock(sc.b, 0)];
    m := Ask(sc, m2);
  }

  /** Two transfers overlap: both cursor reads precede the first cursor write, both are
      acknowledged, and every row exported by the first is exported again by the second. */
  lemma {:induction false} OverlapReached(sc: Scene, id0: TransferId, id1: TransferId, t: Transfer,
                                          exported: seq<Message>, row: MsgId)
    returns (m: Moment)
    requires Lawful(sc.w) && Initial(sc.start) && Two(sc, Moment(sc.start, NO_HISTORY))
    requires Exported(sc, sc.start.replicas[sc.a], 0, t, exported) && Small(sc.w, t)
    requires id0 != "" && id1 != "" && id0 != id1 && row in Ids(exported)
    ensures Reach(sc, m) && |m.h.acked| == 2 && m.h.acked[1].before == 0
    ensures W.Late(m.h.acked, 0, 1) && W.SharedBeyond(m.h.acked[0], m.h.acked[1], row)
  {
    var ra := sc.start.replicas[sc.a];
    assert InWindow(ra.rows, 0, ra.clock, row);
    hide Reach, IsExport, M.IsSanitized, Lawful, Small, Legal, InsertMissing, Initial;
    var m1 := FirstDelivered(sc, id0, t, exported);
    m := Delivers(sc, m1, 1, id1, t, exported);
    assert m.h.acked == [FullWindow(ra, id0), FullWindow(ra, id1)];
  }

  // ---- A strongly synced group ----

  /** The same run, watched for exports the other way. */
  lemma {:induction false} Turn(sc: Scene, m: Moment) returns (m': Moment)
    requires Reach(sc, m)
    ensures Reach(Scene(sc.w, sc.start, sc.b, sc.a), m') && m'.s == m.s
  {
    var steps :| Exec(sc.w, sc.start, steps) == m.s && HistoryOf(sc.w, sc.start, steps, sc.a, sc.b) == m.h;
    m' := Moment(m.s, HistoryOf(sc.w, sc.start, steps, sc.b, sc.a));
  }

  predicate StampedBefore(rep: Replica) {
    forall id <- rep.rows :: rep.rows[id].stamp < rep.clock
  }

  lemma {:induction false} NothingMissing(t: Table, messages: seq<Message>, stamp: int)
    requires Ids(messages) <= t.Keys
    ensures InsertMissing(t, messages, stamp) == t
  {
    InsertMissingMeaning(t, messages, stamp);
  }

  lemma {:induction false} ExportedIds(sc: Scene, ra: Replica, since: int, t: Transfer, exported: seq<Message>)
    requires Exported(sc, ra, since, t, exported)
    ensures Ids(t.messages) <= ra.rows.Keys
  {
    M.SanitizedIds(exported, t.messages, sc.a);
  }

  /** An exchange between replicas with the same ids changes no row. */
  lemma {:induction false} IdleExchange(sc: Scene, m: Moment, id: TransferId, t: Transfer, exported: seq<Message>)
    returns (m': Moment)
    requires Lawful(sc.w) && Reach(sc, m) && Exchange(sc, m, id, t, exported) && Small(sc.w, t)
    requires m.s.replicas[sc.a].rows.Keys == m.s.replicas[sc.b].rows.Keys
    ensures Reach(sc, m') && Exchanged(sc, m, m', t) && m'.s.transfers == m.s.transfers[id := t]
    ensures m'.s.replicas[sc.b].rows == m.s.replicas[sc.b].rows
  {
    ExportedIds(sc, m.s.replicas[sc.a], Since(m.s.replicas[sc.a], sc.b), t, exported);
    m' := RunExchange(sc, m, id, t, exported);
    hide Reach, Lawful, Small, IsExport, M.IsSanitized;
    NothingMissing(m.s.replicas[sc.b].rows, t.messages, m.s.replicas[sc.b].clock);
  }

  /** Two replicas at rest with the same ids, both clocks past their stamps: one exchange
      each way, and the pair is strongly synced. */
  lemma {:induction false} SyncedReached(sc: Scene, id0: TransferId, t0: Transfer, exported0: seq<Message>,
                                         id1: TransferId, t1: Transfer, exported1: seq<Message>)
    returns (m: Moment)
    requires Lawful(sc.w) && Small(sc.w, t0) && Small(sc.w, t1) && id0 != id1
    requires Exchange(sc, Moment(sc.start, NO_HISTORY), id0, t0, exported0)
    requires Exchange(Scene(sc.w, sc.start, sc.b, sc.a), Moment(sc.start, NO_HISTORY), id1, t1, exported1)
    requires sc.start.replicas.Keys == {sc.a, sc.b}
    requires sc.start.replicas[sc.a].rows.Keys == sc.start.replicas[sc.b].rows.Keys
    requires StampedBefore(sc.start.replicas[sc.a]) && StampedBefore(sc.start.replicas[sc.b])
    ensures exists steps :: Exec(sc.w, sc.start, steps) == m.s
    ensures T.StronglySynced(m.s)
  {
    Stay(sc);
    hide Reach, IsExport, M.IsSanitized, Lawful, Small, Legal, InsertMissing, T.StronglySynced;
    var m1 := IdleExchange(sc, Moment(sc.start, NO_HISTORY), id0, t0, exported0);
    var m2 := Turn(sc, m1);
    var back := Scene(sc.w, sc.start, sc.b, sc.a);
    m := IdleExchange(back, m2, id1, t1, exported1);
    PairSynced(m.s, sc.a, sc.b);
    Ran(back, m);
  }

  lemma {:induction false} Ran(sc: Scene, m: Moment)
    requires Reach(sc, m)
    ensures exists steps :: Exec(sc.w, sc.start, steps) == m.s
  {
    var steps :| Exec(sc.w, sc.start, steps) == m.s && HistoryOf(sc.w, sc.start, steps, sc.a, sc.b) == m.h;
  }

  lemma {:induction false} PairSynced(s: System, a: PeerId, b: PeerId)
    requires s.replicas.Keys == {a, b} && T.Synced(s, a, b) && T.Synced(s, b, a)
    ensures T.StronglySynced(s)
  {
    forall x <- s.replicas, y <- s.replicas
      ensures exists path :: T.SyncedPath(s, path, x, y)
    {
      var path := if x == y then [x] else [x, y];
      assert T.SyncedPath(s, path, x, y);
    }
  }
}

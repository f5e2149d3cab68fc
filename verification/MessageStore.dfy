/** The message and state-check methods of the SQLite store as they run: each holds
    the store mutex for its whole body, and `now` is the clock read inside it. */
module MessageStore {
  import opened Basics
  import opened Messages
  import S = Snapshots

  class Store {
    var messages: Table
    var peers: map<S.PeerKey, S.PeerInfo>
    var groups: map<string, S.GroupInfo>
    var lastStateCheck: map<PeerId, int>

    constructor ()
      ensures messages == map[] && lastStateCheck == map[] && peers == map[] && groups == map[]
    {
      messages := map[];
      peers := map[];
      groups := map[];
      lastStateCheck := map[];
    }

    /** A plain INSERT: an existing uid is an error and changes nothing. */
    method SaveMessage(m: Message, now: int) returns (ok: bool)
      modifies this`messages
      ensures ok <==> m.uid !in old(messages)
      ensures messages == if ok then old(messages)[m.uid := Row(m.login, m.senderLogin, m.chatId, m.data, m.createdAt,
                                                                now)]
                          else old(messages)
      ensures messages == InsertMissing(old(messages), [m], now)
    {
      ok := m.uid !in messages;
      assert [m][..0] == [];
      if ok {
        messages := messages[m.uid := RowOf(m, now)];
      }
    }

    /** None is the zero time of a peer never checked. */
    method GetLastStateCheck(peer: PeerId) returns (r: Result<Option<int>>)
      ensures r.Err? <==> peer == ""
      ensures r.Ok? ==> r.value == if peer in lastStateCheck then Some(lastStateCheck[peer]) else None
    {
      if peer == "" {
        return Err("peer id is empty");
      }
      r := Ok(if peer in lastStateCheck then Some(lastStateCheck[peer]) else None);
    }

    /** The cursor never moves back, and no other peer's cursor moves; None is the zero
        time, which is refused like an empty peer id. */
    method SetLastStateCheck(peer: PeerId, checkedAt: Option<int>) returns (ok: bool)
      modifies this`lastStateCheck
      ensures ok <==> peer != "" && checkedAt.Some?
      ensures !ok ==> lastStateCheck == old(lastStateCheck)
      ensures ok ==> lastStateCheck.Keys == old(lastStateCheck).Keys + {peer}
      ensures ok ==> lastStateCheck[peer] >= checkedAt.value
      ensures ok && peer !in old(lastStateCheck) ==> lastStateCheck[peer] == checkedAt.value
      ensures ok && peer in old(lastStateCheck) ==>
                lastStateCheck[peer] == Max(old(lastStateCheck)[peer], checkedAt.value)
      ensures forall p <- old(lastStateCheck) :: p != peer ==> lastStateCheck[p] == old(lastStateCheck)[p]
    {
      ok := peer != "" && checkedAt.Some?;
      if ok {
        var at := checkedAt.value;
        if peer in lastStateCheck {
          at := Max(lastStateCheck[peer], at);
        }
        lastStateCheck := lastStateCheck[peer := at];
      }
    }

    /** The rows of the inclusive window in order; a zero checkpoint and one before the
        lower bound are errors. `since` is None for a peer never checked. */
    method ExportMessagesForStateSync(since: Option<int>, until: Option<int>) returns (r: Result<seq<Message>>)
      ensures r.Err? <==> until.None? || until.value < (if since.None? then 0 else since.value)
      ensures r.Ok? ==>
                && (forall m <- r.value :: m.uid in messages && HoldsMessage(messages[m.uid], m, messages[m.uid].stamp))
                && (forall id :: id in Ids(r.value) <==>
                      && id in messages
                      && (if since.None? then 0 else since.value) <= messages[id].stamp <= until.value)
      ensures r.Ok? ==> forall i, j :: 0 <= i < j < |r.value| ==>
                var x, y := r.value[i].uid, r.value[j].uid;
                && x in messages && y in messages
                && (messages[x].stamp < messages[y].stamp
                    || (messages[x].stamp == messages[y].stamp && StringLess(x, y)))
      ensures r.Ok? ==> IsExport(messages, if since.None? then 0 else since.value, until.value, r.value)
    {
      if until.None? {
        return Err("state sync checkpoint is zero");
      }
      var lo, checkpoint := if since.None? then 0 else since.value, until.value;
      if checkpoint < lo {
        return Err("state sync checkpoint precedes last check");
      }
      var out: seq<Message> := [];
      var todo := set id <- messages | InWindow(messages, lo, checkpoint, id);
      ScanBounds(messages, lo, checkpoint, out);
      while todo != {}
        invariant Scanning(messages, lo, checkpoint, out, todo)
        decreases todo
      {
        FirstExists(messages, todo);
        var id :| First(messages, todo, id);
        ScanFirst(messages, lo, checkpoint, out, todo, id);
        out := out + [MessageOf(id, messages[id])];
        todo := todo - {id};
      }
      ScanBounds(messages, lo, checkpoint, out);
      r := Ok(out);
    }

    /** Inserts the absent messages under one stamp, each with all its columns, and reports
        exactly those, in the delta's order. */
    method ImportStateSyncMessages(delta: seq<Message>, now: int) returns (inserted: seq<Message>)
      modifies this`messages
      ensures messages.Keys == old(messages).Keys + Ids(delta)
      ensures forall id <- old(messages) :: messages[id] == old(messages)[id]
      ensures forall m <- inserted :: m.uid in messages && HoldsMessage(messages[m.uid], m, now)
      ensures exists at: seq<nat> :: PicksNew(old(messages).Keys, delta, inserted, at)
      ensures messages == InsertMissing(old(messages), delta, now)
      ensures inserted == Inserted(old(messages), delta)
    {
      inserted := [];
      var tx := messages;
      var i := 0;
      while i < |delta|
        invariant 0 <= i <= |delta|
        invariant tx == InsertMissing(messages, delta[..i], now)
        invariant inserted == Inserted(messages, delta[..i])
        invariant messages == old(messages)
      {
        assert delta[..i+1][..i] == delta[..i];
        InsertMissingMeaning(messages, delta[..i], now);
        if delta[i].uid !in tx {
          tx := tx[delta[i].uid := RowOf(delta[i], now)];
          inserted := inserted + [delta[i]];
        }
        i := i + 1;
      }
      assert delta[..i] == delta;
      InsertMissingMeaning(messages, delta, now);
      InsertMissingColumns(messages, delta, now);
      ghost var at := InsertedInOrder(messages, delta);
      assert forall k :: 0 <= k < |at| ==> at[k] in at;
      messages := tx;
    }

    ghost function Tables(): S.Tables
      reads this
    {
      S.Tables(messages, peers, groups)
    }

    /** All three tables, each in its order. */
    method ExportReplicationSnapshot() returns (s: S.Snapshot)
      ensures s.version == 1
      ensures (forall m <- s.messages :: m.uid in messages && HoldsMessage(messages[m.uid], m, messages[m.uid].stamp))
              && Ids(s.messages) == messages.Keys
      ensures S.KeysOf(s.peers) == peers.Keys && forall r <- s.peers :: r.key in peers && peers[r.key] == r.value
      ensures S.KeysOf(s.groups) == groups.Keys && forall r <- s.groups :: r.key in groups && groups[r.key] == r.value
      ensures forall i, j :: 0 <= i < j < |s.messages| ==>
                s.messages[i].createdAt < s.messages[j].createdAt
                || (s.messages[i].createdAt == s.messages[j].createdAt
                    && StringLess(s.messages[i].uid, s.messages[j].uid))
      ensures forall i, j :: 0 <= i < j < |s.peers| ==> s.peers[i].value.lastSeen <= s.peers[j].value.lastSeen
      ensures forall i, j :: 0 <= i < j < |s.groups| ==> s.groups[i].value.createdAt <= s.groups[j].value.createdAt
      ensures S.ExportsSnapshot(Tables(), s)
    {
      S.MessageOrder();
      S.PeerOrder();
      S.GroupOrder();
      var rows := ReadRows(messages, S.MessageBefore);
      S.AsMessagesMeaning(messages, rows);
      var peerRows := ReadRows(peers, S.PeerBefore);
      var groupRows := ReadRows(groups, S.GroupBefore);
      s := S.Snapshot(1, S.AsMessages(rows), peerRows, groupRows);
    }

    /** An unknown version changes nothing; otherwise all three tables take the rows of
        the snapshot in one transaction, whose clock stamps the messages. */
    method ImportReplicationSnapshot(snapshot: S.Snapshot, now: int) returns (ok: bool)
      modifies this`messages, this`peers, this`groups
      ensures ok <==> snapshot.version == 1
      ensures !ok ==> messages == old(messages) && peers == old(peers) && groups == old(groups)
      ensures ok ==>
                && messages.Keys == old(messages).Keys + Ids(snapshot.messages)
                && (forall id <- old(messages).Keys - Ids(snapshot.messages) :: messages[id] == old(messages)[id])
                && (forall i :: 0 <= i < |snapshot.messages| && LastOfId(snapshot.messages, i) ==>
                      var m := snapshot.messages[i];
                      && m.uid in messages
                      && HoldsMessage(messages[m.uid], m,
                                      if m.uid in old(messages) then Max(old(messages)[m.uid].stamp, now) else now))
      ensures ok ==> S.Merged(old(peers), peers, snapshot.peers) && S.Merged(old(groups), groups, snapshot.groups)
      ensures Tables() == if ok then S.Imported(old(Tables()), snapshot, now) else old(Tables())
    {
      if snapshot.version != 1 {
        return false;
      }
      S.ImportMerges(Tables(), snapshot, now);
      hide S.Merged, LastOfId, HoldsMessage;
      var messages' := UpsertMessages(snapshot.messages, now);
      var peers' := UpsertEntries(peers, snapshot.peers);
      var groups' := UpsertEntries(groups, snapshot.groups);
      messages, peers, groups := messages', peers', groups';
      ok := true;
    }

    method UpsertMessages(list: seq<Message>, now: int) returns (tx: Table)
      ensures tx == Upsert(messages, list, now)
    {
      tx := messages;
      var i := 0;
      while i < |list|
        invariant 0 <= i <= |list|
        invariant tx == Upsert(messages, list[..i], now)
      {
        assert list[..i+1][..i] == list[..i];
        var m := list[i];
        var stamp := if m.uid in tx then Max(tx[m.uid].stamp, now) else now;
        tx := tx[m.uid := RowOf(m, stamp)];
        i := i + 1;
      }
      assert list[..i] == list;
    }
  }

  /** A snapshot imported into an empty store and exported from it again comes back, if
      it is in order and names no row twice. */
  method ImportThenExport(snapshot: S.Snapshot, now: int) returns (out: S.Snapshot)
    requires S.WellFormed(snapshot)
    ensures out == snapshot
  {
    var store := new Store();
    var ok := store.ImportReplicationSnapshot(snapshot, now);
    out := store.ExportReplicationSnapshot();
    S.WholeSnapshotRoundTrip(snapshot, now);
    S.ExportDetermined(store.Tables(), out, snapshot);
  }

  /** One ordered query: the row loop over a table. */
  method ReadRows<K(==, !new), V(==, !new)>(t: map<K, V>, less: (S.Entry<K, V>, S.Entry<K, V>) -> bool)
    returns (rows: seq<S.Entry<K, V>>)
    requires S.TotalOrder(less)
    ensures S.Lists(t, rows, less)
  {
    rows := [];
    var todo := t.Keys;
    S.ScanRowsBounds(t, rows, less);
    while todo != {}
      invariant S.ScanningRows(t, rows, todo, less)
      decreases todo
    {
      S.FirstRowExists(t, todo, less);
      var k :| k in todo && S.IsFirstRow(t, todo, less, k);
      S.ScanRow(t, rows, todo, less, k);
      rows := rows + [S.Entry(k, t[k])];
      todo := todo - {k};
    }
    S.ScanRowsBounds(t, rows, less);
  }

  method UpsertEntries<K(==), V>(t: map<K, V>, rows: seq<S.Entry<K, V>>) returns (tx: map<K, V>)
    ensures tx == S.UpsertRows(t, rows)
  {
    tx := t;
    var i := 0;
    while i < |rows|
      invariant 0 <= i <= |rows|
      invariant tx == S.UpsertRows(t, rows[..i])
    {
      assert rows[..i+1][..i] == rows[..i];
      tx := tx[rows[i].key := rows[i].value];
      i := i + 1;
    }
    assert rows[..i] == rows;
  }

  // ---- Removing device-local paths from a delta ----

  /** A delta ready to leave the device: the same messages, no local path, every
      attachment pointing at this device. */
  ghost predicate IsSanitized(before: seq<Message>, after: seq<Message>, source: PeerId) {
    && |after| == |before|
    && forall i :: 0 <= i < |before| ==> SanitizedMessage(before[i], after[i], source)
  }

  ghost predicate SanitizedMessage(before: Message, after: Message, source: PeerId) {
    && before.data.Json? && after.data.Json?
    && after == before.(data := after.data)
    && after.data.text == before.data.text
    && |after.data.files| == |before.data.files|
    && forall j :: 0 <= j < |before.data.files| ==>
         var f := before.data.files[j];
         after.data.files[j] ==
           FileMeta(f.fileId, f.fileHash, f.decryptionKey, f.totalChunks, f.filename, "", source)
  }

  method SanitizeStateSyncMessages(messages: seq<Message>, source: PeerId) returns (r: Result<seq<Message>>)
    ensures r.Ok? <==> forall m <- messages :: m.data.Json?
    ensures r.Ok? ==> IsSanitized(messages, r.value, source)
  {
    var out: seq<Message> := [];
    var i := 0;
    while i < |messages|
      invariant 0 <= i <= |messages|
      invariant forall m <- messages[..i] :: m.data.Json?
      invariant IsSanitized(messages[..i], out, source)
    {
      var m := messages[i];
      if m.data.NotJson? {
        assert m in messages;
        return Err("decode state sync message");
      }
      var files := WithoutLocalFilePaths(m.data.files);
      var j := 0;
      while j < |files|
        invariant 0 <= j <= |files| == |m.data.files|
        invariant forall k :: 0 <= k < j ==> files[k] == m.data.files[k].(filePath := "", sourcePeerId := source)
        invariant forall k :: j <= k < |files| ==> files[k] == m.data.files[k].(filePath := "")
      {
        files := files[j := files[j].(sourcePeerId := source)];
        j := j + 1;
      }
      out := out + [m.(data := Json(m.data.text, files))];
      i := i + 1;
    }
    assert messages[..i] == messages;
    r := Ok(out);
  }

  method WithoutLocalFilePaths(files: seq<FileMeta>) returns (out: seq<FileMeta>)
    ensures |out| == |files|
    ensures forall i :: 0 <= i < |files| ==> out[i] == files[i].(filePath := "")
  {
    out := files;
    var i := 0;
    while i < |out|
      invariant 0 <= i <= |out| == |files|
      invariant forall k :: 0 <= k < |files| ==> out[k] == if k < i then files[k].(filePath := "") else files[k]
    {
      out := out[i := out[i].(filePath := "")];
      i := i + 1;
    }
  }

  /** A sanitized delta names the same messages. */
  lemma {:induction false} SanitizedIds(before: seq<Message>, after: seq<Message>, source: PeerId)
    requires IsSanitized(before, after, source)
    ensures Ids(after) == Ids(before)
  {
    forall id
      ensures id in Ids(after) <==> id in Ids(before)
    {
      if id in Ids(after) {
        var i :| 0 <= i < |after| && after[i].uid == id;
        assert SanitizedMessage(before[i], after[i], source);
      }
      if id in Ids(before) {
        var i :| 0 <= i < |before| && before[i].uid == id;
        assert SanitizedMessage(before[i], after[i], source);
      }
    }
  }
}

/** Whole replication snapshots: the messages with the stored peers and the group chats,
    internal/store/replicationStore.go. */
module Snapshots {
  import opened Basics
  import opened Messages

  datatype PeerKey = PeerKey(login: string, signatureKey: string)
  datatype PeerInfo = PeerInfo(peerId: string, encryptionKey: string, lastSeen: int, isFake: bool)
  datatype GroupInfo = GroupInfo(name: string, encPrivate: string, encPublic: string, signPrivate: string,
                                 signPublic: string, createdAt: int)

  /** One row of a table with its primary key. */
  datatype Entry<K, V> = Entry(key: K, value: V)
  type PeerRow = Entry<PeerKey, PeerInfo>
  type GroupRow = Entry<string, GroupInfo>

  datatype Snapshot = Snapshot(version: int, messages: seq<Message>, peers: seq<PeerRow>, groups: seq<GroupRow>)
  datatype Tables = Tables(messages: Table, peers: map<PeerKey, PeerInfo>, groups: map<string, GroupInfo>)

  // ---- INSERT .. ON CONFLICT(key) DO UPDATE of every other column ----

  function UpsertRows<K(==), V>(t: map<K, V>, rows: seq<Entry<K, V>>): map<K, V> {
    if rows == [] then t else UpsertRows(t, rows[..|rows|-1])[rows[|rows|-1].key := rows[|rows|-1].value]
  }

  function KeysOf<K(==), V(==)>(rows: seq<Entry<K, V>>): set<K> {
    set r <- rows :: r.key
  }

  predicate DistinctKeys<K(==), V>(rows: seq<Entry<K, V>>) {
    forall i, j :: 0 <= i < j < |rows| ==> rows[i].key != rows[j].key
  }

  /** Row i is the last of the list with its key. */
  predicate LastOfKey<K(==), V>(rows: seq<Entry<K, V>>, i: nat)
    requires i < |rows|
  {
    forall j :: i < j < |rows| ==> rows[j].key != rows[i].key
  }

  /** The rows were merged in: each of their keys has the columns of its last row, and every
      other row of the table is as it was. */
  ghost predicate Merged<K, V>(before: map<K, V>, after: map<K, V>, rows: seq<Entry<K, V>>) {
    && after.Keys == before.Keys + KeysOf(rows)
    && (forall k <- before.Keys - KeysOf(rows) :: after[k] == before[k])
    && (forall i :: 0 <= i < |rows| && LastOfKey(rows, i) ==>
          rows[i].key in after && after[rows[i].key] == rows[i].value)
  }

  /** The import touches exactly its own keys, and each takes the columns of its last row. */
  lemma {:induction false} UpsertRowsMeaning<K, V>(t: map<K, V>, rows: seq<Entry<K, V>>)
    ensures Merged(t, UpsertRows(t, rows), rows)
  {
    if rows != [] {
      var n := |rows| - 1;
      assert rows == rows[..n] + [rows[n]];
      UpsertRowsMeaning(t, rows[..n]);
      forall i | 0 <= i < n && LastOfKey(rows, i)
        ensures rows[i].key in UpsertRows(t, rows) && UpsertRows(t, rows)[rows[i].key] == rows[i].value
      {
        assert rows[..n][i] == rows[i] && rows[n].key != rows[i].key;
        assert forall j :: i < j < n ==> rows[..n][j] == rows[j];
        assert LastOfKey(rows[..n], i);
      }
    }
  }

  /** Repeating the import changes nothing. */
  lemma {:induction false} UpsertRowsIdempotent<K, V>(t: map<K, V>, rows: seq<Entry<K, V>>)
    ensures UpsertRows(UpsertRows(t, rows), rows) == UpsertRows(t, rows)
  {
    var once := UpsertRows(t, rows);
    UpsertRowsMeaning(t, rows);
    UpsertRowsMeaning(once, rows);
    forall k <- once
      ensures UpsertRows(once, rows)[k] == once[k]
    {
      if k in KeysOf(rows) {
        var i := LastRow(rows, k);
        assert LastOfKey(rows, i);
      }
    }
  }

  lemma {:induction false} LastRow<K, V>(rows: seq<Entry<K, V>>, k: K) returns (i: nat)
    requires k in KeysOf(rows)
    ensures i < |rows| && rows[i].key == k && forall j :: i < j < |rows| ==> rows[j].key != k
  {
    var n := |rows| - 1;
    if rows[n].key == k {
      i := n;
    } else {
      var r :| r in rows && r.key == k;
      var m :| 0 <= m < |rows| && rows[m] == r;
      assert rows[..n][m] == r && r in rows[..n];
      i := LastRow(rows[..n], k);
      assert forall j :: i < j < n ==> rows[..n][j] == rows[j];
    }
  }

  // ---- Export ----

  ghost predicate Strict<K, V>(rows: seq<Entry<K, V>>, less: (Entry<K, V>, Entry<K, V>) -> bool) {
    forall i, j :: 0 <= i < j < |rows| ==> less(rows[i], rows[j])
  }

  /** The whole table, in order. */
  ghost predicate Lists<K, V>(t: map<K, V>, rows: seq<Entry<K, V>>, less: (Entry<K, V>, Entry<K, V>) -> bool) {
    && Strict(rows, less) && KeysOf(rows) == t.Keys
    && forall i :: 0 <= i < |rows| ==> rows[i].key in t && t[rows[i].key] == rows[i].value
  }

  ghost predicate TotalOrder<K(!new), V(!new)>(less: (Entry<K, V>, Entry<K, V>) -> bool) {
    && (forall x: Entry<K, V>, y: Entry<K, V> :: x.key != y.key ==> less(x, y) || less(y, x))
    && (forall x: Entry<K, V>, y: Entry<K, V>, z: Entry<K, V> :: less(x, y) && less(y, z) ==> less(x, z))
  }

  /** Row k comes before the rows of the other keys. */
  predicate IsFirstRow<K(==), V>(t: map<K, V>, keys: set<K>, less: (Entry<K, V>, Entry<K, V>) -> bool, k: K)
    requires keys <= t.Keys
  {
    k in keys && forall j <- keys :: j == k || less(Entry(k, t[k]), Entry(j, t[j]))
  }

  lemma {:induction false} FirstRowExists<K(!new), V(!new)>(t: map<K, V>, keys: set<K>,
                                                            less: (Entry<K, V>, Entry<K, V>) -> bool)
    requires keys <= t.Keys && keys != {} && TotalOrder(less)
    ensures exists k :: IsFirstRow(t, keys, less, k)
  {
    var before := (i, j) => i in t && j in t && less(Entry(i, t[i]), Entry(j, t[j]));
    var k := LeastExists(keys, before);
    assert forall j <- keys :: j == k || before(k, j);
    assert IsFirstRow(t, keys, less, k);
  }

  /** Midway through a scan: `rows` are read, the rows of `todo` come later. */
  ghost predicate ScanningRows<K, V>(t: map<K, V>, rows: seq<Entry<K, V>>, todo: set<K>,
                                     less: (Entry<K, V>, Entry<K, V>) -> bool) {
    && Strict(rows, less) && todo <= t.Keys && KeysOf(rows) == t.Keys - todo
    && (forall i :: 0 <= i < |rows| ==> rows[i].key in t && t[rows[i].key] == rows[i].value)
    && (forall i, k :: 0 <= i < |rows| && k in todo ==> less(rows[i], Entry(k, t[k])))
  }

  lemma {:induction false} ScanRowsBounds<K, V>(t: map<K, V>, rows: seq<Entry<K, V>>,
                                                less: (Entry<K, V>, Entry<K, V>) -> bool)
    ensures ScanningRows(t, [], t.Keys, less)
    ensures ScanningRows(t, rows, {}, less) <==> Lists(t, rows, less)
  {
  }

  lemma {:induction false} ScanRow<K, V>(t: map<K, V>, rows: seq<Entry<K, V>>, todo: set<K>,
                                         less: (Entry<K, V>, Entry<K, V>) -> bool, k: K)
    requires ScanningRows(t, rows, todo, less) && IsFirstRow(t, todo, less, k)
    ensures ScanningRows(t, rows + [Entry(k, t[k])], todo - {k}, less)
  {
    var more := rows + [Entry(k, t[k])];
    assert forall r :: r in more <==> r in rows || r == Entry(k, t[k]);
    assert KeysOf(more) == KeysOf(rows) + {k};
  }

  /** A list is what an export gives after its import into an empty table exactly when it
      is strictly ordered and names no key twice. */
  lemma {:induction false} RowsRoundTrip<K, V>(rows: seq<Entry<K, V>>, less: (Entry<K, V>, Entry<K, V>) -> bool)
    requires forall r: Entry<K, V> :: !less(r, r)
    ensures Lists(UpsertRows(map[], rows), rows, less) <==> Strict(rows, less) && DistinctKeys(rows)
  {
    var t := UpsertRows(map[], rows);
    UpsertRowsMeaning(map[], rows);
    if DistinctKeys(rows) {
      assert forall i :: 0 <= i < |rows| ==> rows[i] in rows && LastOfKey(rows, i);
    }
  }

  /** ORDER BY last_seen, login, signature_key. */
  predicate PeerBefore(x: PeerRow, y: PeerRow) {
    x.value.lastSeen < y.value.lastSeen || (x.value.lastSeen == y.value.lastSeen &&
      (StringLess(x.key.login, y.key.login) || (x.key.login == y.key.login &&
        StringLess(x.key.signatureKey, y.key.signatureKey))))
  }

  /** ORDER BY created_at, uid. */
  predicate GroupBefore(x: GroupRow, y: GroupRow) {
    x.value.createdAt < y.value.createdAt || (x.value.createdAt == y.value.createdAt && StringLess(x.key, y.key))
  }

  /** ORDER BY created_at, message_uid. */
  predicate MessageBefore(x: Entry<MsgId, Row>, y: Entry<MsgId, Row>) {
    x.value.createdAt < y.value.createdAt || (x.value.createdAt == y.value.createdAt && StringLess(x.key, y.key))
  }

  lemma {:induction false} PeerOrder()
    ensures TotalOrder(PeerBefore)
  {
    forall x: PeerRow, y: PeerRow
      ensures x.key != y.key ==> PeerBefore(x, y) || PeerBefore(y, x)
    {
      StringOrder(x.key.login, y.key.login);
      StringOrder(x.key.signatureKey, y.key.signatureKey);
    }
    forall x: PeerRow, y: PeerRow, z: PeerRow | PeerBefore(x, y) && PeerBefore(y, z)
      ensures PeerBefore(x, z)
    {
      if StringLess(x.key.login, y.key.login) && StringLess(y.key.login, z.key.login) {
        StringTransitive(x.key.login, y.key.login, z.key.login);
      }
      if StringLess(x.key.signatureKey, y.key.signatureKey) && StringLess(y.key.signatureKey, z.key.signatureKey) {
        StringTransitive(x.key.signatureKey, y.key.signatureKey, z.key.signatureKey);
      }
    }
  }

  lemma {:induction false} GroupOrder()
    ensures TotalOrder(GroupBefore)
  {
    forall x: GroupRow, y: GroupRow
      ensures x.key != y.key ==> GroupBefore(x, y) || GroupBefore(y, x)
    {
      StringOrder(x.key, y.key);
    }
    forall x: GroupRow, y: GroupRow, z: GroupRow | GroupBefore(x, y) && GroupBefore(y, z)
      ensures GroupBefore(x, z)
    {
      if StringLess(x.key, y.key) && StringLess(y.key, z.key) {
        StringTransitive(x.key, y.key, z.key);
      }
    }
  }

  lemma {:induction false} MessageOrder()
    ensures TotalOrder(MessageBefore)
  {
    forall x: Entry<MsgId, Row>, y: Entry<MsgId, Row>
      ensures x.key != y.key ==> MessageBefore(x, y) || MessageBefore(y, x)
    {
      StringOrder(x.key, y.key);
    }
    forall x: Entry<MsgId, Row>, y: Entry<MsgId, Row>, z: Entry<MsgId, Row> | MessageBefore(x, y) && MessageBefore(y, z)
      ensures MessageBefore(x, z)
    {
      if StringLess(x.key, y.key) && StringLess(y.key, z.key) {
        StringTransitive(x.key, y.key, z.key);
      }
    }
  }

  /** The rows of the messages table as the snapshot carries them. */
  function AsMessages(rows: seq<Entry<MsgId, Row>>): seq<Message> {
    seq(|rows|, i requires 0 <= i < |rows| => MessageOf(rows[i].key, rows[i].value))
  }

  lemma {:induction false} AsMessagesMeaning(t: Table, rows: seq<Entry<MsgId, Row>>)
    requires Lists(t, rows, MessageBefore)
    ensures IsSnapshot(t, AsMessages(rows))
  {
    var out := AsMessages(rows);
    forall id
      ensures id in Ids(out) <==> id in t
    {
      if id in t {
        var r :| r in rows && r.key == id;
        var i :| 0 <= i < |rows| && rows[i] == r;
        assert out[i] in out;
      }
    }
  }

  function Imported(t: Tables, s: Snapshot, now: int): Tables {
    Tables(Upsert(t.messages, s.messages, now), UpsertRows(t.peers, s.peers), UpsertRows(t.groups, s.groups))
  }

  /** An import merges all three lists into the tables, whatever they hold already: every
      row of the snapshot is there afterwards with its columns, and no other row changes. */
  lemma {:induction false} ImportMerges(t: Tables, s: Snapshot, now: int)
    ensures Imported(t, s, now).messages.Keys == t.messages.Keys + Ids(s.messages)
    ensures forall id <- t.messages.Keys - Ids(s.messages) :: Imported(t, s, now).messages[id] == t.messages[id]
    ensures forall i :: 0 <= i < |s.messages| && LastOfId(s.messages, i) ==>
              var id := s.messages[i].uid;
              && id in Imported(t, s, now).messages
              && HoldsMessage(Imported(t, s, now).messages[id], s.messages[i],
                              if id in t.messages then Max(t.messages[id].stamp, now) else now)
    ensures Merged(t.peers, Imported(t, s, now).peers, s.peers)
    ensures Merged(t.groups, Imported(t, s, now).groups, s.groups)
  {
    UpsertMeaning(t.messages, s.messages, now);
    UpsertColumns(t.messages, s.messages, now);
    UpsertRowsMeaning(t.peers, s.peers);
    UpsertRowsMeaning(t.groups, s.groups);
    hide Upsert, UpsertRows, Merged, LastOfId, HoldsMessage;
  }

  ghost predicate ExportsSnapshot(t: Tables, s: Snapshot) {
    && s.version == 1 && IsSnapshot(t.messages, s.messages)
    && Lists(t.peers, s.peers, PeerBefore) && Lists(t.groups, s.groups, GroupBefore)
  }

  /** In order, and naming no message, peer or group twice. */
  ghost predicate WellFormed(s: Snapshot) {
    && s.version == 1
    && (forall i, j :: 0 <= i < j < |s.messages| ==> SnapshotBefore(s.messages[i], s.messages[j]))
    && (forall i, j :: 0 <= i < j < |s.messages| ==> s.messages[i].uid != s.messages[j].uid)
    && Strict(s.peers, PeerBefore) && DistinctKeys(s.peers)
    && Strict(s.groups, GroupBefore) && DistinctKeys(s.groups)
  }

  const EMPTY := Tables(map[], map[], map[])

  /** Exporting an empty store that has imported a snapshot gives the snapshot back exactly
      when it is well formed. */
  lemma {:induction false} WholeSnapshotRoundTrip(s: Snapshot, now: int)
    requires s.version == 1
    ensures ExportsSnapshot(Imported(EMPTY, s, now), s) <==> WellFormed(s)
  {
    SnapshotRoundTrip(s.messages, now);
    NoneBeforeItself();
    RowsRoundTrip(s.peers, PeerBefore);
    RowsRoundTrip(s.groups, GroupBefore);
    hide IsSnapshot, Upsert, SnapshotBefore, UpsertRows, Lists, Strict, DistinctKeys;
  }

  // ---- A store has one snapshot ----

  lemma {:induction false} RestLists<K(!new), V(!new)>(t: map<K, V>, rows: seq<Entry<K, V>>,
                                                       less: (Entry<K, V>, Entry<K, V>) -> bool)
    requires Lists(t, rows, less) && rows != [] && forall r: Entry<K, V> :: !less(r, r)
    ensures Lists(t - {rows[0].key}, rows[1..], less)
  {
    var rest := rows[1..];
    RestKeys(t, rows, less);
    hide KeysOf;
    assert forall i :: 0 <= i < |rest| ==> rest[i] == rows[i+1];
  }

  lemma {:induction false} RestKeys<K(!new), V(!new)>(t: map<K, V>, rows: seq<Entry<K, V>>,
                                                      less: (Entry<K, V>, Entry<K, V>) -> bool)
    requires Lists(t, rows, less) && rows != [] && forall r: Entry<K, V> :: !less(r, r)
    ensures forall i :: 0 < i < |rows| ==> rows[i].key != rows[0].key
    ensures KeysOf(rows[1..]) == KeysOf(rows) - {rows[0].key}
  {
    forall i | 0 < i < |rows|
      ensures rows[i].key != rows[0].key
    {
      assert less(rows[0], rows[i]) && rows[i] != rows[0];
    }
    DropFirstKey(rows);
  }

  lemma {:induction false} DropFirstKey<K, V>(rows: seq<Entry<K, V>>)
    requires rows != [] && forall i :: 0 < i < |rows| ==> rows[i].key != rows[0].key
    ensures KeysOf(rows[1..]) == KeysOf(rows) - {rows[0].key}
  {
    assert rows == [rows[0]] + rows[1..];
    forall r <- rows[1..]
      ensures r.key != rows[0].key
    {
      var i :| 0 <= i < |rows[1..]| && rows[1..][i] == r;
    }
  }

  lemma {:induction false} EmptyList<K, V>(t: map<K, V>, rows: seq<Entry<K, V>>,
                                           less: (Entry<K, V>, Entry<K, V>) -> bool)
    requires Lists(t, rows, less)
    ensures rows == [] <==> t.Keys == {}
  {
    if rows != [] {
      assert rows[0].key in KeysOf(rows);
    }
  }

  lemma {:induction false} ListsUnique<K(!new), V(!new)>(t: map<K, V>, a: seq<Entry<K, V>>, b: seq<Entry<K, V>>,
                                                         less: (Entry<K, V>, Entry<K, V>) -> bool)
    requires Lists(t, a, less) && Lists(t, b, less)
    requires TotalOrder(less) && forall r: Entry<K, V> :: !less(r, r)
    ensures a == b
    decreases |a|
  {
    if a == [] || b == [] {
      EmptyList(t, a, less);
      EmptyList(t, b, less);
    } else {
      HeadNotAfter(t, a, b, less);
      HeadNotAfter(t, b, a, less);
      RestLists(t, a, less);
      RestLists(t, b, less);
      hide Lists;
      ListsUnique(t - {a[0].key}, a[1..], b[1..], less);
      assert a == [a[0]] + a[1..] && b == [b[0]] + b[1..];
    }
  }

  /** The first row of one list does not come after the first of the other. */
  lemma {:induction false} HeadNotAfter<K(!new), V(!new)>(t: map<K, V>, a: seq<Entry<K, V>>, b: seq<Entry<K, V>>,
                                                          less: (Entry<K, V>, Entry<K, V>) -> bool)
    requires Lists(t, a, less) && Lists(t, b, less) && a != [] && b != []
    requires TotalOrder(less) && forall r: Entry<K, V> :: !less(r, r)
    ensures a[0] == b[0] || !less(a[0], b[0])
  {
    assert a[0] in a && a[0].key in KeysOf(b);
    var x :| x in b && x.key == a[0].key;
    var i :| 0 <= i < |b| && b[i] == x;
    assert b[i] == a[0];
    if i > 0 {
      assert less(b[0], b[i]);
    }
  }

  function RowsOf(t: Table, out: seq<Message>): seq<Entry<MsgId, Row>>
    requires forall m <- out :: m.uid in t
  {
    seq(|out|, i requires 0 <= i < |out| => Entry(out[i].uid, t[out[i].uid]))
  }

  lemma {:induction false} RowsOfLists(t: Table, out: seq<Message>)
    requires IsSnapshot(t, out)
    ensures Lists(t, RowsOf(t, out), MessageBefore)
  {
    var rows := RowsOf(t, out);
    forall k
      ensures k in KeysOf(rows) <==> k in t
    {
      if k in t {
        assert k in Ids(out);
        var i :| 0 <= i < |out| && out[i].uid == k;
        assert rows[i] in rows;
      }
    }
    forall i, j | 0 <= i < j < |out|
      ensures MessageBefore(rows[i], rows[j])
    {
      assert out[i] in out && out[j] in out && SnapshotBefore(out[i], out[j]);
    }
  }

  /** The tables determine the snapshot, order included. */
  lemma {:induction false} ExportDetermined(t: Tables, a: Snapshot, b: Snapshot)
    requires ExportsSnapshot(t, a) && ExportsSnapshot(t, b)
    ensures a == b
  {
    RowsOfLists(t.messages, a.messages);
    RowsOfLists(t.messages, b.messages);
    MessageOrder();
    PeerOrder();
    GroupOrder();
    NoneBeforeItself();
    ListsUnique(t.messages, RowsOf(t.messages, a.messages), RowsOf(t.messages, b.messages), MessageBefore);
    ListsUnique(t.peers, a.peers, b.peers, PeerBefore);
    ListsUnique(t.groups, a.groups, b.groups, GroupBefore);
    hide Lists, TotalOrder, MessageBefore, PeerBefore, GroupBefore;
    assert |a.messages| == |RowsOf(t.messages, a.messages)| == |b.messages|;
    forall i | 0 <= i < |a.messages|
      ensures a.messages[i] == b.messages[i]
    {
      assert a.messages[i] in a.messages && b.messages[i] in b.messages;
      assert RowsOf(t.messages, a.messages)[i] == RowsOf(t.messages, b.messages)[i];
    }
  }

  lemma {:induction false} NoneBeforeItself()
    ensures forall r: PeerRow :: !PeerBefore(r, r)
    ensures forall r: GroupRow :: !GroupBefore(r, r)
    ensures forall r: Entry<MsgId, Row> :: !MessageBefore(r, r)
  {
    forall r: PeerRow
      ensures !PeerBefore(r, r)
    {
      StringOrder(r.key.login, r.key.login);
      StringOrder(r.key.signatureKey, r.key.signatureKey);
    }
    forall r: GroupRow
      ensures !GroupBefore(r, r)
    {
      StringOrder(r.key, r.key);
    }
    forall r: Entry<MsgId, Row>
      ensures !MessageBefore(r, r)
    {
      StringOrder(r.key, r.key);
    }
  }
}

/** The messages table and the per-peer state-check cursors of the SQLite store:
    internal/store/messageStore.go, stateSyncStore.go and the message part of
    replicationStore.go. Timestamps are Unix microseconds. Every writer reads the
    clock and commits while it holds the store lock, so one method is one step. */
module Messages {
  import opened Basics

  type MsgId = string
  type PeerId = string

  datatype FileMeta = FileMeta(fileId: string, fileHash: string, decryptionKey: string, totalChunks: int,
                               filename: string, filePath: string, sourcePeerId: string)

  /** The stored JSON of a chat message, or bytes that do not decode as one. */
  datatype Content = Json(text: string, files: seq<FileMeta>) | NotJson(raw: string)

  datatype Row = Row(login: string, senderLogin: string, chatId: string, data: Content, createdAt: int, stamp: int)
  datatype Message = Message(uid: MsgId, login: string, senderLogin: string, chatId: string, data: Content,
                             createdAt: int)
  type Table = map<MsgId, Row>

  function RowOf(m: Message, stamp: int): Row {
    Row(m.login, m.senderLogin, m.chatId, m.data, m.createdAt, stamp)
  }

  function MessageOf(uid: MsgId, row: Row): Message {
    Message(uid, row.login, row.senderLogin, row.chatId, row.data, row.createdAt)
  }

  function Ids(messages: seq<Message>): set<MsgId> {
    set m <- messages :: m.uid
  }

  // ---- ORDER BY state_updated_at, message_uid ----

  predicate Before(t: Table, x: MsgId, y: MsgId)
    requires x in t && y in t
  {
    t[x].stamp < t[y].stamp || (t[x].stamp == t[y].stamp && StringLess(x, y))
  }

  lemma {:induction false} BeforeOrder(t: Table, x: MsgId, y: MsgId)
    requires x in t && y in t
    ensures !(Before(t, x, y) && Before(t, y, x))
    ensures x == y || Before(t, x, y) || Before(t, y, x)
  {
    StringOrder(x, y);
  }

  lemma {:induction false} BeforeTransitive(t: Table, x: MsgId, y: MsgId, z: MsgId)
    requires x in t && y in t && z in t
    requires Before(t, x, y) && Before(t, y, z)
    ensures Before(t, x, z)
  {
    if t[x].stamp == t[z].stamp {
      StringTransitive(x, y, z);
    }
  }

  predicate First(t: Table, ids: set<MsgId>, x: MsgId)
    requires ids <= t.Keys
  {
    x in ids && forall y <- ids :: y == x || Before(t, x, y)
  }

  lemma {:induction false} FirstExists(t: Table, ids: set<MsgId>)
    requires ids <= t.Keys && ids != {}
    ensures exists x :: First(t, ids, x)
  {
    var less := (x, y) => x in t && y in t && Before(t, x, y);
    forall x, y | x in ids && y in ids
      ensures x == y || less(x, y) || less(y, x)
    {
      BeforeOrder(t, x, y);
    }
    forall x, y, z | x in ids && y in ids && z in ids && less(x, y) && less(y, z)
      ensures less(x, z)
    {
      BeforeTransitive(t, x, y, z);
    }
    var x := LeastExists(ids, less);
    assert First(t, ids, x);
  }

  // ---- Exporting a window ----

  predicate InWindow(t: Table, lo: int, hi: int, id: MsgId) {
    id in t && lo <= t[id].stamp <= hi
  }

  ghost predicate Increasing(t: Table, out: seq<Message>) {
    && (forall m <- out :: m.uid in t)
    && (forall i, j :: 0 <= i < j < |out| ==> Before(t, out[i].uid, out[j].uid))
  }

  /** Exactly the rows stamped in [lo, hi], in (stamp, id) order. */
  ghost predicate IsExport(t: Table, lo: int, hi: int, out: seq<Message>) {
    && Increasing(t, out)
    && (forall m <- out :: m == MessageOf(m.uid, t[m.uid]))
    && (forall id :: id in Ids(out) <==> InWindow(t, lo, hi, id))
  }

  /** The window determines the export, order included. */
  lemma {:induction false} ExportUnique(t: Table, lo: int, hi: int, a: seq<Message>, b: seq<Message>)
    requires IsExport(t, lo, hi, a) && IsExport(t, lo, hi, b)
    ensures a == b
  {
    IncreasingUnique(t, a, b);
  }

  lemma {:induction false} IncreasingUnique(t: Table, a: seq<Message>, b: seq<Message>)
    requires Increasing(t, a) && Increasing(t, b)
    requires forall m <- a + b :: m == MessageOf(m.uid, t[m.uid])
    requires Ids(a) == Ids(b)
    ensures a == b
  {
    if a == [] || b == [] {
      assert a != [] ==> a[0].uid in Ids(a);
      assert b != [] ==> b[0].uid in Ids(b);
    } else {
      HeadIsFirst(t, a);
      HeadIsFirst(t, b);
      BeforeOrder(t, a[0].uid, b[0].uid);
      assert a[0].uid in Ids(a) && b[0].uid in Ids(b);
      assert a[0].uid == b[0].uid;
      assert a[0] in a + b && b[0] in a + b;
      IncreasingUnique(t, a[1..], b[1..]);
      assert a == [a[0]] + a[1..] && b == [b[0]] + b[1..];
    }
  }

  lemma {:induction false} HeadIsFirst(t: Table, a: seq<Message>)
    requires Increasing(t, a) && a != []
    ensures forall id <- Ids(a) :: id in t && (id == a[0].uid || Before(t, a[0].uid, id))
    ensures Increasing(t, a[1..])
    ensures Ids(a[1..]) == Ids(a) - {a[0].uid}
  {
    BeforeOrder(t, a[0].uid, a[0].uid);
    forall id <- Ids(a) | id != a[0].uid
      ensures Before(t, a[0].uid, id)
      ensures id in Ids(a[1..])
    {
      var k :| 0 <= k < |a| && a[k].uid == id;
      assert a[1..][k-1] == a[k];
    }
    forall m <- a[1..]
      ensures m.uid != a[0].uid
    {
      var k :| 0 <= k < |a[1..]| && a[1..][k] == m;
      assert Before(t, a[0].uid, a[k+1].uid);
    }
  }

  /** Midway through a scan: `out` is done, the window ids in `todo` come later. */
  ghost predicate Scanning(t: Table, lo: int, hi: int, out: seq<Message>, todo: set<MsgId>) {
    && Increasing(t, out)
    && (forall m <- out :: m == MessageOf(m.uid, t[m.uid]))
    && todo <= t.Keys
    && (forall id :: InWindow(t, lo, hi, id) <==> id in Ids(out) + todo)
    && (forall m <- out, id <- todo :: Before(t, m.uid, id))
  }

  lemma {:induction false} ScanBounds(t: Table, lo: int, hi: int, out: seq<Message>)
    ensures Scanning(t, lo, hi, [], set id <- t | InWindow(t, lo, hi, id))
    ensures Scanning(t, lo, hi, out, {}) <==> IsExport(t, lo, hi, out)
  {
  }

  lemma {:induction false} ScanFirst(t: Table, lo: int, hi: int, out: seq<Message>, todo: set<MsgId>, id: MsgId)
    requires Scanning(t, lo, hi, out, todo)
    requires First(t, todo, id)
    ensures Scanning(t, lo, hi, out + [MessageOf(id, t[id])], todo - {id})
  {
    IdsAppend(out, MessageOf(id, t[id]));
  }

  // ---- Writers ----

  /** INSERT .. ON CONFLICT(message_uid) DO NOTHING, message by message. */
  function InsertMissing(t: Table, messages: seq<Message>, stamp: int): Table {
    if messages == [] then t else
      var before := InsertMissing(t, messages[..|messages|-1], stamp);
      var m := messages[|messages|-1];
      if m.uid in before then before else before[m.uid := RowOf(m, stamp)]
  }

  /** The messages that InsertMissing really inserted. */
  function Inserted(t: Table, messages: seq<Message>): seq<Message> {
    if messages == [] then [] else
      var init := messages[..|messages|-1];
      var m := messages[|messages|-1];
      if m.uid in t.Keys + Ids(init) then Inserted(t, init) else Inserted(t, init) + [m]
  }

  /** INSERT .. ON CONFLICT(message_uid) DO UPDATE: every column is replaced, and
      the stamp becomes the greater of the two. */
  function Upsert(t: Table, messages: seq<Message>, stamp: int): Table {
    if messages == [] then t else
      var before := Upsert(t, messages[..|messages|-1], stamp);
      var m := messages[|messages|-1];
      before[m.uid := RowOf(m, if m.uid in before then Max(before[m.uid].stamp, stamp) else stamp)]
  }

  lemma {:induction false} IdsLast(messages: seq<Message>)
    requires messages != []
    ensures Ids(messages) == Ids(messages[..|messages|-1]) + {messages[|messages|-1].uid}
  {
    assert messages == messages[..|messages|-1] + [messages[|messages|-1]];
  }

  /** An import adds exactly the missing ids, under one local stamp, and leaves
      every existing row alone. */
  lemma {:induction false} InsertMissingMeaning(t: Table, messages: seq<Message>, stamp: int)
    ensures InsertMissing(t, messages, stamp).Keys == t.Keys + Ids(messages)
    ensures forall id <- t :: InsertMissing(t, messages, stamp)[id] == t[id]
    ensures forall id <- Ids(messages) - t.Keys :: InsertMissing(t, messages, stamp)[id].stamp == stamp
  {
    if messages != [] {
      IdsLast(messages);
      InsertMissingMeaning(t, messages[..|messages|-1], stamp);
    }
  }

  lemma {:induction false} IdsAppend(messages: seq<Message>, m: Message)
    ensures Ids(messages + [m]) == Ids(messages) + {m.uid}
  {
    assert (messages + [m])[..|messages|] == messages;
    IdsLast(messages + [m]);
  }

  /** The reported list names exactly the ids added, once each. */
  lemma {:induction false} InsertedMeaning(t: Table, messages: seq<Message>)
    ensures Ids(Inserted(t, messages)) == Ids(messages) - t.Keys
    ensures |Inserted(t, messages)| == |Ids(messages) - t.Keys|
  {
    if messages != [] {
      var init, m := messages[..|messages|-1], messages[|messages|-1];
      InsertedMeaning(t, init);
      InsertedStep(Ids(init), t.Keys, m.uid);
      IdsLast(messages);
      IdsAppend(Inserted(t, init), m);
    }
  }

  lemma {:induction false} InsertedStep(ids: set<MsgId>, known: set<MsgId>, id: MsgId)
    ensures id in known + ids ==> ids + {id} - known == ids - known
    ensures id !in known + ids ==> ids + {id} - known == (ids - known) + {id}
    ensures id !in known + ids ==> |ids + {id} - known| == |ids - known| + 1
  {
    if id !in known + ids {
      assert ids + {id} - known == (ids - known) + {id};
    }
  }

  /** Message i is the first of the list with its id. */
  predicate FirstOfId(messages: seq<Message>, i: nat)
    requires i < |messages|
  {
    forall j :: 0 <= j < i ==> messages[j].uid != messages[i].uid
  }

  /** The row has the message's columns and this stamp. */
  ghost predicate HoldsMessage(row: Row, m: Message, stamp: int) {
    && row.login == m.login && row.senderLogin == m.senderLogin && row.chatId == m.chatId
    && row.data == m.data && row.createdAt == m.createdAt && row.stamp == stamp
  }

  /** An inserted row has the columns, text and attachments included, of the first message
      of the list with its id. */
  lemma {:induction false} InsertMissingColumns(t: Table, messages: seq<Message>, stamp: int)
    ensures InsertMissing(t, messages, stamp).Keys == t.Keys + Ids(messages)
    ensures forall i :: 0 <= i < |messages| && messages[i].uid !in t && FirstOfId(messages, i) ==>
              && messages[i].uid in InsertMissing(t, messages, stamp)
              && HoldsMessage(InsertMissing(t, messages, stamp)[messages[i].uid], messages[i], stamp)
  {
    InsertMissingMeaning(t, messages, stamp);
    if messages != [] {
      var n := |messages| - 1;
      var init := messages[..n];
      InsertMissingColumns(t, init, stamp);
      InsertMissingMeaning(t, init, stamp);
      forall i | 0 <= i < |messages| && messages[i].uid !in t && FirstOfId(messages, i)
        ensures messages[i].uid in InsertMissing(t, messages, stamp)
        ensures HoldsMessage(InsertMissing(t, messages, stamp)[messages[i].uid], messages[i], stamp)
      {
        FirstInInit(messages, i);
        if i < n { assert init[i] == messages[i]; }
      }
    }
  }

  lemma {:induction false} FirstInInit(messages: seq<Message>, i: nat)
    requires i < |messages|
    ensures i < |messages| - 1 ==> (FirstOfId(messages, i) <==> FirstOfId(messages[..|messages|-1], i))
    ensures i == |messages| - 1 ==> (FirstOfId(messages, i) <==> messages[i].uid !in Ids(messages[..|messages|-1]))
  {
    var n := |messages| - 1;
    assert forall j :: 0 <= j < n ==> messages[..n][j] == messages[j];
    if i == n && !FirstOfId(messages, n) {
      var j :| 0 <= j < n && messages[j].uid == messages[n].uid;
      assert messages[..n][j] in messages[..n];
    }
  }

  /** `out` lists, in the list's order, exactly the first message of each id not in
      `known`; `at` says where they stand. */
  ghost predicate PicksNew(known: set<MsgId>, messages: seq<Message>, out: seq<Message>, at: seq<nat>) {
    && |at| == |out|
    && (forall k :: 0 <= k < |at| ==> at[k] < |messages| && out[k] == messages[at[k]])
    && (forall k, l :: 0 <= k < l < |at| ==> at[k] < at[l])
    && (forall i: nat :: i < |messages| ==> (i in at <==> messages[i].uid !in known && FirstOfId(messages, i)))
  }

  /** The reported list is that of the messages inserted, columns and order included. */
  lemma {:induction false} InsertedInOrder(t: Table, messages: seq<Message>) returns (at: seq<nat>)
    ensures PicksNew(t.Keys, messages, Inserted(t, messages), at)
  {
    at := [];
    if messages != [] {
      var n := |messages| - 1;
      var init, m := messages[..n], messages[n];
      at := InsertedInOrder(t, init);
      forall i: nat | i < |messages|
        ensures i < n ==> (FirstOfId(messages, i) <==> FirstOfId(init, i))
        ensures i == n ==> (FirstOfId(messages, i) <==> m.uid !in Ids(init))
      {
        FirstInInit(messages, i);
      }
      assert forall k :: 0 <= k < |at| ==> init[at[k]] == messages[at[k]];
      if m.uid !in t.Keys + Ids(init) {
        at := at + [n];
      }
    }
  }

  /** Importing the same delta again inserts nothing and changes nothing. */
  lemma {:induction false} ImportIdempotent(t: Table, messages: seq<Message>, stamp: int, later: int)
    ensures Inserted(InsertMissing(t, messages, stamp), messages) == []
    ensures InsertMissing(InsertMissing(t, messages, stamp), messages, later) == InsertMissing(t, messages, stamp)
  {
    var once := InsertMissing(t, messages, stamp);
    InsertMissingMeaning(t, messages, stamp);
    InsertMissingMeaning(once, messages, later);
    InsertedMeaning(once, messages);
    assert Ids(messages) - once.Keys == {};
  }

  /** The last message of a list with a given id. */
  function LastWith(messages: seq<Message>, id: MsgId): Message
    requires id in Ids(messages)
  {
    if messages[|messages|-1].uid == id then messages[|messages|-1]
    else IdsLast(messages); LastWith(messages[..|messages|-1], id)
  }

  /** A snapshot import is an upsert merge: it touches exactly the snapshot's ids,
      each takes the columns of its last occurrence, and no stamp ever falls. */
  lemma {:induction false} UpsertMeaning(t: Table, messages: seq<Message>, stamp: int)
    ensures Upsert(t, messages, stamp).Keys == t.Keys + Ids(messages)
    ensures forall id <- t.Keys - Ids(messages) :: Upsert(t, messages, stamp)[id] == t[id]
    ensures forall id <- Ids(messages) ::
              MessageOf(id, Upsert(t, messages, stamp)[id]) == LastWith(messages, id)
    ensures forall id <- Ids(messages) ::
              Upsert(t, messages, stamp)[id].stamp == if id in t then Max(t[id].stamp, stamp) else stamp
  {
    if messages != [] {
      IdsLast(messages);
      UpsertMeaning(t, messages[..|messages|-1], stamp);
    }
  }

  /** Message i is the last of the list with its id. */
  predicate LastOfId(messages: seq<Message>, i: nat)
    requires i < |messages|
  {
    forall j :: i < j < |messages| ==> messages[j].uid != messages[i].uid
  }

  /** An upserted row has the columns of the last message of the list with its id, and the
      greater of the old stamp and the import's. */
  lemma {:induction false} UpsertColumns(t: Table, messages: seq<Message>, stamp: int)
    ensures forall i :: 0 <= i < |messages| && LastOfId(messages, i) ==>
              var id := messages[i].uid;
              && id in Upsert(t, messages, stamp)
              && HoldsMessage(Upsert(t, messages, stamp)[id], messages[i],
                              if id in t then Max(t[id].stamp, stamp) else stamp)
  {
    UpsertMeaning(t, messages, stamp);
    forall i | 0 <= i < |messages| && LastOfId(messages, i)
      ensures LastWith(messages, messages[i].uid) == messages[i]
      ensures messages[i].uid in Ids(messages)
    {
      LastWithIsLast(messages, i);
    }
  }

  lemma {:induction false} LastWithIsLast(messages: seq<Message>, i: nat)
    requires i < |messages| && LastOfId(messages, i)
    ensures messages[i].uid in Ids(messages) && LastWith(messages, messages[i].uid) == messages[i]
  {
    var n := |messages| - 1;
    IdsLast(messages);
    if i < n {
      LastWithIsLast(messages[..n], i);
    }
  }

  /** Repeating a snapshot import changes nothing but stamps. */
  lemma {:induction false} UpsertIdempotent(t: Table, messages: seq<Message>, stamp: int, later: int)
    ensures var once := Upsert(t, messages, stamp);
            var twice := Upsert(once, messages, later);
            && twice.Keys == once.Keys
            && forall id <- once :: MessageOf(id, twice[id]) == MessageOf(id, once[id])
                                    && twice[id].stamp >= once[id].stamp
  {
    UpsertMeaning(t, messages, stamp);
    UpsertMeaning(Upsert(t, messages, stamp), messages, later);
  }

  /** What the lock discipline gives for a table changed under stamps of at least
      `floor`: rows stay, and every changed or new stamp is at least `floor`. */
  ghost predicate Evolves(t: Table, t': Table, floor: int) {
    && t.Keys <= t'.Keys
    && forall id <- t' :: (id in t && t'[id].stamp == t[id].stamp) || t'[id].stamp >= floor
  }

  lemma {:induction false} ImportEvolves(t: Table, messages: seq<Message>, stamp: int)
    ensures Evolves(t, InsertMissing(t, messages, stamp), stamp)
    ensures Ids(messages) <= InsertMissing(t, messages, stamp).Keys
  {
    InsertMissingMeaning(t, messages, stamp);
  }

  lemma {:induction false} UpsertEvolves(t: Table, messages: seq<Message>, stamp: int)
    ensures Evolves(t, Upsert(t, messages, stamp), stamp)
  {
    UpsertMeaning(t, messages, stamp);
  }

  // ---- Snapshot export after import ----

  predicate SnapshotBefore(x: Message, y: Message) {
    x.createdAt < y.createdAt || (x.createdAt == y.createdAt && StringLess(x.uid, y.uid))
  }

  /** ORDER BY created_at, message_uid over the whole table. */
  ghost predicate IsSnapshot(t: Table, out: seq<Message>) {
    && (forall i, j :: 0 <= i < j < |out| ==> SnapshotBefore(out[i], out[j]))
    && (forall m <- out :: m.uid in t && m == MessageOf(m.uid, t[m.uid]))
    && Ids(out) == t.Keys
  }

  /** A list is what a store exports after importing it into an empty table
      exactly when it is strictly ordered and names no id twice. */
  lemma {:induction false} SnapshotRoundTrip(messages: seq<Message>, stamp: int)
    ensures IsSnapshot(Upsert(map[], messages, stamp), messages) <==>
              && (forall i, j :: 0 <= i < j < |messages| ==> SnapshotBefore(messages[i], messages[j]))
              && (forall i, j :: 0 <= i < j < |messages| ==> messages[i].uid != messages[j].uid)
  {
    var t := Upsert(map[], messages, stamp);
    UpsertMeaning(map[], messages, stamp);
    if forall i, j :: 0 <= i < j < |messages| ==> messages[i].uid != messages[j].uid {
      forall m <- messages
        ensures m == MessageOf(m.uid, t[m.uid])
      {
        LastWithUnique(messages, m);
      }
    } else if IsSnapshot(t, messages) {
      var i, j :| 0 <= i < j < |messages| && messages[i].uid == messages[j].uid;
      assert messages[i] in messages && messages[j] in messages;
      assert messages[i] == messages[j] && SnapshotBefore(messages[i], messages[j]);
      StringOrder(messages[i].uid, messages[i].uid);
    }
  }

  lemma {:induction false} LastWithUnique(messages: seq<Message>, m: Message)
    requires m in messages
    requires forall i, j :: 0 <= i < j < |messages| ==> messages[i].uid != messages[j].uid
    ensures LastWith(messages, m.uid) == m
  {
    if messages[|messages|-1] != m {
      var k :| 0 <= k < |messages| && messages[k] == m;
      assert messages[..|messages|-1][k] == m;
      IdsLast(messages);
      LastWithUnique(messages[..|messages|-1], m);
    }
  }
}

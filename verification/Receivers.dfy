/** The receiving methods one call at a time: internal/store/trackStore.go and the first
    half of internal/messenger/messages.go. What interleaving adds is in Reception. */
module Receivers {
  import opened Basics
  import opened Reception
  import Codec
  import OfflineDecode

  /** last_check and failed_chunks. */
  class TrackStore {
    var lastCheck: map<Recipient, int>
    var failed: map<Key, RetryRow>

    constructor ()
      ensures lastCheck == map[] && failed == map[]
    {
      lastCheck := map[];
      failed := map[];
    }

    /** 0 for an unsaved cursor and for one that cannot be read. */
    method GetLastChunkCheck(recipient: Recipient, readable: bool) returns (at: int)
      ensures at == if readable && recipient in lastCheck then lastCheck[recipient] else 0
    {
      at := if readable && recipient in lastCheck then lastCheck[recipient] else 0;
    }

    /** A plain replace: a smaller value supersedes a greater one. */
    method SetLastChunkCheck(recipient: Recipient, at: int, works: bool)
      modifies this`lastCheck
      ensures lastCheck == if works then old(lastCheck)[recipient := at] else old(lastCheck)
    {
      if works {
        lastCheck := lastCheck[recipient := at];
      }
    }

    /** An existing row keeps its creation time and time to live. */
    method StoreFailedChunk(file: FileId, index: int, recipient: Recipient, ttl: int, now: int, works: bool)
      modifies this`failed
      ensures !works || Key(file, index) in old(failed) ==> failed == old(failed)
      ensures works && Key(file, index) !in old(failed) ==>
                failed == old(failed)[Key(file, index) := RetryRow(recipient, now, if ttl <= 0 then 604800 else ttl)]
    {
      var ttlSeconds := ttl;
      if ttlSeconds <= 0 {
        ttlSeconds := 604800;
      }
      if works && Key(file, index) !in failed {
        failed := failed[Key(file, index) := RetryRow(recipient, now, ttlSeconds)];
      }
    }

    method DeleteFailedChunk(file: FileId, index: int, works: bool)
      modifies this`failed
      ensures failed == old(failed) - if works then {Key(file, index)} else {}
    {
      if works {
        failed := failed - {Key(file, index)};
      }
    }

    /** Exactly the rows whose time to live has run out. */
    method DeleteExpiredFailedChunks(now: int)
      modifies this`failed
      ensures forall key ::
                key in failed <==> key in old(failed) && old(failed)[key].created + old(failed)[key].ttl > now
      ensures forall key <- failed :: failed[key] == old(failed)[key]
    {
      failed := map key <- failed | failed[key].created + failed[key].ttl > now :: failed[key];
    }

    method DeleteFailedMessage(file: FileId, works: bool)
      modifies this`failed
      ensures forall key :: key in failed <==> key in old(failed) && !(works && key.file == file)
      ensures forall key <- failed :: failed[key] == old(failed)[key]
    {
      if works {
        failed := map key <- failed | key.file != file :: failed[key];
      }
    }
  }

  predicate KeepsOthers(before: map<Key, RetryRow>, after: map<Key, RetryRow>, file: FileId) {
    forall key <- before | key.file != file :: key in after && after[key] == before[key]
  }

  /** A row is the same as before, or was written now for one of these files. */
  predicate OldOrNew(before: map<Key, RetryRow>, after: map<Key, RetryRow>, files: set<FileId>, now: int) {
    forall key <- after ::
      || (key in before && after[key] == before[key])
      || (key.file in files && after[key].created == now && after[key].ttl > 0)
  }

  lemma {:induction false} OldOrNewJoin(before: map<Key, RetryRow>, mid: map<Key, RetryRow>, after: map<Key, RetryRow>,
                                        file: FileId, files: set<FileId>, now: int)
    requires OldOrNew(before, mid, files, now) && OldOrNew(mid, after, {file}, now) && file in files
    ensures OldOrNew(before, after, files, now)
  {
  }

  lemma {:induction false} NoneNew(failed: map<Key, RetryRow>, files: set<FileId>, now: int)
    ensures OldOrNew(failed, failed, files, now)
  {
  }

  predicate HasRows(failed: map<Key, RetryRow>, id: FileId, records: seq<Record>) {
    forall r <- records :: Key(id, r.index) in failed
  }

  /** What peers, directory and keys answer: the bytes of a chunk if anyone has them, the
      hash registered for it, the sender's signing key if the sender is known, this
      device's or the group's own key, and whether the database does what it is asked:
      write a retry row, save a message, move a cursor, remove a chunk, a retry row, or all
      retry rows of a file. */
  datatype World = World(got: Record -> Option<OfflineDecode.Blob>, hash: Record -> OfflineDecode.Hash,
                         sender: Record -> Option<Codec.PublicKey>, own: Recipient -> Codec.PrivateKey,
                         stores: Key -> bool, saves: FileId -> bool, advances: Recipient -> bool,
                         dropsChunk: Key -> bool, dropsRetry: Key -> bool, clears: FileId -> bool)

  /** The retry rows of all these records can be written. */
  predicate Storable(w: World, id: FileId, records: seq<Record>) {
    forall r <- records :: w.stores(Key(id, r.index))
  }

  /** The rows of the chunk table that a collection removes: those whose bytes do not hash
      to the registered value. */
  function Mismatched(w: World, id: FileId, records: seq<Record>): set<Key> {
    set i <- OfflineDecode.Dropped(Looks(w, records), |records|) | w.dropsChunk(Key(id, i)) :: Key(id, i)
  }

  function Looks(w: World, records: seq<Record>): seq<OfflineDecode.Look> {
    seq(|records|, i requires 0 <= i < |records| =>
      var r := records[i];
      OfflineDecode.Look(OfflineDecode.Record(r.index, w.hash(r), r.persist), w.got(r)))
  }

  /** The outcome that these answers lead to. */
  ghost predicate DecodesTo(w: World, records: seq<Record>, outcome: OfflineDecode.Decoded) {
    var taken := OfflineDecode.Chosen(Looks(w, records), |records|);
    && records != []
    && OfflineDecode.AllUsable(taken)
    && OfflineDecode.Leads(OfflineDecode.Blobs(taken), records[0].persist, w.sender(records[0]),
                           w.own(records[0].recipient), outcome)
  }

  predicate IsFile(reply: seq<Record>, f: FileId) {
    exists q <- reply :: q.file == f && q.persist
  }

  function FilesOf(reply: seq<Record>): set<FileId> {
    set r <- reply :: r.file
  }

  /** The retry rows of a recipient. */
  function FailedChunks(failed: map<Key, RetryRow>, recipient: Recipient): map<Key, RetryRow> {
    map key <- failed | failed[key].recipient == recipient :: failed[key]
  }

  /** Those of the listed rows whose time to live has run out and which can be removed. */
  function RunOut(listed: map<Key, RetryRow>, w: World, now: int): set<Key> {
    set key <- listed | Expired(listed[key], now) && w.dropsRetry(key)
  }

  /** The files of the other listed rows. */
  function Alive(listed: map<Key, RetryRow>, now: int): set<FileId> {
    set key <- listed | !Expired(listed[key], now) :: key.file
  }

  /** The files that the directory knows, with its records of them. */
  function Answered(files: set<FileId>, answers: FileId -> seq<Record>): map<FileId, seq<Record>> {
    map f <- files | answers(f) != [] :: answers(f)
  }

  lemma {:induction false} OneMoreRow(listed: map<Key, RetryRow>, key: Key, row: RetryRow,
                                      answers: FileId -> seq<Record>, w: World, now: int)
    requires key !in listed
    ensures RunOut(listed[key := row], w, now) ==
            RunOut(listed, w, now) + if Expired(row, now) && w.dropsRetry(key) then {key} else {}
    ensures Alive(listed[key := row], now) == Alive(listed, now) + if Expired(row, now) then {} else {key.file}
    ensures Answered(Alive(listed, now) + {key.file}, answers) ==
            if answers(key.file) != [] then Answered(Alive(listed, now), answers)[key.file := answers(key.file)]
            else Answered(Alive(listed, now), answers)
    ensures Answered(Alive(listed, now), answers).Keys <= Alive(listed, now)
  {
    hide Expired;
    var more := listed[key := row];
    assert forall k <- listed :: more[k] == listed[k];
    forall f | f in Alive(listed, now)
      ensures f in Alive(more, now)
    {
      var k :| k in listed && !Expired(listed[k], now) && k.file == f;
      assert more[k] == listed[k];
    }
    if !Expired(row, now) {
      assert key in more && more[key] == row && key.file in Alive(more, now);
    }
  }

  lemma {:induction false} NoRows(answers: FileId -> seq<Record>, w: World, now: int)
    ensures RunOut(map[], w, now) == {} && Answered(Alive(map[], now), answers) == map[] && Alive(map[], now) == {}
  {
  }

  /** A call of collectAndProcessMessage. */
  datatype Attempt = Attempt(file: FileId, records: seq<Record>)

  /** These files, each collected once and from these records, in some order. */
  ghost predicate Once(attempts: seq<Attempt>, wanted: map<FileId, seq<Record>>) {
    && (forall a <- attempts :: a.file in wanted && a.records == wanted[a.file])
    && (forall f <- wanted :: Attempt(f, wanted[f]) in attempts)
    && (forall i, j :: 0 <= i < j < |attempts| ==> attempts[i].file != attempts[j].file)
  }

  lemma {:induction false} OnceMore(attempts: seq<Attempt>, wanted: map<FileId, seq<Record>>, f: FileId,
                                    records: seq<Record>)
    requires Once(attempts, wanted) && f !in wanted
    ensures Once(attempts + [Attempt(f, records)], wanted[f := records])
  {
    var more := attempts + [Attempt(f, records)];
    assert forall a :: a in more <==> a in attempts || a == Attempt(f, records);
    forall i | 0 <= i < |attempts|
      ensures attempts[i].file != f
    {
      assert attempts[i] in attempts;
    }
  }

  lemma {:induction false} NoAttempts()
    ensures Once([], map[])
  {
  }

  lemma {:induction false} Regroup<T>(a: seq<T>, b: seq<T>, c: seq<T>)
    ensures (a + b) + c == a + (b + c)
  {
  }

  lemma {:induction false} RowDone(listed: map<Key, RetryRow>, todo: set<Key>, key: Key)
    requires todo <= listed.Keys && key in todo
    ensures listed - (todo - {key}) == (listed - todo)[key := listed[key]]
    ensures key !in listed - todo
  {
  }

  /** What one turn of the retry loop adds to the calls. */
  function Turn(key: Key, row: RetryRow, seen: set<FileId>, answers: FileId -> seq<Record>, now: int): seq<Attempt> {
    if !Expired(row, now) && key.file !in seen && answers(key.file) != [] then [Attempt(key.file, answers(key.file))]
    else []
  }

  lemma {:induction false} OneMoreTurn(attempts: seq<Attempt>, done: map<Key, RetryRow>, key: Key, row: RetryRow,
                                       answers: FileId -> seq<Record>, w: World, now: int)
    requires key !in done && Once(attempts, Answered(Alive(done, now), answers))
    ensures Once(attempts + Turn(key, row, Alive(done, now), answers, now),
                 Answered(Alive(done[key := row], now), answers))
  {
    var seen := Alive(done, now);
    OneMoreRow(done, key, row, answers, w, now);
    hide Expired, Alive, Once;
    if Turn(key, row, seen, answers, now) != [] {
      OnceMore(attempts, Answered(seen, answers), key.file, answers(key.file));
    } else {
      assert attempts + [] == attempts;
      assert Answered(Alive(done[key := row], now), answers) == Answered(seen, answers);
    }
  }

  /** A message that a retry may leave neither saved nor waiting. */
  predicate Lost(dropped: set<Key>, answers: FileId -> seq<Record>, f: FileId) {
    (exists key <- dropped :: key.file == f) || (answers(f) != [] && answers(f)[0].persist)
  }

  /** Only the records of a file are left to a message. */
  lemma {:induction false} LeftMeansPersist(w: World, records: seq<Record>, outcome: OfflineDecode.Decoded)
    requires DecodesTo(w, records, outcome)
    ensures outcome.LeftForMessage? ==> records[0].persist
  {
    hide OfflineDecode.Chosen, OfflineDecode.Decrypts;
  }

  lemma {:induction false} LostMore(dropped: set<Key>, key: Key, answers: FileId -> seq<Record>)
    ensures Lost(dropped + {key}, answers, key.file)
    ensures forall f :: Lost(dropped, answers, f) ==> Lost(dropped + {key}, answers, f)
    ensures forall f :: answers(f) != [] && answers(f)[0].persist ==> Lost(dropped, answers, f)
  {
    assert key in dropped + {key};
  }

  /** The records list envelopes of one file, which say how many there are, under their true
      hashes. */
  ghost predicate HonestFile(w: World, records: seq<Record>, all: seq<Codec.Envelope>) {
    && records != [] && OfflineDecode.SaysTotal(all)
    && forall l <- Looks(w, records) :: OfflineDecode.HonestFileRecord(l.record, all)
  }

  /** Every chunk below the total is at hand under some record: someone has its bytes, and
      they hash to the registered value, if there is one. */
  predicate FileAtHand(w: World, records: seq<Record>, total: nat) {
    forall i :: 0 <= i < total ==> ChunkAtHand(w, records, i)
  }

  predicate ChunkAtHand(w: World, records: seq<Record>, i: int) {
    exists r <- records ::
      && r.index == i && w.got(r).Some?
      && (w.hash(r).NoHash? || w.hash(r) == OfflineDecode.RegisteredHash(w.got(r).value))
  }

  lemma {:induction false} AtHandMeaning(w: World, records: seq<Record>, total: nat)
    ensures OfflineDecode.Complete(Looks(w, records), total) <==> FileAtHand(w, records, total)
  {
    var looks := Looks(w, records);
    forall i | 0 <= i < total
      ensures OfflineDecode.AtHand(looks, i) <==> ChunkAtHand(w, records, i)
    {
      if l :| l in looks && OfflineDecode.Index(l) == i && OfflineDecode.Usable(l) {
        var j :| 0 <= j < |looks| && looks[j] == l;
        assert records[j] in records;
      }
      if r :| r in records && r.index == i && w.got(r).Some?
              && (w.hash(r).NoHash? || w.hash(r) == OfflineDecode.RegisteredHash(w.got(r).value)) {
        var j :| 0 <= j < |records| && records[j] == r;
        assert looks[j] in looks && OfflineDecode.Index(looks[j]) == i && OfflineDecode.Usable(looks[j]);
      }
    }
  }

  /** A file is left to its message exactly when its sender is known and all its chunks are
      at hand, and it is never decrypted here. */
  lemma {:induction false} FileLeftWhenReady(w: World, records: seq<Record>, outcome: OfflineDecode.Decoded)
    requires DecodesTo(w, records, outcome)
    ensures forall all: seq<Codec.Envelope> :: HonestFile(w, records, all) ==>
              && !outcome.Plain?
              && (outcome.LeftForMessage? <==> w.sender(records[0]).Some? && FileAtHand(w, records, |all|))
  {
    forall all: seq<Codec.Envelope> | HonestFile(w, records, all)
      ensures !outcome.Plain?
      ensures outcome.LeftForMessage? <==> w.sender(records[0]).Some? && FileAtHand(w, records, |all|)
    {
      var looks := Looks(w, records);
      AtHandMeaning(w, records, |all|);
      hide OfflineDecode.Chosen, OfflineDecode.Leads, OfflineDecode.Complete, FileAtHand;
      OfflineDecode.LeftExactlyWhenComplete(looks, all, OfflineDecode.Blobs(OfflineDecode.Chosen(looks, |looks|)),
                                            w.sender(records[0]), w.own(records[0].recipient), outcome);
    }
  }

  /** The records of one file that are neither listed for a retry nor saved, in order. */
  function NewOf(reply: seq<Record>, failed: map<Key, RetryRow>, saved: set<FileId>, f: FileId): seq<Record> {
    if reply == [] then [] else
      var r := reply[|reply|-1];
      NewOf(reply[..|reply|-1], failed, saved, f)
        + (if r.file == f && Key(r.file, r.index) !in failed && r.file !in saved then [r] else [])
  }

  lemma {:induction false} NewOfMeaning(reply: seq<Record>, failed: map<Key, RetryRow>, saved: set<FileId>, f: FileId)
    ensures forall r :: r in NewOf(reply, failed, saved, f) <==>
              r in reply && r.file == f && Key(r.file, r.index) !in failed && r.file !in saved
  {
    if reply != [] {
      var n := |reply| - 1;
      NewOfMeaning(reply[..n], failed, saved, f);
      assert reply == reply[..n] + [reply[n]];
    }
  }

  predicate Fresh(r: Record, failed: map<Key, RetryRow>, saved: set<FileId>) {
    Key(r.file, r.index) !in failed && r.file !in saved
  }

  function FreshFiles(reply: seq<Record>, failed: map<Key, RetryRow>, saved: set<FileId>): set<FileId> {
    set r <- reply | Fresh(r, failed, saved) :: r.file
  }

  lemma {:induction false} FreshOrSettled(reply: seq<Record>, failed: map<Key, RetryRow>, saved: set<FileId>)
    ensures forall f <- FreshFiles(reply, failed, saved) :: f !in saved
    ensures forall r <- reply :: r.file in FreshFiles(reply, failed, saved) || Key(r.file, r.index) in failed
                                 || r.file in saved
  {
  }

  ghost predicate Grouping(byMsg: map<FileId, seq<Record>>, done: seq<Record>, failed: map<Key, RetryRow>,
                           saved: set<FileId>) {
    && byMsg.Keys == FreshFiles(done, failed, saved)
    && forall f :: (if f in byMsg then byMsg[f] else []) == NewOf(done, failed, saved, f)
  }

  lemma {:induction false} NoGroup(failed: map<Key, RetryRow>, saved: set<FileId>)
    ensures Grouping(map[], [], failed, saved)
  {
  }

  lemma {:induction false} GroupOne(byMsg: map<FileId, seq<Record>>, done: seq<Record>, c: Record,
                                    failed: map<Key, RetryRow>, saved: set<FileId>)
    requires Grouping(byMsg, done, failed, saved)
    ensures Grouping(if Fresh(c, failed, saved)
                     then byMsg[c.file := (if c.file in byMsg then byMsg[c.file] else []) + [c]] else byMsg,
                     done + [c], failed, saved)
  {
    FreshOne(done, c, failed, saved);
    hide FreshFiles, NewOf, Fresh;
    forall f
      ensures NewOf(done + [c], failed, saved, f) ==
              NewOf(done, failed, saved, f) + if c.file == f && Fresh(c, failed, saved) then [c] else []
    {
      NewOfOne(done, c, failed, saved, f);
    }
  }

  lemma {:induction false} NewOfOne(done: seq<Record>, c: Record, failed: map<Key, RetryRow>, saved: set<FileId>,
                                    f: FileId)
    ensures NewOf(done + [c], failed, saved, f) ==
            NewOf(done, failed, saved, f) + if c.file == f && Fresh(c, failed, saved) then [c] else []
  {
    assert (done + [c])[..|done|] == done;
  }

  lemma {:induction false} FreshOne(done: seq<Record>, c: Record, failed: map<Key, RetryRow>, saved: set<FileId>)
    ensures FreshFiles(done + [c], failed, saved) ==
            FreshFiles(done, failed, saved) + if Fresh(c, failed, saved) then {c.file} else {}
  {
    hide Fresh;
    assert forall r :: r in done + [c] <==> r in done || r == c;
  }

  lemma {:induction false} GroupingMeaning(byMsg: map<FileId, seq<Record>>, reply: seq<Record>,
                                           failed: map<Key, RetryRow>, saved: set<FileId>)
    requires Grouping(byMsg, reply, failed, saved)
    ensures byMsg.Keys == FreshFiles(reply, failed, saved)
    ensures forall f <- byMsg :: byMsg[f] == NewOf(reply, failed, saved, f) && byMsg[f] != []
    ensures forall f <- byMsg, r :: r in byMsg[f] <==> r in reply && r.file == f && Fresh(r, failed, saved)
  {
    forall f <- byMsg
      ensures byMsg[f] != []
      ensures forall r :: r in byMsg[f] <==> r in reply && r.file == f && Fresh(r, failed, saved)
    {
      NewOfMeaning(reply, failed, saved, f);
      var r :| r in reply && Fresh(r, failed, saved) && r.file == f;
      assert r in byMsg[f];
    }
  }

  /** Every group can be tracked exactly when every new record can. */
  lemma {:induction false} SafeMeans(reply: seq<Record>, groups: map<FileId, seq<Record>>, failed: map<Key, RetryRow>,
                                     saved: set<FileId>, processing: set<FileId>, w: World)
    requires groups.Keys == FreshFiles(reply, failed, saved)
    requires forall f <- groups, r :: r in groups[f] <==> r in reply && r.file == f && Fresh(r, failed, saved)
    ensures (forall f <- groups :: f !in processing && Storable(w, f, groups[f])) <==>
            (forall r <- reply :: Fresh(r, failed, saved) ==> r.file !in processing && w.stores(Key(r.file, r.index)))
  {
    hide Fresh;
    if f :| f in groups && !(f !in processing && Storable(w, f, groups[f])) {
      var q :| q in reply && Fresh(q, failed, saved) && q.file == f;
      if f !in processing {
        var r :| r in groups[f] && !w.stores(Key(f, r.index));
      }
    } else {
      forall r <- reply | Fresh(r, failed, saved)
        ensures r.file !in processing && w.stores(Key(r.file, r.index))
      {
        assert r.file in groups && r in groups[r.file];
      }
    }
  }

  lemma {:induction false} GroupsLeft(groups: map<FileId, seq<Record>>, byMsg: map<FileId, seq<Record>>, id: FileId)
    requires byMsg.Keys <= groups.Keys && id in byMsg
    ensures groups - (byMsg - {id}).Keys == (groups - byMsg.Keys)[id := groups[id]]
    ensures (groups - (byMsg - {id}).Keys).Keys == groups.Keys - (byMsg - {id}).Keys
    ensures groups.Keys - (byMsg - {id}).Keys == groups.Keys - byMsg.Keys + {id}
  {
  }

  class Receiver {
    const track: TrackStore
    var messages: set<FileId>
    var processing: set<FileId>
    var published: seq<FileId>
    var payloads: map<FileId, seq<byte>>  // what was decrypted into the saved messages
    var chunks: set<Key>  // the keys of the chunk table
    ghost var attempts: seq<Attempt>  // the calls of collectAndProcessMessage

    constructor (track: TrackStore)
      ensures this.track == track && messages == {} && processing == {} && published == [] && attempts == []
      ensures chunks == {} && payloads == map[]
    {
      this.track := track;
      messages := {};
      processing := {};
      published := [];
      payloads := map[];
      chunks := {};
      attempts := [];
    }

    predicate Waits(file: FileId)
      reads this, track
    {
      file in messages || exists key <- track.failed :: key.file == file
    }

    /** The messages of a reply that need collecting. */
    ghost function NewFiles(reply: seq<Record>): set<FileId>
      reads this, track
    {
      FreshFiles(reply, track.failed, messages)
    }

    /** Each of them with its new records. */
    ghost function NewGroups(reply: seq<Record>): map<FileId, seq<Record>>
      reads this, track
    {
      map f <- NewFiles(reply) :: NewOf(reply, track.failed, messages, f)
    }

    /** No new message of the reply is in work elsewhere, and all retry rows can be written. */
    ghost predicate AllTrackable(reply: seq<Record>, w: World)
      reads this, track
    {
      forall r <- reply :: Fresh(r, track.failed, messages) ==>
        r.file !in processing && w.stores(Key(r.file, r.index))
    }

    /** When a poll moves the cursor. */
    ghost predicate CursorMoves(recipient: Recipient, readable: bool, reply: seq<Record>, w: World)
      reads this, track
    {
      && w.advances(recipient) && AllTrackable(reply, w)
      && exists r <- reply :: Stamp(r) > LastCheck(recipient, readable)
    }

    ghost function LastCheck(recipient: Recipient, readable: bool): int
      reads this, track
    {
      if readable && recipient in track.lastCheck then track.lastCheck[recipient] else 0
    }

    method TryProcessMsg(id: FileId) returns (ok: bool)
      modifies this`processing
      ensures ok <==> id !in old(processing)
      ensures processing == old(processing) + {id}
    {
      ok := id !in processing;
      processing := processing + {id};
    }

    method ReleaseProcessMsg(id: FileId)
      modifies this`processing
      ensures processing == old(processing) - {id}
    {
      processing := processing - {id};
    }

    /** SaveMessage: the id is unique. */
    method SaveMessage(id: FileId, payload: seq<byte>, works: bool) returns (ok: bool)
      modifies this`messages, this`payloads
      ensures ok <==> works && id !in old(messages)
      ensures messages == if ok then old(messages) + {id} else old(messages)
      ensures payloads == if ok then old(payloads)[id := payload] else old(payloads)
    {
      ok := works && id !in messages;
      if ok {
        messages := messages + {id};
        payloads := payloads[id := payload];
      }
    }

    /** Lines up to `tracked = true`: the retry rows of all records, or failure. */
    method TrackAll(id: FileId, records: seq<Record>, w: World, now: int) returns (ok: bool)
      modifies track`failed
      ensures ok <==> Storable(w, id, records)
      ensures ok ==> HasRows(track.failed, id, records)
      ensures forall key <- old(track.failed) :: key in track.failed && track.failed[key] == old(track.failed)[key]
      ensures OldOrNew(old(track.failed), track.failed, {id}, now)
    {
      var i := 0;
      while i < |records|
        invariant 0 <= i <= |records|
        invariant Storable(w, id, records[..i])
        invariant HasRows(track.failed, id, records[..i])
        invariant forall key <- old(track.failed) :: key in track.failed && track.failed[key] == old(track.failed)[key]
        invariant OldOrNew(old(track.failed), track.failed, {id}, now)
      {
        var works := w.stores(Key(id, records[i].index));
        track.StoreFailedChunk(id, records[i].index, records[i].recipient, records[i].ttl, now, works);
        if !works {
          assert records[i] in records;
          return false;
        }
        i := i + 1;
      }
      assert records[..i] == records;
      ok := true;
    }

    /** Tracking the missing indices once more alters no row that is there. */
    method TrackAgain(id: FileId, records: seq<Record>, again: set<int>, w: World, now: int)
      requires HasRows(track.failed, id, records)
      modifies track`failed
      ensures track.failed == old(track.failed)
    {
      var i := 0;
      while i < |records|
        invariant track.failed == old(track.failed)
      {
        if records[i].index in again {
          assert records[i] in records;
          track.StoreFailedChunk(id, records[i].index, records[i].recipient, records[i].ttl, now,
                                 w.stores(Key(id, records[i].index)));
        }
        i := i + 1;
      }
    }

    /** Fetching, checking and decrypting. */
    method Collect(id: FileId, records: seq<Record>, w: World, now: int) returns (outcome: OfflineDecode.Decoded)
      requires records != [] && HasRows(track.failed, id, records)
      modifies this`chunks, track`failed
      ensures track.failed == old(track.failed) && chunks == old(chunks) - Mismatched(w, id, records)
      ensures DecodesTo(w, records, outcome)
    {
      hide OfflineDecode.Chosen, OfflineDecode.Leads;
      var chunkData, again, dropped := OfflineDecode.CollectChunks(Looks(w, records));
      TrackAgain(id, records, again, w, now);
      chunks := chunks - set i <- dropped | w.dropsChunk(Key(id, i)) :: Key(id, i);
      outcome := OfflineDecode.Decode(chunkData, records[0].persist, w.sender(records[0]), w.own(records[0].recipient));
    }

    /** The last lines: a complete file loses its retry rows; a decrypted message is saved,
        loses them, and is published. */
    method Settle(id: FileId, decoded: OfflineDecode.Decoded, w: World)
      requires id !in messages
      modifies this`messages, this`payloads, this`published, track`failed
      ensures var saved := decoded.Plain? && w.saves(id);
              && messages == old(messages) + (if saved then {id} else {})
              && published == old(published) + (if saved then [id] else [])
              && payloads == (if saved then old(payloads)[id := decoded.payload] else old(payloads))
              && (forall key :: key in track.failed <==>
                    && key in old(track.failed)
                    && !((saved || decoded.LeftForMessage?) && w.clears(id) && key.file == id))
      ensures forall key <- track.failed :: track.failed[key] == old(track.failed)[key]
    {
      if decoded.LeftForMessage? {
        track.DeleteFailedMessage(id, w.clears(id));
      } else if decoded.Plain? {
        var saved := SaveMessage(id, decoded.payload, w.saves(id));
        if saved {
          track.DeleteFailedMessage(id, w.clears(id));
          published := published + [id];
        }
      }
    }

    /** The call reports `tracked` exactly when the slot was free and the message is saved
        already or all its retry rows could be written; `outcome` is what decoding led to,
        and it is reached exactly when the message was tracked and not yet saved. Then
        exactly a decrypted message that the database takes is saved, with the decrypted
        payload, and published. The retry rows are removed exactly when the message is
        saved or its file complete, and all stay otherwise or if the removal fails; of the
        chunk table exactly the mismatching rows are removed. */
    method CollectAndProcessMessage(id: FileId, records: seq<Record>, w: World, now: int)
      returns (tracked: bool, outcome: Option<OfflineDecode.Decoded>)
      modifies this`messages, this`payloads, this`processing, this`published, this`chunks, this`attempts, track`failed
      ensures processing == old(processing) && attempts == old(attempts) + [Attempt(id, records)]
      ensures tracked <==>
                records != [] && id !in old(processing) && (id in old(messages) || Storable(w, id, records))
      ensures outcome.Some? <==> tracked && id !in old(messages)
      ensures outcome.Some? ==> DecodesTo(w, records, outcome.value)
      ensures var saved := outcome.Some? && outcome.value.Plain? && w.saves(id);
              && messages == old(messages) + (if saved then {id} else {})
              && published == old(published) + (if saved then [id] else [])
              && payloads == if saved then old(payloads)[id := outcome.value.payload] else old(payloads)
      ensures chunks == old(chunks) - if outcome.Some? then Mismatched(w, id, records) else {}
      ensures records == [] || id in old(processing) ==> track.failed == old(track.failed)
      ensures tracked ==> Waits(id) || records[0].persist
      ensures !tracked ==> forall key <- old(track.failed) :: key in track.failed
      ensures KeepsOthers(old(track.failed), track.failed, id) && OldOrNew(old(track.failed), track.failed, {id}, now)
      ensures outcome.Some? ==>
                if (messages != old(messages) || outcome.value.LeftForMessage?) && w.clears(id)
                then forall key <- track.failed :: key.file != id
                else HasRows(track.failed, id, records) && forall key <- old(track.failed) :: key in track.failed
      ensures forall all: seq<Codec.Envelope> :: HonestFile(w, records, all) && outcome.Some? ==>
                var ready := w.sender(records[0]).Some? && FileAtHand(w, records, |all|);
                && messages == old(messages)
                && (!(ready && w.clears(id)) ==>
                      HasRows(track.failed, id, records) && forall key <- old(track.failed) :: key in track.failed)
                && (ready && w.clears(id) ==> forall key <- track.failed :: key.file != id)
    {
      hide DecodesTo, Looks, Mismatched, HonestFile, FileAtHand;
      tracked, outcome := false, None;
      attempts := attempts + [Attempt(id, records)];
      if |records| == 0 {
        return;
      }
      var mine := TryProcessMsg(id);
      if !mine {
        return;
      }
      if id in messages {
        track.DeleteFailedMessage(id, w.clears(id));
        ReleaseProcessMsg(id);
        tracked := true;
        return;
      }
      tracked := TrackAll(id, records, w, now);
      if tracked {
        assert records[0] in records && Key(id, records[0].index) in track.failed;
        var decoded := Collect(id, records, w, now);
        LeftMeansPersist(w, records, decoded);
        FileLeftWhenReady(w, records, decoded);
        Settle(id, decoded, w);
        outcome := Some(decoded);
      }
      ReleaseProcessMsg(id);
    }

    /** The records of a reply that need collecting, by message, and the greatest stamp. */
    method Group(recipient: Recipient, last: int, reply: seq<Record>)
      returns (newLast: int, byMsg: map<FileId, seq<Record>>)
      ensures newLast >= last && forall r <- reply :: Stamp(r) <= newLast
      ensures newLast == last || exists r <- reply :: Stamp(r) == newLast
      ensures byMsg == NewGroups(reply)
      ensures byMsg.Keys == NewFiles(reply) && forall f <- byMsg :: byMsg[f] != []
      ensures forall f <- byMsg, r :: r in byMsg[f] <==> r in reply && r.file == f && Fresh(r, track.failed, messages)
    {
      hide NewOf, FreshFiles;
      newLast, byMsg := last, map[];
      NoGroup(track.failed, messages);
      var i := 0;
      while i < |reply|
        invariant 0 <= i <= |reply|
        invariant newLast >= last && forall r <- reply[..i] :: Stamp(r) <= newLast
        invariant newLast == last || exists r <- reply :: Stamp(r) == newLast
        invariant Grouping(byMsg, reply[..i], track.failed, messages)
      {
        var c := reply[i];
        assert c in reply && reply[..i+1] == reply[..i] + [c];
        GroupOne(byMsg, reply[..i], c, track.failed, messages);
        hide Grouping;
        newLast := Max(newLast, Stamp(c));
        if Key(c.file, c.index) !in track.failed && c.file !in messages {
          byMsg := byMsg[c.file := (if c.file in byMsg then byMsg[c.file] else []) + [c]];
        }
        i := i + 1;
      }
      assert reply[..i] == reply;
      GroupingMeaning(byMsg, reply, track.failed, messages);
    }

    /** The polling half of checkRecipientMessages. Each new message of the reply is
        collected once, from all its new records in order. The cursor moves, to the greatest
        stamp of the reply, exactly when that is later, every new message could be tracked,
        and the write works; then every message of the reply is saved, waits for a retry, or
        is a file left to its message. */
    method Poll(recipient: Recipient, readable: bool, reply: seq<Record>, w: World, now: int)
      modifies this`messages, this`payloads, this`processing, this`published, this`chunks, this`attempts, track
      ensures processing == old(processing) && old(messages) <= messages <= old(messages) + old(NewFiles(reply))
      ensures OldOrNew(old(track.failed), track.failed, FilesOf(reply), now)
      ensures old(attempts) <= attempts && Once(attempts[|old(attempts)|..], old(NewGroups(reply)))
      ensures forall other <- old(track.lastCheck) :: other != recipient ==>
                other in track.lastCheck && track.lastCheck[other] == old(track.lastCheck)[other]
      ensures !old(CursorMoves(recipient, readable, reply, w)) ==> track.lastCheck == old(track.lastCheck)
      ensures old(CursorMoves(recipient, readable, reply, w)) ==>
                && track.lastCheck.Keys == old(track.lastCheck).Keys + {recipient}
                && (forall r <- reply :: Stamp(r) <= track.lastCheck[recipient])
                && (exists r <- reply :: Stamp(r) == track.lastCheck[recipient])
                && (forall r <- reply :: Waits(r.file) || IsFile(reply, r.file))
    {
      hide Once, Storable, NewOf, FreshFiles, OldOrNew;
      var last := track.GetLastChunkCheck(recipient, readable);
      var newLast, byMsg := Group(recipient, last, reply);
      SafeMeans(reply, byMsg, track.failed, messages, processing, w);
      FreshOrSettled(reply, track.failed, messages);
      assert forall r <- reply :: r.file in byMsg || Waits(r.file);
      hide Fresh;
      var safe := CollectGroups(reply, byMsg, w, now);
      if safe && newLast > last {
        track.SetLastChunkCheck(recipient, newLast, w.advances(recipient));
      }
    }

    /** The loop over the new messages. */
    method CollectGroups(reply: seq<Record>, groups: map<FileId, seq<Record>>, w: World, now: int)
      returns (safe: bool)
      requires forall f <- groups :: groups[f] != [] && f !in messages
      requires forall f <- groups :: forall r <- groups[f] :: r in reply && r.file == f
      modifies this`messages, this`payloads, this`processing, this`published, this`chunks, this`attempts, track`failed
      ensures processing == old(processing) && old(messages) <= messages <= old(messages) + groups.Keys
      ensures OldOrNew(old(track.failed), track.failed, FilesOf(reply), now)
      ensures old(attempts) <= attempts && Once(attempts[|old(attempts)|..], groups)
      ensures safe <==> forall f <- groups :: f !in processing && Storable(w, f, groups[f])
      ensures safe ==> forall f <- groups :: Waits(f) || IsFile(reply, f)
      ensures forall f :: f !in groups && old(Waits(f)) ==> Waits(f)
    {
      hide Once, Storable, OldOrNew, Waits;
      NoAttempts();
      NoneNew(track.failed, FilesOf(reply), now);
      var byMsg := groups;
      safe := true;
      ghost var calls: seq<Attempt> := [];
      assert groups - byMsg.Keys == map[];
      while byMsg != map[]
        invariant processing == old(processing)
        invariant byMsg.Keys <= groups.Keys && forall f <- byMsg :: byMsg[f] == groups[f]
        invariant old(messages) <= messages <= old(messages) + (groups.Keys - byMsg.Keys)
        invariant attempts == old(attempts) + calls && Once(calls, groups - byMsg.Keys)
        invariant OldOrNew(old(track.failed), track.failed, FilesOf(reply), now)
        invariant safe <==> forall f <- groups.Keys - byMsg.Keys :: f !in processing && Storable(w, f, groups[f])
        invariant safe ==> forall f <- groups.Keys - byMsg.Keys :: Waits(f) || IsFile(reply, f)
        invariant forall f :: f !in groups && old(Waits(f)) ==> Waits(f)
        decreases byMsg.Keys
      {
        label before:
        var id :| id in byMsg;
        var records := byMsg[id];
        assert records[0] in records && records[0] in reply;
        var tracked := CollectGroup(id, records, w, now);
        OldOrNewJoin(old(track.failed), old@before(track.failed), track.failed, id, FilesOf(reply), now);
        OnceMore(calls, groups - byMsg.Keys, id, records);
        Regroup(old(attempts), calls, [Attempt(id, records)]);
        calls := calls + [Attempt(id, records)];
        GroupsLeft(groups, byMsg, id);
        safe := safe && tracked;
        byMsg := byMsg - {id};
      }
      assert groups - byMsg.Keys == groups && attempts[|old(attempts)|..] == calls;
    }

    /** One turn of the loop over the new messages. */
    method CollectGroup(id: FileId, records: seq<Record>, w: World, now: int) returns (tracked: bool)
      requires records != [] && id !in messages
      modifies this`messages, this`payloads, this`processing, this`published, this`chunks, this`attempts, track`failed
      ensures processing == old(processing) && attempts == old(attempts) + [Attempt(id, records)]
      ensures old(messages) <= messages <= old(messages) + {id}
      ensures tracked <==> id !in processing && Storable(w, id, records)
      ensures tracked ==> Waits(id) || records[0].persist
      ensures forall f :: f != id && old(Waits(f)) ==> Waits(f)
      ensures OldOrNew(old(track.failed), track.failed, {id}, now)
    {
      hide DecodesTo, Mismatched, HonestFile, FileAtHand;
      var done, _ := CollectAndProcessMessage(id, records, w, now);
      StillWaitOthers(id);
      tracked := done;
    }

    method RetryFile(id: FileId, answers: FileId -> seq<Record>, w: World, now: int)
      requires answers(id) != []
      modifies this`messages, this`payloads, this`processing, this`published, this`chunks, this`attempts, track`failed
      ensures processing == old(processing) && old(messages) <= messages
      ensures attempts == old(attempts) + [Attempt(id, answers(id))]
      ensures forall f :: old(Waits(f)) ==> Waits(f) || (f == id && answers(f)[0].persist)
    {
      hide DecodesTo, Mismatched;
      var _, _ := CollectAndProcessMessage(id, answers(id), w, now);
      StillWaitOthers(id);
    }

    /** One row whose time to live has run out. */
    method DropRow(key: Key, w: World)
      modifies track`failed
      ensures track.failed == old(track.failed) - if w.dropsRetry(key) then {key} else {}
      ensures forall f :: old(Waits(f)) ==> Waits(f) || (w.dropsRetry(key) && f == key.file)
    {
      track.DeleteFailedChunk(key.file, key.index, w.dropsRetry(key));
      StillWaitOthers(key.file);
    }

    /** One turn of the retry loop. */
    method RetryOne(key: Key, row: RetryRow, seenFile: set<FileId>, answers: FileId -> seq<Record>, w: World, now: int)
      returns (seen: set<FileId>)
      modifies this`messages, this`payloads, this`processing, this`published, this`chunks, this`attempts, track`failed
      ensures processing == old(processing) && old(messages) <= messages
      ensures seen == seenFile + if Expired(row, now) then {} else {key.file}
      ensures attempts == old(attempts) + Turn(key, row, seenFile, answers, now)
      ensures forall f :: old(Waits(f)) ==>
                || Waits(f) || (Expired(row, now) && w.dropsRetry(key) && f == key.file)
                || (answers(f) != [] && answers(f)[0].persist)
    {
      hide Waits;
      seen := seenFile;
      if row.created + row.ttl <= now {
        DropRow(key, w);
        return;
      }
      if key.file in seen {
        return;
      }
      seen := seen + {key.file};
      if |answers(key.file)| > 0 {
        RetryFile(key.file, answers, w, now);
      }
    }

    /** Removes exactly the listed rows that ran out, as far as the database lets it, and
        collects each other listed file once. A message that waited is saved or still waits,
        unless one of its rows ran out or the directory says it is a file. */
    method RetryFailedChunks(recipient: Recipient, listable: bool, answers: FileId -> seq<Record>, w: World, now: int)
      returns (dropped: set<Key>)
      modifies this`messages, this`payloads, this`processing, this`published, this`chunks, this`attempts, track`failed
      ensures processing == old(processing) && old(messages) <= messages
      ensures old(attempts) <= attempts
      ensures Once(attempts[|old(attempts)|..],
                   if listable then Answered(Alive(FailedChunks(old(track.failed), recipient), now), answers)
                   else map[])
      ensures dropped == if listable then RunOut(FailedChunks(old(track.failed), recipient), w, now) else {}
      ensures forall f :: old(Waits(f)) ==> Waits(f) || Lost(dropped, answers, f)
    {
      dropped := {};
      NoAttempts();
      assert attempts[|attempts|..] == [];
      hide Once, RunOut, Alive, Answered, Expired, Lost, Waits, Turn;
      if !listable {
        return;
      }
      var listed := FailedChunks(track.failed, recipient);
      ghost var done: map<Key, RetryRow> := map[];
      ghost var calls: seq<Attempt> := [];
      NoRows(answers, w, now);
      var todo := listed.Keys;
      var seenFile: set<FileId> := {};
      while todo != {}
        invariant processing == old(processing) && old(messages) <= messages
        invariant todo <= listed.Keys && attempts == old(attempts) + calls
        invariant done == listed - todo
        invariant seenFile == Alive(done, now) && dropped == RunOut(done, w, now)
        invariant Once(calls, Answered(Alive(done, now), answers))
        invariant forall f :: old(Waits(f)) ==> Waits(f) || Lost(dropped, answers, f)
        decreases todo
      {
        var key :| key in todo;
        RowDone(listed, todo, key);
        todo := todo - {key};
        OneMoreRow(done, key, listed[key], answers, w, now);
        OneMoreTurn(calls, done, key, listed[key], answers, w, now);
        LostMore(dropped, key, answers);
        Regroup(old(attempts), calls, Turn(key, listed[key], seenFile, answers, now));
        calls := calls + Turn(key, listed[key], seenFile, answers, now);
        done := done[key := listed[key]];
        seenFile := RetryOne(key, listed[key], seenFile, answers, w, now);
        if Expired(listed[key], now) && w.dropsRetry(key) {
          dropped := dropped + {key};
        }
      }
      assert done == listed && attempts[|old(attempts)|..] == calls;
    }

    /** A poll and the retry after it. The cursor moves exactly when the reply has a later
        stamp, every new message of it could be tracked and the write works; then every
        message of the reply is saved, waits, or is a file, or a retry row of it had run out
        by the time of the retry. */
    method CheckRecipientMessages(recipient: Recipient, readable: bool, reply: Option<seq<Record>>, listable: bool,
                                  answers: FileId -> seq<Record>, w: World, now: int, later: int)
      returns (dropped: set<Key>)
      modifies this`messages, this`payloads, this`processing, this`published, this`chunks, this`attempts, track
      ensures processing == old(processing) && old(messages) <= messages
      ensures reply.None? ==> messages == old(messages) && track.failed == old(track.failed)
      ensures forall key <- dropped ::
                || (key in old(track.failed) && Expired(old(track.failed)[key], later))
                || (reply.Some? && key.file in FilesOf(reply.value) && later > now)
      ensures forall other <- old(track.lastCheck) :: other != recipient ==>
                other in track.lastCheck && track.lastCheck[other] == old(track.lastCheck)[other]
      ensures reply.None? || !old(CursorMoves(recipient, readable, reply.value, w)) ==>
                track.lastCheck == old(track.lastCheck)
      ensures reply.Some? && old(CursorMoves(recipient, readable, reply.value, w)) ==>
                && track.lastCheck.Keys == old(track.lastCheck).Keys + {recipient}
                && (forall r <- reply.value :: Stamp(r) <= track.lastCheck[recipient])
                && (exists r <- reply.value :: Stamp(r) == track.lastCheck[recipient])
                && (forall r <- reply.value ::
                      Waits(r.file) || IsFile(reply.value, r.file) || Lost(dropped, answers, r.file))
    {
      dropped := {};
      if reply.None? {
        return;
      }
      if |reply.value| > 0 {
        Poll(recipient, readable, reply.value, w, now);
      }
      dropped := RetryFailedChunks(recipient, listable, answers, w, later);
    }

    twostate lemma {:induction false} StillWaitOthers(file: FileId)
      requires old(messages) <= messages && KeepsOthers(old(track.failed), track.failed, file)
      ensures forall f :: f != file && old(Waits(f)) ==> Waits(f)
    {
    }

    twostate lemma {:induction false} StillWaits(f: FileId)
      requires old(Waits(f)) && old(messages) <= messages
      requires forall key: Key :: key.file == f ==> (key in track.failed <==> key in old(track.failed))
      ensures Waits(f)
    {
      if f !in messages {
        var key :| key in old(track.failed) && key.file == f;
        assert key in track.failed;
      }
    }
  }
}

/** The file_downloads table: internal/store/fileDownloadStore.go. Times are Unix
    seconds; None is SQL NULL. */
module DownloadRows {
  import opened Basics

  type FileId = string

  datatype Download = Download(firstSeen: int, expires: int, completed: Option<int>, stopped: Option<int>,
                               cancelled: Option<int>, localPath: string, filename: string, totalChunks: int)
  type Downloads = map<FileId, Download>

  datatype Op = Track(id: FileId, filename: string, totalChunks: int, seen: int, ttl: int)
              | Complete(id: FileId, path: string, at: int)
              | Cancel(id: FileId, at: int)
              | Reset(id: FileId)
              | Stop(id: FileId, at: int)

  /** Whether the operation reports success. */
  predicate Accepts(t: Downloads, op: Op) {
    match op
    case Track(id, _, _, _, ttl) => id != "" && ttl > 0
    case Complete(id, _, _) => id in t && t[id].cancelled.None?
    case Cancel(id, _) => id in t && t[id].completed.None? && t[id].cancelled.None?
    case Reset(_) => true
    case Stop(_, _) => true
  }

  /** The table after the operation. A repeated track updates only the metadata, and
      only when it carries a chunk count. */
  function Do(t: Downloads, op: Op): Downloads {
    if !Accepts(t, op) then t else
    match op
    case Track(id, filename, totalChunks, seen, ttl) =>
      if id !in t then t[id := Download(seen, seen + ttl, None, None, None, "", filename, totalChunks)]
      else if totalChunks > 0 then t[id := t[id].(filename := filename, totalChunks := totalChunks)]
      else t
    case Complete(id, path, at) => t[id := t[id].(completed := Some(at), stopped := None, localPath := path)]
    case Cancel(id, at) => t[id := t[id].(cancelled := Some(at), stopped := Some(at))]
    case Reset(id) => if id in t then t[id := t[id].(completed := None, localPath := "")] else t
    case Stop(id, at) => if id in t && t[id].completed.None? then t[id := t[id].(stopped := Some(at))] else t
  }

  function Run(t: Downloads, ops: seq<Op>): Downloads {
    if ops == [] then t else Do(Run(t, ops[..|ops|-1]), ops[|ops|-1])
  }

  // ---- Invariants of every sequence of operations ----

  predicate RowOk(d: Download) {
    && !(d.completed.Some? && d.cancelled.Some?)
    && (d.cancelled.Some? ==> d.stopped.Some?)
  }

  /** Never both completed and cancelled, and cancelled implies stopped. */
  lemma {:induction false} RowsStayOk(t: Downloads, ops: seq<Op>)
    requires forall id <- t :: RowOk(t[id])
    ensures forall id <- Run(t, ops) :: RowOk(Run(t, ops)[id])
  {
    if ops != [] {
      RowsStayOk(t, ops[..|ops|-1]);
    }
  }

  /** From the first track on, the row stays, its first-seen time and deadline never
      change, and a cancellation is permanent. */
  lemma {:induction false} RowHistory(t: Downloads, ops: seq<Op>, id: FileId)
    requires id in t
    ensures id in Run(t, ops)
    ensures Run(t, ops)[id].firstSeen == t[id].firstSeen && Run(t, ops)[id].expires == t[id].expires
    ensures t[id].cancelled.Some? ==> Run(t, ops)[id].cancelled == t[id].cancelled
    ensures t[id].cancelled.Some? && t[id].completed.None? ==> Run(t, ops)[id].completed.None?
  {
    if ops != [] {
      RowHistory(t, ops[..|ops|-1], id);
    }
  }

  /** The first track of a file writes its first-seen time, a deadline one ttl later, its
      name and total, and no mark; the file is active exactly until that deadline, if it has
      chunks. No other row changes. */
  lemma {:induction false} FirstTrack(t: Downloads, id: FileId, filename: string, totalChunks: int, seen: int, ttl: int)
    requires id != "" && ttl > 0 && id !in t
    ensures var t' := Do(t, Track(id, filename, totalChunks, seen, ttl));
            && t'.Keys == t.Keys + {id} && (forall other <- t :: t'[other] == t[other])
            && t'[id].firstSeen == seen && t'[id].expires == seen + ttl
            && t'[id].filename == filename && t'[id].totalChunks == totalChunks && t'[id].localPath == ""
            && t'[id].completed.None? && t'[id].stopped.None? && t'[id].cancelled.None?
            && forall now :: IsActive(t', id, now) <==> now < seen + ttl && totalChunks > 0
  {
  }

  /** A later track renews neither the deadline nor any mark, and replaces name and total
      only by those of a file with chunks. */
  lemma {:induction false} LaterTrack(t: Downloads, id: FileId, filename: string, totalChunks: int, seen: int, ttl: int)
    requires id in t
    ensures var t' := Do(t, Track(id, filename, totalChunks, seen, ttl));
            && t'.Keys == t.Keys && (forall other <- t :: other != id ==> t'[other] == t[other])
            && t'[id].firstSeen == t[id].firstSeen && t'[id].expires == t[id].expires
            && t'[id].completed == t[id].completed && t'[id].stopped == t[id].stopped
            && t'[id].cancelled == t[id].cancelled && t'[id].localPath == t[id].localPath
            && (id != "" && ttl > 0 && totalChunks > 0 ==>
                  t'[id].filename == filename && t'[id].totalChunks == totalChunks)
            && (totalChunks <= 0 ==> t'[id] == t[id])
  {
  }

  // ---- The store ----

  class Store {
    var rows: Downloads
    var chunks: set<(FileId, int)>  // the keys of the chunks table

    constructor ()
      ensures rows == map[] && chunks == {}
    {
      rows := map[];
      chunks := {};
    }

    method TrackFileDownload(id: FileId, filename: string, totalChunks: int, seen: int, ttl: int)
      returns (state: Option<Download>)
      modifies this`rows
      ensures id == "" || ttl <= 0 ==> rows == old(rows)
      ensures id != "" && ttl > 0 ==>
                rows == old(rows)[id :=
                  if id !in old(rows) then Download(seen, seen + ttl, None, None, None, "", filename, totalChunks)
                  else if totalChunks > 0 then
                    var d := old(rows)[id];
                    Download(d.firstSeen, d.expires, d.completed, d.stopped, d.cancelled, d.localPath, filename,
                             totalChunks)
                  else old(rows)[id]]
      ensures rows == Do(old(rows), Track(id, filename, totalChunks, seen, ttl))
      ensures state.Some? <==> id != "" && ttl > 0
      ensures state.Some? ==> id in rows && state.value == rows[id]
    {
      if id == "" || ttl <= 0 {
        return None;
      }
      if id in rows {
        if totalChunks > 0 {
          rows := rows[id := rows[id].(filename := filename, totalChunks := totalChunks)];
        }
      } else {
        rows := rows[id := Download(seen, seen + ttl, None, None, None, "", filename, totalChunks)];
      }
      state := Some(rows[id]);
    }

    method MarkFileDownloadCompleted(id: FileId, path: string, at: int) returns (ok: bool)
      modifies this`rows
      ensures ok <==> id in old(rows) && old(rows)[id].cancelled.None?
      ensures !ok ==> rows == old(rows)
      ensures ok ==>
                var d := old(rows)[id];
                rows == old(rows)[id := Download(d.firstSeen, d.expires, Some(at), None, None, path, d.filename,
                                                 d.totalChunks)]
      ensures rows == Do(old(rows), Complete(id, path, at))
    {
      ok := id in rows && rows[id].cancelled.None?;
      if ok {
        rows := rows[id := rows[id].(completed := Some(at), stopped := None, localPath := path)];
      }
    }

    method CancelFileDownload(id: FileId, now: int) returns (ok: bool)
      modifies this`rows
      ensures ok <==> id in old(rows) && old(rows)[id].completed.None? && old(rows)[id].cancelled.None?
      ensures !ok ==> rows == old(rows)
      ensures ok ==>
                var d := old(rows)[id];
                rows == old(rows)[id := Download(d.firstSeen, d.expires, None, Some(now), Some(now), d.localPath,
                                                 d.filename, d.totalChunks)]
      ensures rows == Do(old(rows), Cancel(id, now))
    {
      ok := id in rows && rows[id].completed.None? && rows[id].cancelled.None?;
      if ok {
        rows := rows[id := rows[id].(cancelled := Some(now), stopped := Some(now))];
      }
    }

    method ResetFileDownloadCompletion(id: FileId)
      modifies this`rows
      ensures rows.Keys == old(rows).Keys && forall other <- rows :: other != id ==> rows[other] == old(rows)[other]
      ensures id in rows ==>
                var d := old(rows)[id];
                rows[id] == Download(d.firstSeen, d.expires, None, d.stopped, d.cancelled, "", d.filename,
                                     d.totalChunks)
      ensures rows == Do(old(rows), Reset(id))
    {
      if id in rows {
        rows := rows[id := rows[id].(completed := None, localPath := "")];
      }
    }

    method MarkFileDownloadStopped(id: FileId, at: int)
      modifies this`rows
      ensures rows.Keys == old(rows).Keys && forall other <- rows :: other != id ==> rows[other] == old(rows)[other]
      ensures id in rows && old(rows)[id].completed.Some? ==> rows[id] == old(rows)[id]
      ensures id in rows && old(rows)[id].completed.None? ==>
                var d := old(rows)[id];
                rows[id] == Download(d.firstSeen, d.expires, None, Some(at), d.cancelled, d.localPath, d.filename,
                                     d.totalChunks)
      ensures rows == Do(old(rows), Stop(id, at))
    {
      if id in rows && rows[id].completed.None? {
        rows := rows[id := rows[id].(stopped := Some(at))];
      }
    }

    /** One entry per active, unexpired download with a known chunk count, oldest first;
        its received count lies between 0 and the total, and reaches the total exactly
        when every index below it is stored, whatever other chunks exist. */
    method ListActiveFileDownloads(now: int) returns (active: seq<Progress>)
      ensures forall a <- active ::
                && a.id in rows && rows[a.id].completed.None? && rows[a.id].stopped.None? && rows[a.id].cancelled.None?
                && now < rows[a.id].expires && rows[a.id].totalChunks > 0
      ensures forall id <- rows | rows[id].completed.None? && rows[id].stopped.None? && rows[id].cancelled.None?
                                  && now < rows[id].expires && rows[id].totalChunks > 0 ::
                exists a <- active :: a.id == id
      ensures forall i, j :: 0 <= i < j < |active| ==>
                var x, y := active[i].id, active[j].id;
                && x in rows && y in rows
                && (rows[x].firstSeen < rows[y].firstSeen
                    || (rows[x].firstSeen == rows[y].firstSeen && StringLess(x, y)))
      ensures forall a <- active ::
                a.id in rows && a.total == rows[a.id].totalChunks && a.filename == rows[a.id].filename
      ensures forall a <- active :: a.received <= a.total
      ensures forall a <- active :: a.received == a.total <==> forall i :: 0 <= i < a.total ==> (a.id, i) in chunks
    {
      active := [];
      var todo := set id <- rows | IsActive(rows, id, now);
      while todo != {}
        invariant forall id <- todo :: IsActive(rows, id, now)
        invariant forall a <- active :: IsActive(rows, a.id, now) && a == ProgressOf(rows, chunks, a.id)
        invariant forall id :: IsActive(rows, id, now) ==> id in todo || exists a <- active :: a.id == id
        invariant forall i, j :: 0 <= i < j < |active| ==> Before(rows, active[i].id, active[j].id)
        invariant forall a <- active, id <- todo :: Before(rows, a.id, id)
        decreases todo
      {
        FirstExists(rows, todo);
        var id :| id in todo && forall other <- todo :: other == id || Before(rows, id, other);
        active := active + [ProgressOf(rows, chunks, id)];
        todo := todo - {id};
      }
      assert forall id <- rows :: IsActive(rows, id, now) ==> exists a <- active :: a.id == id;
      forall a <- active
        ensures a.received <= a.total
        ensures a.received == a.total <==> forall i :: 0 <= i < a.total ==> (a.id, i) in chunks
      {
        ReceivedCount(chunks, a.id, a.total);
      }
    }
  }

  datatype Progress = Progress(id: FileId, filename: string, total: int, received: int)

  function ProgressOf(rows: Downloads, chunks: set<(FileId, int)>, id: FileId): Progress
    requires id in rows
  {
    Progress(id, rows[id].filename, rows[id].totalChunks, |Received(chunks, id, rows[id].totalChunks)|)
  }

  /** ORDER BY first_seen_at, file_id. */
  predicate Before(rows: Downloads, x: FileId, y: FileId)
    requires x in rows && y in rows
  {
    rows[x].firstSeen < rows[y].firstSeen || (rows[x].firstSeen == rows[y].firstSeen && StringLess(x, y))
  }

  lemma {:induction false} FirstExists(rows: Downloads, ids: set<FileId>)
    requires ids != {} && forall id <- ids :: id in rows
    ensures exists x :: x in ids && forall y <- ids :: y == x || Before(rows, x, y)
  {
    var less := (x, y) => x in rows && y in rows && Before(rows, x, y);
    forall x, y | x in ids && y in ids
      ensures x == y || less(x, y) || less(y, x)
    {
      StringOrder(x, y);
    }
    forall x, y, z | x in ids && y in ids && z in ids && less(x, y) && less(y, z)
      ensures less(x, z)
    {
      if rows[x].firstSeen == rows[z].firstSeen {
        StringTransitive(x, y, z);
      }
    }
    var x := LeastExists(ids, less);
    assert forall y <- ids :: y == x || Before(rows, x, y);
  }

  predicate IsActive(rows: Downloads, id: FileId, now: int) {
    && id in rows
    && rows[id].completed.None? && rows[id].stopped.None? && rows[id].cancelled.None?
    && rows[id].expires > now && rows[id].totalChunks > 0
  }

  // ---- Progress ----

  /** The stored indices in [0, total). */
  function Received(chunks: set<(FileId, int)>, id: FileId, total: int): set<int> {
    set i | 0 <= i < total && (id, i) in chunks
  }

  lemma {:induction false} ReceivedCount(chunks: set<(FileId, int)>, id: FileId, total: int)
    requires total >= 0
    ensures |Received(chunks, id, total)| <= total
    ensures |Received(chunks, id, total)| == total <==> forall i :: 0 <= i < total ==> (id, i) in chunks
  {
    if total == 0 {
      assert Received(chunks, id, 0) == {};
    } else {
      ReceivedCount(chunks, id, total - 1);
      var last := if (id, total - 1) in chunks then {total - 1} else {};
      assert Received(chunks, id, total) == Received(chunks, id, total - 1) + last;
    }
  }

  /** The indices a processor asks other peers for, in order. */
  function Missing(indices: set<int>, total: int): seq<int>
    decreases total
  {
    if total <= 0 then [] else Missing(indices, total - 1) + (if total - 1 in indices then [] else [total - 1])
  }

  /** They are exactly those below the total that are not stored, ascending. */
  lemma {:induction false} MissingMeaning(indices: set<int>, total: int)
    ensures forall i :: i in Missing(indices, total) <==> 0 <= i < total && i !in indices
    ensures forall i, j :: 0 <= i < j < |Missing(indices, total)| ==>
              Missing(indices, total)[i] < Missing(indices, total)[j]
    decreases total
  {
    if total > 0 {
      MissingMeaning(indices, total - 1);
      var before := Missing(indices, total - 1);
      forall i | 0 <= i < |before|
        ensures before[i] < total - 1
      {
        assert before[i] in before;
      }
    }
  }

  // ---- The processor counts differently ----

  /** What one processing pass does with the stored indices of a file. */
  datatype Decision = RequestMissing | Assemble | GiveUpSilently | OutOfRange

  /** The processor compares the number of all stored chunks of the file, in range
      or not, with the total, takes chunk 0, which must unmarshal (`opens`), and then
      looks for each other index. A file advertised without chunks leaves no slot for a
      stored chunk 0. */
  function Decide(indices: set<int>, total: int, opens: bool): Decision {
    if |indices| < total then RequestMissing
    else if 0 !in indices || !opens then GiveUpSilently
    else if total < 1 then OutOfRange
    else if forall i :: 0 <= i < total ==> i in indices then Assemble
    else GiveUpSilently
  }

  /** "Missing chunks are requested" fails exactly when chunks outside the range make
      up for those missing inside it; then the pass decides nothing at all. A complete
      file is assembled exactly when its chunk 0 unmarshals. */
  lemma {:induction false} StallsExactlyWhenJunkHidesAGap(indices: set<int>, total: nat, opens: bool)
    requires total >= 1
    ensures (exists i :: 0 <= i < total && i !in indices) ==>
              (Decide(indices, total, opens) == GiveUpSilently <==>
                 |set i <- indices | !(0 <= i < total)| >= total - |set i <- indices | 0 <= i < total|)
    ensures (forall i :: 0 <= i < total ==> i in indices) ==>
              Decide(indices, total, opens) == if opens then Assemble else GiveUpSilently
    ensures (forall i <- indices :: 0 <= i < total) && opens ==> Decide(indices, total, opens) != GiveUpSilently
  {
    var inside := set i <- indices | 0 <= i < total;
    var outside := set i <- indices | !(0 <= i < total);
    assert indices == inside + outside;
    InsideCount(indices, total);
    if forall i <- indices :: 0 <= i < total {
      assert outside == {};
    }
  }

  lemma {:induction false} InsideCount(indices: set<int>, total: nat)
    ensures |set i <- indices | 0 <= i < total| <= total
    ensures |set i <- indices | 0 <= i < total| == total <==> forall i :: 0 <= i < total ==> i in indices
  {
    var keys := set i <- indices :: ("", i);
    assert (set i <- indices | 0 <= i < total) == Received(keys, "", total);
    ReceivedCount(keys, "", total);
    assert forall i :: ("", i) in keys <==> i in indices;
  }

  /** Such a file exists: one chunk of two missing, and a stray third one stored. */
  lemma {:induction false} JunkStallExists()
    ensures Decide({0, 7}, 2, true) == GiveUpSilently
  {
    var stored: set<int> := {0, 7};
    assert |stored| == 2;
    assert !(0 <= 1 < 2 ==> 1 in stored);
  }

  /** A pass indexes past its slots exactly for a file advertised without chunks of
      which a chunk 0 is stored that unmarshals. */
  lemma {:induction false} OutOfRangeExactly(indices: set<int>, total: int, opens: bool)
    ensures Decide(indices, total, opens) == OutOfRange <==> total < 1 && 0 in indices && opens
  {
    if 0 in indices {
      assert indices == {0} + (indices - {0});
      assert |indices| >= 1;
    }
  }
}

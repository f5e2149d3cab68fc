/** One distribution pass over the unplaced chunks of all recipients and the storage peers
    selected for each: internal/messenger/chunk_delivery.go. */
module Distribution {
  import opened Basics
  import opened Pieces
  import opened Outbox

  const CHUNK_DELIVERY_BATCH_SIZE: nat := 16

  type PeerId = string

  datatype Peer = Peer(id: PeerId, key: string, isFake: bool)
  /** The directory was asked to list the parts of a file at a peer. */
  datatype Registration = Registration(peer: PeerId, parts: seq<PendingChunk>, ok: bool)
  /** A peer was connected to, or not. */
  datatype Attempt = Attempt(peer: PeerId, ok: bool)
  /** A batch was sent to a peer, and acknowledged or not. */
  datatype Delivery = Delivery(peer: PeerId, batch: seq<PendingChunk>, acked: bool)

  /** The world of a pass: the clock, the directory, the peers, and the placed marks of the
      store, with everything that was asked of them. Time passes in every call. */
  class Link {
    var now: int
    var placed: set<Key>
    ghost var registered: seq<Registration>
    ghost var sent: seq<Delivery>
    ghost var tried: seq<Attempt>

    method ReadClock() returns (t: int)
      modifies this`now
      ensures t == now >= old(now)
    {
      var elapsed :| elapsed >= 0;
      now := now + elapsed;
      t := now;
    }

    /** IsPeerConnected, or else ConnectPeer and the wait for the connection. */
    method Reach(peer: PeerId) returns (ok: bool)
      modifies this`now, this`tried
      ensures now >= old(now)
      ensures tried == old(tried) + [Attempt(peer, ok)]
    {
      var elapsed :| elapsed >= 0;
      now := now + elapsed;
      ok := *;
      tried := tried + [Attempt(peer, ok)];
    }

    /** Advertising a file's chunks may fail. */
    method RegisterChunkLocation(peer: PeerId, parts: seq<PendingChunk>) returns (ok: bool)
      modifies this`now, this`registered
      ensures now >= old(now)
      ensures registered == old(registered) + [Registration(peer, parts, ok)]
    {
      var elapsed :| elapsed >= 0;
      now := now + elapsed;
      ok := *;
      registered := registered + [Registration(peer, parts, ok)];
    }

    /** The peer may refuse, or never answer. */
    method SendChunkStoreBatchConfirmed(peer: PeerId, batch: seq<PendingChunk>) returns (acked: bool)
      modifies this`now, this`sent
      ensures now >= old(now)
      ensures sent == old(sent) + [Delivery(peer, batch, acked)]
    {
      var elapsed :| elapsed >= 0;
      now := now + elapsed;
      acked := *;
      sent := sent + [Delivery(peer, batch, acked)];
    }

    method MarkChunkPlaced(key: Key)
      modifies this`placed
      ensures placed == old(placed) + {key}
    {
      placed := placed + {key};
    }
  }

  // ---- Expiry ----

  predicate Alive(c: PendingChunk, now: int) {
    RemainingTTL(c.row.created, c.row.ttl, now) > 0
  }

  lemma {:induction false} AliveEarlier(c: PendingChunk, early: int, late: int)
    requires early <= late && Alive(c, late)
    ensures Alive(c, early)
  {
    RetryIffNotExpired(c.row.created, c.row.ttl, early);
    RetryIffNotExpired(c.row.created, c.row.ttl, late);
  }

  /** The chunks still alive at their own clock readings, in order. */
  function Unexpired(parts: seq<PendingChunk>, times: seq<int>): seq<PendingChunk>
    requires |parts| == |times|
  {
    if parts == [] then [] else
      var n := |parts| - 1;
      Unexpired(parts[..n], times[..n]) + (if Alive(parts[n], times[n]) then [parts[n]] else [])
  }

  lemma {:induction false} UnexpiredConcat(a: seq<PendingChunk>, ta: seq<int>, b: seq<PendingChunk>, tb: seq<int>)
    requires |a| == |ta| && |b| == |tb|
    ensures Unexpired(a + b, ta + tb) == Unexpired(a, ta) + Unexpired(b, tb)
  {
    if b == [] {
      assert a + b == a && ta + tb == ta;
    } else {
      var n := |b| - 1;
      assert (a + b)[..|a + b| - 1] == a + b[..n] && (ta + tb)[..|a + b| - 1] == ta + tb[..n];
      UnexpiredConcat(a, ta, b[..n], tb[..n]);
    }
  }

  predicate DistinctKeys(chunks: seq<PendingChunk>) {
    forall i, j :: 0 <= i < j < |chunks| ==> chunks[i].key != chunks[j].key
  }

  lemma {:induction false} LastIsDistinct(chunks: seq<PendingChunk>)
    requires chunks != []
    ensures DistinctKeys(chunks) ==>
              DistinctKeys(chunks[..|chunks|-1]) && forall c <- chunks[..|chunks|-1] :: c.key != chunks[|chunks|-1].key
  {
  }

  /** Readings taken in order, none before `from` or after `to`. */
  predicate Readings(times: seq<int>, from: int, to: int) {
    forall i :: 0 <= i < |times| ==> from <= times[i] <= to
  }

  /** What survives the check: chunks alive at the end surely, chunks expired at the
      start surely not, and never a chunk twice. */
  lemma {:induction false} UnexpiredMeaning(parts: seq<PendingChunk>, times: seq<int>, from: int, to: int)
    requires |parts| == |times| && Readings(times, from, to)
    ensures |Unexpired(parts, times)| <= |parts|
    ensures forall c <- parts :: Alive(c, to) ==> c in Unexpired(parts, times)
    ensures forall c <- Unexpired(parts, times) :: c in parts && Alive(c, from)
    ensures DistinctKeys(parts) ==> DistinctKeys(Unexpired(parts, times))
  {
    if parts != [] {
      var n := |parts| - 1;
      UnexpiredMeaning(parts[..n], times[..n], from, to);
      LastIsDistinct(parts);
      assert parts == parts[..n] + [parts[n]];
      if Alive(parts[n], times[n]) { AliveEarlier(parts[n], from, times[n]); }
      if Alive(parts[n], to) { AliveEarlier(parts[n], times[n], to); }
    }
  }

  // ---- What a pass must have done ----

  /** Everything sent, in order. */
  function Flat(log: seq<Delivery>): seq<PendingChunk> {
    if log == [] then [] else Flat(log[..|log|-1]) + log[|log|-1].batch
  }

  /** The keys of the acknowledged batches. */
  function Marked(log: seq<Delivery>): set<Key> {
    set d, c | d in log && d.acked && c in d.batch :: c.key
  }

  /** The chunks whose listing at the peer the directory refused. */
  function Refused(regs: seq<Registration>, peer: PeerId): set<PendingChunk> {
    set r, c | r in regs && r.peer == peer && !r.ok && c in r.parts :: c
  }

  /** The chunks the directory was asked to list at the peer. */
  function Offered(regs: seq<Registration>, peer: PeerId): set<PendingChunk> {
    set r, c | r in regs && r.peer == peer && c in r.parts :: c
  }

  /** A batch of one recipient and one file, neither empty nor above the limit. */
  predicate GoodBatch(batch: seq<PendingChunk>) {
    && 0 < |batch| <= CHUNK_DELIVERY_BATCH_SIZE
    && forall c <- batch :: c.key.fileId == batch[0].key.fileId && c.row.recipientId == batch[0].row.recipientId
  }

  /** The chunks `done` have been dealt with between `from` and `to`: those alive at the
      end and not refused were sent, nothing else was, and nothing twice. */
  ghost predicate Pass(done: set<PendingChunk>, regs: seq<Registration>, log: seq<Delivery>, peer: PeerId,
                       from: int, to: int) {
    && DistinctKeys(Flat(log)) && Refused(regs, peer) <= done
    && (forall c <- done :: Alive(c, to) && c !in Refused(regs, peer) ==> c in Flat(log))
    && (forall c <- Flat(log) :: c in done && Alive(c, from) && c !in Refused(regs, peer))
    && (forall d <- log :: d.peer == peer && GoodBatch(d.batch))
  }

  lemma {:induction false} FlatConcat(a: seq<Delivery>, b: seq<Delivery>)
    ensures Flat(a + b) == Flat(a) + Flat(b)
  {
    if b == [] {
      assert a + b == a;
    } else {
      assert (a + b)[..|a + b| - 1] == a + b[..|b|-1];
      FlatConcat(a, b[..|b|-1]);
    }
  }

  lemma {:induction false} MarkedConcat(a: seq<Delivery>, b: seq<Delivery>)
    ensures Marked(a + b) == Marked(a) + Marked(b)
  {
  }

  lemma {:induction false} RefusedConcat(a: seq<Registration>, b: seq<Registration>, peer: PeerId)
    ensures Refused(a + b, peer) == Refused(a, peer) + Refused(b, peer)
    ensures Offered(a + b, peer) == Offered(a, peer) + Offered(b, peer)
  {
  }

  predicate KeysApart(a: set<PendingChunk>, b: set<PendingChunk>) {
    forall x <- a, y <- b :: x.key != y.key
  }

  /** Two passes over chunks with different keys make one pass over both. */
  lemma {:induction false} PassJoin(done1: set<PendingChunk>, regs1: seq<Registration>, log1: seq<Delivery>,
                                    done2: set<PendingChunk>, regs2: seq<Registration>, log2: seq<Delivery>,
                                    peer: PeerId, from: int, mid1: int, mid2: int, to: int)
    requires from <= mid1 <= mid2 <= to && KeysApart(done1, done2)
    requires Pass(done1, regs1, log1, peer, from, mid1) && Pass(done2, regs2, log2, peer, mid2, to)
    ensures Pass(done1 + done2, regs1 + regs2, log1 + log2, peer, from, to)
  {
    FlatConcat(log1, log2);
    RefusedConcat(regs1, regs2, peer);
    hide Flat, Refused, Alive, GoodBatch;
    forall c <- done1 | Alive(c, to)
      ensures Alive(c, mid1)
    {
      AliveEarlier(c, mid1, to);
    }
    forall c <- Flat(log2)
      ensures Alive(c, from)
    {
      AliveEarlier(c, from, mid2);
    }
    DistinctJoin(Flat(log1), Flat(log2));
  }

  lemma {:induction false} DistinctJoin(a: seq<PendingChunk>, b: seq<PendingChunk>)
    requires DistinctKeys(a) && DistinctKeys(b) && forall x <- a, y <- b :: x.key != y.key
    ensures DistinctKeys(a + b)
  {
    forall i, j | 0 <= i < j < |a + b|
      ensures (a + b)[i].key != (a + b)[j].key
    {
      if i < |a| <= j {
        assert a[i] in a && b[j - |a|] in b;
      }
    }
  }

  // ---- One file at one peer ----

  predicate OneFile(parts: seq<PendingChunk>) {
    forall c <- parts :: c.key.fileId == parts[0].key.fileId && c.row.recipientId == parts[0].row.recipientId
  }

  /** The inner loop over one slice. */
  method KeepUnexpired(link: Link, slice: seq<PendingChunk>) returns (batch: seq<PendingChunk>, ghost times: seq<int>)
    modifies link`now
    ensures link.now >= old(link.now)
    ensures |times| == |slice| && Readings(times, old(link.now), link.now)
    ensures batch == Unexpired(slice, times)
  {
    hide RemainingTTL;
    batch, times := [], [];
    var i := 0;
    while i < |slice|
      invariant 0 <= i <= |slice|
      invariant link.now >= old(link.now)
      invariant |times| == i && Readings(times, old(link.now), link.now)
      invariant batch == Unexpired(slice[..i], times)
    {
      var now := link.ReadClock();
      var ttl := RemainingTTL(slice[i].row.created, slice[i].row.ttl, now);
      assert slice[..i+1][..i] == slice[..i] && (times + [now])[..i] == times;
      times := times + [now];
      if ttl > 0 {
        batch := batch + [slice[i]];
      }
      i := i + 1;
    }
    assert slice[..i] == slice;
  }

  method MarkBatch(link: Link, batch: seq<PendingChunk>)
    modifies link`placed
    ensures link.placed == old(link.placed) + set c <- batch :: c.key
  {
    var i := 0;
    while i < |batch|
      invariant 0 <= i <= |batch|
      invariant link.placed == old(link.placed) + set c <- batch[..i] :: c.key
    {
      assert batch[..i+1] == batch[..i] + [batch[i]];
      link.MarkChunkPlaced(batch[i].key);
      i := i + 1;
    }
    assert batch[..i] == batch;
  }

  /** Cuts one file's chunks at multiples of the batch size, drops from each slice what
      has expired, sends what remains, and marks exactly the acknowledged. */
  method SendFile(link: Link, peer: PeerId, parts: seq<PendingChunk>)
    returns (ghost log: seq<Delivery>, ghost times: seq<int>)
    requires OneFile(parts)
    modifies link`now, link`sent, link`placed
    ensures link.now >= old(link.now)
    ensures |times| == |parts| && Readings(times, old(link.now), link.now)
    ensures link.sent == old(link.sent) + log && Flat(log) == Unexpired(parts, times)
    ensures forall d <- log :: d.peer == peer && GoodBatch(d.batch)
    ensures link.placed == old(link.placed) + Marked(log)
  {
    hide GoodBatch, OneFile, Alive, Flat, Marked, Unexpired;
    log, times := [], [];
    NothingSent();
    var start := 0;
    while start < |parts|
      invariant 0 <= start
      invariant link.now >= old(link.now)
      invariant |times| == Min(start, |parts|) && Readings(times, old(link.now), link.now)
      invariant link.sent == old(link.sent) + log && Flat(log) == Unexpired(parts[..Min(start, |parts|)], times)
      invariant forall d <- log :: d.peer == peer && GoodBatch(d.batch)
      invariant link.placed == old(link.placed) + Marked(log)
      decreases |parts| - start
    {
      var end := Min(start + CHUNK_DELIVERY_BATCH_SIZE, |parts|);
      ghost var from := link.now;
      var batch, sliceTimes := KeepUnexpired(link, parts[start..end]);
      SliceDone(parts, start, end, times, sliceTimes, from, link.now);
      times := times + sliceTimes;
      start := start + CHUNK_DELIVERY_BATCH_SIZE;
      if |batch| == 0 {
        continue;
      }
      var acked := link.SendChunkStoreBatchConfirmed(peer, batch);
      DeliveredLast(log, Delivery(peer, batch, acked));
      log := log + [Delivery(peer, batch, acked)];
      if !acked {
        continue;
      }
      MarkBatch(link, batch);
    }
    assert parts[..|parts|] == parts;
  }

  lemma {:induction false} NothingSent()
    ensures Flat([]) == [] && Marked([]) == {} && Unexpired([], []) == []
  {
  }

  lemma {:induction false} DeliveredLast(log: seq<Delivery>, d: Delivery)
    ensures Flat(log + [d]) == Flat(log) + d.batch
    ensures Marked(log + [d]) == Marked(log) + if d.acked then set c <- d.batch :: c.key else {}
  {
    assert (log + [d])[..|log|] == log;
  }

  lemma {:induction false} SliceDone(parts: seq<PendingChunk>, start: nat, end: nat, times: seq<int>,
                                     sliceTimes: seq<int>, from: int, to: int)
    requires start <= end <= |parts| && end - start <= CHUNK_DELIVERY_BATCH_SIZE && OneFile(parts)
    requires |times| == start && |sliceTimes| == end - start && Readings(sliceTimes, from, to)
    ensures Unexpired(parts[..end], times + sliceTimes) ==
            Unexpired(parts[..start], times) + Unexpired(parts[start..end], sliceTimes)
    ensures Unexpired(parts[start..end], sliceTimes) != [] ==> GoodBatch(Unexpired(parts[start..end], sliceTimes))
  {
    hide Alive, OneFile, GoodBatch, Readings;
    UnexpiredConcat(parts[..start], times, parts[start..end], sliceTimes);
    assert parts[..start] + parts[start..end] == parts[..end];
    SliceGood(parts, start, end, sliceTimes, from, to);
  }

  lemma {:induction false} SliceGood(parts: seq<PendingChunk>, start: nat, end: nat, sliceTimes: seq<int>, from: int,
                                     to: int)
    requires start <= end <= |parts| && end - start <= CHUNK_DELIVERY_BATCH_SIZE && OneFile(parts)
    requires |sliceTimes| == end - start && Readings(sliceTimes, from, to)
    ensures Unexpired(parts[start..end], sliceTimes) != [] ==> GoodBatch(Unexpired(parts[start..end], sliceTimes))
  {
    UnexpiredMeaning(parts[start..end], sliceTimes, from, to);
    hide Alive, Unexpired;
    assert forall c <- parts[start..end] :: c in parts;
    var batch := Unexpired(parts[start..end], sliceTimes);
    if batch != [] { assert batch[0] in batch; }
  }

  function SetOf(chunks: seq<PendingChunk>): set<PendingChunk> {
    set c <- chunks :: c
  }

  /** One file at one peer: listed there, or left for the next pass. */
  method DeliverFile(link: Link, peer: PeerId, parts: seq<PendingChunk>)
    returns (ghost regs: seq<Registration>, ghost log: seq<Delivery>)
    requires OneFile(parts) && DistinctKeys(parts)
    modifies link`now, link`registered, link`sent, link`placed
    ensures link.now >= old(link.now)
    ensures link.registered == old(link.registered) + regs && link.sent == old(link.sent) + log
    ensures Pass(SetOf(parts), regs, log, peer, old(link.now), link.now)
    ensures forall r <- regs :: r.peer == peer
    ensures link.placed == old(link.placed) + Marked(log)
  {
    var registered := link.RegisterChunkLocation(peer, parts);
    regs := [Registration(peer, parts, registered)];
    if !registered {
      log := [];
      return;
    }
    ghost var mid := link.now;
    ghost var times;
    log, times := SendFile(link, peer, parts);
    FilePass(peer, parts, log, times, old(link.now), mid, link.now);
  }

  lemma {:induction false} FilePass(peer: PeerId, parts: seq<PendingChunk>, log: seq<Delivery>, times: seq<int>,
                                    from: int, mid: int, to: int)
    requires from <= mid <= to && DistinctKeys(parts) && |times| == |parts| && Readings(times, mid, to)
    requires Flat(log) == Unexpired(parts, times) && forall d <- log :: d.peer == peer && GoodBatch(d.batch)
    ensures Pass(SetOf(parts), [Registration(peer, parts, true)], log, peer, from, to)
  {
    UnexpiredMeaning(parts, times, mid, to);
    hide Alive, Unexpired, GoodBatch;
    forall c <- Flat(log)
      ensures Alive(c, from)
    {
      AliveEarlier(c, from, mid);
    }
  }

  // ---- Grouping ----

  datatype By = ByFile | ByRecipient

  function GroupKey(by_: By, c: PendingChunk): string {
    if by_.ByFile? then c.key.fileId else c.row.recipientId
  }

  /** The chunks of one group, in their original order. */
  function Part(by_: By, chunks: seq<PendingChunk>, k: string): seq<PendingChunk> {
    if chunks == [] then [] else
      var n := |chunks| - 1;
      Part(by_, chunks[..n], k) + (if GroupKey(by_, chunks[n]) == k then [chunks[n]] else [])
  }

  lemma {:induction false} PartMeaning(by_: By, chunks: seq<PendingChunk>, k: string)
    ensures forall c :: c in Part(by_, chunks, k) <==> c in chunks && GroupKey(by_, c) == k
    ensures DistinctKeys(chunks) ==> DistinctKeys(Part(by_, chunks, k))
  {
    if chunks != [] {
      var n := |chunks| - 1;
      PartMeaning(by_, chunks[..n], k);
      LastIsDistinct(chunks);
      assert chunks == chunks[..n] + [chunks[n]];
    }
  }

  function Appended(by_: By, groups: map<string, seq<PendingChunk>>, c: PendingChunk): map<string, seq<PendingChunk>> {
    var k := GroupKey(by_, c);
    groups[k := (if k in groups then groups[k] else []) + [c]]
  }

  function KeysOf(by_: By, chunks: seq<PendingChunk>): set<string> {
    set c <- chunks :: GroupKey(by_, c)
  }

  ghost predicate Groups(by_: By, groups: map<string, seq<PendingChunk>>, chunks: seq<PendingChunk>) {
    && groups.Keys == KeysOf(by_, chunks)
    && forall k :: (if k in groups then groups[k] else []) == Part(by_, chunks, k)
  }

  lemma {:induction false} PartAppend(by_: By, chunks: seq<PendingChunk>, c: PendingChunk, k: string)
    ensures Part(by_, chunks + [c], k) == Part(by_, chunks, k) + if GroupKey(by_, c) == k then [c] else []
  {
    assert (chunks + [c])[..|chunks|] == chunks;
  }

  lemma {:induction false} GroupStep(by_: By, groups: map<string, seq<PendingChunk>>, chunks: seq<PendingChunk>,
                                     c: PendingChunk)
    requires Groups(by_, groups, chunks)
    ensures Groups(by_, Appended(by_, groups, c), chunks + [c])
  {
    hide Part, KeysOf;
    var groups' := Appended(by_, groups, c);
    forall k
      ensures (if k in groups' then groups'[k] else []) == Part(by_, chunks + [c], k)
    {
      PartAppend(by_, chunks, c, k);
    }
    KeysAppend(by_, chunks, c);
  }

  lemma {:induction false} KeysAppend(by_: By, chunks: seq<PendingChunk>, c: PendingChunk)
    ensures KeysOf(by_, chunks + [c]) == KeysOf(by_, chunks) + {GroupKey(by_, c)}
  {
    assert forall x :: x in chunks + [c] <==> x in chunks || x == c;
  }

  /** byFile: every file's chunks in their original order. */
  method GroupByFile(chunks: seq<PendingChunk>) returns (byFile: map<string, seq<PendingChunk>>)
    ensures byFile.Keys == KeysOf(ByFile, chunks)
    ensures forall f <- byFile :: byFile[f] == Part(ByFile, chunks, f)
  {
    hide Part, Appended;
    NoGroups(ByFile);
    byFile := map[];
    var i := 0;
    while i < |chunks|
      invariant 0 <= i <= |chunks|
      invariant Groups(ByFile, byFile, chunks[..i])
    {
      GroupStep(ByFile, byFile, chunks[..i], chunks[i]);
      assert chunks[..i] + [chunks[i]] == chunks[..i+1];
      byFile := Appended(ByFile, byFile, chunks[i]);
      i := i + 1;
    }
    assert chunks[..i] == chunks;
  }

  /** byRecipient: the unexpired chunks of every recipient in their original order. */
  method GroupByRecipient(link: Link, chunks: seq<PendingChunk>)
    returns (byRecipient: map<string, seq<PendingChunk>>, ghost times: seq<int>)
    modifies link`now
    ensures link.now >= old(link.now)
    ensures |times| == |chunks| && Readings(times, old(link.now), link.now)
    ensures Groups(ByRecipient, byRecipient, Unexpired(chunks, times))
  {
    hide RemainingTTL, Groups;
    byRecipient, times := map[], [];
    NoGroups(ByRecipient);
    var i := 0;
    while i < |chunks|
      invariant 0 <= i <= |chunks|
      invariant link.now >= old(link.now)
      invariant |times| == i && Readings(times, old(link.now), link.now)
      invariant Groups(ByRecipient, byRecipient, Unexpired(chunks[..i], times))
    {
      var now := link.ReadClock();
      var ttl := RemainingTTL(chunks[i].row.created, chunks[i].row.ttl, now);
      assert chunks[..i+1][..i] == chunks[..i] && (times + [now])[..i] == times;
      if ttl > 0 {
        GroupStep(ByRecipient, byRecipient, Unexpired(chunks[..i], times), chunks[i]);
        byRecipient := Appended(ByRecipient, byRecipient, chunks[i]);
      } else {
        assert Unexpired(chunks[..i+1], times + [now]) == Unexpired(chunks[..i], times);
      }
      times := times + [now];
      i := i + 1;
    }
    assert chunks[..i] == chunks;
  }

  lemma {:induction false} NoGroups(by_: By)
    ensures Groups(by_, map[], [])
  {
  }

  // ---- One recipient ----

  /** The chunks of the groups that are not left to do. */
  ghost function DoneOf(by_: By, chunks: seq<PendingChunk>, todo: set<string>): set<PendingChunk> {
    set c <- chunks | GroupKey(by_, c) !in todo
  }

  lemma {:induction false} DoneStep(by_: By, chunks: seq<PendingChunk>, todo: set<string>, k: string)
    requires DistinctKeys(chunks) && k in todo
    ensures DoneOf(by_, chunks, todo - {k}) == DoneOf(by_, chunks, todo) + SetOf(Part(by_, chunks, k))
    ensures KeysApart(DoneOf(by_, chunks, todo), SetOf(Part(by_, chunks, k)))
  {
    PartMeaning(by_, chunks, k);
    forall x <- DoneOf(by_, chunks, todo), y <- Part(by_, chunks, k)
      ensures x.key != y.key
    {
      var i :| 0 <= i < |chunks| && chunks[i] == x;
      var j :| 0 <= j < |chunks| && chunks[j] == y;
      assert i != j;
    }
  }

  /** Advertises every file of the recipient at this device, whatever the directory says. */
  method AdvertiseOwn(link: Link, me: PeerId, byFile: map<string, seq<PendingChunk>>, ghost chunks: seq<PendingChunk>)
    returns (ghost regs: seq<Registration>)
    requires byFile.Keys == KeysOf(ByFile, chunks)
    requires forall f <- byFile :: byFile[f] == Part(ByFile, chunks, f)
    modifies link`now, link`registered
    ensures link.now >= old(link.now) && link.registered == old(link.registered) + regs
    ensures forall r <- regs :: r.peer == me
    ensures SetOf(chunks) <= Offered(regs, me)
  {
    regs := [];
    var todo := byFile.Keys;
    while todo != {}
      invariant todo <= byFile.Keys && link.now >= old(link.now) && link.registered == old(link.registered) + regs
      invariant forall r <- regs :: r.peer == me
      invariant DoneOf(ByFile, chunks, todo) <= Offered(regs, me)
      decreases todo
    {
      var f :| f in todo;
      var ok := link.RegisterChunkLocation(me, byFile[f]);
      PartMeaning(ByFile, chunks, f);
      RefusedConcat(regs, [Registration(me, byFile[f], ok)], me);
      assert forall c <- Part(ByFile, chunks, f) :: c in Offered([Registration(me, byFile[f], ok)], me);
      regs := regs + [Registration(me, byFile[f], ok)];
      todo := todo - {f};
    }
  }

  method DeliverFiles(link: Link, peer: PeerId, byFile: map<string, seq<PendingChunk>>, ghost chunks: seq<PendingChunk>,
                      ghost recipient: string)
    returns (ghost regs: seq<Registration>, ghost log: seq<Delivery>)
    requires byFile.Keys == KeysOf(ByFile, chunks)
    requires forall f <- byFile :: byFile[f] == Part(ByFile, chunks, f)
    requires DistinctKeys(chunks) && forall c <- chunks :: c.row.recipientId == recipient
    modifies link`now, link`registered, link`sent, link`placed
    ensures link.now >= old(link.now)
    ensures link.registered == old(link.registered) + regs && link.sent == old(link.sent) + log
    ensures Pass(SetOf(chunks), regs, log, peer, old(link.now), link.now)
    ensures forall r <- regs :: r.peer == peer
    ensures link.placed == old(link.placed) + Marked(log)
  {
    hide Pass, Alive, Part, Flat, Marked, DoneOf, SetOf, OneFile, KeysApart, DistinctKeys;
    regs, log := [], [];
    var todo := byFile.Keys;
    NothingSent();
    Boundaries(ByFile, chunks, todo);
    NoPass(peer, link.now, link.now);
    while todo != {}
      invariant todo <= byFile.Keys && link.now >= old(link.now)
      invariant link.registered == old(link.registered) + regs && link.sent == old(link.sent) + log
      invariant Pass(DoneOf(ByFile, chunks, todo), regs, log, peer, old(link.now), link.now)
      invariant forall r <- regs :: r.peer == peer
      invariant link.placed == old(link.placed) + Marked(log)
      decreases todo
    {
      var f :| f in todo;
      ghost var mid := link.now;
      PartMeaning(ByFile, chunks, f);
      DoneStep(ByFile, chunks, todo, f);
      OneFilePart(chunks, f, recipient);
      ghost var regs', log' := DeliverFile(link, peer, byFile[f]);
      PassJoin(DoneOf(ByFile, chunks, todo), regs, log, SetOf(byFile[f]), regs', log', peer, old(link.now), mid, mid,
               link.now);
      MarkedConcat(log, log');
      regs, log := regs + regs', log + log';
      todo := todo - {f};
    }
  }

  lemma {:induction false} Boundaries(by_: By, chunks: seq<PendingChunk>, keys: set<string>)
    requires keys == KeysOf(by_, chunks)
    ensures DoneOf(by_, chunks, keys) == {} && DoneOf(by_, chunks, {}) == SetOf(chunks)
  {
  }

  lemma {:induction false} NoPass(peer: PeerId, from: int, to: int)
    ensures Pass({}, [], [], peer, from, to)
  {
  }

  lemma {:induction false} OneFilePart(chunks: seq<PendingChunk>, f: string, recipient: string)
    requires forall c <- chunks :: c.row.recipientId == recipient
    ensures OneFile(Part(ByFile, chunks, f))
  {
    PartMeaning(ByFile, chunks, f);
    var parts := Part(ByFile, chunks, f);
    if parts != [] { assert parts[0] in parts; }
  }

  /** The loop passes over this device, fake peers, and the recipient itself. */
  predicate Skipped(me: PeerId, peer: Peer, recipient: string) {
    peer.id == me || peer.isFake || peer.key == recipient
  }

  /** What one turn of the loop over the selected peers did. */
  datatype Visit = Visit(tried: seq<Attempt>, regs: seq<Registration>, log: seq<Delivery>)

  predicate Reached(v: Visit) {
    v.tried != [] && v.tried[0].ok
  }

  /** A skipped peer is left alone, any other is connected to once, and one that is reached
      gets a pass over all the chunks. */
  ghost predicate VisitOk(v: Visit, me: PeerId, peer: Peer, recipient: string, chunks: set<PendingChunk>,
                          from: int, to: int) {
    if Skipped(me, peer, recipient) then v == Visit([], [], [])
    else
      && |v.tried| == 1 && v.tried[0].peer == peer.id
      && if Reached(v) then Pass(chunks, v.regs, v.log, peer.id, from, to) else v.regs == [] && v.log == []
  }

  method VisitPeer(link: Link, me: PeerId, peer: Peer, recipient: string, byFile: map<string, seq<PendingChunk>>,
                   ghost chunks: seq<PendingChunk>)
    returns (ghost v: Visit)
    requires byFile.Keys == KeysOf(ByFile, chunks)
    requires forall f <- byFile :: byFile[f] == Part(ByFile, chunks, f)
    requires DistinctKeys(chunks) && forall c <- chunks :: c.row.recipientId == recipient
    modifies link
    ensures link.now >= old(link.now) && link.tried == old(link.tried) + v.tried
    ensures link.registered == old(link.registered) + v.regs && link.sent == old(link.sent) + v.log
    ensures link.placed == old(link.placed) + Marked(v.log)
    ensures peer.id == me || peer.isFake || peer.key == recipient ==> v == Visit([], [], [])
    ensures !(peer.id == me || peer.isFake || peer.key == recipient) ==>
              exists ok :: v.tried == [Attempt(peer.id, ok)] && (!ok ==> v.regs == [] && v.log == [])
    ensures VisitOk(v, me, peer, recipient, SetOf(chunks), old(link.now), link.now)
  {
    hide Pass, KeysOf, Part, SetOf, DistinctKeys, Flat;
    v := Visit([], [], []);
    if peer.id == me || peer.isFake || peer.key == recipient {
      return;
    }
    var ok := link.Reach(peer.id);
    v := Visit([Attempt(peer.id, ok)], [], []);
    assert v.tried == [Attempt(peer.id, ok)];
    if !ok {
      return;
    }
    ghost var mid := link.now;
    ghost var regs, log := DeliverFiles(link, peer.id, byFile, chunks, recipient);
    PassWidens(SetOf(chunks), regs, log, peer.id, mid, link.now, old(link.now), link.now);
    v := Visit(v.tried, regs, log);
  }

  /** A pass between two moments is one between an earlier and a later moment. */
  lemma {:induction false} PassWidens(done: set<PendingChunk>, regs: seq<Registration>, log: seq<Delivery>,
                                      peer: PeerId, from: int, to: int, from': int, to': int)
    requires Pass(done, regs, log, peer, from, to) && from' <= from && to <= to'
    ensures Pass(done, regs, log, peer, from', to')
  {
    hide Alive, GoodBatch, Flat, Refused;
    forall c: PendingChunk
      ensures Alive(c, from) ==> Alive(c, from')
      ensures Alive(c, to') ==> Alive(c, to)
    {
      if Alive(c, from) { AliveEarlier(c, from', from); }
      if Alive(c, to') { AliveEarlier(c, to, to'); }
    }
  }

  lemma {:induction false} VisitWidens(v: Visit, me: PeerId, peer: Peer, recipient: string, chunks: set<PendingChunk>,
                                       from: int, to: int, from': int, to': int)
    requires VisitOk(v, me, peer, recipient, chunks, from, to) && from' <= from && to <= to'
    ensures VisitOk(v, me, peer, recipient, chunks, from', to')
  {
    hide Pass;
    if !Skipped(me, peer, recipient) && Reached(v) {
      PassWidens(chunks, v.regs, v.log, peer.id, from, to, from', to');
    }
  }

  /** The histories of several visits, one after the other. */
  function Together(visits: seq<Visit>): Visit {
    if visits == [] then Visit([], [], []) else
      var Visit(tried, regs, log) := Together(visits[..|visits|-1]);
      var last := visits[|visits|-1];
      Visit(tried + last.tried, regs + last.regs, log + last.log)
  }

  lemma {:induction false} OneMoreVisit(visits: seq<Visit>, v: Visit)
    ensures Together(visits + [v]) ==
            Visit(Together(visits).tried + v.tried, Together(visits).regs + v.regs, Together(visits).log + v.log)
  {
    assert (visits + [v])[..|visits|] == visits;
  }

  /** What was done for one recipient: its files advertised at this device, then one visit
      to each selected peer in turn. */
  datatype Round = Round(recipient: string, own: seq<Registration>, visits: seq<Visit>)

  ghost predicate RoundOk(round: Round, me: PeerId, peers: seq<Peer>, chunks: set<PendingChunk>, from: int, to: int) {
    && (forall reg <- round.own :: reg.peer == me) && chunks <= Offered(round.own, me)
    && |round.visits| == |peers|
    && forall i :: 0 <= i < |peers| ==> VisitOk(round.visits[i], me, peers[i], round.recipient, chunks, from, to)
  }

  function Done(round: Round): Visit {
    var Visit(tried, regs, log) := Together(round.visits);
    Visit(tried, round.own + regs, log)
  }

  /** distributeChunksForRecipient: `peers` are those selected for the recipient. */
  method DistributeChunksForRecipient(link: Link, me: PeerId, peers: seq<Peer>, recipient: string,
                                      chunks: seq<PendingChunk>)
    returns (ghost round: Round)
    requires DistinctKeys(chunks) && forall c <- chunks :: c.row.recipientId == recipient
    modifies link
    ensures link.now >= old(link.now) && round.recipient == recipient
    ensures RoundOk(round, me, peers, SetOf(chunks), old(link.now), link.now)
    ensures link.tried == old(link.tried) + Done(round).tried
    ensures link.registered == old(link.registered) + Done(round).regs && link.sent == old(link.sent) + Done(round).log
    ensures link.placed == old(link.placed) + Marked(Done(round).log)
  {
    hide VisitOk, DistinctKeys, Marked, Part, KeysOf, SetOf, Offered, Together;
    var byFile := GroupByFile(chunks);
    ghost var own := AdvertiseOwn(link, me, byFile, chunks);
    ghost var visits: seq<Visit> := [];
    NoVisits();
    var i := 0;
    while i < |peers|
      invariant 0 <= i <= |peers| && |visits| == i && link.now >= old(link.now)
      invariant forall j :: 0 <= j < i ==>
                  VisitOk(visits[j], me, peers[j], recipient, SetOf(chunks), old(link.now), link.now)
      invariant link.tried == old(link.tried) + Together(visits).tried
      invariant link.registered == old(link.registered) + own + Together(visits).regs
      invariant link.sent == old(link.sent) + Together(visits).log
      invariant link.placed == old(link.placed) + Marked(Together(visits).log)
    {
      ghost var mid := link.now;
      ghost var v := VisitPeer(link, me, peers[i], recipient, byFile, chunks);
      forall j | 0 <= j < i
        ensures VisitOk(visits[j], me, peers[j], recipient, SetOf(chunks), old(link.now), link.now)
      {
        VisitWidens(visits[j], me, peers[j], recipient, SetOf(chunks), old(link.now), mid, old(link.now), link.now);
      }
      VisitWidens(v, me, peers[i], recipient, SetOf(chunks), mid, link.now, old(link.now), link.now);
      OneMoreVisit(visits, v);
      MarkedConcat(Together(visits).log, v.log);
      visits := visits + [v];
      i := i + 1;
    }
    round := Round(recipient, own, visits);
  }

  lemma {:induction false} NoVisits()
    ensures Together([]) == Visit([], [], []) && Marked(Together([]).log) == {}
  {
  }

  // ---- All recipients ----

  /** The histories of several rounds, one after the other. */
  function AllDone(rounds: seq<Round>): Visit {
    if rounds == [] then Visit([], [], []) else
      var Visit(tried, regs, log) := AllDone(rounds[..|rounds|-1]);
      var last := Done(rounds[|rounds|-1]);
      Visit(tried + last.tried, regs + last.regs, log + last.log)
  }

  lemma {:induction false} OneMoreRound(rounds: seq<Round>, round: Round)
    ensures AllDone(rounds + [round]) ==
            Visit(AllDone(rounds).tried + Done(round).tried, AllDone(rounds).regs + Done(round).regs,
                  AllDone(rounds).log + Done(round).log)
    ensures Recipients(rounds + [round]) == Recipients(rounds) + {round.recipient}
  {
    assert (rounds + [round])[..|rounds|] == rounds;
    assert forall x :: x in rounds + [round] <==> x in rounds || x == round;
  }

  function Recipients(rounds: seq<Round>): set<string> {
    set round <- rounds :: round.recipient
  }

  /** The chunks of one recipient. */
  ghost function For(alive: set<PendingChunk>, recipient: string): set<PendingChunk> {
    set c <- alive | c.row.recipientId == recipient
  }

  ghost predicate RoundsOk(me: PeerId, select: string -> seq<Peer>, alive: set<PendingChunk>, rounds: seq<Round>,
                           from: int, to: int) {
    && (forall i, j :: 0 <= i < j < |rounds| ==> rounds[i].recipient != rounds[j].recipient)
    && forall round <- rounds ::
         RoundOk(round, me, select(round.recipient), For(alive, round.recipient), from, to)
  }

  /** One round for each recipient of a chunk in `alive`, which holds the chunks alive to
      the end and no chunk expired at the start. */
  ghost predicate PassOk(me: PeerId, select: string -> seq<Peer>, chunks: seq<PendingChunk>, alive: set<PendingChunk>,
                         rounds: seq<Round>, from: int, to: int) {
    && (forall c <- chunks :: Alive(c, to) ==> c in alive)
    && (forall c <- alive :: c in chunks && Alive(c, from))
    && Recipients(rounds) == (set c <- alive :: c.row.recipientId)
    && RoundsOk(me, select, alive, rounds, from, to)
  }

  /** distributeChunks: `select` gives the peers chosen for each recipient. All that was
      asked of the world, and all marks set, are those of the rounds. */
  method DistributeChunks(link: Link, me: PeerId, select: string -> seq<Peer>, chunks: seq<PendingChunk>)
    returns (ghost alive: set<PendingChunk>, ghost rounds: seq<Round>)
    requires DistinctKeys(chunks)
    modifies link
    ensures PassOk(me, select, chunks, alive, rounds, old(link.now), link.now)
    ensures link.tried == old(link.tried) + AllDone(rounds).tried
    ensures link.registered == old(link.registered) + AllDone(rounds).regs
    ensures link.sent == old(link.sent) + AllDone(rounds).log
    ensures link.placed == old(link.placed) + Marked(AllDone(rounds).log)
  {
    hide RoundOk, RoundsOk, Marked, AllDone, Alive, Groups;
    var byRecipient, times := GroupByRecipient(link, chunks);
    ghost var kept, start := Unexpired(chunks, times), link.now;
    UnexpiredMeaning(chunks, times, old(link.now), link.now);
    alive := SetOf(kept);
    assert KeysOf(ByRecipient, kept) == set c <- alive :: c.row.recipientId;
    rounds := DistributeGroups(link, me, select, byRecipient, kept);
    RoundsWiden(me, select, alive, rounds, start, link.now, old(link.now), link.now);
    forall c <- chunks | Alive(c, link.now)
      ensures c in alive
    {
      AliveEarlier(c, start, link.now);
    }
  }

  lemma {:induction false} RoundWidens(round: Round, me: PeerId, peers: seq<Peer>, chunks: set<PendingChunk>,
                                       from: int, to: int, from': int, to': int)
    requires RoundOk(round, me, peers, chunks, from, to) && from' <= from && to <= to'
    ensures RoundOk(round, me, peers, chunks, from', to')
  {
    hide VisitOk, Offered;
    forall i | 0 <= i < |peers|
      ensures VisitOk(round.visits[i], me, peers[i], round.recipient, chunks, from', to')
    {
      VisitWidens(round.visits[i], me, peers[i], round.recipient, chunks, from, to, from', to');
    }
  }

  lemma {:induction false} RoundsWiden(me: PeerId, select: string -> seq<Peer>, alive: set<PendingChunk>,
                                       rounds: seq<Round>, from: int, to: int, from': int, to': int)
    requires RoundsOk(me, select, alive, rounds, from, to) && from' <= from && to <= to'
    ensures RoundsOk(me, select, alive, rounds, from', to')
  {
    hide RoundOk, For;
    forall round <- rounds
      ensures RoundOk(round, me, select(round.recipient), For(alive, round.recipient), from', to')
    {
      RoundWidens(round, me, select(round.recipient), For(alive, round.recipient), from, to, from', to');
    }
  }

  lemma {:induction false} NoRounds(me: PeerId, select: string -> seq<Peer>, alive: set<PendingChunk>, now: int)
    ensures RoundsOk(me, select, alive, [], now, now) && Recipients([]) == {}
    ensures AllDone([]) == Visit([], [], []) && Marked([]) == {}
  {
  }

  lemma {:induction false} RoundAdded(me: PeerId, select: string -> seq<Peer>, alive: set<PendingChunk>,
                                      rounds: seq<Round>, round: Round, from: int, mid: int, to: int)
    requires RoundsOk(me, select, alive, rounds, from, mid) && from <= mid <= to
    requires round.recipient !in Recipients(rounds)
    requires RoundOk(round, me, select(round.recipient), For(alive, round.recipient), mid, to)
    ensures RoundsOk(me, select, alive, rounds + [round], from, to)
  {
    RoundsWiden(me, select, alive, rounds, from, mid, from, to);
    RoundWidens(round, me, select(round.recipient), For(alive, round.recipient), mid, to, from, to);
    hide RoundOk, For;
  }

  method DistributeGroups(link: Link, me: PeerId, select: string -> seq<Peer>,
                          byRecipient: map<string, seq<PendingChunk>>, ghost kept: seq<PendingChunk>)
    returns (ghost rounds: seq<Round>)
    requires DistinctKeys(kept) && Groups(ByRecipient, byRecipient, kept)
    modifies link
    ensures link.now >= old(link.now)
    ensures RoundsOk(me, select, SetOf(kept), rounds, old(link.now), link.now)
    ensures Recipients(rounds) == KeysOf(ByRecipient, kept)
    ensures link.tried == old(link.tried) + AllDone(rounds).tried
    ensures link.registered == old(link.registered) + AllDone(rounds).regs
    ensures link.sent == old(link.sent) + AllDone(rounds).log
    ensures link.placed == old(link.placed) + Marked(AllDone(rounds).log)
  {
    hide RoundOk, RoundsOk, Marked, AllDone, Done, Part, DistinctKeys, SetOf, For, KeysOf, Recipients;
    rounds := [];
    NoRounds(me, select, SetOf(kept), link.now);
    var todo := byRecipient.Keys;
    while todo != {}
      invariant todo <= byRecipient.Keys && link.now >= old(link.now)
      invariant RoundsOk(me, select, SetOf(kept), rounds, old(link.now), link.now)
      invariant Recipients(rounds) == byRecipient.Keys - todo
      invariant link.tried == old(link.tried) + AllDone(rounds).tried
      invariant link.registered == old(link.registered) + AllDone(rounds).regs
      invariant link.sent == old(link.sent) + AllDone(rounds).log
      invariant link.placed == old(link.placed) + Marked(AllDone(rounds).log)
      decreases todo
    {
      var recipient :| recipient in todo;
      ghost var mid := link.now;
      PartMeaning(ByRecipient, kept, recipient);
      PartFor(kept, recipient);
      ghost var round := DistributeChunksForRecipient(link, me, select(recipient), recipient, byRecipient[recipient]);
      RoundAdded(me, select, SetOf(kept), rounds, round, old(link.now), mid, link.now);
      OneMoreRound(rounds, round);
      MarkedConcat(AllDone(rounds).log, Done(round).log);
      rounds := rounds + [round];
      todo := todo - {recipient};
    }
  }

  lemma {:induction false} PartFor(kept: seq<PendingChunk>, recipient: string)
    ensures SetOf(Part(ByRecipient, kept, recipient)) == For(SetOf(kept), recipient)
  {
    PartMeaning(ByRecipient, kept, recipient);
  }

  // ---- How often a chunk is sent to a peer ----

  /** How often the chunk went to the peer. */
  function Times(log: seq<Delivery>, peer: PeerId, c: PendingChunk): nat {
    if log == [] then 0 else
      var d := log[|log|-1];
      Times(log[..|log|-1], peer, c) + if d.peer == peer then multiset(d.batch)[c] else 0
  }

  lemma {:induction false} TimesConcat(a: seq<Delivery>, b: seq<Delivery>, peer: PeerId, c: PendingChunk)
    ensures Times(a + b, peer, c) == Times(a, peer, c) + Times(b, peer, c)
  {
    if b == [] {
      assert a + b == a;
    } else {
      assert (a + b)[..|a + b| - 1] == a + b[..|b|-1];
      TimesConcat(a, b[..|b|-1], peer, c);
    }
  }

  lemma {:induction false} TimesFlat(log: seq<Delivery>, peer: PeerId, c: PendingChunk)
    requires forall d <- log :: d.peer == peer
    ensures Times(log, peer, c) == multiset(Flat(log))[c]
  {
    if log != [] {
      TimesFlat(log[..|log|-1], peer, c);
    }
  }

  lemma {:induction false} TimesElsewhere(log: seq<Delivery>, peer: PeerId, other: PeerId, c: PendingChunk)
    requires peer != other && forall d <- log :: d.peer == peer
    ensures Times(log, other, c) == 0
  {
    if log != [] {
      TimesElsewhere(log[..|log|-1], peer, other, c);
    }
  }

  lemma {:induction false} DistinctOnce(s: seq<PendingChunk>, c: PendingChunk)
    requires DistinctKeys(s)
    ensures multiset(s)[c] == if c in s then 1 else 0
  {
    if s != [] {
      var n := |s| - 1;
      LastIsDistinct(s);
      DistinctOnce(s[..n], c);
      assert s == s[..n] + [s[n]];
    }
  }

  /** A visit sends the chunk unless the peer is skipped or out of reach, or the directory
      refuses to list it there. */
  predicate Takes(v: Visit, me: PeerId, peer: Peer, c: PendingChunk) {
    !Skipped(me, peer, c.row.recipientId) && Reached(v) && c !in Refused(v.regs, peer.id)
  }

  lemma {:induction false} VisitTimes(v: Visit, me: PeerId, peer: Peer, recipient: string, chunks: set<PendingChunk>,
                                      from: int, to: int, id: PeerId, c: PendingChunk)
    requires VisitOk(v, me, peer, recipient, chunks, from, to)
    ensures c !in chunks ==> Times(v.log, id, c) == 0
    ensures c in chunks && c.row.recipientId == recipient && Alive(c, to) ==>
              Times(v.log, id, c) == if peer.id == id && Takes(v, me, peer, c) then 1 else 0
  {
    hide Alive, GoodBatch, Refused, Flat, Times;
    if !Skipped(me, peer, recipient) && Reached(v) {
      if peer.id == id {
        TimesFlat(v.log, id, c);
        DistinctOnce(Flat(v.log), c);
      } else {
        TimesElsewhere(v.log, peer.id, id, c);
      }
    } else {
      NoTimes(id, c);
    }
  }

  lemma {:induction false} NoTimes(id: PeerId, c: PendingChunk)
    ensures Times([], id, c) == 0
  {
  }

  /** The turns of the loop that send the chunk to the peer. */
  function Turns(visits: seq<Visit>, me: PeerId, peers: seq<Peer>, id: PeerId, c: PendingChunk): nat
    requires |visits| == |peers|
  {
    if peers == [] then 0 else
      var n := |peers| - 1;
      Turns(visits[..n], me, peers[..n], id, c)
        + if peers[n].id == id && Takes(visits[n], me, peers[n], c) then 1 else 0
  }

  lemma {:induction false} RoundTimes(visits: seq<Visit>, me: PeerId, peers: seq<Peer>, recipient: string,
                                      chunks: set<PendingChunk>, from: int, to: int, id: PeerId, c: PendingChunk)
    requires |visits| == |peers|
    requires forall i :: 0 <= i < |peers| ==> VisitOk(visits[i], me, peers[i], recipient, chunks, from, to)
    ensures c !in chunks ==> Times(Together(visits).log, id, c) == 0
    ensures c in chunks && c.row.recipientId == recipient && Alive(c, to) ==>
              Times(Together(visits).log, id, c) == Turns(visits, me, peers, id, c)
  {
    hide VisitOk, Alive, Takes, Times;
    if peers == [] {
      NoTimes(id, c);
    } else {
      var n := |peers| - 1;
      RoundTimes(visits[..n], me, peers[..n], recipient, chunks, from, to, id, c);
      VisitTimes(visits[n], me, peers[n], recipient, chunks, from, to, id, c);
      TimesConcat(Together(visits[..n]).log, visits[n].log, id, c);
    }
  }

  lemma {:induction false} RoundsTimes(me: PeerId, select: string -> seq<Peer>, alive: set<PendingChunk>,
                                       rounds: seq<Round>, from: int, to: int, id: PeerId, c: PendingChunk)
    requires RoundsOk(me, select, alive, rounds, from, to)
    ensures (forall round <- rounds :: round.recipient != c.row.recipientId) || c !in alive ==>
              Times(AllDone(rounds).log, id, c) == 0
    ensures forall round <- rounds :: |round.visits| == |select(round.recipient)|
    ensures forall round <- rounds :: round.recipient == c.row.recipientId && c in alive && Alive(c, to) ==>
              Times(AllDone(rounds).log, id, c) == Turns(round.visits, me, select(round.recipient), id, c)
  {
    hide VisitOk, Alive, Takes, Times, Turns, Together, Offered;
    if rounds == [] {
      NoTimes(id, c);
    } else {
      var n := |rounds| - 1;
      var init, last := rounds[..n], rounds[n];
      RoundsTimes(me, select, alive, init, from, to, id, c);
      assert rounds == init + [last] && last in rounds;
      RoundTimes(last.visits, me, select(last.recipient), last.recipient, For(alive, last.recipient), from, to, id, c);
      TimesConcat(AllDone(init).log, Done(last).log, id, c);
    }
  }

  /** In a pass over all recipients: a chunk alive throughout goes to a peer exactly as
      often as the peer is selected for the chunk's recipient, is not skipped, is reached,
      and the directory lists the chunk there; a chunk that was dead at the start, or is not
      in the list, goes nowhere. */
  lemma {:induction false} SentExactly(me: PeerId, select: string -> seq<Peer>, chunks: seq<PendingChunk>,
                                       alive: set<PendingChunk>, rounds: seq<Round>, from: int, to: int,
                                       id: PeerId, c: PendingChunk)
    requires PassOk(me, select, chunks, alive, rounds, from, to)
    ensures c !in chunks || !Alive(c, from) ==> Times(AllDone(rounds).log, id, c) == 0
    ensures c in chunks && Alive(c, to) ==>
              exists round <- rounds ::
                && round.recipient == c.row.recipientId && |round.visits| == |select(c.row.recipientId)|
                && Times(AllDone(rounds).log, id, c) == Turns(round.visits, me, select(c.row.recipientId), id, c)
  {
    hide RoundsOk, Alive, Times, Turns, AllDone;
    RoundsTimes(me, select, alive, rounds, from, to, id, c);
    if c in chunks && Alive(c, to) {
      assert c.row.recipientId in Recipients(rounds);
      var round :| round in rounds && round.recipient == c.row.recipientId;
      assert |round.visits| == |select(round.recipient)|;
    }
  }

  lemma {:induction false} OneTurn(visits: seq<Visit>, me: PeerId, peers: seq<Peer>, i: nat, c: PendingChunk)
    requires |visits| == |peers| && i < |peers|
    requires forall j :: 0 <= j < |peers| && j != i ==> peers[j].id != peers[i].id
    ensures Turns(visits, me, peers, peers[i].id, c) == if Takes(visits[i], me, peers[i], c) then 1 else 0
  {
    hide Takes;
    var n := |peers| - 1;
    if i < n {
      OneTurn(visits[..n], me, peers[..n], i, c);
    } else {
      NoTurn(visits[..n], me, peers[..n], peers[i].id, c);
    }
  }

  lemma {:induction false} NoTurn(visits: seq<Visit>, me: PeerId, peers: seq<Peer>, id: PeerId, c: PendingChunk)
    requires |visits| == |peers| && forall j :: 0 <= j < |peers| ==> peers[j].id != id
    ensures Turns(visits, me, peers, id, c) == 0
  {
    if peers != [] {
      NoTurn(visits[..|peers|-1], me, peers[..|peers|-1], id, c);
    }
  }

  /** Selected once, sent once: every chunk alive throughout goes exactly once to each peer
      that is selected once for its recipient and is fit, reached and allowed to hold it. */
  lemma {:induction false} SentOnce(me: PeerId, select: string -> seq<Peer>, chunks: seq<PendingChunk>,
                                    alive: set<PendingChunk>, rounds: seq<Round>, from: int, to: int,
                                    c: PendingChunk, i: nat)
    requires PassOk(me, select, chunks, alive, rounds, from, to) && c in chunks && Alive(c, to)
    requires i < |select(c.row.recipientId)|
    requires var peers := select(c.row.recipientId);
             forall j :: 0 <= j < |peers| && j != i ==> peers[j].id != peers[i].id
    ensures var peers := select(c.row.recipientId);
            exists round <- rounds ::
              && round.recipient == c.row.recipientId && |round.visits| == |peers|
              && var fit := peers[i].id != me && !peers[i].isFake && peers[i].key != c.row.recipientId;
                 var v := round.visits[i];
                 && (fit <==> v.tried != [])
                 && (fit ==> exists ok :: v.tried == [Attempt(peers[i].id, ok)])
                 && Times(AllDone(rounds).log, peers[i].id, c) ==
                      if fit && v.tried[0].ok
                         && !(exists r <- v.regs :: r.peer == peers[i].id && !r.ok && c in r.parts) then 1 else 0
  {
    hide PassOk, Alive, Times, Turns, AllDone, Takes;
    var peers := select(c.row.recipientId);
    SentExactly(me, select, chunks, alive, rounds, from, to, peers[i].id, c);
    var round :| round in rounds && round.recipient == c.row.recipientId && |round.visits| == |peers|
      && Times(AllDone(rounds).log, peers[i].id, c) == Turns(round.visits, me, peers, peers[i].id, c);
    OneTurn(round.visits, me, peers, i, c);
    TakesMeaning(me, select, chunks, alive, rounds, from, to, round, i, c);
  }

  /** When a visit of a pass sends the chunk, in terms of the peer and the histories. */
  lemma {:induction false} TakesMeaning(me: PeerId, select: string -> seq<Peer>, chunks: seq<PendingChunk>,
                                        alive: set<PendingChunk>, rounds: seq<Round>, from: int, to: int,
                                        round: Round, i: nat, c: PendingChunk)
    requires PassOk(me, select, chunks, alive, rounds, from, to) && round in rounds
    requires round.recipient == c.row.recipientId && i < |select(c.row.recipientId)| == |round.visits|
    ensures var peer, v := select(c.row.recipientId)[i], round.visits[i];
            var fit := peer.id != me && !peer.isFake && peer.key != c.row.recipientId;
            && (fit <==> v.tried != [])
            && (fit ==> exists ok :: v.tried == [Attempt(peer.id, ok)])
            && (Takes(v, me, peer, c) <==>
                  fit && v.tried[0].ok && !(exists r <- v.regs :: r.peer == peer.id && !r.ok && c in r.parts))
  {
    hide Pass, Alive, For, Offered;
    var peer, v := select(c.row.recipientId)[i], round.visits[i];
    assert RoundOk(round, me, select(round.recipient), For(alive, round.recipient), from, to);
    assert VisitOk(v, me, peer, round.recipient, For(alive, round.recipient), from, to);
    if !Skipped(me, peer, c.row.recipientId) {
      assert v.tried == [Attempt(peer.id, v.tried[0].ok)];
    }
  }

  /** No chunk ever goes to this device, to a fake peer, or to the chunk's own recipient. */
  lemma {:induction false} NeverToUnfit(me: PeerId, select: string -> seq<Peer>, chunks: seq<PendingChunk>,
                                        alive: set<PendingChunk>, rounds: seq<Round>, from: int, to: int,
                                        id: PeerId, c: PendingChunk)
    requires PassOk(me, select, chunks, alive, rounds, from, to) && c in chunks && Alive(c, to)
    requires var peers := select(c.row.recipientId);
             forall i :: 0 <= i < |peers| && peers[i].id == id ==>
               peers[i].id == me || peers[i].isFake || peers[i].key == c.row.recipientId
    ensures Times(AllDone(rounds).log, id, c) == 0
  {
    hide PassOk, Alive, Times, Turns, AllDone;
    var peers := select(c.row.recipientId);
    SentExactly(me, select, chunks, alive, rounds, from, to, id, c);
    var round :| round in rounds && round.recipient == c.row.recipientId && |round.visits| == |peers|
      && Times(AllDone(rounds).log, id, c) == Turns(round.visits, me, peers, id, c);
    UnfitTurns(round.visits, me, peers, id, c);
  }

  lemma {:induction false} UnfitTurns(visits: seq<Visit>, me: PeerId, peers: seq<Peer>, id: PeerId, c: PendingChunk)
    requires |visits| == |peers|
    requires forall i :: 0 <= i < |peers| && peers[i].id == id ==>
               peers[i].id == me || peers[i].isFake || peers[i].key == c.row.recipientId
    ensures Turns(visits, me, peers, id, c) == 0
  {
    if peers != [] {
      var n := |peers| - 1;
      UnfitTurns(visits[..n], me, peers[..n], id, c);
    }
  }
}

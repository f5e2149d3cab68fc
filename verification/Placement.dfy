/** Runs of a sender's distributor against storage peers: request ids, waiters,
    acknowledgements and the placed mark. internal/webrtc/chunk_ack.go,
    internal/messenger/chunk_delivery.go and handleChunkStore. The network is the
    set of packets ever sent. */
module Placement {
  import opened Basics
  import opened Outbox

  type PeerId = string
  type RequestId = string

  datatype Ack = Ack(requestId: RequestId, error: bool)
  /** A waiter's channel holds at most one acknowledgement; later ones are dropped. */
  datatype Waiter = Waiter(peer: PeerId, result: Option<Ack>)
  datatype Request = Request(peer: PeerId, chunks: seq<PendingChunk>)
  datatype Packet = Batch(id: RequestId, request: Request) | AckFrom(from: PeerId, ack: Ack)

  /** The distributor's goroutine. `rest` is the list it loaded from the store. */
  datatype Task = Loaded(rest: seq<PendingChunk>)
                | Waiting(rest: seq<PendingChunk>, id: RequestId)
                | Marking(rest: seq<PendingChunk>, todo: seq<PendingChunk>)
  /** A storage peer working through a batch: `next` chunks are stored. */
  datatype Storing = Storing(id: RequestId, request: Request, next: nat)

  datatype State = State(
    pending: map<Key, PendingRow>,
    waiters: map<RequestId, Waiter>,
    tasks: map<nat, Task>,
    storing: map<nat, Storing>,
    net: set<Packet>,
    queued: map<Key, seq<byte>>,                  // every chunk ever queued
    requests: map<RequestId, Request>,            // every batch ever sent
    committed: set<(PeerId, Key, seq<byte>)>)     // every commit at a storage peer

  // ---- acceptChunkStoreAck ----

  function AcceptAck(waiters: map<RequestId, Waiter>, from: PeerId, ack: Ack): map<RequestId, Waiter> {
    if ack.requestId !in waiters || waiters[ack.requestId].peer != from || waiters[ack.requestId].result.Some?
    then waiters
    else waiters[ack.requestId := Waiter(from, Some(ack))]
  }

  function AcceptAll(waiters: map<RequestId, Waiter>, arrived: seq<(PeerId, Ack)>): map<RequestId, Waiter> {
    if arrived == [] then waiters else
      var (from, ack) := arrived[|arrived|-1];
      AcceptAck(AcceptAll(waiters, arrived[..|arrived|-1]), from, ack)
  }

  predicate Answers(arrival: (PeerId, Ack), peer: PeerId, id: RequestId) {
    arrival.0 == peer && arrival.1.requestId == id
  }

  /** Arrival i is the first answer to the request from the addressed peer. */
  predicate Decides(arrived: seq<(PeerId, Ack)>, peer: PeerId, id: RequestId, i: int) {
    0 <= i < |arrived| && Answers(arrived[i], peer, id) && forall j :: 0 <= j < i ==> !Answers(arrived[j], peer, id)
  }

  /** The waiter table of the WebRTC manager. */
  class AckManager {
    var chunkAcks: map<RequestId, Waiter>

    constructor ()
      ensures chunkAcks == map[]
    {
      chunkAcks := map[];
    }

    method Register(id: RequestId, peer: PeerId)
      modifies this
      ensures chunkAcks == old(chunkAcks)[id := Waiter(peer, None)]
    {
      chunkAcks := chunkAcks[id := Waiter(peer, None)];
    }

    method AcceptChunkStoreAck(from: PeerId, ack: Ack)
      modifies this
      ensures chunkAcks.Keys == old(chunkAcks).Keys
      ensures forall id <- chunkAcks ::
                var waiter := old(chunkAcks)[id];
                chunkAcks[id] == if id == ack.requestId && waiter.peer == from && waiter.result.None?
                                 then Waiter(from, Some(ack)) else waiter
      ensures chunkAcks == AcceptAck(old(chunkAcks), from, ack)
    {
      if ack.requestId !in chunkAcks {
        return;
      }
      var waiter := chunkAcks[ack.requestId];
      if waiter.peer != from {
        return;
      }
      if waiter.result.None? {
        chunkAcks := chunkAcks[ack.requestId := waiter.(result := Some(ack))];
      }
    }

    /** True only for an error-free acknowledgement; the waiter is always removed. */
    method Await(id: RequestId) returns (confirmed: bool)
      modifies this
      ensures confirmed <==>
              id in old(chunkAcks) && old(chunkAcks)[id].result.Some? && !old(chunkAcks)[id].result.value.error
      ensures chunkAcks == old(chunkAcks) - {id}
    {
      confirmed := id in chunkAcks && chunkAcks[id].result.Some? && !chunkAcks[id].result.value.error;
      chunkAcks := chunkAcks - {id};
    }

    /** One batch: the waiter is registered, `arrived` are the acknowledgements that come
        in before the wait ends. Only the first one from the addressed peer under this
        request id decides; the waiter is always removed. */
    method SendConfirmed(id: RequestId, peer: PeerId, sent: bool, arrived: seq<(PeerId, Ack)>)
      returns (confirmed: bool)
      modifies this
      ensures confirmed <==> sent && exists i :: Decides(arrived, peer, id, i) && !arrived[i].1.error
      ensures chunkAcks == AcceptAll(old(chunkAcks)[id := Waiter(peer, None)], if sent then arrived else []) - {id}
    {
      Register(id, peer);
      if !sent {
        var _ := Await(id);
        return false;
      }
      var n := 0;
      while n < |arrived|
        invariant 0 <= n <= |arrived|
        invariant id in chunkAcks && chunkAcks[id].peer == peer
        invariant chunkAcks[id].result.None? <==> forall j :: 0 <= j < n ==> !Answers(arrived[j], peer, id)
        invariant chunkAcks[id].result.Some? ==>
                    exists i :: i < n && Decides(arrived, peer, id, i) && chunkAcks[id].result == Some(arrived[i].1)
        invariant chunkAcks == AcceptAll(old(chunkAcks)[id := Waiter(peer, None)], arrived[..n])
      {
        ghost var first := chunkAcks[id].result.None? && Answers(arrived[n], peer, id);
        AcceptChunkStoreAck(arrived[n].0, arrived[n].1);
        if first {
          assert Decides(arrived, peer, id, n);
        }
        assert arrived[..n+1][..n] == arrived[..n];
        n := n + 1;
      }
      assert arrived[..n] == arrived;
      confirmed := Await(id);
    }
  }

  /** A storage peer: it acknowledges without error only what it has committed. */
  class StoragePeer {
    var chunks: map<Key, seq<byte>>
    ghost var commits: set<(Key, seq<byte>)>

    constructor ()
      ensures chunks == map[] && commits == {}
    {
      chunks := map[];
      commits := {};
    }

    /** handleChunkStore: a bad hash or a failing disk refuses the chunk, and nothing else. */
    method HandleChunkStore(c: PendingChunk, hashMatches: bool, works: bool) returns (ok: bool)
      modifies this
      ensures ok <==> hashMatches && works
      ensures ok ==> chunks == old(chunks)[c.key := c.row.data] && commits == old(commits) + {(c.key, c.row.data)}
      ensures !ok ==> chunks == old(chunks) && commits == old(commits)
    {
      ok := hashMatches && works;
      if ok {
        chunks := chunks[c.key := c.row.data];
        commits := commits + {(c.key, c.row.data)};
      }
    }

    /** storeChunkBatch: stops at the first chunk that is refused. The acknowledgement has no
        error exactly when none is, and exactly the chunks before the first refusal are
        committed. */
    method StoreChunkBatch(id: RequestId, batch: seq<PendingChunk>, hashMatches: seq<bool>, works: seq<bool>)
      returns (ack: Ack)
      requires |hashMatches| == |works| == |batch|
      modifies this
      ensures ack.requestId == id
      ensures ack.error <==> exists i :: 0 <= i < |batch| && !(hashMatches[i] && works[i])
      ensures !ack.error ==> forall c <- batch :: (c.key, c.row.data) in commits
      ensures commits == old(commits) + Accepted(batch, hashMatches, works, |batch|)
    {
      var i := 0;
      while i < |batch|
        invariant 0 <= i <= |batch|
        invariant forall j :: 0 <= j < i ==> hashMatches[j] && works[j]
        invariant commits == old(commits) + Accepted(batch, hashMatches, works, i)
      {
        var ok := HandleChunkStore(batch[i], hashMatches[i], works[i]);
        AcceptedStep(batch, hashMatches, works, i);
        if !ok {
          AcceptedStop(batch, hashMatches, works, i);
          return Ack(id, true);
        }
        i := i + 1;
      }
      AcceptedAll(batch, hashMatches, works);
      ack := Ack(id, false);
    }
  }

  /** The first n chunks as far as every chunk up to them is accepted. */
  ghost function Accepted(batch: seq<PendingChunk>, hashMatches: seq<bool>, works: seq<bool>, n: nat):
    set<(Key, seq<byte>)>
    requires |hashMatches| == |works| == |batch| && n <= |batch|
  {
    set i | 0 <= i < n && (forall j :: 0 <= j <= i ==> hashMatches[j] && works[j]) ::
      (batch[i].key, batch[i].row.data)
  }

  lemma {:induction false} AcceptedStep(batch: seq<PendingChunk>, hashMatches: seq<bool>, works: seq<bool>, n: nat)
    requires |hashMatches| == |works| == |batch| && n < |batch|
    requires forall j :: 0 <= j < n ==> hashMatches[j] && works[j]
    ensures Accepted(batch, hashMatches, works, n + 1) ==
            Accepted(batch, hashMatches, works, n)
              + if hashMatches[n] && works[n] then {(batch[n].key, batch[n].row.data)} else {}
  {
  }

  lemma {:induction false} AcceptedStop(batch: seq<PendingChunk>, hashMatches: seq<bool>, works: seq<bool>, n: nat)
    requires |hashMatches| == |works| == |batch| && n < |batch| && !(hashMatches[n] && works[n])
    ensures Accepted(batch, hashMatches, works, |batch|) == Accepted(batch, hashMatches, works, n)
  {
  }

  lemma {:induction false} AcceptedAll(batch: seq<PendingChunk>, hashMatches: seq<bool>, works: seq<bool>)
    requires |hashMatches| == |works| == |batch| && forall j :: 0 <= j < |batch| ==> hashMatches[j] && works[j]
    ensures forall c <- batch :: (c.key, c.row.data) in Accepted(batch, hashMatches, works, |batch|)
  {
    forall c <- batch
      ensures (c.key, c.row.data) in Accepted(batch, hashMatches, works, |batch|)
    {
      var i :| 0 <= i < |batch| && batch[i] == c;
    }
  }

  // ---- Steps ----

  datatype Action =
    | AQueue(chunks: map<Key, PendingRow>)
    | ACleanup(kept: set<Key>)
    | ALoad(task: nat, list: seq<PendingChunk>)
    | ASend(task: nat, id: RequestId, request: Request, delivered: bool)
    | AStart(packet: Packet, job: nat)
    | AStoreNext(job: nat, ok: bool)
    | AAnswer(job: nat)
    | AForeignAck(from: PeerId, ack: Ack)
    | AReceiveAck(packet: Packet)
    | AResult(task: nat)
    | AGiveUp(task: nat)
    | AMark(task: nat)
    | ACrash

  /** New chunks under keys never used before, none placed. */
  function DoQueue(s: State, rows: map<Key, PendingRow>): State {
    if rows.Keys !! s.queued.Keys && (forall k <- rows :: !rows[k].placed) then
      s.(pending := s.pending + rows, queued := s.queued + map k <- rows :: rows[k].data)
    else s
  }

  function DoLoad(s: State, k: nat, list: seq<PendingChunk>): State {
    if k !in s.tasks && (forall c <- list :: c.key in s.pending && s.pending[c.key] == c.row) then
      s.(tasks := s.tasks[k := Loaded(list)])
    else s
  }

  /** A batch under a fresh request id; the packet may already be lost. */
  function DoSend(s: State, me: PeerId, k: nat, id: RequestId, request: Request, delivered: bool): State {
    if k in s.tasks && s.tasks[k].Loaded? && (forall c <- request.chunks :: c in s.tasks[k].rest)
       && request.peer != me && id != "" && id !in s.requests
       && (forall p <- s.net :: p.AckFrom? ==> p.ack.requestId != id)
    then
      s.(waiters := s.waiters[id := Waiter(request.peer, None)],
         tasks := s.tasks[k := Waiting(s.tasks[k].rest, id)],
         requests := s.requests[id := request],
         net := if delivered then s.net + {Batch(id, request)} else s.net)
    else s
  }

  function DoStart(s: State, packet: Packet, job: nat): State {
    if packet in s.net && packet.Batch? && job !in s.storing then
      s.(storing := s.storing[job := Storing(packet.id, packet.request, 0)])
    else s
  }

  /** One chunk of a batch is committed, or fails and ends the batch with an error. */
  function DoStoreNext(s: State, job: nat, ok: bool): State {
    if job in s.storing && s.storing[job].next < |s.storing[job].request.chunks| then
      var Storing(id, request, next) := s.storing[job];
      var c := request.chunks[next];
      if ok then
        s.(storing := s.storing[job := Storing(id, request, next + 1)],
           committed := s.committed + {(request.peer, c.key, c.row.data)})
      else
        s.(storing := s.storing - {job}, net := s.net + {AckFrom(request.peer, Ack(id, true))})
    else s
  }

  function DoAnswer(s: State, job: nat): State {
    if job in s.storing && s.storing[job].next == |s.storing[job].request.chunks| then
      var Storing(id, request, next) := s.storing[job];
      s.(storing := s.storing - {job}, net := s.net + {AckFrom(request.peer, Ack(id, false))})
    else s
  }

  /** Any peer may send any acknowledgement for a request not addressed to it. */
  function DoForeignAck(s: State, from: PeerId, ack: Ack): State {
    if ack.requestId in s.requests && s.requests[ack.requestId].peer != from then
      s.(net := s.net + {AckFrom(from, ack)})
    else s
  }

  function DoReceiveAck(s: State, packet: Packet): State {
    if packet in s.net && packet.AckFrom? then s.(waiters := AcceptAck(s.waiters, packet.from, packet.ack)) else s
  }

  /** The waiting goroutine takes its acknowledgement. */
  function DoResult(s: State, k: nat): State {
    if k in s.tasks && s.tasks[k].Waiting? && s.tasks[k].id in s.waiters && s.waiters[s.tasks[k].id].result.Some?
       && s.tasks[k].id in s.requests then
      var Waiting(rest, id) := s.tasks[k];
      var task := if s.waiters[id].result.value.error then Loaded(rest) else Marking(rest, s.requests[id].chunks);
      s.(waiters := s.waiters - {id}, tasks := s.tasks[k := task])
    else s
  }

  function DoGiveUp(s: State, k: nat): State {
    if k in s.tasks && s.tasks[k].Waiting? then
      s.(waiters := s.waiters - {s.tasks[k].id}, tasks := s.tasks[k := Loaded(s.tasks[k].rest)])
    else s
  }

  function DoMark(s: State, k: nat): State {
    if k in s.tasks && s.tasks[k].Marking? then
      var Marking(rest, todo) := s.tasks[k];
      if todo == [] then s.(tasks := s.tasks[k := Loaded(rest)]) else
        var key := todo[0].key;
        s.(pending := if key in s.pending then s.pending[key := s.pending[key].(placed := true)] else s.pending,
           tasks := s.tasks[k := Marking(rest, todo[1..])])
    else s
  }

  function Next(me: PeerId, s: State, a: Action): State {
    match a
    case AQueue(rows) => DoQueue(s, rows)
    case ACleanup(kept) => s.(pending := map k <- s.pending | k in kept :: s.pending[k])
    case ALoad(k, list) => DoLoad(s, k, list)
    case ASend(k, id, request, delivered) => DoSend(s, me, k, id, request, delivered)
    case AStart(packet, job) => DoStart(s, packet, job)
    case AStoreNext(job, ok) => DoStoreNext(s, job, ok)
    case AAnswer(job) => DoAnswer(s, job)
    case AForeignAck(from, ack) => DoForeignAck(s, from, ack)
    case AReceiveAck(packet) => DoReceiveAck(s, packet)
    case AResult(k) => DoResult(s, k)
    case AGiveUp(k) => DoGiveUp(s, k)
    case AMark(k) => DoMark(s, k)
    case ACrash => s.(waiters := map[], tasks := map[])
  }

  function Exec(me: PeerId, s: State, run: seq<Action>): State {
    if run == [] then s else Next(me, Exec(me, s, run[..|run|-1]), run[|run|-1])
  }

  const START := State(map[], map[], map[], map[], {}, map[], map[], {})

  // ---- The invariant ----

  /** Some other peer has committed these very bytes under this key. */
  ghost predicate StoredElsewhere(s: State, me: PeerId, key: Key, data: seq<byte>) {
    exists p :: p != me && (p, key, data) in s.committed
  }

  predicate AllStored(s: State, peer: PeerId, chunks: seq<PendingChunk>) {
    forall c <- chunks :: (peer, c.key, c.row.data) in s.committed
  }

  predicate AllQueued(s: State, chunks: seq<PendingChunk>) {
    forall c <- chunks :: c.key in s.queued && s.queued[c.key] == c.row.data
  }

  ghost predicate RowsOk(s: State, me: PeerId) {
    forall k <- s.pending ::
      && k in s.queued && s.queued[k] == s.pending[k].data
      && (s.pending[k].placed ==> StoredElsewhere(s, me, k, s.pending[k].data))
  }

  ghost predicate RequestsOk(s: State, me: PeerId) {
    forall id <- s.requests :: s.requests[id].peer != me && AllQueued(s, s.requests[id].chunks)
  }

  /** An error-free acknowledgement by the peer a request went to proves storage. */
  predicate Proves(s: State, from: PeerId, ack: Ack) {
    ack.requestId in s.requests && s.requests[ack.requestId].peer == from && !ack.error ==>
      AllStored(s, from, s.requests[ack.requestId].chunks)
  }

  predicate PacketOk(s: State, p: Packet) {
    match p
    case Batch(id, request) => id in s.requests && s.requests[id] == request
    case AckFrom(from, ack) => ack.requestId in s.requests && Proves(s, from, ack)
  }

  predicate WaiterOk(s: State, id: RequestId, waiter: Waiter) {
    && id in s.requests && s.requests[id].peer == waiter.peer
    && (waiter.result.Some? ==> waiter.result.value.requestId == id && Proves(s, waiter.peer, waiter.result.value))
  }

  ghost predicate TaskOk(s: State, me: PeerId, task: Task) {
    && AllQueued(s, task.rest)
    && match task
       case Loaded(_) => true
       case Waiting(_, id) => id in s.requests
       case Marking(_, todo) => AllQueued(s, todo) && forall c <- todo :: StoredElsewhere(s, me, c.key, c.row.data)
  }

  predicate StoringOk(s: State, job: Storing) {
    && job.id in s.requests && s.requests[job.id] == job.request
    && job.next <= |job.request.chunks|
    && AllStored(s, job.request.peer, job.request.chunks[..job.next])
  }

  ghost predicate Inv(s: State, me: PeerId) {
    && RowsOk(s, me) && RequestsOk(s, me)
    && (forall p <- s.net :: PacketOk(s, p))
    && (forall id <- s.waiters :: WaiterOk(s, id, s.waiters[id]))
    && (forall k <- s.tasks :: TaskOk(s, me, s.tasks[k]))
    && (forall j <- s.storing :: StoringOk(s, s.storing[j]))
  }

  /** History only grows, and with it everything the invariant says. */
  predicate Grows(s: State, s': State) {
    && (forall k <- s.queued :: k in s'.queued && s'.queued[k] == s.queued[k])
    && (forall id <- s.requests :: id in s'.requests && s'.requests[id] == s.requests[id])
    && s.committed <= s'.committed
  }

  lemma {:induction false} StoredStable(s: State, s': State, me: PeerId, key: Key, data: seq<byte>)
    requires Grows(s, s') && StoredElsewhere(s, me, key, data)
    ensures StoredElsewhere(s', me, key, data)
  {
    var p :| p != me && (p, key, data) in s.committed;
    assert (p, key, data) in s'.committed;
  }

  lemma {:induction false} TaskStable(s: State, s': State, me: PeerId, task: Task)
    requires Grows(s, s') && TaskOk(s, me, task)
    ensures TaskOk(s', me, task)
  {
    if task.Marking? {
      forall c <- task.todo
        ensures StoredElsewhere(s', me, c.key, c.row.data)
      {
        StoredStable(s, s', me, c.key, c.row.data);
      }
    }
  }

  /** What a step does not touch stays in order. */
  lemma {:induction false} Stable(s: State, s': State, me: PeerId)
    requires Inv(s, me) && Grows(s, s')
    ensures forall p <- s.net :: PacketOk(s', p)
    ensures forall id <- s.waiters :: WaiterOk(s', id, s.waiters[id])
    ensures forall k <- s.tasks :: TaskOk(s', me, s.tasks[k])
    ensures forall j <- s.storing :: StoringOk(s', s.storing[j])
    ensures forall k <- s.pending :: k in s'.queued && s'.queued[k] == s.pending[k].data
    ensures forall k <- s.pending :: s.pending[k].placed ==> StoredElsewhere(s', me, k, s.pending[k].data)
    ensures forall id <- s.requests :: s'.requests[id].peer != me && AllQueued(s', s'.requests[id].chunks)
  {
    forall k <- s.tasks
      ensures TaskOk(s', me, s.tasks[k])
    {
      TaskStable(s, s', me, s.tasks[k]);
    }
    forall k <- s.pending | s.pending[k].placed
      ensures StoredElsewhere(s', me, k, s.pending[k].data)
    {
      StoredStable(s, s', me, k, s.pending[k].data);
    }
  }

  lemma {:induction false} QueueKeeps(me: PeerId, s: State, rows: map<Key, PendingRow>)
    requires Inv(s, me)
    ensures Inv(DoQueue(s, rows), me)
  {
    hide StoredElsewhere, PacketOk, WaiterOk, TaskOk, StoringOk, AllQueued;
    Stable(s, DoQueue(s, rows), me);
  }

  lemma {:induction false} LoadKeeps(me: PeerId, s: State, k: nat, list: seq<PendingChunk>)
    requires Inv(s, me)
    ensures Inv(DoLoad(s, k, list), me)
  {
    hide StoredElsewhere, PacketOk, WaiterOk, StoringOk;
    Stable(s, DoLoad(s, k, list), me);
  }

  lemma {:induction false} SendKeeps(me: PeerId, s: State, k: nat, id: RequestId, request: Request, delivered: bool)
    requires Inv(s, me)
    ensures Inv(DoSend(s, me, k, id, request, delivered), me)
  {
    hide StoredElsewhere, StoringOk, AllStored;
    Stable(s, DoSend(s, me, k, id, request, delivered), me);
  }

  lemma {:induction false} StoreNextKeeps(me: PeerId, s: State, job: nat, ok: bool)
    requires Inv(s, me)
    ensures Inv(DoStoreNext(s, job, ok), me)
  {
    hide StoredElsewhere, WaiterOk, TaskOk, AllQueued;
    Stable(s, DoStoreNext(s, job, ok), me);
  }

  lemma {:induction false} AnswerKeeps(me: PeerId, s: State, job: nat)
    requires Inv(s, me)
    ensures Inv(DoAnswer(s, job), me)
  {
    hide StoredElsewhere, WaiterOk, TaskOk, AllQueued;
    if job in s.storing {
      var chunks := s.storing[job].request.chunks;
      assert chunks[..|chunks|] == chunks;
    }
    Stable(s, DoAnswer(s, job), me);
  }

  lemma {:induction false} StartKeeps(me: PeerId, s: State, packet: Packet, job: nat)
    requires Inv(s, me)
    ensures Inv(DoStart(s, packet, job), me)
  {
    hide StoredElsewhere, WaiterOk, TaskOk, AllQueued;
    Stable(s, DoStart(s, packet, job), me);
  }

  lemma {:induction false} ForeignKeeps(me: PeerId, s: State, from: PeerId, ack: Ack)
    requires Inv(s, me)
    ensures Inv(DoForeignAck(s, from, ack), me)
  {
    hide StoredElsewhere, WaiterOk, TaskOk, AllQueued, StoringOk;
    Stable(s, DoForeignAck(s, from, ack), me);
  }

  lemma {:induction false} ReceiveAckKeeps(me: PeerId, s: State, packet: Packet)
    requires Inv(s, me)
    ensures Inv(DoReceiveAck(s, packet), me)
  {
    hide StoredElsewhere, TaskOk, AllQueued, StoringOk;
    Stable(s, DoReceiveAck(s, packet), me);
  }

  /** An acknowledged batch is stored at a peer other than the sender. */
  lemma {:induction false} ResultKeeps(me: PeerId, s: State, k: nat)
    requires Inv(s, me)
    ensures Inv(DoResult(s, k), me)
  {
    hide StoringOk, PacketOk, AllQueued;
    Stable(s, DoResult(s, k), me);
  }

  /** The mark goes to a row whose queued bytes are the stored ones. */
  lemma {:induction false} MarkRowsOk(me: PeerId, s: State, k: nat)
    requires Inv(s, me) && k in s.tasks && s.tasks[k].Marking? && s.tasks[k].todo != []
    ensures RowsOk(DoMark(s, k), me)
    ensures TaskOk(DoMark(s, k), me, Marking(s.tasks[k].rest, s.tasks[k].todo[1..]))
  {
    hide StoringOk, PacketOk, WaiterOk, StoredElsewhere, RequestsOk;
    Stable(s, DoMark(s, k), me);
    var todo := s.tasks[k].todo;
    assert TaskOk(DoMark(s, k), me, s.tasks[k]);
    assert todo[0] in todo;
    assert forall c <- todo[1..] :: c in todo;
  }

  lemma {:induction false} MarkKeeps(me: PeerId, s: State, k: nat)
    requires Inv(s, me)
    ensures Inv(DoMark(s, k), me)
  {
    hide StoringOk, PacketOk, WaiterOk, StoredElsewhere, AllQueued, RowsOk, TaskOk;
    if k in s.tasks && s.tasks[k].Marking? {
      Stable(s, DoMark(s, k), me);
      if s.tasks[k].todo == [] {
        MarkDone(me, s, k);
      } else {
        MarkRowsOk(me, s, k);
      }
    }
  }

  lemma {:induction false} MarkDone(me: PeerId, s: State, k: nat)
    requires Inv(s, me) && k in s.tasks && s.tasks[k].Marking? && s.tasks[k].todo == []
    ensures RowsOk(DoMark(s, k), me) && TaskOk(DoMark(s, k), me, Loaded(s.tasks[k].rest))
  {
    hide StoringOk, PacketOk, WaiterOk, RequestsOk;
    assert TaskOk(s, me, s.tasks[k]);
  }

  /** Steps that only forget. */
  lemma {:induction false} ForgetKeeps(me: PeerId, s: State, a: Action)
    requires Inv(s, me)
    requires a.ACleanup? || a.AGiveUp? || a.ACrash?
    ensures Inv(Next(me, s, a), me)
  {
    hide StoringOk, PacketOk, WaiterOk, StoredElsewhere, AllQueued, DoQueue, DoLoad, DoSend, DoStart, DoStoreNext,
      DoAnswer, DoForeignAck, DoReceiveAck, DoResult, DoMark;
    Stable(s, Next(me, s, a), me);
  }

  lemma {:induction false} RunKeeps(me: PeerId, run: seq<Action>)
    ensures Inv(Exec(me, START, run), me)
  {
    hide Inv, Next;
    if run == [] {
      StartOk(me);
    } else {
      RunKeeps(me, run[..|run|-1]);
      NextKeeps(me, Exec(me, START, run[..|run|-1]), run[|run|-1]);
    }
  }

  lemma {:induction false} StartOk(me: PeerId)
    ensures Inv(START, me)
  {
  }

  lemma {:induction false} NextKeeps(me: PeerId, s: State, a: Action)
    requires Inv(s, me)
    ensures Inv(Next(me, s, a), me)
  {
    hide Inv, DoQueue, DoLoad, DoSend, DoStart, DoStoreNext, DoAnswer, DoForeignAck, DoReceiveAck, DoResult, DoGiveUp,
         DoMark;
    match a
    case AQueue(rows) => QueueKeeps(me, s, rows);
    case ALoad(k, list) => LoadKeeps(me, s, k, list);
    case ASend(k, id, request, delivered) => SendKeeps(me, s, k, id, request, delivered);
    case AStart(packet, job) => StartKeeps(me, s, packet, job);
    case AStoreNext(job, ok) => StoreNextKeeps(me, s, job, ok);
    case AAnswer(job) => AnswerKeeps(me, s, job);
    case AForeignAck(from, ack) => ForeignKeeps(me, s, from, ack);
    case AReceiveAck(packet) => ReceiveAckKeeps(me, s, packet);
    case AResult(k) => ResultKeeps(me, s, k);
    case AMark(k) => MarkKeeps(me, s, k);
    case _ => ForgetKeeps(me, s, a);
  }

  /** In every run, with batches and acknowledgements lost, late, repeated or sent by
      the wrong peer, failing disks, cleanups and crashes: a pending row is marked
      placed only if some other peer has committed that exact chunk's bytes. */
  lemma {:induction false} PlacementSound(me: PeerId, run: seq<Action>, k: Key)
    requires k in Exec(me, START, run).pending && Exec(me, START, run).pending[k].placed
    ensures exists p :: p != me && (p, k, Exec(me, START, run).pending[k].data) in Exec(me, START, run).committed
  {
    RunKeeps(me, run);
    assert StoredElsewhere(Exec(me, START, run), me, k, Exec(me, START, run).pending[k].data);
  }
}

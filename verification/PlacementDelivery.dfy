/** A batch that nothing disturbs is stored, acknowledged and marked. */
module PlacementDelivery {
  import opened Basics
  import opened Outbox
  import opened Placement

  ghost predicate Reach(me: PeerId, s: State, s': State) {
    exists run :: Exec(me, s, run) == s'
  }

  lemma {:induction false} Go(me: PeerId, s0: State, s: State, a: Action) returns (s': State)
    requires Reach(me, s0, s)
    ensures Reach(me, s0, s') && s' == Next(me, s, a)
  {
    hide Next;
    var run :| Exec(me, s0, run) == s;
    s' := Next(me, s, a);
    assert (run + [a])[..|run|] == run;
    assert Exec(me, s0, run + [a]) == s';
  }

  /** A loaded list and a peer that has never seen the request id. */
  predicate Sendable(me: PeerId, s: State, k: nat, id: RequestId, request: Request, job: nat) {
    && k !in s.tasks && job !in s.storing && request.peer != me && id != "" && id !in s.requests
    && (forall p <- s.net :: p.AckFrom? ==> p.ack.requestId != id)
    && (forall c <- request.chunks :: c.key in s.pending && s.pending[c.key] == c.row)
  }

  lemma {:induction false} Loads(me: PeerId, s: State, k: nat, id: RequestId, request: Request, job: nat)
    returns (s': State)
    requires Sendable(me, s, k, id, request, job)
    ensures Reach(me, s, s') && s' == s.(tasks := s.tasks[k := Loaded(request.chunks)])
  {
    assert Exec(me, s, []) == s;
    hide Reach;
    s' := Go(me, s, s, ALoad(k, request.chunks));
  }

  lemma {:induction false} Sends(me: PeerId, s: State, k: nat, id: RequestId, request: Request, job: nat)
    returns (s': State)
    requires Sendable(me, s, k, id, request, job)
    ensures Reach(me, s, s') && s'.pending == s.pending && s'.committed == s.committed && s'.storing == s.storing
    ensures s'.tasks == s.tasks[k := Waiting(request.chunks, id)]
            && s'.waiters == s.waiters[id := Waiter(request.peer, None)]
    ensures s'.requests == s.requests[id := request] && Batch(id, request) in s'.net
  {
    hide Reach;
    var s1 := Loads(me, s, k, id, request, job);
    s' := Go(me, s, s1, ASend(k, id, request, true));
    assert s'.tasks == s.tasks[k := Waiting(request.chunks, id)];
  }

  predicate StoredUpTo(s: State, request: Request, i: nat)
    requires i <= |request.chunks|
  {
    AllStored(s, request.peer, request.chunks[..i])
  }

  lemma {:induction false} StoresOne(me: PeerId, s0: State, s: State, job: nat, id: RequestId, request: Request, i: nat)
    returns (s': State)
    requires Reach(me, s0, s) && i < |request.chunks| && StoredUpTo(s, request, i)
    requires job in s.storing && s.storing[job] == Storing(id, request, i)
    ensures Reach(me, s0, s') && s'.(storing := s.storing, committed := s.committed) == s
    ensures StoredUpTo(s', request, i + 1) && s'.storing == s.storing[job := Storing(id, request, i + 1)]
  {
    hide Reach;
    s' := Go(me, s0, s, AStoreNext(job, true));
    assert request.chunks[..i+1] == request.chunks[..i] + [request.chunks[i]];
  }

  lemma {:induction false} StoresAll(me: PeerId, s0: State, s: State, job: nat, id: RequestId, request: Request, i: nat)
    returns (s': State)
    requires Reach(me, s0, s) && i <= |request.chunks| && StoredUpTo(s, request, i)
    requires job in s.storing && s.storing[job] == Storing(id, request, i)
    ensures Reach(me, s0, s') && AllStored(s', request.peer, request.chunks)
    ensures s'.pending == s.pending && s'.tasks == s.tasks && s'.waiters == s.waiters && s'.requests == s.requests
    ensures AckFrom(request.peer, Ack(id, false)) in s'.net
    decreases |request.chunks| - i
  {
    hide Reach;
    if i < |request.chunks| {
      var s1 := StoresOne(me, s0, s, job, id, request, i);
      s' := StoresAll(me, s0, s1, job, id, request, i + 1);
    } else {
      assert request.chunks[..i] == request.chunks;
      s' := Go(me, s0, s, AAnswer(job));
    }
  }

  lemma {:induction false} Acknowledged(me: PeerId, s0: State, s: State, k: nat, id: RequestId, request: Request)
    returns (s': State)
    requires Reach(me, s0, s) && AckFrom(request.peer, Ack(id, false)) in s.net && id in s.requests
             && s.requests[id] == request
    requires k in s.tasks && s.tasks[k] == Waiting(request.chunks, id)
    requires id in s.waiters && s.waiters[id] == Waiter(request.peer, None)
    ensures Reach(me, s0, s') && s'.pending == s.pending && s'.committed == s.committed
    ensures s'.tasks == s.tasks[k := Marking(request.chunks, request.chunks)]
  {
    hide Reach;
    var s1 := Go(me, s0, s, AReceiveAck(AckFrom(request.peer, Ack(id, false))));
    s' := Go(me, s0, s1, AResult(k));
  }

  predicate PlacedAll(s: State, chunks: seq<PendingChunk>) {
    forall c <- chunks :: c.key in s.pending && s.pending[c.key].placed
  }

  lemma {:induction false} MarksOne(me: PeerId, s0: State, s: State, k: nat, rest: seq<PendingChunk>,
                                    todo: seq<PendingChunk>)
    returns (s': State)
    requires Reach(me, s0, s) && k in s.tasks && s.tasks[k] == Marking(rest, todo) && todo != []
             && todo[0].key in s.pending
    ensures Reach(me, s0, s')
    ensures var key := todo[0].key;
            s' == s.(pending := s.pending[key := s.pending[key].(placed := true)],
                     tasks := s.tasks[k := Marking(rest, todo[1..])])
  {
    hide Reach;
    s' := Go(me, s0, s, AMark(k));
  }

  lemma {:induction false} MarksAll(me: PeerId, s0: State, s: State, k: nat, rest: seq<PendingChunk>,
                                    todo: seq<PendingChunk>)
    returns (s': State)
    requires Reach(me, s0, s) && k in s.tasks && s.tasks[k] == Marking(rest, todo)
    requires forall c <- todo :: c.key in s.pending
    ensures Reach(me, s0, s') && PlacedAll(s', todo) && s'.committed == s.committed
    ensures s'.pending.Keys == s.pending.Keys
    ensures forall key <- s.pending :: s.pending[key].placed ==> s'.pending[key].placed
    ensures forall key <- s.pending :: s'.pending[key] == s.pending[key].(placed := s'.pending[key].placed)
    decreases |todo|
  {
    hide Reach;
    if todo == [] {
      s' := s;
    } else {
      assert todo[0] in todo;
      var s1 := MarksOne(me, s0, s, k, rest, todo);
      s' := MarksAll(me, s0, s1, k, rest, todo[1..]);
      assert forall c <- todo :: c == todo[0] || c in todo[1..];
    }
  }

  /** A batch of pending rows sent to another peer, with nothing lost and no failing
      disk: the peer has committed every chunk, and every row is marked placed and
      otherwise as it was. */
  lemma {:induction false} UndisturbedBatch(me: PeerId, s: State, k: nat, id: RequestId, request: Request, job: nat)
    returns (s': State)
    requires Sendable(me, s, k, id, request, job)
    ensures Reach(me, s, s') && s'.pending.Keys == s.pending.Keys
    ensures forall c <- request.chunks :: (request.peer, c.key, c.row.data) in s'.committed && s'.pending[c.key].placed
    ensures forall key <- s.pending :: s'.pending[key] == s.pending[key].(placed := s'.pending[key].placed)
  {
    hide Reach;
    var s0 := Sends(me, s, k, id, request, job);
    var s1 := Go(me, s, s0, AStart(Batch(id, request), job));
    assert request.chunks[..0] == [];
    var s2 := StoresAll(me, s, s1, job, id, request, 0);
    var s3 := Acknowledged(me, s, s2, k, id, request);
    s' := MarksAll(me, s, s3, k, request.chunks, request.chunks);
  }
}

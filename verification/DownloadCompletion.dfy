/** A download that nothing disturbs completes: the steps of DownloadRace do their work. */
module DownloadCompletion {
  import opened Basics
  import opened DownloadRows
  import opened DownloadRace

  ghost predicate Reach(s: State, id: FileId, s': State) {
    exists run :: Exec(s, id, run) == s'
  }

  lemma {:induction false} Go(s0: State, id: FileId, s: State, a: Action)
    requires Reach(s0, id, s)
    ensures Reach(s0, id, Next(s, id, a))
  {
    hide Next;
    var run :| Exec(s0, id, run) == s;
    assert (run + [a])[..|run|] == run;
    assert Exec(s0, id, run + [a]) == Next(s, id, a);
  }

  lemma {:induction false} GoStep(s0: State, id: FileId, s: State, k: nat, io: Io) returns (s': State)
    requires Reach(s0, id, s)
    ensures Reach(s0, id, s') && s' == Step(s, id, k, io)
  {
    hide Step;
    s' := Next(s, id, AStep(k, io));
    Go(s0, id, s, AStep(k, io));
  }

  /** A free slot, a free lock, and a file that is new or still active. */
  predicate Idle(s: State, id: FileId) {
    && ContextsOk(s) && s.lock.None? && s.owner.None? && s.tasks == map[] && id != ""
    && (id in s.rows ==> s.rows[id].completed.None? && s.rows[id].stopped.None? && s.rows[id].cancelled.None?)
  }

  /** The store answers and no file of that name lies in the download directory. */
  predicate Plain(io: Io) {
    io.ok && io.content.None?
  }

  /** All chunks are stored and decrypt to data with the advertised hash. */
  predicate Whole(meta: Meta, data: seq<byte>, io: Io) {
    Plain(io) && io.plain == Some(data) && meta.hash == Sha256(data)
    && Decide(io.indices, meta.totalChunks, io.opens) == Assemble
  }

  lemma {:induction false} Enters(s: State, id: FileId, k: nat, meta: Meta) returns (s': State)
    requires s.owner.None? && s.tasks == map[]
    ensures Reach(s, id, s') && s' == s.(owner := Some(k), tasks := map[k := Entered(meta)])
  {
    assert Exec(s, id, []) == s;
    s' := Next(s, id, AEnter(k, meta));
    Go(s, id, s, AEnter(k, meta));
    hide Reach, Step, CancelStep;
    assert s'.tasks == map[k := Entered(meta)];
  }

  lemma {:induction false} Tracks(s: State, id: FileId, k: nat, meta: Meta, io: Io)
    returns (s': State, row: Download)
    requires Idle(s, id) && io.ok
    ensures Reach(s, id, s') && id in s'.rows && s'.rows[id] == row
    ensures row.completed.None? && row.stopped.None? && row.cancelled.None?
    ensures row.expires == if id in s.rows then s.rows[id].expires else io.now + 604800
    ensures s' == s.(rows := s'.rows, owner := Some(k), tasks := map[k := Tracked(meta, row)])
  {
    var s1 := Enters(s, id, k, meta);
    hide Reach, Decide;
    s' := GoStep(s, id, s1, k, io);
    row := s'.rows[id];
    assert s'.tasks == map[k := Tracked(meta, row)];
  }

  lemma {:induction false} Prepares(s0: State, id: FileId, s: State, k: nat, meta: Meta, row: Download,
                                    io: Io)
    returns (s': State)
    requires Reach(s0, id, s) && Plain(io) && s.tasks == map[k := Tracked(meta, row)]
    requires row.completed.None? && row.stopped.None?
    ensures Reach(s0, id, s') && s' == s.(tasks := map[k := Starting(meta, row)])
  {
    hide Reach, Decide;
    var s1 := GoStep(s0, id, s, k, io);
    assert s1 == s.(tasks := map[k := Checked(meta, row)]);
    s' := GoStep(s0, id, s1, k, io);
    assert s'.tasks == map[k := Starting(meta, row)];
  }

  lemma {:induction false} Begins(s0: State, id: FileId, s: State, k: nat, meta: Meta, row: Download, io: Io)
    returns (s': State, ctx: ContextId)
    requires Reach(s0, id, s) && ContextsOk(s) && s.lock.None? && io.ok
    requires s.tasks == map[k := Starting(meta, row)] && id in s.rows && s.rows[id].cancelled.None?
    ensures Reach(s0, id, s') && ctx !in s'.dead
    ensures s' == s.(current := Some(ctx), issued := s'.issued, tasks := map[k := Listing(meta, row, ctx)])
  {
    hide Reach;
    s' := GoStep(s0, id, s, k, io);
    ctx := s'.current.value;
    assert s'.tasks == map[k := Listing(meta, row, ctx)];
  }

  lemma {:induction false} Decrypts(s0: State, id: FileId, s: State, k: nat, meta: Meta, row: Download,
                                    ctx: ContextId, data: seq<byte>, io: Io)
    returns (s': State)
    requires Reach(s0, id, s) && Whole(meta, data, io) && ctx !in s.dead && s.tasks == map[k := Listing(meta, row, ctx)]
    ensures Reach(s0, id, s') && s' == s.(tasks := map[k := Locking(meta, ctx, data)])
  {
    hide Reach, Decide;
    var s1 := GoStep(s0, id, s, k, io);
    assert s1 == s.(tasks := map[k := Writing(meta, ctx, data)]);
    s' := GoStep(s0, id, s1, k, io);
    assert s'.tasks == map[k := Locking(meta, ctx, data)];
  }

  lemma {:induction false} Publishes(s0: State, id: FileId, s: State, k: nat, meta: Meta, ctx: ContextId,
                                     data: seq<byte>, io: Io)
    returns (s': State)
    requires Reach(s0, id, s) && s.lock.None? && io.ok && ctx !in s.dead
    requires s.tasks == map[k := Locking(meta, ctx, data)] && id in s.rows && s.rows[id].cancelled.None?
    ensures Reach(s0, id, s') && s'.lock.None? && s'.log == s.log + [Renamed(meta.hash, data)] && s'.owner == s.owner
    ensures s'.rows == Do(s.rows, Complete(id, io.path, io.now)) && s'.tasks == map[k := Saved]
  {
    hide Reach, Do;
    var s1 := GoStep(s0, id, s, k, io);
    assert s1.tasks == map[k := Publishing(meta, ctx, data)];
    var s2 := GoStep(s0, id, s1, k, io);
    assert s2.tasks == map[k := Marking(meta, ctx, data)];
    s' := GoStep(s0, id, s2, k, io);
    assert s'.tasks == map[k := Saved];
  }

  lemma {:induction false} Ends(s0: State, id: FileId, s: State, k: nat, io: Io) returns (s': State)
    requires Reach(s0, id, s) && s.lock.None? && s.tasks == map[k := Saved]
    ensures Reach(s0, id, s') && s' == EndContext(s).(pending := None, tasks := map[k := Announcing(true)])
  {
    hide Reach;
    var s1 := GoStep(s0, id, s, k, io);
    assert s1.tasks == map[k := Dropping(true, true)];
    s' := GoStep(s0, id, s1, k, io);
    assert s'.tasks == map[k := Announcing(true)];
  }

  lemma {:induction false} Leaves(s0: State, id: FileId, s: State, k: nat, io: Io) returns (s': State)
    requires Reach(s0, id, s) && s.tasks == map[k := Announcing(true)]
    ensures Reach(s0, id, s') && s' == s.(log := s.log + [Ready], owner := None, tasks := map[])
  {
    hide Reach;
    var s1 := GoStep(s0, id, s, k, io);
    assert s1.tasks == map[k := Done];
    s' := GoStep(s0, id, s1, k, io);
    assert s'.tasks == map[];
  }

  /** A processor that nothing disturbs, with all chunks at hand, renames the file,
      completes the row, announces it, and leaves no lock, context, slot or pending
      entry behind. */
  lemma {:induction false} UndisturbedDownload(s: State, id: FileId, k: nat, meta: Meta, data: seq<byte>, io: Io)
    returns (s': State)
    requires Idle(s, id) && Whole(meta, data, io)
    ensures Reach(s, id, s') && s'.log == s.log + [Renamed(meta.hash, data), Ready]
    ensures id in s'.rows && s'.rows[id].completed == Some(io.now) && s'.rows[id].localPath == io.path
    ensures s'.lock.None? && s'.owner.None? && s'.current.None? && s'.pending.None? && s'.tasks == map[]
  {
    hide Reach, Whole, ContextsOk;
    WholeOk(meta, data, io);
    var s1, row := Tracks(s, id, k, meta, io);
    var s2 := Prepares(s, id, s1, k, meta, row, io);
    ContextsSame(s, s2);
    var s3, ctx := Begins(s, id, s2, k, meta, row, io);
    var s4 := Decrypts(s, id, s3, k, meta, row, ctx, data, io);
    var s5 := Publishes(s, id, s4, k, meta, ctx, data, io);
    var s6 := Ends(s, id, s5, k, io);
    s' := Leaves(s, id, s6, k, io);
  }

  // ---- The other ways an undisturbed processor ends ----

  /** The file's deadline, as the first track sets it: seven days after it is first seen. */
  function DeadlineOf(s: State, id: FileId, io: Io): int {
    if id in s.rows then s.rows[id].expires else io.now + 604800
  }

  /** Up to the look at the stored chunks. */
  lemma {:induction false} Looks(s: State, id: FileId, k: nat, meta: Meta, io: Io)
    returns (s': State, row: Download, ctx: ContextId)
    requires Idle(s, id) && Plain(io)
    ensures Reach(s, id, s') && ctx !in s'.dead && id in s'.rows && s'.rows[id] == row
    ensures row.completed.None? && row.stopped.None? && row.cancelled.None? && row.expires == DeadlineOf(s, id, io)
    ensures s' == s.(rows := s'.rows, owner := Some(k), current := Some(ctx), issued := s'.issued,
                     tasks := map[k := Listing(meta, row, ctx)])
  {
    hide Reach, ContextsOk;
    var s1;
    s1, row := Tracks(s, id, k, meta, io);
    var s2 := Prepares(s, id, s1, k, meta, row, io);
    ContextsSame(s, s2);
    s', ctx := Begins(s, id, s2, k, meta, row, io);
  }

  lemma {:induction false} AsksAll(s0: State, id: FileId, s: State, k: nat, ctx: ContextId, todo: seq<int>, io: Io)
    returns (s': State)
    requires Reach(s0, id, s) && ctx !in s.dead && s.tasks == map[k := Asking(ctx, todo)]
    ensures Reach(s0, id, s') && s' == s.(asked := s.asked + todo, owner := None, tasks := map[])
    decreases |todo|
  {
    hide Reach;
    var s1 := GoStep(s0, id, s, k, io);
    if todo == [] {
      assert s1.tasks == map[k := Done];
      s' := GoStep(s0, id, s1, k, io);
      assert s'.tasks == map[];
    } else {
      assert s1.tasks == map[k := Asking(ctx, todo[1..])];
      s' := AsksAll(s0, id, s1, k, ctx, todo[1..], io);
      assert s.asked + todo == s.asked + [todo[0]] + todo[1..];
    }
  }

  /** An incomplete file before its deadline: the processor asks for exactly the missing
      chunks, each once and in order, leaves the file pending and active, and frees slot
      and lock. */
  lemma {:induction false} UndisturbedRequest(s: State, id: FileId, k: nat, meta: Meta, io: Io) returns (s': State)
    requires Idle(s, id) && Plain(io) && |io.indices| < meta.totalChunks && io.now < DeadlineOf(s, id, io)
    ensures Reach(s, id, s') && s'.log == s.log
    ensures s'.asked == s.asked + Missing(io.indices, meta.totalChunks)
    ensures forall i :: i in Missing(io.indices, meta.totalChunks) <==> 0 <= i < meta.totalChunks && i !in io.indices
    ensures s'.pending == Some(ByProcessor) && s'.owner.None? && s'.lock.None? && s'.tasks == map[]
    ensures id in s'.rows && s'.rows[id].completed.None? && s'.rows[id].stopped.None? && s'.rows[id].cancelled.None?
    ensures s'.rows[id].expires == DeadlineOf(s, id, io)
  {
    hide Reach, ContextsOk;
    MissingMeaning(io.indices, meta.totalChunks);
    var s1, row, ctx := Looks(s, id, k, meta, io);
    var missing := Missing(io.indices, meta.totalChunks);
    hide Missing;
    var s2 := GoStep(s, id, s1, k, io);
    assert s2.tasks == map[k := Requesting(ctx, missing)];
    var s3 := GoStep(s, id, s2, k, io);
    assert s3.tasks == map[k := Asking(ctx, missing)];
    s' := AsksAll(s, id, s3, k, ctx, missing, io);
  }

  /** An incomplete file at or past its deadline: the processor stops it, asks for nothing,
      and leaves no pending entry, context, slot or lock. */
  lemma {:induction false} UndisturbedStop(s: State, id: FileId, k: nat, meta: Meta, io: Io) returns (s': State)
    requires Idle(s, id) && Plain(io) && |io.indices| < meta.totalChunks && io.now >= DeadlineOf(s, id, io)
    ensures Reach(s, id, s') && s'.log == s.log && s'.asked == s.asked
    ensures id in s'.rows && s'.rows[id].stopped == Some(io.now) && s'.rows[id].completed.None?
    ensures s'.pending.None? && s'.current.None? && s'.owner.None? && s'.lock.None? && s'.tasks == map[]
  {
    hide Reach, ContextsOk, Missing;
    var s1, row, ctx := Looks(s, id, k, meta, io);
    var s2 := GoStep(s, id, s1, k, io);
    assert s2.tasks == map[k := Stopping(row)];
    var s3 := GoStep(s, id, s2, k, io);
    assert s3.tasks == map[k := Dropping(false, false)];
    var s4 := GoStep(s, id, s3, k, io);
    assert s4.tasks == map[k := Ending];
    s' := Finishes(s, id, s4, k, io);
  }

  lemma {:induction false} Finishes(s0: State, id: FileId, s: State, k: nat, io: Io) returns (s': State)
    requires Reach(s0, id, s) && s.lock.None? && s.tasks == map[k := Ending]
    ensures Reach(s0, id, s') && s' == EndContext(s).(owner := None, tasks := map[])
  {
    hide Reach;
    var s1 := GoStep(s0, id, s, k, io);
    assert s1.tasks == map[k := Done];
    s' := GoStep(s0, id, s1, k, io);
    assert s'.tasks == map[];
  }

  /** A file of that name that hashes to the advertised hash is already in the download
      directory: it is adopted and announced, and nothing is renamed or asked for. */
  lemma {:induction false} UndisturbedAdoption(s: State, id: FileId, k: nat, meta: Meta, data: seq<byte>, io: Io)
    returns (s': State)
    requires Idle(s, id) && io.ok && io.path != "" && io.content == Some(data) && meta.hash == Sha256(data)
    ensures Reach(s, id, s') && s'.log == s.log + [Ready] && s'.asked == s.asked
    ensures id in s'.rows && s'.rows[id].completed == Some(io.now) && s'.rows[id].localPath == io.path
    ensures s'.pending.None? && s'.current.None? && s'.owner.None? && s'.lock.None? && s'.tasks == map[]
  {
    hide Reach, ContextsOk, Decide, EndContext;
    var s1, row := Tracks(s, id, k, meta, io);
    var s2 := Adopts(s, id, s1, k, meta, row, data, io);
    s' := Announces(s, id, s2, k, io);
    hide Idle, Do;
    EndsQuiet(s2);
  }

  lemma {:induction false} Adopts(s0: State, id: FileId, s: State, k: nat, meta: Meta, row: Download, data: seq<byte>,
                                  io: Io)
    returns (s': State)
    requires Reach(s0, id, s) && s.tasks == map[k := Tracked(meta, row)] && row.completed.None?
    requires io.ok && io.path != "" && io.content == Some(data) && meta.hash == Sha256(data)
    requires id in s.rows && s.rows[id].cancelled.None?
    ensures Reach(s0, id, s') && s' == s.(rows := s'.rows, tasks := map[k := Dropping(true, false)])
    ensures id in s'.rows && s'.rows[id].completed == Some(io.now) && s'.rows[id].localPath == io.path
  {
    hide Reach;
    var s1 := GoStep(s0, id, s, k, io);
    assert s1 == s.(tasks := map[k := Checked(meta, row)]);
    s' := GoStep(s0, id, s1, k, io);
    assert s'.tasks == map[k := Dropping(true, false)];
  }

  lemma {:induction false} Announces(s0: State, id: FileId, s: State, k: nat, io: Io) returns (s': State)
    requires Reach(s0, id, s) && s.lock.None? && s.tasks == map[k := Dropping(true, false)]
    ensures Reach(s0, id, s')
    ensures s' == EndContext(s).(pending := None, log := s.log + [Ready], owner := None, tasks := map[])
  {
    hide Reach;
    var s1 := GoStep(s0, id, s, k, io);
    assert s1.tasks == map[k := Announcing(false)];
    var s2 := GoStep(s0, id, s1, k, io);
    assert s2.tasks == map[k := Ending];
    s' := Finishes(s0, id, s2, k, io);
  }

  lemma {:induction false} EndsQuiet(s: State)
    ensures EndContext(s).current.None?
    ensures EndContext(s) == s.(current := None, dead := EndContext(s).dead)
  {
  }

  /** A completed file: if the file at its path still matches it is announced again and the
      row stays; if not, the row is reset, and the processor goes on as for a new file. */
  lemma {:induction false} CompletedFile(s: State, id: FileId, k: nat, meta: Meta, io: Io) returns (s': State)
    requires ContextsOk(s) && s.lock.None? && s.owner.None? && s.tasks == map[] && io.ok
    requires id != "" && id in s.rows && s.rows[id].completed.Some? && s.rows[id].cancelled.None?
    ensures Reach(s, id, s') && id in s'.rows && s'.rows[id].expires == s.rows[id].expires
    ensures Matches(io.content, s.rows[id].localPath, meta.hash, false) ==>
              && s'.log == s.log + [Ready] && s'.rows[id].completed == s.rows[id].completed
              && s'.pending.None? && s'.current.None? && s'.owner.None? && s'.tasks == map[]
    ensures !Matches(io.content, s.rows[id].localPath, meta.hash, false) ==>
              && s'.log == s.log && s'.rows[id].completed.None? && s'.rows[id].localPath == ""
              && s'.tasks == map[k := Checked(meta, s'.rows[id])]
  {
    hide Reach, ContextsOk, Decide, Matches, EndContext;
    var s1 := Enters(s, id, k, meta);
    var s2, row := TracksAgain(s, id, s1, k, meta, io);
    s' := GoStep(s, id, s2, k, io);
    if Matches(io.content, s.rows[id].localPath, meta.hash, false) {
      assert s'.tasks == map[k := Dropping(true, false)];
      EndsQuiet(s');
      s' := Announces(s, id, s', k, io);
    } else {
      assert s'.tasks == map[k := Checked(meta, s'.rows[id])];
    }
  }

  lemma {:induction false} TracksAgain(s0: State, id: FileId, s: State, k: nat, meta: Meta, io: Io)
    returns (s': State, row: Download)
    requires Reach(s0, id, s) && io.ok && id != "" && s.tasks == map[k := Entered(meta)]
    requires id in s.rows && s.rows[id].cancelled.None?
    ensures Reach(s0, id, s') && id in s'.rows && s'.rows[id] == row
    ensures s' == s.(rows := s'.rows, tasks := map[k := Tracked(meta, row)])
    ensures row.completed == s.rows[id].completed && row.localPath == s.rows[id].localPath
    ensures row.expires == s.rows[id].expires && row.cancelled.None?
  {
    hide Reach;
    s' := GoStep(s0, id, s, k, io);
    row := s'.rows[id];
    assert s'.tasks == map[k := Tracked(meta, row)];
  }

  lemma {:induction false} GoCancel(s0: State, id: FileId, s: State, k: nat, io: Io) returns (s': State)
    requires Reach(s0, id, s)
    ensures Reach(s0, id, s') && s' == CancelStep(s, id, k, io)
  {
    hide CancelStep;
    s' := Next(s, id, ACancelStep(k, io));
    Go(s0, id, s, ACancelStep(k, io));
  }

  /** A cancel of a file in work succeeds: the row is cancelled and stopped, the shared
      context dead, the pending entry gone, and the lock free again. */
  lemma {:induction false} UndisturbedCancel(s: State, id: FileId, k: nat, io: Io) returns (s': State)
    requires s.lock.None? && s.cancellers == map[] && io.ok
    requires id in s.rows && s.rows[id].completed.None? && s.rows[id].cancelled.None?
    ensures Reach(s, id, s') && s'.log == s.log + [Cancelled] && s'.tasks == s.tasks
    ensures id in s'.rows && s'.rows[id].cancelled == Some(io.now) && s'.rows[id].stopped == Some(io.now)
    ensures s.current.Some? ==> s.current.value in s'.dead
    ensures s'.current.None? && s'.pending.None? && s'.lock.None? && s'.cancellers == map[]
  {
    assert Exec(s, id, []) == s;
    var s1 := Next(s, id, ACancel(k));
    Go(s, id, s, ACancel(k));
    hide Reach, Step;
    assert s1.cancellers == map[k := Locked];
    var s2 := GoCancel(s, id, s1, k, io);
    assert s2.cancellers == map[k := StoreCancelled];
    var s3 := GoCancel(s, id, s2, k, io);
    assert s3.cancellers == map[k := ContextEnded];
    s' := GoCancel(s, id, s3, k, io);
    assert s'.cancellers == map[];
  }

  lemma {:induction false} WholeOk(meta: Meta, data: seq<byte>, io: Io)
    requires Whole(meta, data, io)
    ensures io.ok && Plain(io)
  {
  }

  lemma {:induction false} ContextsSame(s: State, s': State)
    requires ContextsOk(s) && s'.current == s.current && s'.dead == s.dead && s'.issued == s.issued
    ensures ContextsOk(s')
  {
  }
}

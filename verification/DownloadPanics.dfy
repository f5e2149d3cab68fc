/** A file advertised without chunks: the one input on which a processor panics. */
module DownloadPanics {
  import opened Basics
  import R = DownloadRows
  import opened DownloadRace
  import opened DownloadCompletion

  /** The step indexes past the processor's slots, which ends the whole process. */
  predicate Panics(s: State, a: Action) {
    && a.AStep? && a.k in s.tasks && s.tasks[a.k].Listing? && a.io.ok
    && R.Decide(a.io.indices, s.tasks[a.k].meta.totalChunks, a.io.opens) == R.OutOfRange
  }

  function MetaOf(task: Task): Option<Meta> {
    match task
    case Entered(meta) => Some(meta)
    case Tracked(meta, _) => Some(meta)
    case Checked(meta, _) => Some(meta)
    case Starting(meta, _) => Some(meta)
    case Listing(meta, _, _) => Some(meta)
    case _ => None
  }

  predicate HasChunks(meta: Meta) {
    meta.totalChunks >= 1
  }

  /** Every file handed to a processor is advertised with at least one chunk. */
  predicate AllHaveChunks(run: seq<Action>) {
    forall i :: 0 <= i < |run| && run[i].AEnter? ==> HasChunks(run[i].meta)
  }

  predicate TasksHaveChunks(s: State) {
    forall k <- s.tasks :: MetaOf(s.tasks[k]).Some? ==> HasChunks(MetaOf(s.tasks[k]).value)
  }

  /** Only task k changes, and it keeps its advertised file or has no further use for it. */
  predicate KeepsMeta(s: State, s': State, k: nat) {
    && (forall j <- s'.tasks :: j != k ==> j in s.tasks && s'.tasks[j] == s.tasks[j])
    && (k in s'.tasks && MetaOf(s'.tasks[k]).Some? ==> k in s.tasks && MetaOf(s'.tasks[k]) == MetaOf(s.tasks[k]))
  }

  lemma {:induction false} EarlyKeepsMeta(s: State, id: R.FileId, k: nat, meta: Meta, row: R.Download, io: Io)
    requires k in s.tasks && MetaOf(s.tasks[k]) == Some(meta)
    ensures KeepsMeta(s, Track(s, id, k, meta, io), k)
    ensures KeepsMeta(s, CheckCompleted(s, id, k, meta, row, io), k)
  {
    hide R.Accepts, R.Do, Matches;
  }

  lemma {:induction false} MiddleKeepsMeta(s: State, id: R.FileId, k: nat, meta: Meta, row: R.Download, io: Io)
    requires k in s.tasks && MetaOf(s.tasks[k]) == Some(meta)
    ensures KeepsMeta(s, CheckCandidate(s, id, k, meta, row, io), k)
    ensures KeepsMeta(s, Begin(s, id, k, meta, row, io), k)
  {
    hide R.Accepts, R.Do, Matches;
  }

  lemma {:induction false} ListKeepsMeta(s: State, k: nat, meta: Meta, row: R.Download, ctx: ContextId, io: Io)
    requires k in s.tasks
    ensures KeepsMeta(s, List(s, k, meta, row, ctx, io), k)
  {
    hide R.Decide;
  }

  lemma {:induction false} StopKeepsMeta(s: State, id: R.FileId, k: nat, row: R.Download, io: Io)
    requires k in s.tasks
    ensures KeepsMeta(s, Stop(s, id, k, row, io), k)
  {
    hide R.Accepts, R.Do;
  }

  lemma {:induction false} AskKeepsMeta(s: State, k: nat, ctx: ContextId, todo: seq<int>)
    requires k in s.tasks
    ensures KeepsMeta(s, Request(s, k, ctx, todo), k)
    ensures KeepsMeta(s, Ask(s, k, ctx, todo), k)
  {
  }

  lemma {:induction false} WriteKeepsMeta(s: State, id: R.FileId, k: nat, meta: Meta, ctx: ContextId, data: seq<byte>,
                                          io: Io)
    requires k in s.tasks
    ensures KeepsMeta(s, Write(s, k, meta, ctx, data, io), k)
    ensures MetaOf(s.tasks[k]).None? ==> KeepsMeta(s, Lock(s, id, k, meta, ctx, data, io), k)
  {
  }

  lemma {:induction false} SavingKeepsMeta(s: State, id: R.FileId, k: nat, meta: Meta, ctx: ContextId, data: seq<byte>,
                                           io: Io)
    requires k in s.tasks
    ensures KeepsMeta(s, Publish(s, k, meta, ctx, data, io), k)
    ensures KeepsMeta(s, Mark(s, id, k, io), k)
  {
    hide R.Accepts, R.Do;
  }

  lemma {:induction false} SavedKeepsMeta(s: State, k: nat, announce: bool, ended: bool)
    requires k in s.tasks
    ensures KeepsMeta(s, Drop(s, k, announce, ended), k)
    ensures KeepsMeta(s, Announce(s, k, ended), k)
  {
  }

  lemma {:induction false} EndingKeepsMeta(s: State, k: nat)
    requires k in s.tasks && (s.tasks[k].Saved? || s.tasks[k].Ending?)
    ensures KeepsMeta(s, End(s, k, Dropping(true, true)), k) && KeepsMeta(s, End(s, k, Done), k)
  {
  }

  lemma {:induction false} DoneKeepsMeta(s: State, id: R.FileId, k: nat, io: Io)
    requires k in s.tasks && s.tasks[k].Done?
    ensures KeepsMeta(s, Step(s, id, k, io), k)
  {
  }

  const NO_ROW := R.Download(0, 0, None, None, None, "", "", 0)

  lemma {:induction false} StepKeepsMeta(s: State, id: R.FileId, k: nat, io: Io)
    requires k in s.tasks
    ensures KeepsMeta(s, Step(s, id, k, io), k)
  {
    hide KeepsMeta, Track, CheckCompleted, CheckCandidate, Begin, List, Stop, Request, Ask, Write, Lock, Publish, Mark,
      Drop, Announce, End;
    match s.tasks[k]
    case Entered(meta) => EarlyKeepsMeta(s, id, k, meta, NO_ROW, io);
    case Tracked(meta, row) => EarlyKeepsMeta(s, id, k, meta, row, io);
    case Checked(meta, row) => MiddleKeepsMeta(s, id, k, meta, row, io);
    case Starting(meta, row) => MiddleKeepsMeta(s, id, k, meta, row, io);
    case Listing(meta, row, ctx) => ListKeepsMeta(s, k, meta, row, ctx, io);
    case Stopping(row) => StopKeepsMeta(s, id, k, row, io);
    case Requesting(ctx, missing) => AskKeepsMeta(s, k, ctx, missing);
    case Asking(ctx, todo) => AskKeepsMeta(s, k, ctx, todo);
    case Writing(meta, ctx, data) => WriteKeepsMeta(s, id, k, meta, ctx, data, io);
    case Locking(meta, ctx, data) => WriteKeepsMeta(s, id, k, meta, ctx, data, io);
    case Publishing(meta, ctx, data) => SavingKeepsMeta(s, id, k, meta, ctx, data, io);
    case Marking(meta, ctx, data) => SavingKeepsMeta(s, id, k, meta, ctx, data, io);
    case Dropping(announce, ended) => SavedKeepsMeta(s, k, announce, ended);
    case Announcing(ended) => SavedKeepsMeta(s, k, false, ended);
    case Saved => EndingKeepsMeta(s, k);
    case Ending => EndingKeepsMeta(s, k);
    case Done => DoneKeepsMeta(s, id, k, io);
  }

  lemma {:induction false} StepHasChunks(s: State, id: R.FileId, k: nat, io: Io)
    requires TasksHaveChunks(s)
    ensures TasksHaveChunks(Step(s, id, k, io))
  {
    if k in s.tasks {
      StepKeepsMeta(s, id, k, io);
      hide Step, MetaOf, HasChunks;
    }
  }

  lemma {:induction false} NextHasChunks(s: State, id: R.FileId, a: Action)
    requires TasksHaveChunks(s) && (a.AEnter? ==> HasChunks(a.meta))
    ensures TasksHaveChunks(Next(s, id, a))
  {
    hide Step, HasChunks;
    if a.AStep? {
      StepHasChunks(s, id, a.k, a.io);
    }
  }

  lemma {:induction false} RunHasChunks(rows: R.Downloads, id: R.FileId, run: seq<Action>)
    requires AllHaveChunks(run)
    ensures TasksHaveChunks(Exec(Start(rows), id, run))
  {
    if run != [] {
      RunHasChunks(rows, id, run[..|run|-1]);
      hide Next, TasksHaveChunks;
      NextHasChunks(Exec(Start(rows), id, run[..|run|-1]), id, run[|run|-1]);
    }
  }

  /** If every file is advertised with at least one chunk, no step of any run panics. */
  lemma {:induction false} NoPanicWithChunks(rows: R.Downloads, id: R.FileId, run: seq<Action>, a: Action)
    requires AllHaveChunks(run)
    ensures !Panics(Exec(Start(rows), id, run), a)
  {
    hide Next, R.Decide;
    var s := Exec(Start(rows), id, run);
    RunHasChunks(rows, id, run);
    if a.AStep? && a.k in s.tasks && s.tasks[a.k].Listing? {
      R.OutOfRangeExactly(a.io.indices, s.tasks[a.k].meta.totalChunks, a.io.opens);
    }
  }

  /** A file advertised without chunks, of which a chunk 0 is stored that unmarshals,
      is processed up to the step that panics; the panic takes every processor with it. */
  lemma {:induction false} PanicReached(s: State, id: R.FileId, k: nat, meta: Meta, io: Io) returns (s': State)
    requires Idle(s, id) && Plain(io) && meta.totalChunks < 1 && 0 in io.indices && io.opens
    ensures Reach(s, id, s') && Panics(s', AStep(k, io))
    ensures Next(s', id, AStep(k, io)).tasks == map[] && Next(s', id, AStep(k, io)).owner.None?
  {
    hide Reach, ContextsOk;
    R.OutOfRangeExactly(io.indices, meta.totalChunks, io.opens);
    var s1, row := Tracks(s, id, k, meta, io);
    var s2 := Prepares(s, id, s1, k, meta, row, io);
    ContextsSame(s, s2);
    var s3, ctx := Begins(s, id, s2, k, meta, row, io);
    s' := s3;
    hide R.Decide;
  }
}

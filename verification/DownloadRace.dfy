/** Runs of processors and cancellers of one file, interleaved at every lock boundary:
    internal/messenger/downloads.go with processReceivedFileFromPeer and
    prepareFileDownload of internal/messenger/messenger.go. */
module DownloadRace {
  import opened Basics
  import opened DownloadRows

  /** The advertised hash: missing, a real SHA-256 digest, or any other text. */
  datatype FileHash = NoHash | Sha256(of: seq<byte>) | OtherText(text: string)
  datatype Meta = Meta(filename: string, hash: FileHash, totalChunks: int)

  const FILE_DOWNLOAD_TTL := 7 * 24 * 60 * 60

  type ContextId = nat

  /** A processor that owns the file's slot in processingMsg. `row` is the row as the
      processor last read it. */
  datatype Task =
    | Entered(meta: Meta)
    | Tracked(meta: Meta, row: Download)
    | Checked(meta: Meta, row: Download)
    | Starting(meta: Meta, row: Download)
    | Listing(meta: Meta, row: Download, ctx: ContextId)
    | Stopping(row: Download)
    | Requesting(ctx: ContextId, missing: seq<int>)
    | Asking(ctx: ContextId, todo: seq<int>)
    | Writing(meta: Meta, ctx: ContextId, data: seq<byte>)
    | Locking(meta: Meta, ctx: ContextId, data: seq<byte>)
    | Publishing(meta: Meta, ctx: ContextId, data: seq<byte>)
    | Marking(meta: Meta, ctx: ContextId, data: seq<byte>)
    | Saved
    | Dropping(announce: bool, ended: bool)
    | Announcing(ended: bool)
    | Ending
    | Done

  datatype Canceller = Locked | StoreCancelled | ContextEnded
  datatype Holder = HeldByProcessor(k: nat) | HeldByCanceller(k: nat)
  datatype Source = ByProcessor | ByReplication
  datatype Event = Renamed(hash: FileHash, data: seq<byte>) | Ready | Cancelled

  datatype State = State(
    rows: Downloads,
    lock: Option<Holder>,              // downloadMu
    current: Option<ContextId>,        // downloadContexts[file]
    dead: set<ContextId>,              // contexts whose cancel function was called
    issued: nat,                       // contexts handed out so far
    pending: Option<Source>,           // pendingFileDownloads[file], with who put it there
    owner: Option<nat>,                // processingMsg["file:" + file]
    tasks: map<nat, Task>,
    cancellers: map<nat, Canceller>,
    log: seq<Event>,                   // renames, file_ready events and successful cancels
    asked: seq<int>)                   // chunks asked of other peers

  /** What the world answers to one step: whether I/O succeeds, the clock, the content
      of the file looked at, the stored chunk indices, whether the stored chunk 0
      unmarshals, the decrypted plaintext. */
  datatype Io = Io(ok: bool, now: int, content: Option<seq<byte>>, indices: set<int>, opens: bool,
                   plain: Option<seq<byte>>, path: string)

  datatype Action =
    | AEnter(k: nat, meta: Meta)
    | AStep(k: nat, io: Io)
    | ACancel(k: nat)
    | ACancelStep(k: nat, io: Io)
    | AQueueReplicated
    | AOther(op: Op)
    | ACrash

  predicate IsCancelled(s: State, id: FileId) {
    id in s.rows && s.rows[id].cancelled.Some?
  }

  predicate IsCompleted(s: State, id: FileId) {
    id in s.rows && s.rows[id].completed.Some?
  }

  /** fileMatchesMeta on the content read, if any. */
  predicate Matches(content: Option<seq<byte>>, path: string, hash: FileHash, requireHash: bool) {
    path != "" && !(requireHash && hash.NoHash?) && content.Some? && (hash.NoHash? || hash == Sha256(content.value))
  }

  function At(s: State, k: nat, task: Task): State {
    s.(tasks := s.tasks[k := task])
  }

  // ---- prepareFileDownload ----

  function Track(s: State, id: FileId, k: nat, meta: Meta, io: Io): State {
    var op := DownloadRows.Track(id, meta.filename, meta.totalChunks, io.now, FILE_DOWNLOAD_TTL);
    if !io.ok || !Accepts(s.rows, op) then At(s, k, Ending) else
      var rows := Do(s.rows, op);
      At(s.(rows := rows), k, if rows[id].cancelled.Some? then Dropping(false, false) else Tracked(meta, rows[id]))
  }

  function CheckCompleted(s: State, id: FileId, k: nat, meta: Meta, row: Download, io: Io): State {
    if row.completed.None? then At(s, k, Checked(meta, row))
    else if Matches(io.content, row.localPath, meta.hash, false) then At(s, k, Dropping(true, false))
    else if !io.ok then At(s, k, Ending)
    else At(s.(rows := Do(s.rows, Reset(id))), k, Checked(meta, row.(completed := None, localPath := "")))
  }

  function CheckCandidate(s: State, id: FileId, k: nat, meta: Meta, row: Download, io: Io): State {
    if Matches(io.content, io.path, meta.hash, true) then
      var op := Complete(id, io.path, io.now);
      if io.ok && Accepts(s.rows, op) then At(s.(rows := Do(s.rows, op)), k, Dropping(true, false))
      else At(s, k, Ending)
    else if row.stopped.Some? then At(s, k, Dropping(false, false))
    else At(s, k, Starting(meta, row))
  }

  // ---- processReceivedFileFromPeer ----

  /** beginFileDownload, one critical section of downloadMu. */
  function Begin(s: State, id: FileId, k: nat, meta: Meta, row: Download, io: Io): State {
    if s.lock.Some? then s
    else if !io.ok || id !in s.rows || s.rows[id].cancelled.Some? then At(s, k, Done)
    else if s.current.Some? then At(s, k, Listing(meta, row, s.current.value))
    else At(s.(current := Some(s.issued), issued := s.issued + 1), k, Listing(meta, row, s.issued))
  }

  function List(s: State, k: nat, meta: Meta, row: Download, ctx: ContextId, io: Io): State {
    if !io.ok then At(s, k, Done) else
    match Decide(io.indices, meta.totalChunks, io.opens)
    case RequestMissing =>
      At(s, k, if row.stopped.Some? || io.now >= row.expires then Stopping(row) 
                 else Requesting(ctx, Missing(io.indices, meta.totalChunks)))
    case Assemble =>
      At(s, k,
         if io.plain.Some? && meta.hash == Sha256(io.plain.value) then Writing(meta, ctx, io.plain.value) else Done)
    case GiveUpSilently => At(s, k, Done)
    case OutOfRange => Crashed(s)
  }

  function Stop(s: State, id: FileId, k: nat, row: Download, io: Io): State {
    var rows := if row.stopped.None? && io.ok then Do(s.rows, DownloadRows.Stop(id, io.now)) else s.rows;
    At(s.(rows := rows), k, Dropping(false, false))
  }

  /** Under pendingMu: the context is looked at before the entry is added. */
  function Request(s: State, k: nat, ctx: ContextId, missing: seq<int>): State {
    if ctx in s.dead then At(s, k, Done) else At(s.(pending := Some(ByProcessor)), k, Asking(ctx, missing))
  }

  /** One turn of the loop that asks for the missing chunks. */
  function Ask(s: State, k: nat, ctx: ContextId, todo: seq<int>): State {
    if ctx in s.dead || todo == [] then At(s, k, Done)
    else At(s.(asked := s.asked + [todo[0]]), k, Asking(ctx, todo[1..]))
  }

  // ---- completeFileDownload ----

  function Write(s: State, k: nat, meta: Meta, ctx: ContextId, data: seq<byte>, io: Io): State {
    At(s, k, if ctx in s.dead || !io.ok then Done else Locking(meta, ctx, data))
  }

  function Lock(s: State, id: FileId, k: nat, meta: Meta, ctx: ContextId, data: seq<byte>, io: Io): State {
    if s.lock.Some? then s
    else if ctx in s.dead || !io.ok || id !in s.rows || s.rows[id].cancelled.Some? then At(s, k, Done)
    else At(s.(lock := Some(HeldByProcessor(k))), k, Publishing(meta, ctx, data))
  }

  function Publish(s: State, k: nat, meta: Meta, ctx: ContextId, data: seq<byte>, io: Io): State {
    if io.ok then At(s.(log := s.log + [Renamed(meta.hash, data)]), k, Marking(meta, ctx, data))
    else At(s.(lock := None), k, Done)
  }

  function Mark(s: State, id: FileId, k: nat, io: Io): State {
    var op := Complete(id, io.path, io.now);
    if io.ok && Accepts(s.rows, op) then At(s.(rows := Do(s.rows, op), lock := None), k, Saved)
    else At(s.(lock := None), k, Done)
  }

  /** endFileDownload, one critical section of downloadMu. */
  function End(s: State, k: nat, then_: Task): State {
    if s.lock.Some? then s else At(EndContext(s), k, then_)
  }

  function EndContext(s: State): State {
    if s.current.Some? then s.(current := None, dead := s.dead + {s.current.value}) else s
  }

  function Drop(s: State, k: nat, announce: bool, ended: bool): State {
    At(s.(pending := None), k, if announce then Announcing(ended) else if ended then Done else Ending)
  }

  function Announce(s: State, k: nat, ended: bool): State {
    At(s.(log := s.log + [Ready]), k, if ended then Done else Ending)
  }

  function Step(s: State, id: FileId, k: nat, io: Io): State {
    if k !in s.tasks then s else
    match s.tasks[k]
    case Entered(meta) => Track(s, id, k, meta, io)
    case Tracked(meta, row) => CheckCompleted(s, id, k, meta, row, io)
    case Checked(meta, row) => CheckCandidate(s, id, k, meta, row, io)
    case Starting(meta, row) => Begin(s, id, k, meta, row, io)
    case Listing(meta, row, ctx) => List(s, k, meta, row, ctx, io)
    case Stopping(row) => Stop(s, id, k, row, io)
    case Requesting(ctx, missing) => Request(s, k, ctx, missing)
    case Asking(ctx, todo) => Ask(s, k, ctx, todo)
    case Writing(meta, ctx, data) => Write(s, k, meta, ctx, data, io)
    case Locking(meta, ctx, data) => Lock(s, id, k, meta, ctx, data, io)
    case Publishing(meta, ctx, data) => Publish(s, k, meta, ctx, data, io)
    case Marking(_, _, _) => Mark(s, id, k, io)
    case Saved => End(s, k, Dropping(true, true))
    case Dropping(announce, ended) => Drop(s, k, announce, ended)
    case Announcing(ended) => Announce(s, k, ended)
    case Ending => End(s, k, Done)
    case Done => s.(tasks := s.tasks - {k}, owner := None)
  }

  // ---- CancelFileDownload ----

  /** The whole call holds downloadMu; processors that do not need it run in between. */
  function CancelStep(s: State, id: FileId, k: nat, io: Io): State {
    if k !in s.cancellers then s else
    match s.cancellers[k]
    case Locked =>
      var op := Cancel(id, io.now);
      if io.ok && Accepts(s.rows, op) then
        s.(rows := Do(s.rows, op), log := s.log + [Cancelled], cancellers := s.cancellers[k := StoreCancelled])
      else s.(lock := None, cancellers := s.cancellers - {k})
    case StoreCancelled => EndContext(s).(cancellers := s.cancellers[k := ContextEnded])
    case ContextEnded => s.(pending := None, lock := None, cancellers := s.cancellers - {k})
  }

  /** Rows survive; everything in memory, the contexts included, is gone. */
  function Crashed(s: State): State {
    EndContext(s).(lock := None, pending := None, owner := None, tasks := map[], cancellers := map[])
  }

  function Next(s: State, id: FileId, a: Action): State {
    match a
    case AEnter(k, meta) =>
      if s.owner.Some? then s else s.(owner := Some(k), tasks := s.tasks[k := Entered(meta)])
    case AStep(k, io) => Step(s, id, k, io)
    case ACancel(k) =>
      if s.lock.Some? then s else s.(lock := Some(HeldByCanceller(k)), cancellers := s.cancellers[k := Locked])
    case ACancelStep(k, io) => CancelStep(s, id, k, io)
    case AQueueReplicated => s.(pending := Some(ByReplication))
    case AOther(op) => if op.id == id then s else s.(rows := Do(s.rows, op))
    case ACrash => Crashed(s)
  }

  function Exec(s: State, id: FileId, run: seq<Action>): State {
    if run == [] then s else Next(Exec(s, id, run[..|run|-1]), id, run[|run|-1])
  }

  /** A process start on any well-formed table. */
  function Start(rows: Downloads): State {
    State(rows, None, None, {}, 0, None, None, map[], map[], [], [])
  }

  // ---- The invariant ----

  predicate RowsOk(s: State) {
    forall id <- s.rows :: RowOk(s.rows[id])
  }

  /** A context once handed out is the current one, or dead. */
  predicate ContextsOk(s: State) {
    && (forall c: nat :: c < s.issued ==> c in s.dead || s.current == Some(c))
    && (s.current.Some? ==> s.current.value < s.issued && s.current.value !in s.dead)
    && (forall c <- s.dead :: c < s.issued)
  }

  predicate LogOk(s: State, id: FileId) {
    && (forall i :: 0 <= i < |s.log| && s.log[i].Cancelled? ==> i == |s.log| - 1 && IsCancelled(s, id))
    && (forall i :: 0 <= i < |s.log| && s.log[i].Renamed? ==> s.log[i].hash == Sha256(s.log[i].data))
  }

  /** The lock belongs to a live call, and each canceller at work holds it. */
  predicate LockOk(s: State) {
    && (forall k <- s.cancellers :: s.lock == Some(HeldByCanceller(k)))
    && (s.lock.Some? ==> match s.lock.value
          case HeldByCanceller(k) => k in s.cancellers
          case HeldByProcessor(k) => k in s.tasks && (s.tasks[k].Publishing? || s.tasks[k].Marking?))
  }

  predicate CancellerAt(s: State, phases: set<Canceller>) {
    s.lock.Some? && s.lock.value.HeldByCanceller? && s.lock.value.k in s.cancellers
      && s.cancellers[s.lock.value.k] in phases
  }

  /** For a cancelled file, a live context and a processor's pending entry exist only
      until the canceller reaches them. */
  predicate CancelOk(s: State, id: FileId) {
    IsCancelled(s, id) ==>
      && (s.current.Some? ==> CancellerAt(s, {StoreCancelled}))
      && (s.pending == Some(ByProcessor) ==> CancellerAt(s, {StoreCancelled, ContextEnded}))
  }

  predicate TaskOk(s: State, id: FileId, k: nat, task: Task) {
    match task
    case Tracked(_, row) => row.completed.Some? ==> IsCompleted(s, id)
    case Listing(_, _, ctx) => ctx < s.issued
    case Requesting(ctx, _) => ctx < s.issued
    case Asking(ctx, _) => ctx < s.issued
    case Writing(meta, ctx, data) => ctx < s.issued && meta.hash == Sha256(data)
    case Locking(meta, ctx, data) => ctx < s.issued && meta.hash == Sha256(data)
    case Publishing(meta, ctx, data) =>
      ctx < s.issued && meta.hash == Sha256(data) && s.lock == Some(HeldByProcessor(k)) && !IsCancelled(s, id)
    case Marking(meta, ctx, data) =>
      ctx < s.issued && meta.hash == Sha256(data) && s.lock == Some(HeldByProcessor(k)) && !IsCancelled(s, id)
    case Saved => IsCompleted(s, id)
    case Dropping(announce, _) => announce ==> IsCompleted(s, id)
    case Announcing(_) => IsCompleted(s, id)
    case _ => true
  }

  predicate TasksOk(s: State, id: FileId) {
    forall k <- s.tasks :: s.owner == Some(k) && TaskOk(s, id, k, s.tasks[k])
  }

  predicate Inv(s: State, id: FileId) {
    RowsOk(s) && ContextsOk(s) && LogOk(s, id) && LockOk(s) && CancelOk(s, id) && TasksOk(s, id)
  }

  // ---- Every step keeps it ----

  /** A processor that does not hold the lock moves on to a phase that is in order. */
  lemma {:induction false} AtKeeps(s: State, id: FileId, k: nat, task: Task)
    requires Inv(s, id) && k in s.tasks && !s.tasks[k].Publishing? && !s.tasks[k].Marking?
    requires TaskOk(s, id, k, task)
    ensures Inv(At(s, k, task), id)
  {
    hide RowOk;
  }

  lemma {:induction false} CrashKeeps(s: State, id: FileId)
    requires Inv(s, id)
    ensures Inv(Crashed(s), id)
  {
    hide RowOk, TaskOk;
  }

  lemma {:induction false} TrackKeeps(s: State, id: FileId, k: nat, meta: Meta, io: Io)
    requires Inv(s, id) && k in s.tasks && s.tasks[k] == Entered(meta)
    ensures Inv(Track(s, id, k, meta, io), id)
  {
  }

  lemma {:induction false} ResetKeeps(s: State, id: FileId, k: nat, meta: Meta, row: Download)
    requires Inv(s, id) && k in s.tasks && s.tasks[k] == Tracked(meta, row)
    ensures Inv(At(s.(rows := Do(s.rows, Reset(id))), k, Checked(meta, row.(completed := None, localPath := ""))), id)
  {
  }

  lemma {:induction false} CheckCompletedKeeps(s: State, id: FileId, k: nat, meta: Meta, row: Download, io: Io)
    requires Inv(s, id) && k in s.tasks && s.tasks[k] == Tracked(meta, row)
    ensures Inv(CheckCompleted(s, id, k, meta, row, io), id)
  {
    hide Matches;
    if row.completed.Some? && !Matches(io.content, row.localPath, meta.hash, false) && io.ok {
      ResetKeeps(s, id, k, meta, row);
    } else {
      assert TaskOk(s, id, k, s.tasks[k]);
      hide Inv;
      AtKeeps(s, id, k, CheckCompleted(s, id, k, meta, row, io).tasks[k]);
    }
  }

  lemma {:induction false} AdoptKeeps(s: State, id: FileId, k: nat, meta: Meta, row: Download, io: Io)
    requires Inv(s, id) && k in s.tasks && s.tasks[k] == Checked(meta, row)
    requires Accepts(s.rows, Complete(id, io.path, io.now))
    ensures Inv(At(s.(rows := Do(s.rows, Complete(id, io.path, io.now))), k, Dropping(true, false)), id)
  {
  }

  lemma {:induction false} CheckCandidateKeeps(s: State, id: FileId, k: nat, meta: Meta, row: Download, io: Io)
    requires Inv(s, id) && k in s.tasks && s.tasks[k] == Checked(meta, row)
    ensures Inv(CheckCandidate(s, id, k, meta, row, io), id)
  {
    hide Matches;
    if Matches(io.content, io.path, meta.hash, true) && io.ok && Accepts(s.rows, Complete(id, io.path, io.now)) {
      AdoptKeeps(s, id, k, meta, row, io);
    } else {
      hide Inv, Accepts, Do;
      AtKeeps(s, id, k, CheckCandidate(s, id, k, meta, row, io).tasks[k]);
    }
  }

  lemma {:induction false} BeginKeeps(s: State, id: FileId, k: nat, meta: Meta, row: Download, io: Io)
    requires Inv(s, id) && k in s.tasks && s.tasks[k] == Starting(meta, row)
    ensures Inv(Begin(s, id, k, meta, row, io), id)
  {
  }

  lemma {:induction false} ListKeeps(s: State, id: FileId, k: nat, meta: Meta, row: Download, ctx: ContextId, io: Io)
    requires Inv(s, id) && k in s.tasks && s.tasks[k] == Listing(meta, row, ctx)
    ensures Inv(List(s, k, meta, row, ctx, io), id)
  {
    assert TaskOk(s, id, k, s.tasks[k]);
    hide Decide, RowOk, Inv, At, Crashed;
    if io.ok && Decide(io.indices, meta.totalChunks, io.opens) == OutOfRange {
      CrashKeeps(s, id);
    } else {
      AtKeeps(s, id, k, List(s, k, meta, row, ctx, io).tasks[k]);
    }
  }

  lemma {:induction false} StopKeeps(s: State, id: FileId, k: nat, row: Download, io: Io)
    requires Inv(s, id) && k in s.tasks && s.tasks[k] == Stopping(row)
    ensures Inv(Stop(s, id, k, row, io), id)
  {
  }

  /** A live context means the canceller has not yet reached it. */
  lemma {:induction false} RequestKeeps(s: State, id: FileId, k: nat, ctx: ContextId, missing: seq<int>)
    requires Inv(s, id) && k in s.tasks && s.tasks[k] == Requesting(ctx, missing)
    ensures Inv(Request(s, k, ctx, missing), id)
  {
    hide RowOk;
  }

  lemma {:induction false} AskKeeps(s: State, id: FileId, k: nat, ctx: ContextId, todo: seq<int>)
    requires Inv(s, id) && k in s.tasks && s.tasks[k] == Asking(ctx, todo)
    ensures Inv(Ask(s, k, ctx, todo), id)
  {
    hide RowOk;
  }

  lemma {:induction false} WriteKeeps(s: State, id: FileId, k: nat, meta: Meta, ctx: ContextId, data: seq<byte>, io: Io)
    requires Inv(s, id) && k in s.tasks && s.tasks[k] == Writing(meta, ctx, data)
    ensures Inv(Write(s, k, meta, ctx, data, io), id)
  {
    hide RowOk;
  }

  /** The lock is taken only when the row is not cancelled, and then it cannot become so. */
  lemma {:induction false} LockKeeps(s: State, id: FileId, k: nat, meta: Meta, ctx: ContextId, data: seq<byte>, io: Io)
    requires Inv(s, id) && k in s.tasks && s.tasks[k] == Locking(meta, ctx, data)
    ensures Inv(Lock(s, id, k, meta, ctx, data, io), id)
  {
    hide RowOk;
  }

  lemma {:induction false} PublishKeeps(s: State, id: FileId, k: nat, meta: Meta, ctx: ContextId, data: seq<byte>,
                                        io: Io)
    requires Inv(s, id) && k in s.tasks && s.tasks[k] == Publishing(meta, ctx, data)
    ensures Inv(Publish(s, k, meta, ctx, data, io), id)
  {
    hide RowOk;
  }

  lemma {:induction false} MarkKeeps(s: State, id: FileId, k: nat, meta: Meta, ctx: ContextId, data: seq<byte>, io: Io)
    requires Inv(s, id) && k in s.tasks && s.tasks[k] == Marking(meta, ctx, data)
    ensures Inv(Mark(s, id, k, io), id)
  {
  }

  lemma {:induction false} DropKeeps(s: State, id: FileId, k: nat, announce: bool, ended: bool)
    requires Inv(s, id) && k in s.tasks && s.tasks[k] == Dropping(announce, ended)
    ensures Inv(Drop(s, k, announce, ended), id)
  {
    hide RowOk;
  }

  /** The row is completed, so no cancel can have succeeded. */
  lemma {:induction false} AnnounceKeeps(s: State, id: FileId, k: nat, ended: bool)
    requires Inv(s, id) && k in s.tasks && s.tasks[k] == Announcing(ended)
    ensures Inv(Announce(s, k, ended), id)
  {
  }

  lemma {:induction false} EndKeeps(s: State, id: FileId, k: nat, then_: Task)
    requires Inv(s, id) && k in s.tasks
    requires (s.tasks[k] == Saved && then_ == Dropping(true, true)) || (s.tasks[k] == Ending && then_ == Done)
    ensures Inv(End(s, k, then_), id)
  {
    hide RowOk;
  }

  lemma {:induction false} StoreCancelKeeps(s: State, id: FileId, k: nat, io: Io)
    requires Inv(s, id) && k in s.cancellers && s.cancellers[k].Locked?
    ensures Inv(CancelStep(s, id, k, io), id)
  {
  }

  lemma {:induction false} CancelKeeps(s: State, id: FileId, k: nat, io: Io)
    requires Inv(s, id)
    ensures Inv(CancelStep(s, id, k, io), id)
  {
    hide RowOk;
    if k in s.cancellers && s.cancellers[k].Locked? {
      StoreCancelKeeps(s, id, k, io);
    }
  }

  lemma {:induction false} StepKeeps(s: State, id: FileId, k: nat, io: Io)
    requires Inv(s, id)
    ensures Inv(Step(s, id, k, io), id)
  {
    hide Track, CheckCompleted, CheckCandidate, Begin, List, Stop, Request, Ask, Write, Lock, Publish, Mark, End, Drop,
         Announce, RowOk;
    if k in s.tasks {
      match s.tasks[k]
      case Entered(meta) => TrackKeeps(s, id, k, meta, io);
      case Tracked(meta, row) => CheckCompletedKeeps(s, id, k, meta, row, io);
      case Checked(meta, row) => CheckCandidateKeeps(s, id, k, meta, row, io);
      case Starting(meta, row) => BeginKeeps(s, id, k, meta, row, io);
      case Listing(meta, row, ctx) => ListKeeps(s, id, k, meta, row, ctx, io);
      case Stopping(row) => StopKeeps(s, id, k, row, io);
      case Requesting(ctx, missing) => RequestKeeps(s, id, k, ctx, missing);
      case Asking(ctx, todo) => AskKeeps(s, id, k, ctx, todo);
      case Writing(meta, ctx, data) => WriteKeeps(s, id, k, meta, ctx, data, io);
      case Locking(meta, ctx, data) => LockKeeps(s, id, k, meta, ctx, data, io);
      case Publishing(meta, ctx, data) => PublishKeeps(s, id, k, meta, ctx, data, io);
      case Marking(meta, ctx, data) => MarkKeeps(s, id, k, meta, ctx, data, io);
      case Saved => EndKeeps(s, id, k, Dropping(true, true));
      case Dropping(announce, ended) => DropKeeps(s, id, k, announce, ended);
      case Announcing(ended) => AnnounceKeeps(s, id, k, ended);
      case Ending => EndKeeps(s, id, k, Done);
      case Done =>
    }
  }

  /** Operations on other files leave this file's row alone. */
  lemma {:induction false} OtherKeeps(s: State, id: FileId, op: Op)
    requires Inv(s, id) && op.id != id
    ensures Inv(s.(rows := Do(s.rows, op)), id)
  {
  }

  lemma {:induction false} NextKeeps(s: State, id: FileId, a: Action)
    requires Inv(s, id)
    ensures Inv(Next(s, id, a), id)
  {
    hide Step, CancelStep, Crashed;
    match a
    case ACrash => CrashKeeps(s, id);
    case AOther(op) => if op.id != id { OtherKeeps(s, id, op); }
    case AStep(k, io) => StepKeeps(s, id, k, io);
    case ACancelStep(k, io) => CancelKeeps(s, id, k, io);
    case _ =>
  }

  lemma {:induction false} RunKeeps(rows: Downloads, id: FileId, run: seq<Action>)
    requires RowsOk(Start(rows))
    ensures Inv(Exec(Start(rows), id, run), id)
  {
    hide Next;
    if run != [] {
      RunKeeps(rows, id, run[..|run|-1]);
      NextKeeps(Exec(Start(rows), id, run[..|run|-1]), id, run[|run|-1]);
    }
  }

  // ---- Theorems ----

  /** In every run, a successful cancel is the last event of the file: no rename, no
      file_ready and no second cancel follows it. */
  lemma {:induction false} NothingAfterCancel(rows: Downloads, id: FileId, run: seq<Action>, i: nat, j: nat)
    requires RowsOk(Start(rows))
    requires i < j < |Exec(Start(rows), id, run).log|
    ensures !Exec(Start(rows), id, run).log[i].Cancelled?
  {
    RunKeeps(rows, id, run);
  }

  /** Every file moved into place hashes to the advertised file hash. */
  lemma {:induction false} RenamedFilesMatch(rows: Downloads, id: FileId, run: seq<Action>, i: nat)
    requires RowsOk(Start(rows))
    requires i < |Exec(Start(rows), id, run).log| && Exec(Start(rows), id, run).log[i].Renamed?
    ensures Exec(Start(rows), id, run).log[i].hash == Sha256(Exec(Start(rows), id, run).log[i].data)
  {
    RunKeeps(rows, id, run);
  }

  /** Whenever no call is inside downloadMu, a cancelled file has no live context: the
      map has no entry, every context ever handed out for it is dead, and it waits for
      chunks only if replication queued it again. */
  lemma {:induction false} CancelledFileIsQuiet(rows: Downloads, id: FileId, run: seq<Action>)
    requires RowsOk(Start(rows))
    ensures var s := Exec(Start(rows), id, run);
            s.lock.None? && IsCancelled(s, id) ==>
              && s.current.None?
              && (forall c: nat :: c < s.issued ==> c in s.dead)
              && s.pending != Some(ByProcessor)
  {
    RunKeeps(rows, id, run);
  }

  /** Once a cancel has returned, no step of any processor asks a peer for a chunk. */
  lemma {:induction false} NothingAskedOnceCancelled(rows: Downloads, id: FileId, run: seq<Action>, a: Action)
    requires RowsOk(Start(rows))
    ensures var s := Exec(Start(rows), id, run);
            s.lock.None? && IsCancelled(s, id) ==> Next(s, id, a).asked == s.asked
  {
    CancelledFileIsQuiet(rows, id, run);
    RunKeeps(rows, id, run);
    var s := Exec(Start(rows), id, run);
    hide Exec, Accepts, Do, Decide, Matches, CancelOk, LogOk, LockOk, RowsOk, ContextsOk;
    if a.AStep? && a.k in s.tasks && s.tasks[a.k].Asking? {
      assert TaskOk(s, id, a.k, s.tasks[a.k]);
    }
  }

  predicate NeverQueued(run: seq<Action>) {
    forall i :: 0 <= i < |run| ==> !run[i].AQueueReplicated?
  }

  lemma {:induction false} StepQueuesNone(s: State, id: FileId, k: nat, io: Io)
    requires s.pending != Some(ByReplication)
    ensures Step(s, id, k, io).pending != Some(ByReplication)
  {
    hide Do, Accepts, Decide, Matches;
  }

  lemma {:induction false} QueuesNone(rows: Downloads, id: FileId, run: seq<Action>)
    requires NeverQueued(run)
    ensures Exec(Start(rows), id, run).pending != Some(ByReplication)
  {
    if run != [] {
      var init, a := run[..|run|-1], run[|run|-1];
      QueuesNone(rows, id, init);
      hide Step, Do, Accepts;
      if a.AStep? {
        StepQueuesNone(Exec(Start(rows), id, init), id, a.k, a.io);
      }
    }
  }

  /** In every run in which replication never queues the file: with downloadMu free, a
      cancelled file is not pending. */
  lemma {:induction false} CancelledIsNotPending(rows: Downloads, id: FileId, run: seq<Action>)
    requires RowsOk(Start(rows)) && NeverQueued(run)
    ensures var s := Exec(Start(rows), id, run);
            s.lock.None? && IsCancelled(s, id) ==> s.pending.None?
  {
    CancelledFileIsQuiet(rows, id, run);
    QueuesNone(rows, id, run);
    hide Exec;
    var source := Exec(Start(rows), id, run).pending;
    assert source.Some? ==> source.value.ByProcessor? || source.value.ByReplication?;
  }

  /** Replication does put a cancelled file back among the pending ones. */
  lemma {:induction false} ReplicationRequeuesCancelled(rows: Downloads, id: FileId)
    requires RowsOk(Start(rows)) && id in rows && rows[id].cancelled.Some?
    ensures var s := Exec(Start(rows), id, [AQueueReplicated]); IsCancelled(s, id) && s.pending == Some(ByReplication)
  {
    assert [AQueueReplicated][..0] == [];
    assert Exec(Start(rows), id, []) == Start(rows);
  }
}

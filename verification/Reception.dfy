/** The receiving end: polls of the chunk directory, retries, direct deliveries, local
    sends, imports, cleanups and crashes, interleaved between any two store calls.
    internal/messenger/messages.go, retryFailedChunks of internal/messenger/chunks.go
    and internal/store/trackStore.go. A message's id is the file id of its chunks. */
module Reception {
  import opened Basics

  type FileId = string
  type Recipient = string

  /** A chunk record of the directory server. */
  datatype Record = Record(file: FileId, index: int, recipient: Recipient, peer: string, createdAt: int, updatedAt: int,
                           ttl: int, persist: bool)

  function Stamp(r: Record): int {
    if r.updatedAt == 0 then r.createdAt else r.updatedAt
  }

  /** The greatest stamp of a reply, from a starting value on. */
  function Greatest(last: int, records: seq<Record>): int
    decreases |records|
  {
    if records == [] then last else Greatest(Max(last, Stamp(records[0])), records[1..])
  }

  datatype Key = Key(file: FileId, index: int)
  datatype RetryRow = RetryRow(recipient: Recipient, created: int, ttl: int)
  datatype Listed = Listed(key: Key, row: RetryRow)

  const DEFAULT_TTL := 604800

  predicate Expired(row: RetryRow, now: int) {
    row.created + row.ttl <= now
  }

  /** One call of collectAndProcessMessage. */
  datatype Phase =
    | Trying
    | Rechecking
    | Tracking(next: nat)
    | Working
    | Clearing(publish: bool)
    | Publishing
    | Releasing(tracked: bool)
    | Returned(tracked: bool)
  datatype Collect = Collect(file: FileId, records: seq<Record>, phase: Phase)

  /** One call of checkRecipientMessages that has its reply; `horizon` is the directory's
      clock at the reply, and `unfailed` says that todo[0] had no retry row. */
  datatype Poll = Poll(recipient: Recipient, lastCheck: int, horizon: int, newLast: int, todo: seq<Record>,
                       unfailed: bool, groups: map<FileId, seq<Record>>, safe: bool)
  /** One call of retryFailedChunks. */
  datatype Retry = Retry(now: int, rows: seq<Listed>, seen: set<FileId>)

  datatype Task =
    | Fetching(recipient: Recipient, lastCheck: int)
    | Polling(poll: Poll, call: Option<Collect>)
    | Listing(recipient: Recipient)
    | Retrying(retry: Retry, call: Option<Collect>)
    | Announcing(id: FileId)

  datatype State = State(
    now: int,                           // this device's clock
    clock: int,                         // the directory's clock
    directory: set<Record>,
    persistent: set<FileId>,            // the files, as opposed to messages; fixed
    cursors: map<Recipient, int>,       // last_check
    retry: map<Key, RetryRow>,          // failed_chunks
    stored: set<FileId>,                // messages
    expired: set<FileId>,               // files of which an expired retry row was removed
    processing: set<FileId>,            // processingMsg
    tasks: map<nat, Task>,
    published: seq<FileId>)

  datatype Choice = TrackAgain(record: Record) | GiveUp | Finish
  /** What the world answers to one step. */
  datatype Io = Io(ok: bool, reply: seq<Record>, listed: seq<Listed>, file: FileId, choice: Choice)

  datatype Action =
    | APoll(k: nat, recipient: Recipient, ok: bool)
    | AStep(k: nat, io: Io)
    | ADirect(k: nat, id: FileId, ok: bool)
    | ASend(k: nat, id: FileId, ok: bool)
    | AImport(ids: set<FileId>)
    | ACleanup(now: int)
    | ARegister(record: Record)
    | AForget(record: Record)
    | ATime(now: int, clock: int)
    | ACrash

  function At(s: State, k: nat, task: Task): State {
    s.(tasks := s.tasks[k := task])
  }

  // ---- failed_chunks ----

  /** INSERT OR IGNORE of a retry row created now. */
  function AddRetry(s: State, file: FileId, r: Record): State {
    var key := Key(file, r.index);
    if key in s.retry then s
    else s.(retry := s.retry[key := RetryRow(r.recipient, s.now, if r.ttl <= 0 then DEFAULT_TTL else r.ttl)])
  }

  function ClearRetry(s: State, file: FileId): State {
    s.(retry := map key <- s.retry | key.file != file :: s.retry[key])
  }

  /** Deletes by key, whatever row is there now. */
  function DeleteRetry(s: State, key: Key): State {
    if key !in s.retry then s else
      s.(retry := s.retry - {key},
         expired := if Expired(s.retry[key], s.now) then s.expired + {key.file} else s.expired)
  }

  function Cleanup(s: State, now: int): State {
    s.(retry := map key <- s.retry | !Expired(s.retry[key], now) :: s.retry[key],
       expired := s.expired + set key <- s.retry | Expired(s.retry[key], now) :: key.file)
  }

  // ---- collectAndProcessMessage ----

  datatype Outcome = Outcome(state: State, phase: Phase)

  function Collecting(s: State, c: Collect, io: Io): Outcome {
    match c.phase
    case Trying =>
      if c.file in s.processing then Outcome(s, Returned(false))
      else Outcome(s.(processing := s.processing + {c.file}), Rechecking)
    case Rechecking =>
      Outcome(s, if io.ok && c.file in s.stored then Clearing(false) else Tracking(0))
    case Tracking(i) =>
      if i >= |c.records| then Outcome(s, Working)
      else if io.ok then Outcome(AddRetry(s, c.file, c.records[i]), Tracking(i + 1))
      else Outcome(s, Releasing(false))
    case Working => Work(s, c, io)
    case Clearing(publish) =>
      Outcome(if io.ok then ClearRetry(s, c.file) else s, if publish then Publishing else Releasing(true))
    case Publishing => Outcome(s.(published := s.published + [c.file]), Releasing(true))
    case Releasing(tracked) => Outcome(s.(processing := s.processing - {c.file}), Returned(tracked))
    case Returned(_) => Outcome(s, c.phase)
  }

  /** Fetching, checking and decrypting: it may add retry rows and may give up at any
      point; only success reaches the last branches. A file is left to its message, a
      message is saved unless its id is taken. */
  function Work(s: State, c: Collect, io: Io): Outcome {
    match io.choice
    case TrackAgain(r) => Outcome(if io.ok && r in c.records then AddRetry(s, c.file, r) else s, Working)
    case GiveUp => Outcome(s, Releasing(true))
    case Finish =>
      if |c.records| > 0 && c.records[0].persist then Outcome(s, Clearing(false))
      else if io.ok && c.file !in s.stored then Outcome(s.(stored := s.stored + {c.file}), Clearing(true))
      else Outcome(s, Releasing(true))
  }

  // ---- checkRecipientMessages ----

  /** The reply holds at least every record of the recipient stamped at the cursor or
      later: the request starts at lastCheck - 1. */
  predicate Answers(s: State, recipient: Recipient, lastCheck: int, reply: seq<Record>) {
    && (forall r <- reply :: r in s.directory)
    && (forall r <- s.directory :: r.recipient == recipient && Stamp(r) >= lastCheck ==> r in reply)
  }

  function Fetch(s: State, k: nat, recipient: Recipient, lastCheck: int, io: Io): State {
    if !io.ok then s.(tasks := s.tasks - {k})
    else if !Answers(s, recipient, lastCheck, io.reply) then s
    else At(s, k, Polling(Poll(recipient, lastCheck, s.clock, lastCheck, io.reply, false, map[], true), None))
  }

  /** The group of the first record of `todo`, with that record appended. */
  function Grouped(p: Poll): map<FileId, seq<Record>>
    requires p.todo != []
  {
    var c := p.todo[0];
    p.groups[c.file := (if c.file in p.groups then p.groups[c.file] else []) + [c]]
  }

  /** IsChunkFailed, then FindMessageById, for the first record of `todo`. */
  function Sort(s: State, p: Poll, io: Io): Poll
    requires p.todo != []
  {
    var c := p.todo[0];
    if !p.unfailed then
      var p' := p.(newLast := Max(p.newLast, Stamp(c)));
      if io.ok && Key(c.file, c.index) in s.retry then p'.(todo := p.todo[1..]) else p'.(unfailed := true)
    else if io.ok && c.file in s.stored then p.(todo := p.todo[1..], unfailed := false)
    else p.(todo := p.todo[1..], unfailed := false, groups := Grouped(p))
  }

  function PollStep(s: State, k: nat, p: Poll, io: Io): State {
    if p.todo != [] then At(s, k, Polling(Sort(s, p, io), None))
    else if io.file in p.groups then
      At(s, k, Polling(p.(groups := p.groups - {io.file}), Some(Collect(io.file, p.groups[io.file], Trying))))
    else if p.groups != map[] then s
    else At(Advance(s, p, io), k, Listing(p.recipient))
  }

  /** The cursor is replaced, never merged with what another poll wrote meanwhile. */
  function Advance(s: State, p: Poll, io: Io): State {
    if p.safe && p.newLast > p.lastCheck && io.ok then s.(cursors := s.cursors[p.recipient := p.newLast]) else s
  }

  // ---- retryFailedChunks ----

  function List(s: State, k: nat, recipient: Recipient, io: Io): State {
    if io.ok && (forall l <- io.listed ::
                    l.key in s.retry && s.retry[l.key] == l.row && l.row.recipient == recipient) then
      At(s, k, Retrying(Retry(s.now, io.listed, {}), None))
    else s.(tasks := s.tasks - {k})
  }

  function RetryStep(s: State, k: nat, r: Retry, io: Io): State {
    if r.rows == [] then s.(tasks := s.tasks - {k}) else
      var l := r.rows[0];
      var rest := r.(rows := r.rows[1..]);
      if Expired(l.row, r.now) then At(if io.ok then DeleteRetry(s, l.key) else s, k, Retrying(rest, None))
      else if l.key.file in r.seen then At(s, k, Retrying(rest, None))
      else
        var rest' := rest.(seen := r.seen + {l.key.file});
        if io.ok && io.reply != [] && (forall rec <- io.reply :: rec in s.directory && rec.file == l.key.file) then
          At(s, k, Retrying(rest', Some(Collect(l.key.file, io.reply, Trying))))
        else At(s, k, Retrying(rest', None))
  }

  // ---- Steps ----

  function Step(s: State, k: nat, io: Io): State {
    if k !in s.tasks then s else
    match s.tasks[k]
    case Fetching(recipient, lastCheck) => Fetch(s, k, recipient, lastCheck, io)
    case Polling(p, None) => PollStep(s, k, p, io)
    case Polling(p, Some(c)) => PollCall(s, k, p, c, io)
    case Listing(recipient) => List(s, k, recipient, io)
    case Retrying(r, None) => RetryStep(s, k, r, io)
    case Retrying(r, Some(c)) => RetryCall(s, k, r, c, io)
    case Announcing(id) => s.(published := s.published + [id], tasks := s.tasks - {k})
  }

  /** A message that could not be tracked keeps the cursor where it is. */
  function PollCall(s: State, k: nat, p: Poll, c: Collect, io: Io): State {
    if c.phase.Returned? then At(s, k, Polling(p.(safe := p.safe && c.phase.tracked), None))
    else var o := Collecting(s, c, io); At(o.state, k, Polling(p, Some(c.(phase := o.phase))))
  }

  function RetryCall(s: State, k: nat, r: Retry, c: Collect, io: Io): State {
    if c.phase.Returned? then At(s, k, Retrying(r, None))
    else var o := Collecting(s, c, io); At(o.state, k, Retrying(r, Some(c.(phase := o.phase))))
  }

  /** SaveMessage by processRTCMessages, or QueueOutgoing by prepareOutgoing: whoever
      commits the row announces it next. */
  function Commit(s: State, k: nat, id: FileId, ok: bool): State {
    if k in s.tasks || !ok || id in s.stored then s
    else At(s.(stored := s.stored + {id}), k, Announcing(id))
  }

  function Next(s: State, a: Action): State {
    match a
    case APoll(k, recipient, ok) =>
      if k in s.tasks then s
      else At(s, k, Fetching(recipient, CursorOf(s, recipient, ok)))
    case AStep(k, io) => Step(s, k, io)
    case ADirect(k, id, ok) => Commit(s, k, id, ok)
    case ASend(k, id, ok) => Commit(s, k, id, ok)
    case AImport(ids) => s.(stored := s.stored + ids)
    case ACleanup(now) => if now <= s.now then Cleanup(s, now) else s
    case ARegister(r) =>
      if Stamp(r) == s.clock && (r.persist <==> r.file in s.persistent) then s.(directory := s.directory + {r}) else s
    case AForget(r) => s.(directory := s.directory - {r})
    case ATime(now, clock) => s.(now := Max(s.now, now), clock := Max(s.clock, clock))
    case ACrash => s.(processing := {}, tasks := map[])
  }

  /** The cursor a poll starts from: an unsaved one, and one that cannot be read, is 0. */
  function CursorOf(s: State, recipient: Recipient, ok: bool): int {
    if ok && recipient in s.cursors then s.cursors[recipient] else 0
  }

  function Exec(s: State, run: seq<Action>): State {
    if run == [] then s else Next(Exec(s, run[..|run|-1]), run[|run|-1])
  }

  function Start(now: int, clock: nat, persistent: set<FileId>): State {
    State(now, clock, {}, persistent, map[], map[], {}, {}, {}, map[], [])
  }
}

/** No missed receive: what lies behind the receive cursor is stored, or waits for a
    retry, or had its retry row removed by its time to live. */
module ReceptionCoverage {
  import opened Basics
  import opened Reception

  // ---- The invariant ----

  predicate Settled(s: State, file: FileId) {
    file in s.persistent || file in s.stored || file in s.expired
  }

  /** Settled is for ever; a retry row goes only when the file becomes settled. */
  predicate Safe(s: State, file: FileId) {
    Settled(s, file) || exists key <- s.retry :: key.file == file
  }

  predicate Covered(s: State, recipient: Recipient, bound: int) {
    forall r <- s.directory :: r.recipient == recipient && Stamp(r) < bound ==> Safe(s, r.file)
  }

  predicate Honest(s: State, r: Record) {
    r.persist <==> r.file in s.persistent
  }

  predicate DirectoryOk(s: State) {
    && s.clock >= 0
    && forall r <- s.directory :: 0 <= Stamp(r) <= s.clock && Honest(s, r)
  }

  predicate CursorsOk(s: State) {
    forall recipient <- s.cursors :: s.cursors[recipient] <= s.clock && Covered(s, recipient, s.cursors[recipient])
  }

  /** The listed row is still there, unless the file is settled. */
  predicate StillThere(s: State, l: Listed) {
    Settled(s, l.key.file) || (l.key in s.retry && s.retry[l.key] == l.row)
  }

  predicate CollectOk(s: State, c: Collect) {
    && c.records != []
    && (forall r <- c.records :: r.file == c.file && Honest(s, r))
    && match c.phase
       case Trying => true
       case Rechecking => true
       case Tracking(next) => next == 0 || Safe(s, c.file)
       case Working => Safe(s, c.file)
       case Clearing(_) => Settled(s, c.file)
       case Publishing => Safe(s, c.file)
       case Releasing(tracked) => tracked ==> Safe(s, c.file)
       case Returned(tracked) => tracked ==> Safe(s, c.file)
  }

  /** Every record before the horizon is safe, or still on its way through the poll, or
      the poll will not advance the cursor. */
  predicate Accounted(s: State, p: Poll, call: Option<Collect>) {
    forall r <- s.directory :: r.recipient == p.recipient && Stamp(r) < p.horizon ==>
      Safe(s, r.file) || r in p.todo || r.file in p.groups || !p.safe || (call.Some? && call.value.file == r.file)
  }

  predicate PollOk(s: State, p: Poll, call: Option<Collect>) {
    && p.newLast <= p.horizon <= s.clock
    && (forall r <- p.todo :: Stamp(r) <= p.horizon && Honest(s, r))
    && (forall f <- p.groups :: p.groups[f] != [] && forall r <- p.groups[f] :: r.file == f && Honest(s, r))
    && Accounted(s, p, call)
    && (call.Some? ==> CollectOk(s, call.value))
  }

  predicate RetryOk(s: State, r: Retry, call: Option<Collect>) {
    && r.now <= s.now
    && (forall l <- r.rows :: StillThere(s, l))
    && (call.Some? ==> CollectOk(s, call.value))
  }

  predicate TaskOk(s: State, task: Task) {
    match task
    case Fetching(recipient, lastCheck) => lastCheck <= s.clock && Covered(s, recipient, lastCheck)
    case Polling(p, call) => PollOk(s, p, call)
    case Listing(_) => true
    case Retrying(r, call) => RetryOk(s, r, call)
    case Announcing(_) => true
  }

  predicate TasksOk(s: State) {
    forall k <- s.tasks :: TaskOk(s, s.tasks[k])
  }

  predicate Inv(s: State) {
    DirectoryOk(s) && CursorsOk(s) && TasksOk(s)
  }

  // ---- What every step keeps ----

  /** A row stays as it is until its file is settled; new records are stamped with the
      directory's clock. */
  predicate Grows(s: State, s': State) {
    && s.persistent == s'.persistent && s.stored <= s'.stored && s.expired <= s'.expired
    && s.now <= s'.now && s.clock <= s'.clock
    && (forall key <- s.retry :: Settled(s', key.file) || (key in s'.retry && s'.retry[key] == s.retry[key]))
    && (forall r <- s'.directory :: r in s.directory || Stamp(r) >= s.clock)
  }

  lemma {:induction false} SafeStable(s: State, s': State, file: FileId)
    requires Grows(s, s') && Safe(s, file)
    ensures Safe(s', file)
  {
    if !Settled(s, file) {
      var key :| key in s.retry && key.file == file;
      assert Settled(s', file) || key in s'.retry;
    }
  }

  lemma {:induction false} CoveredStable(s: State, s': State, recipient: Recipient, bound: int)
    requires Grows(s, s') && Covered(s, recipient, bound) && bound <= s.clock
    ensures Covered(s', recipient, bound)
  {
    hide Safe;
    forall r <- s'.directory | r.recipient == recipient && Stamp(r) < bound
      ensures Safe(s', r.file)
    {
      SafeStable(s, s', r.file);
    }
  }

  lemma {:induction false} CollectStable(s: State, s': State, c: Collect)
    requires Grows(s, s') && CollectOk(s, c)
    ensures CollectOk(s', c)
  {
    hide Safe;
    if Safe(s, c.file) {
      SafeStable(s, s', c.file);
    }
  }

  lemma {:induction false} PollStable(s: State, s': State, p: Poll, call: Option<Collect>)
    requires Grows(s, s') && PollOk(s, p, call)
    ensures PollOk(s', p, call)
  {
    hide Safe, CollectOk;
    if call.Some? {
      CollectStable(s, s', call.value);
    }
    forall r <- s'.directory | r.recipient == p.recipient && Stamp(r) < p.horizon && Safe(s, r.file)
      ensures Safe(s', r.file)
    {
      SafeStable(s, s', r.file);
    }
  }

  lemma {:induction false} RetryStable(s: State, s': State, r: Retry, call: Option<Collect>)
    requires Grows(s, s') && RetryOk(s, r, call)
    ensures RetryOk(s', r, call)
  {
    hide CollectOk;
    if call.Some? {
      CollectStable(s, s', call.value);
    }
  }

  lemma {:induction false} TaskStable(s: State, s': State, task: Task)
    requires Grows(s, s') && TaskOk(s, task)
    ensures TaskOk(s', task)
  {
    hide Covered, PollOk, RetryOk, Grows;
    match task
    case Fetching(recipient, lastCheck) =>
      CoveredStable(s, s', recipient, lastCheck);
      assert s.clock <= s'.clock by { GrowsClock(s, s'); }
    case Polling(p, call) => PollStable(s, s', p, call);
    case Retrying(r, call) => RetryStable(s, s', r, call);
    case _ =>
  }

  lemma {:induction false} GrowsClock(s: State, s': State)
    requires Grows(s, s')
    ensures s.clock <= s'.clock
  {
  }

  lemma {:induction false} CursorsStable(s: State, s': State)
    requires Grows(s, s') && CursorsOk(s) && s'.cursors == s.cursors
    ensures CursorsOk(s')
  {
    hide Covered;
    forall recipient <- s.cursors
      ensures Covered(s', recipient, s.cursors[recipient])
    {
      CoveredStable(s, s', recipient, s.cursors[recipient]);
    }
  }

  /** A step that grows the state and leaves its own task in order keeps the invariant. */
  lemma {:induction false} Keeps(s: State, s': State, k: nat)
    requires Inv(s) && Grows(s, s') && s'.cursors == s.cursors && DirectoryOk(s')
    requires forall j <- s'.tasks :: j == k || (j in s.tasks && s'.tasks[j] == s.tasks[j])
    requires k in s'.tasks ==> TaskOk(s', s'.tasks[k])
    ensures Inv(s')
  {
    hide Grows, TaskOk, DirectoryOk, CursorsOk;
    CursorsStable(s, s');
    forall j <- s'.tasks | j != k
      ensures TaskOk(s', s'.tasks[j])
    {
      TaskStable(s, s', s.tasks[j]);
    }
  }

  // ---- The retry table ----

  lemma {:induction false} AddRetryGrows(s: State, file: FileId, r: Record)
    ensures Grows(s, AddRetry(s, file, r)) && Safe(AddRetry(s, file, r), file)
  {
    assert Key(file, r.index) in AddRetry(s, file, r).retry;
  }

  lemma {:induction false} ClearRetryGrows(s: State, file: FileId)
    requires Settled(s, file)
    ensures Grows(s, ClearRetry(s, file))
  {
  }

  /** A retry deletes by key. The row it deletes is the expired one it listed, or the
      file has been settled since: a row re-created in between is not missed. */
  lemma {:induction false} DeleteRetryGrows(s: State, l: Listed, now: int)
    requires StillThere(s, l) && now <= s.now && Expired(l.row, now)
    ensures Grows(s, DeleteRetry(s, l.key))
  {
  }

  lemma {:induction false} CleanupGrows(s: State, now: int)
    requires now <= s.now
    ensures Grows(s, Cleanup(s, now))
  {
    var s' := Cleanup(s, now);
    forall key <- s.retry
      ensures Settled(s', key.file) || (key in s'.retry && s'.retry[key] == s.retry[key])
    {
      if Expired(s.retry[key], now) {
        assert key.file in s'.expired;
      }
    }
  }

  // ---- collectAndProcessMessage ----

  predicate Quiet(s: State, s': State) {
    s'.cursors == s.cursors && s'.tasks == s.tasks && s'.directory == s.directory && s'.clock == s.clock
  }

  lemma {:induction false} WorkOk(s: State, c: Collect, io: Io)
    requires CollectOk(s, c) && c.phase.Working?
    ensures var o := Work(s, c, io); Grows(s, o.state) && Quiet(s, o.state) && CollectOk(o.state, c.(phase := o.phase))
  {
    var o := Work(s, c, io);
    if o.state.retry != s.retry {
      AddRetryGrows(s, c.file, io.choice.record);
    }
    assert Grows(s, o.state);
    SafeStable(s, o.state, c.file);
    assert c.records[0] in c.records;
  }

  lemma {:induction false} TrackOk(s: State, c: Collect, io: Io)
    requires CollectOk(s, c) && c.phase.Tracking?
    ensures var o := Collecting(s, c, io);
            Grows(s, o.state) && Quiet(s, o.state) && CollectOk(o.state, c.(phase := o.phase))
  {
    hide Grows, Safe;
    var i := c.phase.next;
    if i < |c.records| && io.ok {
      AddRetryGrows(s, c.file, c.records[i]);
    } else {
      GrowsSelf(s);
    }
  }

  lemma {:induction false} GrowsSelf(s: State)
    ensures Grows(s, s)
  {
  }

  /** Retry state is written before the call reports the message as tracked. */
  lemma {:induction false} CollectingOk(s: State, c: Collect, io: Io)
    requires CollectOk(s, c)
    ensures var o := Collecting(s, c, io);
            Grows(s, o.state) && Quiet(s, o.state) && CollectOk(o.state, c.(phase := o.phase))
  {
    match c.phase
    case Tracking(_) => TrackOk(s, c, io);
    case Working => WorkOk(s, c, io);
    case Clearing(_) => ClearOk(s, c, io);
    case _ =>
      var o := Collecting(s, c, io);
      assert Grows(s, o.state);
      if Safe(s, c.file) {
        SafeStable(s, o.state, c.file);
      }
  }

  lemma {:induction false} ClearOk(s: State, c: Collect, io: Io)
    requires CollectOk(s, c) && c.phase.Clearing?
    ensures var o := Collecting(s, c, io);
            Grows(s, o.state) && Quiet(s, o.state) && CollectOk(o.state, c.(phase := o.phase))
  {
    ClearRetryGrows(s, c.file);
  }

  // ---- Steps of a poll ----

  lemma {:induction false} FetchKeeps(s: State, k: nat, recipient: Recipient, lastCheck: int, io: Io)
    requires Inv(s) && k in s.tasks && s.tasks[k] == Fetching(recipient, lastCheck)
    ensures Inv(Fetch(s, k, recipient, lastCheck, io))
  {
    var s' := Fetch(s, k, recipient, lastCheck, io);
    assert TaskOk(s, s.tasks[k]);
    if io.ok && Answers(s, recipient, lastCheck, io.reply) {
      FetchedOk(s, recipient, lastCheck, io.reply);
      PollStable(s, s', s'.tasks[k].poll, None);
    }
    hide Inv, TaskOk, DirectoryOk, Answers;
    Keeps(s, s', k) by { assert Inv(s) ==> DirectoryOk(s) by { InvDirectory(s); } DirectorySame(s, s'); }
  }

  lemma {:induction false} InvDirectory(s: State)
    ensures Inv(s) ==> DirectoryOk(s)
  {
  }

  lemma {:induction false} DirectorySame(s: State, s': State)
    requires DirectoryOk(s) && s'.directory == s.directory && s'.clock == s.clock && s'.persistent == s.persistent
    ensures DirectoryOk(s')
  {
  }

  lemma {:induction false} FetchedOk(s: State, recipient: Recipient, lastCheck: int, reply: seq<Record>)
    requires DirectoryOk(s) && lastCheck <= s.clock && Covered(s, recipient, lastCheck)
             && Answers(s, recipient, lastCheck, reply)
    ensures PollOk(s, Poll(recipient, lastCheck, s.clock, lastCheck, reply, false, map[], true), None)
  {
    hide Safe;
  }

  lemma {:induction false} SortOk(s: State, p: Poll, io: Io)
    requires PollOk(s, p, None) && p.todo != []
    ensures PollOk(s, Sort(s, p, io), None)
  {
    var c := p.todo[0];
    var p' := Sort(s, p, io);
    assert c in p.todo && forall r :: r in p.todo <==> r == c || r in p.todo[1..];
    assert p'.todo == p.todo || p'.todo == p.todo[1..];
    if p'.todo != p.todo && p'.groups == p.groups {
      assert Safe(s, c.file);
    }
    hide Safe;
  }

  /** The cursor moves only when every record before it is safe. */
  lemma {:induction false} AdvanceKeeps(s: State, k: nat, p: Poll, io: Io)
    requires Inv(s) && PollOk(s, p, None) && p.todo == [] && p.groups == map[]
    ensures Inv(At(Advance(s, p, io), k, Listing(p.recipient)))
  {
    hide Safe, TaskOk;
    var s' := At(Advance(s, p, io), k, Listing(p.recipient));
    assert Grows(s, s');
    if p.safe {
      assert Covered(s, p.recipient, p.newLast);
      CoveredStable(s, s', p.recipient, p.newLast);
    }
    forall recipient <- s.cursors
      ensures Covered(s', recipient, s.cursors[recipient])
    {
      CoveredStable(s, s', recipient, s.cursors[recipient]);
    }
    forall j <- s'.tasks
      ensures TaskOk(s', s'.tasks[j])
    {
      if j == k { ListingOk(s', p.recipient); } else { TaskStable(s, s', s.tasks[j]); }
    }
  }

  lemma {:induction false} ListingOk(s: State, recipient: Recipient)
    ensures TaskOk(s, Listing(recipient))
  {
  }

  lemma {:induction false} PickOk(s: State, p: Poll, file: FileId)
    requires PollOk(s, p, None) && file in p.groups
    ensures PollOk(s, p.(groups := p.groups - {file}), Some(Collect(file, p.groups[file], Trying)))
  {
    hide Safe;
  }

  lemma {:induction false} PollStepKeeps(s: State, k: nat, p: Poll, io: Io)
    requires Inv(s) && k in s.tasks && s.tasks[k] == Polling(p, None)
    ensures Inv(PollStep(s, k, p, io))
  {
    assert TaskOk(s, s.tasks[k]);
    InvDirectory(s);
    var s' := PollStep(s, k, p, io);
    hide Inv, PollOk, Sort, DirectoryOk, Advance;
    if p.todo == [] && io.file !in p.groups {
      if p.groups == map[] { AdvanceKeeps(s, k, p, io); }
    } else {
      if p.todo != [] { SortOk(s, p, io); } else { PickOk(s, p, io.file); }
      PolledKeeps(s, s', k);
    }
  }

  /** Only the poll's own bookkeeping changed. */
  lemma {:induction false} PolledKeeps(s: State, s': State, k: nat)
    requires Inv(s) && k in s'.tasks && s' == s.(tasks := s.tasks[k := s'.tasks[k]])
    requires s'.tasks[k].Polling? && PollOk(s, s'.tasks[k].poll, s'.tasks[k].call)
    ensures Inv(s')
  {
    InvDirectory(s);
    assert Grows(s, s');
    PollStable(s, s', s'.tasks[k].poll, s'.tasks[k].call);
    hide Inv, PollOk, Grows;
    Keeps(s, s', k);
  }

  lemma {:induction false} ReturnOk(s: State, p: Poll, c: Collect)
    requires PollOk(s, p, Some(c)) && c.phase.Returned?
    ensures PollOk(s, p.(safe := p.safe && c.phase.tracked), None)
  {
    hide Safe;
  }

  /** What the called collect leaves of the poll. */
  lemma {:induction false} CalledOk(s: State, p: Poll, c: Collect, c': Collect)
    requires PollOk(s, p, Some(c)) && CollectOk(s, c') && c'.file == c.file
    ensures PollOk(s, p, Some(c'))
  {
    hide Safe;
  }

  lemma {:induction false} PollCallKeeps(s: State, k: nat, p: Poll, c: Collect, io: Io)
    requires Inv(s) && k in s.tasks && s.tasks[k] == Polling(p, Some(c))
    ensures Inv(PollCall(s, k, p, c, io))
  {
    assert TaskOk(s, s.tasks[k]);
    InvDirectory(s);
    hide Inv, DirectoryOk, Safe;
    if c.phase.Returned? {
      ReturnOk(s, p, c);
      hide PollOk;
      PolledKeeps(s, PollCall(s, k, p, c, io), k);
    } else {
      CollectingOk(s, c, io);
      hide PollOk, CollectOk, Collecting;
      var o := Collecting(s, c, io);
      var c' := c.(phase := o.phase);
      PollStable(s, o.state, p, Some(c));
      CalledOk(o.state, p, c, c');
      WorkedKeeps(s, o.state, k);
      PolledKeeps(o.state, PollCall(s, k, p, c, io), k);
    }
  }

  /** A change of the tables alone keeps the invariant. */
  lemma {:induction false} WorkedKeeps(s: State, s': State, k: nat)
    requires Inv(s) && k in s.tasks && Grows(s, s') && Quiet(s, s')
    ensures Inv(s')
  {
    InvDirectory(s);
    DirectorySame(s, s') by { assert s'.persistent == s.persistent; }
    TaskStable(s, s', s.tasks[k]);
    hide TaskOk, Grows, DirectoryOk, CursorsOk;
    Keeps(s, s', k);
  }

  // ---- Steps of a retry ----

  lemma {:induction false} RetriedKeeps(s: State, s': State, k: nat)
    requires Inv(s) && k in s'.tasks && s' == s.(tasks := s.tasks[k := s'.tasks[k]])
    requires s'.tasks[k].Retrying? && RetryOk(s, s'.tasks[k].retry, s'.tasks[k].call)
    ensures Inv(s')
  {
    InvDirectory(s);
    assert Grows(s, s');
    RetryStable(s, s', s'.tasks[k].retry, s'.tasks[k].call);
    hide Inv, RetryOk, Grows;
    Keeps(s, s', k);
  }

  lemma {:induction false} RetryCallKeeps(s: State, k: nat, r: Retry, c: Collect, io: Io)
    requires Inv(s) && k in s.tasks && s.tasks[k] == Retrying(r, Some(c))
    ensures Inv(RetryCall(s, k, r, c, io))
  {
    assert TaskOk(s, s.tasks[k]);
    hide Inv, Safe;
    if c.phase.Returned? {
      RetriedKeeps(s, RetryCall(s, k, r, c, io), k);
    } else {
      CollectingOk(s, c, io);
      hide CollectOk, Collecting;
      var o := Collecting(s, c, io);
      RetryStable(s, o.state, r, Some(c));
      WorkedKeeps(s, o.state, k);
      RetriedKeeps(o.state, RetryCall(s, k, r, c, io), k);
    }
  }

  lemma {:induction false} RetryStepKeeps(s: State, k: nat, r: Retry, io: Io)
    requires Inv(s) && k in s.tasks && s.tasks[k] == Retrying(r, None)
    ensures Inv(RetryStep(s, k, r, io))
  {
    assert TaskOk(s, s.tasks[k]);
    InvDirectory(s);
    if r.rows == [] {
      EndKeeps(s, k);
    } else {
      var l := r.rows[0];
      var rest := r.(rows := r.rows[1..]);
      assert RetryOk(s, rest, None);
      if Expired(l.row, r.now) {
        if io.ok {
          DeleteRetryGrows(s, l, r.now);
          DeletedKeeps(s, k, l.key, rest);
        } else {
          hide Inv;
          RetriedKeeps(s, RetryStep(s, k, r, io), k);
        }
      } else {
        RetryRecordsOk(s, l.key.file, io.reply);
        hide Inv;
        RetriedKeeps(s, RetryStep(s, k, r, io), k);
      }
    }
  }

  lemma {:induction false} RetryRecordsOk(s: State, file: FileId, reply: seq<Record>)
    requires DirectoryOk(s)
    ensures reply != [] && (forall rec <- reply :: rec in s.directory && rec.file == file) ==>
              CollectOk(s, Collect(file, reply, Trying))
  {
  }

  lemma {:induction false} DeletedKeeps(s: State, k: nat, key: Key, rest: Retry)
    requires Inv(s) && k in s.tasks && Grows(s, DeleteRetry(s, key)) && RetryOk(s, rest, None)
    ensures Inv(At(DeleteRetry(s, key), k, Retrying(rest, None)))
  {
    var s1 := DeleteRetry(s, key);
    RetryStable(s, s1, rest, None);
    hide Inv, RetryOk, Grows;
    WorkedKeeps(s, s1, k);
    RetriedKeeps(s1, At(s1, k, Retrying(rest, None)), k);
  }

  lemma {:induction false} EndKeeps(s: State, k: nat)
    requires Inv(s)
    ensures Inv(s.(tasks := s.tasks - {k}))
  {
    InvDirectory(s);
    hide Inv;
    Keeps(s, s.(tasks := s.tasks - {k}), k);
  }

  lemma {:induction false} ListKeeps(s: State, k: nat, recipient: Recipient, io: Io)
    requires Inv(s) && k in s.tasks
    ensures Inv(List(s, k, recipient, io))
  {
    hide Inv;
    if List(s, k, recipient, io) == s.(tasks := s.tasks - {k}) {
      EndKeeps(s, k);
    } else {
      RetriedKeeps(s, List(s, k, recipient, io), k);
    }
  }

  // ---- Every step ----

  lemma {:induction false} StepKeeps(s: State, k: nat, io: Io)
    requires Inv(s)
    ensures Inv(Step(s, k, io))
  {
    hide Inv, Fetch, PollStep, PollCall, List, RetryStep, RetryCall;
    if k in s.tasks {
      match s.tasks[k]
      case Fetching(recipient, lastCheck) => FetchKeeps(s, k, recipient, lastCheck, io);
      case Polling(p, None) => PollStepKeeps(s, k, p, io);
      case Polling(p, Some(c)) => PollCallKeeps(s, k, p, c, io);
      case Listing(recipient) => ListKeeps(s, k, recipient, io);
      case Retrying(r, None) => RetryStepKeeps(s, k, r, io);
      case Retrying(r, Some(c)) => RetryCallKeeps(s, k, r, c, io);
      case Announcing(id) => AnnounceKeeps(s, k, id);
    }
  }

  lemma {:induction false} AnnounceKeeps(s: State, k: nat, id: FileId)
    requires Inv(s)
    ensures Inv(s.(published := s.published + [id], tasks := s.tasks - {k}))
  {
    var s' := s.(published := s.published + [id], tasks := s.tasks - {k});
    InvDirectory(s);
    hide Inv;
    Keeps(s, s', k);
  }

  lemma {:induction false} CommitKeeps(s: State, k: nat, id: FileId, ok: bool)
    requires Inv(s)
    ensures Inv(Commit(s, k, id, ok))
  {
    InvDirectory(s);
    hide Inv;
    if Commit(s, k, id, ok) != s {
      Keeps(s, Commit(s, k, id, ok), k);
    }
  }

  lemma {:induction false} PollStartKeeps(s: State, k: nat, recipient: Recipient, ok: bool)
    requires Inv(s)
    ensures Inv(Next(s, APoll(k, recipient, ok)))
  {
    var s' := Next(s, APoll(k, recipient, ok));
    if s' != s {
      InvDirectory(s);
      CoveredStable(s, s', recipient, s'.tasks[k].lastCheck);
      hide Inv, Covered, Safe;
      Keeps(s, s', k);
    }
  }

  /** Steps outside the receiving tasks. */
  lemma {:induction false} WorldKeeps(s: State, a: Action)
    requires Inv(s)
    requires a.AImport? || a.ARegister? || a.AForget? || a.ATime? || a.ACrash? || a.ACleanup?
    ensures Inv(Next(s, a))
  {
    var s' := Next(s, a);
    InvDirectory(s);
    if a.ACleanup? && a.now <= s.now {
      CleanupGrows(s, a.now);
    }
    assert Grows(s, s');
    assert DirectoryOk(s');
    hide Inv, Grows, DirectoryOk, TaskOk, Cleanup;
    var k: nat := 0;
    if k in s.tasks {
      assert TaskOk(s, s.tasks[k]) by { InvTask(s, k); }
      TaskStable(s, s', s.tasks[k]);
    }
    Keeps(s, s', k);
  }

  lemma {:induction false} InvTask(s: State, k: nat)
    requires Inv(s) && k in s.tasks
    ensures TaskOk(s, s.tasks[k])
  {
  }

  lemma {:induction false} NextKeeps(s: State, a: Action)
    requires Inv(s)
    ensures Inv(Next(s, a))
  {
    match a
    case APoll(k, recipient, ok) => PollStartKeeps(s, k, recipient, ok);
    case AStep(k, io) => hide Inv, Step; StepKeeps(s, k, io);
    case ADirect(k, id, ok) => hide Inv, Commit; CommitKeeps(s, k, id, ok);
    case ASend(k, id, ok) => hide Inv, Commit; CommitKeeps(s, k, id, ok);
    case _ => hide Inv; WorldKeeps(s, a);
  }

  lemma {:induction false} RunKeeps(now: int, clock: nat, persistent: set<FileId>, run: seq<Action>)
    ensures Inv(Exec(Start(now, clock, persistent), run))
  {
    if run != [] {
      hide Inv, Next;
      RunKeeps(now, clock, persistent, run[..|run|-1]);
      NextKeeps(Exec(Start(now, clock, persistent), run[..|run|-1]), run[|run|-1]);
    }
  }

  /** In every run, with any number of polls, retries, direct deliveries, imports and
      cleanups interleaved, failing reads and writes, and crashes: a directory record of
      a message, stamped before the recipient's saved cursor, has its message stored, or
      a retry row for its file, or had an expired retry row removed. */
  lemma {:induction false} NoMissedReceive(now: int, clock: nat, persistent: set<FileId>, run: seq<Action>, r: Record)
    requires var s := Exec(Start(now, clock, persistent), run);
             r in s.directory && r.recipient in s.cursors && Stamp(r) < s.cursors[r.recipient] && !r.persist
    ensures var s := Exec(Start(now, clock, persistent), run);
            r.file in s.stored || r.file in s.expired || exists key <- s.retry :: key.file == r.file
  {
    RunKeeps(now, clock, persistent, run);
  }
}

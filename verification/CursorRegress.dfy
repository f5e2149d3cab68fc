/** The receive cursor is not monotone: exactly when a step lowers it, which runs never
    contain such a step, and two runs that do. */
module CursorRegress {
  import opened Basics
  import opened Reception

  // ---- When the cursor falls ----

  ghost predicate Falls(s: State, a: Action, r: Recipient) {
    r in s.cursors && r in Next(s, a).cursors && Next(s, a).cursors[r] < s.cursors[r]
  }

  /** The last step of a poll of r that tracked everything and whose write succeeds, but
      which started below the cursor and saw nothing above it. */
  predicate StaleAdvance(s: State, a: Action, r: Recipient) {
    && a.AStep? && a.k in s.tasks && s.tasks[a.k].Polling? && s.tasks[a.k].call.None?
    && var p := s.tasks[a.k].poll;
       p.recipient == r && p.todo == [] && p.groups == map[] && p.safe && a.io.ok
       && r in s.cursors && p.lastCheck < p.newLast < s.cursors[r]
  }

  /** In any state, a step lowers the cursor of r if and only if it is such an advance. */
  lemma {:induction false} CursorFallsExactly(s: State, a: Action, r: Recipient)
    ensures Falls(s, a, r) <==> StaleAdvance(s, a, r)
  {
  }

  lemma {:induction false} CleanupLeavesPolls(s: State, now: int)
    ensures Cleanup(s, now).cursors == s.cursors && Cleanup(s, now).tasks == s.tasks
  {
  }

  // ---- Sequential polls ----

  /** The task polls r and has not finished with the cursor. */
  predicate Polls(task: Task, r: Recipient) {
    (task.Fetching? && task.recipient == r) || (task.Polling? && task.poll.recipient == r)
  }

  function StartedAt(task: Task): int
    requires task.Fetching? || task.Polling?
  {
    if task.Fetching? then task.lastCheck else task.poll.lastCheck
  }

  /** A poll of r starts only while none is in flight, and reads its cursor. */
  predicate Sequential(s: State, a: Action, r: Recipient) {
    a.APoll? && a.recipient == r ==> a.ok && forall k <- s.tasks :: !Polls(s.tasks[k], r)
  }

  ghost predicate SequentialRun(s: State, run: seq<Action>, r: Recipient) {
    forall i :: 0 <= i < |run| ==> Sequential(Exec(s, run[..i]), run[i], r)
  }

  /** At most one poll of r is in flight, and it started from the cursor as it is. */
  predicate OnePoll(s: State, r: Recipient) {
    && (forall k <- s.tasks :: Polls(s.tasks[k], r) ==> StartedAt(s.tasks[k]) == CursorOf(s, r, true))
    && (forall j, k :: j in s.tasks && k in s.tasks && Polls(s.tasks[j], r) && Polls(s.tasks[k], r) ==> j == k)
  }

  /** What a step does to the polls of r and to its cursor. */
  predicate Follows(s: State, s': State, r: Recipient, k: nat) {
    && (forall j <- s'.tasks | j != k :: j in s.tasks && s'.tasks[j] == s.tasks[j])
    && (k in s'.tasks && Polls(s'.tasks[k], r) ==>
          k in s.tasks && Polls(s.tasks[k], r) && StartedAt(s'.tasks[k]) == StartedAt(s.tasks[k])
          && CursorOf(s', r, true) == CursorOf(s, r, true))
    && (CursorOf(s', r, true) == CursorOf(s, r, true) || (k in s.tasks && Polls(s.tasks[k], r)))
  }

  lemma {:induction false} StepPolls(s: State, k: nat, io: Io, r: Recipient)
    ensures Follows(s, Step(s, k, io), r, k)
  {
    hide Collecting, Fetch, List, RetryStep, PollStep, Follows;
    if k in s.tasks {
      match s.tasks[k]
      case Fetching(recipient, lastCheck) => FetchPolls(s, k, recipient, lastCheck, io, r);
      case Listing(recipient) => ListPolls(s, k, recipient, io, r);
      case Retrying(retry, None) => RetryPolls(s, k, retry, io, r);
      case Polling(p, None) => PollPolls(s, k, p, io, r);
      case Polling(p, Some(c)) => CallPolls(s, k, c, io, r);
      case Retrying(retry, Some(c)) => CallPolls(s, k, c, io, r);
      case Announcing(_) => AnnouncePolls(s, k, io, r);
    } else {
      SamePolls(s, r, k);
    }
  }

  lemma {:induction false} SamePolls(s: State, r: Recipient, k: nat)
    ensures Follows(s, s, r, k)
  {
  }

  lemma {:induction false} AnnouncePolls(s: State, k: nat, io: Io, r: Recipient)
    requires k in s.tasks && s.tasks[k].Announcing?
    ensures Follows(s, Step(s, k, io), r, k)
  {
  }

  lemma {:induction false} FetchPolls(s: State, k: nat, recipient: Recipient, lastCheck: int, io: Io, r: Recipient)
    requires k in s.tasks && s.tasks[k] == Fetching(recipient, lastCheck)
    ensures Follows(s, Fetch(s, k, recipient, lastCheck, io), r, k)
  {
    hide Answers;
  }

  lemma {:induction false} ListPolls(s: State, k: nat, recipient: Recipient, io: Io, r: Recipient)
    ensures Follows(s, List(s, k, recipient, io), r, k)
  {
  }

  lemma {:induction false} RetryPolls(s: State, k: nat, retry: Retry, io: Io, r: Recipient)
    ensures Follows(s, RetryStep(s, k, retry, io), r, k)
  {
    hide DeleteRetry;
    if retry.rows != [] { DeleteLeavesPolls(s, retry.rows[0].key); }
  }

  lemma {:induction false} DeleteLeavesPolls(s: State, key: Key)
    ensures DeleteRetry(s, key).cursors == s.cursors && DeleteRetry(s, key).tasks == s.tasks
  {
  }

  lemma {:induction false} CollectingLeavesCursors(s: State, c: Collect, io: Io)
    ensures Collecting(s, c, io).state.cursors == s.cursors
  {
  }

  lemma {:induction false} CallPolls(s: State, k: nat, c: Collect, io: Io, r: Recipient)
    requires k in s.tasks && (s.tasks[k].Polling? || s.tasks[k].Retrying?) && s.tasks[k].call == Some(c)
    ensures Follows(s, Step(s, k, io), r, k)
  {
    CollectingLeavesCursors(s, c, io);
    CollectingQuiet(s, c, io);
    hide Collecting;
  }

  lemma {:induction false} CollectingQuiet(s: State, c: Collect, io: Io)
    ensures Collecting(s, c, io).state.tasks == s.tasks
  {
  }

  lemma {:induction false} PollPolls(s: State, k: nat, p: Poll, io: Io, r: Recipient)
    requires k in s.tasks && s.tasks[k] == Polling(p, None)
    ensures Follows(s, PollStep(s, k, p, io), r, k)
  {
    if p.todo != [] {
      assert Sort(s, p, io).recipient == p.recipient && Sort(s, p, io).lastCheck == p.lastCheck;
      hide Sort;
    }
  }

  lemma {:induction false} PollStepKeeps(s: State, s': State, r: Recipient, k: nat)
    requires OnePoll(s, r) && Follows(s, s', r, k)
    ensures OnePoll(s', r)
  {
    forall j <- s'.tasks | Polls(s'.tasks[j], r)
      ensures StartedAt(s'.tasks[j]) == CursorOf(s', r, true)
    {
    }
  }

  lemma {:induction false} SequentialKeeps(s: State, a: Action, r: Recipient)
    requires OnePoll(s, r) && Sequential(s, a, r)
    ensures OnePoll(Next(s, a), r)
  {
    hide Step, Cleanup;
    match a
    case AStep(k, io) => StepPolls(s, k, io, r); PollStepKeeps(s, Next(s, a), r, k);
    case ACleanup(now) => CleanupLeavesPolls(s, now);
    case _ =>
  }

  lemma {:induction false} SequentialRunKeeps(now: int, clock: nat, persistent: set<FileId>, run: seq<Action>,
                                              r: Recipient)
    requires SequentialRun(Start(now, clock, persistent), run, r)
    ensures OnePoll(Exec(Start(now, clock, persistent), run), r)
  {
    hide Next, Sequential, OnePoll;
    var s := Start(now, clock, persistent);
    if run == [] {
      NoPolls(now, clock, persistent, r);
    } else {
      var init := run[..|run|-1];
      forall i | 0 <= i < |init|
        ensures Sequential(Exec(s, init[..i]), init[i], r)
      {
        assert init[..i] == run[..i];
      }
      SequentialRunKeeps(now, clock, persistent, init, r);
      SequentialKeeps(Exec(s, init), run[|run|-1], r);
    }
  }

  lemma {:induction false} NoPolls(now: int, clock: nat, persistent: set<FileId>, r: Recipient)
    ensures OnePoll(Start(now, clock, persistent), r)
  {
  }

  /** In every run in which a poll of r starts only while none is in flight, and reads its
      cursor, no step whatever lowers the cursor of r. */
  lemma {:induction false} SequentialPollsNeverFall(now: int, clock: nat, persistent: set<FileId>, run: seq<Action>,
                                                    a: Action, r: Recipient)
    requires SequentialRun(Start(now, clock, persistent), run, r)
    ensures !Falls(Exec(Start(now, clock, persistent), run), a, r)
  {
    var s := Exec(Start(now, clock, persistent), run);
    SequentialRunKeeps(now, clock, persistent, run, r);
    CursorFallsExactly(s, a, r);
    hide Falls;
  }

  // ---- It does fall ----

  const EARLY := Record("m", 0, "me", "p", 5, 5, 0, false)
  const LATE := Record("m", 0, "me", "q", 9, 9, 0, false)

  function Answer(reply: seq<Record>): Io {
    Io(true, reply, [], "", GiveUp)
  }

  ghost predicate Reachable(s: State) {
    exists run :: Exec(Start(0, 5, {}), run) == s
  }

  lemma {:induction false} Extend(s: State, a: Action)
    requires Reachable(s)
    ensures Reachable(Next(s, a))
  {
    var run :| Exec(Start(0, 5, {}), run) == s;
    assert (run + [a])[..|run|] == run;
    assert Exec(Start(0, 5, {}), run + [a]) == Next(s, a);
  }

  /** A poll from cursor 0 with `rest` still to look at. */
  function Looking(clock: int, newLast: int, rest: seq<Record>): Task {
    Polling(Poll("me", 0, clock, newLast, rest, false, map[], true), None)
  }

  /** Poll k passes over the records of a message that is already stored. */
  lemma {:induction false} PassOver(s: State, k: nat, clock: int, last: int, rest: seq<Record>) returns (s': State)
    requires Reachable(s) && k in s.tasks && s.tasks[k] == Looking(clock, last, rest)
    requires s.retry == map[] && forall r <- rest :: r.file in s.stored
    ensures Reachable(s') && s' == s.(tasks := s.tasks[k := Looking(clock, Greatest(last, rest), [])])
    decreases |rest|
  {
    if rest == [] {
      s' := s;
      assert s.tasks == s.tasks[k := Looking(clock, last, rest)];
    } else {
      var s1 := Next(s, AStep(k, Answer([])));
      Extend(s, AStep(k, Answer([])));
      var s2 := Next(s1, AStep(k, Answer([])));
      Extend(s1, AStep(k, Answer([])));
      var top := Max(last, Stamp(rest[0]));
      assert s2.tasks == s.tasks[k := Looking(clock, top, rest[1..])];
      s' := PassOver(s2, k, clock, top, rest[1..]);
      assert s'.tasks == s.tasks[k := Looking(clock, Greatest(top, rest[1..]), [])];
    }
  }

  /** A poll that reads cursor 0 and is answered with the whole directory. */
  lemma {:induction false} Polled(s: State, k: nat, reply: seq<Record>) returns (s': State)
    requires Reachable(s) && k !in s.tasks && "me" !in s.cursors && s.retry == map[]
    requires s.directory == (set r <- reply) && forall r <- reply :: r.file in s.stored
    ensures Reachable(s') && s' == s.(tasks := s.tasks[k := Looking(s.clock, Greatest(0, reply), [])])
  {
    var s1 := Next(s, APoll(k, "me", true));
    Extend(s, APoll(k, "me", true));
    var s2 := Next(s1, AStep(k, Answer(reply)));
    Extend(s1, AStep(k, Answer(reply)));
    assert Answers(s1, "me", 0, reply);
    assert s2.tasks == s.tasks[k := Looking(s.clock, 0, reply)];
    s' := PassOver(s2, k, s.clock, 0, reply);
    assert s'.tasks == s.tasks[k := Looking(s.clock, Greatest(0, reply), [])];
  }

  lemma {:induction false} Advanced(s: State, k: nat, clock: int, last: int) returns (s': State)
    requires Reachable(s) && k in s.tasks && s.tasks[k] == Looking(clock, last, []) && last > 0
    ensures Reachable(s') && s' == Next(s, AStep(k, Answer([])))
    ensures s'.cursors == s.cursors["me" := last] && forall j <- s.tasks :: j != k ==>
            j in s'.tasks && s'.tasks[j] == s.tasks[j]
  {
    s' := Next(s, AStep(k, Answer([])));
    Extend(s, AStep(k, Answer([])));
  }

  predicate Quiescent(s: State, clock: int, records: set<Record>) {
    && s.clock == clock && s.directory == records && s.persistent == {} && s.stored == {"m"}
    && s.retry == map[] && s.cursors == map[]
  }

  lemma {:induction false} Stamps()
    ensures Greatest(0, [EARLY]) == 5 && Greatest(0, [EARLY, LATE]) == 9
  {
    assert [EARLY][1..] == [] && [EARLY, LATE][1..] == [LATE] && [LATE][1..] == [];
    assert Greatest(9, []) == 9 && Greatest(5, [LATE]) == 9;
  }

  /** The first poll, answered while the directory listed only the early record. */
  lemma {:induction false} FirstPoll() returns (s: State)
    ensures Reachable(s) && Quiescent(s, 5, {EARLY}) && s.tasks == map[0 := Looking(5, 5, [])]
  {
    var s0 := Start(0, 5, {});
    assert Exec(s0, []) == s0;
    var s1 := Next(s0, AImport({"m"}));
    Extend(s0, AImport({"m"}));
    var s2 := Next(s1, ARegister(EARLY));
    Extend(s1, ARegister(EARLY));
    s := Polled(s2, 0, [EARLY]);
    Stamps();
  }

  /** The second poll, answered after the late record was registered. */
  lemma {:induction false} SecondPoll() returns (s: State)
    ensures Reachable(s) && Quiescent(s, 9, {EARLY, LATE})
    ensures s.tasks == map[0 := Looking(5, 5, []), 1 := Looking(9, 9, [])]
  {
    hide Reachable, Greatest;
    var s3 := FirstPoll();
    var s4 := Next(s3, ATime(0, 9));
    Extend(s3, ATime(0, 9));
    var s5 := Next(s4, ARegister(LATE));
    Extend(s4, ARegister(LATE));
    s := Polled(s5, 1, [EARLY, LATE]);
    Stamps();
  }

  /** One poll is answered before the second record appears, another after; the later
      answer is written first, and the earlier one then takes the cursor back. */
  lemma {:induction false} CursorMovesBack() returns (s: State, a: Action)
    ensures Reachable(s) && "me" in s.cursors && "me" in Next(s, a).cursors
    ensures Next(s, a).cursors["me"] < s.cursors["me"]
  {
    hide Reachable, Greatest;
    var s6 := SecondPoll();
    s := Advanced(s6, 1, 9, 9);
    a := AStep(0, Answer([]));
    var s' := Advanced(s, 0, 5, 5);
  }

  /** A single poll suffices when its cursor cannot be read and the directory has
      forgotten the record the cursor stands on. */
  lemma {:induction false} FailedReadMovesBack() returns (s: State, a: Action)
    ensures Reachable(s) && Falls(s, a, "me")
    ensures exists k :: k in s.tasks && s.tasks == map[k := s.tasks[k]]
  {
    hide Reachable, Greatest;
    var s1 := Passed();
    var s2 := Next(s1, AForget(LATE));
    Extend(s1, AForget(LATE));
    assert s2.directory == {EARLY};
    s := PolledBlindly(s2, 1, [EARLY]);
    Stamps();
    a := AStep(1, Answer([]));
    var s' := Advanced(s, 1, 9, 5);
  }

  /** The cursor stands at the late record, and no task runs. */
  lemma {:induction false} Passed() returns (s: State)
    ensures Reachable(s) && s.clock == 9 && s.directory == {EARLY, LATE} && s.stored == {"m"} && s.retry == map[]
    ensures s.cursors == map["me" := 9] && s.tasks == map[]
  {
    hide Reachable, Greatest;
    var s6 := SecondPoll();
    var s7 := Advanced(s6, 1, 9, 9);
    s := Next(s7, ACrash);
    Extend(s7, ACrash);
  }

  lemma {:induction false} PolledBlindly(s: State, k: nat, reply: seq<Record>) returns (s': State)
    requires Reachable(s) && k !in s.tasks && s.retry == map[]
    requires s.directory == (set r <- reply) && forall r <- reply :: r.file in s.stored
    ensures Reachable(s') && s' == s.(tasks := s.tasks[k := Looking(s.clock, Greatest(0, reply), [])])
  {
    var s1 := Next(s, APoll(k, "me", false));
    Extend(s, APoll(k, "me", false));
    var s2 := Next(s1, AStep(k, Answer(reply)));
    Extend(s1, AStep(k, Answer(reply)));
    assert Answers(s1, "me", 0, reply);
    assert s2.tasks == s.tasks[k := Looking(s.clock, 0, reply)];
    s' := PassOver(s2, k, s.clock, 0, reply);
    assert s'.tasks == s.tasks[k := Looking(s.clock, Greatest(0, reply), [])];
  }
}

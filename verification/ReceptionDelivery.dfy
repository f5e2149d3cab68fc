/** A poll that nothing disturbs delivers: the steps of Reception do their work. */
module ReceptionDelivery {
  import opened Basics
  import opened Reception

  ghost predicate Reach(s: State, s': State) {
    exists run :: Exec(s, run) == s'
  }

  lemma {:induction false} Go(s0: State, s: State, a: Action)
    requires Reach(s0, s)
    ensures Reach(s0, Next(s, a))
  {
    hide Next;
    var run :| Exec(s0, run) == s;
    assert (run + [a])[..|run|] == run;
    assert Exec(s0, run + [a]) == Next(s, a);
  }

  lemma {:induction false} GoStep(s0: State, s: State, k: nat, io: Io) returns (s': State)
    requires Reach(s0, s)
    ensures Reach(s0, s') && s' == Step(s, k, io)
  {
    hide Step;
    s' := Next(s, AStep(k, io));
    Go(s0, s, AStep(k, io));
  }

  function Good(reply: seq<Record>, file: FileId): Io {
    Io(true, reply, [], file, Finish)
  }

  /** The poll with `rest` still to sort; the others form the one group. */
  function Sorting(recipient: Recipient, last: int, clock: int, top: int, file: FileId, grouped: seq<Record>,
                   rest: seq<Record>): Task
  {
    Polling(Poll(recipient, last, clock, top, rest, false,
                 if grouped == [] then map[] else map[file := grouped], true), None)
  }

  predicate NewMessage(s: State, file: FileId, records: seq<Record>) {
    && file !in s.stored && file !in s.processing && (forall key <- s.retry :: key.file != file)
    && records != [] && forall i :: 0 <= i < |records| ==> records[i].file == file && !records[i].persist
  }

  lemma {:induction false} Fetched(s: State, k: nat, recipient: Recipient, reply: seq<Record>, file: FileId)
    returns (s': State)
    requires k !in s.tasks
    requires Answers(s, recipient, if recipient in s.cursors then s.cursors[recipient] else 0, reply)
    ensures var last := if recipient in s.cursors then s.cursors[recipient] else 0;
            Reach(s, s') && s' == At(s, k, Sorting(recipient, last, s.clock, last, file, [], reply))
  {
    assert Exec(s, []) == s;
    var s1 := Next(s, APoll(k, recipient, true));
    Go(s, s, APoll(k, recipient, true));
    hide Reach, Answers;
    s' := GoStep(s, s1, k, Good(reply, file));
    var last := if recipient in s.cursors then s.cursors[recipient] else 0;
    assert Answers(s1, recipient, last, reply) by { AnswersSame(s, s1, recipient, last, reply); }
    assert s'.tasks == s.tasks[k := Sorting(recipient, last, s.clock, last, file, [], reply)];
  }

  lemma {:induction false} AnswersSame(s: State, s': State, recipient: Recipient, last: int, reply: seq<Record>)
    requires Answers(s, recipient, last, reply) && s'.directory == s.directory
    ensures Answers(s', recipient, last, reply)
  {
  }

  lemma {:induction false} SortsOne(s0: State, s: State, k: nat, recipient: Recipient, last: int, clock: int,
                                    top: int, file: FileId,
                 grouped: seq<Record>, rest: seq<Record>) returns (s': State)
    requires Reach(s0, s) && k in s.tasks && s.tasks[k] == Sorting(recipient, last, clock, top, file, grouped, rest)
    requires NewMessage(s, file, rest)
    ensures Reach(s0, s')
    ensures s' == At(s, k, Sorting(recipient, last, clock, Max(top, Stamp(rest[0])), file, grouped + [rest[0]],
                                   rest[1..]))
  {
    hide Reach;
    assert rest[0].file == file;
    var s1 := GoStep(s0, s, k, Good(rest, file));
    s' := GoStep(s0, s1, k, Good(rest, file));
    assert map[file := grouped][file := grouped + [rest[0]]] == map[file := grouped + [rest[0]]];
    assert Grouped(s1.tasks[k].poll) == map[file := grouped + [rest[0]]];
    assert s'.tasks == s.tasks[k := Sorting(recipient, last, clock, Max(top, Stamp(rest[0])), file,
                                            grouped + [rest[0]], rest[1..])];
  }

  lemma {:induction false} SortsAll(s0: State, s: State, k: nat, recipient: Recipient, last: int, clock: int,
                                    top: int, file: FileId,
                                    grouped: seq<Record>, rest: seq<Record>) returns (s': State)
    requires Reach(s0, s) && k in s.tasks && s.tasks[k] == Sorting(recipient, last, clock, top, file, grouped, rest)
    requires NewMessage(s, file, rest)
    ensures Reach(s0, s')
            && s' == At(s, k, Sorting(recipient, last, clock, Greatest(top, rest), file, grouped + rest, []))
    decreases |rest|
  {
    hide Reach;
    var s1 := SortsOne(s0, s, k, recipient, last, clock, top, file, grouped, rest);
    if |rest| == 1 {
      s' := s1;
      assert rest == [rest[0]];
    } else {
      assert forall i :: 0 <= i < |rest[1..]| ==> rest[1..][i] == rest[i + 1];
      s' := SortsAll(s0, s1, k, recipient, last, clock, Max(top, Stamp(rest[0])), file, grouped + [rest[0]], rest[1..]);
      assert grouped + [rest[0]] + rest[1..] == grouped + rest;
      assert s'.tasks == s.tasks[k := Sorting(recipient, last, clock, Greatest(top, rest), file, grouped + rest, [])];
    }
  }

  /** The poll waiting for the collection of the one message. */
  function Called(recipient: Recipient, last: int, clock: int, top: int, file: FileId, records: seq<Record>,
                  phase: Phase): Task
  {
    Polling(Poll(recipient, last, clock, top, [], false, map[], true), Some(Collect(file, records, phase)))
  }

  lemma {:induction false} Calls(s0: State, s: State, k: nat, recipient: Recipient, last: int, clock: int, top: int,
                                 file: FileId, records: seq<Record>)
    returns (s': State)
    requires Reach(s0, s) && k in s.tasks && s.tasks[k] == Sorting(recipient, last, clock, top, file, records, [])
    requires NewMessage(s, file, records)
    ensures Reach(s0, s')
    ensures s' == At(s.(processing := s.processing + {file}), k,
                     Called(recipient, last, clock, top, file, records, Tracking(0)))
  {
    hide Reach;
    var io := Good([], file);
    var s1 := GoStep(s0, s, k, io);
    assert s1.tasks == s.tasks[k := Called(recipient, last, clock, top, file, records, Trying)];
    var s2 := GoStep(s0, s1, k, io);
    assert s2.tasks == s.tasks[k := Called(recipient, last, clock, top, file, records, Rechecking)];
    s' := GoStep(s0, s2, k, io);
    assert s'.tasks == s.tasks[k := Called(recipient, last, clock, top, file, records, Tracking(0))];
  }

  predicate OnlyAdds(before: map<Key, RetryRow>, after: map<Key, RetryRow>, file: FileId) {
    && (forall key <- before :: key in after && after[key] == before[key])
    && (forall key <- after :: key in before || key.file == file)
  }

  lemma {:induction false} TracksFrom(s0: State, s: State, k: nat, recipient: Recipient, last: int, clock: int,
                                      top: int, file: FileId,
                                      records: seq<Record>, i: nat) returns (s': State)
    requires Reach(s0, s) && k in s.tasks && i <= |records|
    requires s.tasks[k] == Called(recipient, last, clock, top, file, records, Tracking(i))
    ensures Reach(s0, s') && OnlyAdds(s.retry, s'.retry, file)
    ensures s' == At(s.(retry := s'.retry), k, Called(recipient, last, clock, top, file, records, Working))
    decreases |records| - i
  {
    hide Reach;
    var s1 := GoStep(s0, s, k, Good([], file));
    if i == |records| {
      s' := s1;
      assert s'.tasks == s.tasks[k := Called(recipient, last, clock, top, file, records, Working)];
    } else {
      assert s1.tasks == s.tasks[k := Called(recipient, last, clock, top, file, records, Tracking(i + 1))];
      s' := TracksFrom(s0, s1, k, recipient, last, clock, top, file, records, i + 1);
      assert s'.tasks == s.tasks[k := Called(recipient, last, clock, top, file, records, Working)];
    }
  }

  lemma {:induction false} Saves(s0: State, s: State, k: nat, recipient: Recipient, last: int, clock: int, top: int,
                                 file: FileId, records: seq<Record>)
    returns (s': State)
    requires Reach(s0, s) && k in s.tasks && file !in s.stored
    requires s.tasks[k] == Called(recipient, last, clock, top, file, records, Working)
    requires |records| > 0 && !records[0].persist
    ensures Reach(s0, s')
    ensures s' == At(ClearRetry(s, file).(stored := s.stored + {file}), k,
                     Called(recipient, last, clock, top, file, records, Publishing))
  {
    hide Reach;
    var io := Good([], file);
    var s1 := GoStep(s0, s, k, io);
    assert s1.tasks == s.tasks[k := Called(recipient, last, clock, top, file, records, Clearing(true))];
    s' := GoStep(s0, s1, k, io);
    assert s'.tasks == s.tasks[k := Called(recipient, last, clock, top, file, records, Publishing)];
  }

  lemma {:induction false} Returns(s0: State, s: State, k: nat, recipient: Recipient, last: int, clock: int, top: int,
                                   file: FileId, records: seq<Record>)
    returns (s': State)
    requires Reach(s0, s) && k in s.tasks
             && s.tasks[k] == Called(recipient, last, clock, top, file, records, Publishing)
    ensures Reach(s0, s')
    ensures s' == At(s.(published := s.published + [file], processing := s.processing - {file}), k,
                     Sorting(recipient, last, clock, top, file, [], []))
  {
    hide Reach;
    var io := Good([], file);
    var s1 := GoStep(s0, s, k, io);
    assert s1.tasks == s.tasks[k := Called(recipient, last, clock, top, file, records, Releasing(true))];
    var s2 := GoStep(s0, s1, k, io);
    assert s2.tasks == s.tasks[k := Called(recipient, last, clock, top, file, records, Returned(true))];
    s' := GoStep(s0, s2, k, io);
    assert s'.tasks == s.tasks[k := Sorting(recipient, last, clock, top, file, [], [])];
  }

  lemma {:induction false} Collects(s0: State, s: State, k: nat, recipient: Recipient, last: int, clock: int,
                                    top: int, file: FileId, records: seq<Record>)
    returns (s': State)
    requires Reach(s0, s) && k in s.tasks && s.tasks[k] == Sorting(recipient, last, clock, top, file, records, [])
    requires NewMessage(s, file, records)
    ensures Reach(s0, s')
    ensures s' == At(s.(stored := s.stored + {file}, published := s.published + [file]), k,
                     Sorting(recipient, last, clock, top, file, [], []))
  {
    hide Reach, Step;
    assert !records[0].persist;
    var s1 := Calls(s0, s, k, recipient, last, clock, top, file, records);
    var s2 := TracksFrom(s0, s1, k, recipient, last, clock, top, file, records, 0);
    var s3 := Saves(s0, s2, k, recipient, last, clock, top, file, records);
    assert s3.retry == s.retry;
    s' := Returns(s0, s3, k, recipient, last, clock, top, file, records);
    assert s'.processing == s.processing;
    assert s'.tasks == s.tasks[k := Sorting(recipient, last, clock, top, file, [], [])];
  }

  /** A poll that nothing disturbs, whose reply holds the records of one new message,
      all of whose chunks arrive and decrypt: the message is stored and published once,
      no retry row remains, and the cursor stands at the greatest stamp of the reply. */
  lemma {:induction false} UndisturbedPoll(s: State, k: nat, recipient: Recipient, file: FileId, reply: seq<Record>)
    returns (s': State)
    requires k !in s.tasks && NewMessage(s, file, reply)
    requires Answers(s, recipient, if recipient in s.cursors then s.cursors[recipient] else 0, reply)
    ensures Reach(s, s') && s'.stored == s.stored + {file} && s'.published == s.published + [file]
    ensures s'.retry == s.retry && s'.processing == s.processing
    ensures var last := if recipient in s.cursors then s.cursors[recipient] else 0;
            s'.cursors == if Greatest(last, reply) > last then s.cursors[recipient := Greatest(last, reply)]
                           else s.cursors
  {
    hide Reach, Answers, Step;
    var last := if recipient in s.cursors then s.cursors[recipient] else 0;
    var s1 := Fetched(s, k, recipient, reply, file);
    var s2 := SortsAll(s, s1, k, recipient, last, s.clock, last, file, [], reply);
    assert [] + reply == reply;
    var s3 := Collects(s, s2, k, recipient, last, s.clock, Greatest(last, reply), file, reply);
    s' := Advances(s, s3, k, recipient, last, s.clock, Greatest(last, reply), file);
  }

  lemma {:induction false} Advances(s0: State, s: State, k: nat, recipient: Recipient, last: int, clock: int,
                                    top: int, file: FileId)
    returns (s': State)
    requires Reach(s0, s) && k in s.tasks && s.tasks[k] == Sorting(recipient, last, clock, top, file, [], [])
    ensures Reach(s0, s')
    ensures s' == s.(cursors := if top > last then s.cursors[recipient := top] else s.cursors, tasks := s'.tasks)
  {
    hide Reach;
    s' := GoStep(s0, s, k, Good([], file));
  }
}

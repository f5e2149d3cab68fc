/** A retry, a direct delivery and a local send that nothing disturbs: the other steps of
    Reception do their work too. */
module RetryDelivery {
  import opened Basics
  import opened Reception
  import opened ReceptionDelivery

  /** The world works, and answers with these rows and records. */
  function Answering(rows: seq<Listed>, reply: seq<Record>): Io {
    Io(true, reply, rows, "", Finish)
  }

  /** The retry at work on the one listed file. */
  function AtWork(now: int, file: FileId, records: seq<Record>, phase: Phase): Task {
    Retrying(Retry(now, [], {file}), Some(Collect(file, records, phase)))
  }

  /** A waiting message that no one else is working on, with its records in the directory. */
  predicate Waiting(s: State, l: Listed, recipient: Recipient, records: seq<Record>) {
    && l.key in s.retry && s.retry[l.key] == l.row && l.row.recipient == recipient && !Expired(l.row, s.now)
    && l.key.file !in s.stored && l.key.file !in s.processing
    && records != [] && !records[0].persist && forall r <- records :: r in s.directory && r.file == l.key.file
  }

  lemma {:induction false} Starts(s: State, k: nat, recipient: Recipient, l: Listed, records: seq<Record>)
    returns (s': State)
    requires k in s.tasks && s.tasks[k] == Listing(recipient) && Waiting(s, l, recipient, records)
    ensures Reach(s, s')
    ensures s' == At(s.(processing := s.processing + {l.key.file}), k,
                     AtWork(s.now, l.key.file, records, Tracking(0)))
  {
    assert Exec(s, []) == s;
    assert Reach(s, s);
    hide Reach;
    var file, io := l.key.file, Answering([l], records);
    var s1 := GoStep(s, s, k, io);
    assert s1.tasks == s.tasks[k := Retrying(Retry(s.now, [l], {}), None)];
    var unseen: set<FileId> := {};
    assert [l][1..] == [] && unseen + {file} == {file};
    var s2 := GoStep(s, s1, k, io);
    assert s2.tasks == s.tasks[k := AtWork(s.now, file, records, Trying)];
    var s3 := GoStep(s, s2, k, io);
    assert s3.tasks == s.tasks[k := AtWork(s.now, file, records, Rechecking)];
    s' := GoStep(s, s3, k, io);
    assert s'.tasks == s.tasks[k := AtWork(s.now, file, records, Tracking(0))];
  }

  lemma {:induction false} TracksOn(s0: State, s: State, k: nat, now: int, file: FileId, records: seq<Record>, i: nat)
    returns (s': State)
    requires Reach(s0, s) && k in s.tasks && i <= |records|
    requires s.tasks[k] == AtWork(now, file, records, Tracking(i))
    ensures Reach(s0, s') && OnlyAdds(s.retry, s'.retry, file)
    ensures s' == At(s.(retry := s'.retry), k, AtWork(now, file, records, Working))
    decreases |records| - i
  {
    hide Reach;
    var s1 := GoStep(s0, s, k, Good([], file));
    if i == |records| {
      s' := s1;
      assert s'.tasks == s.tasks[k := AtWork(now, file, records, Working)];
    } else {
      assert s1.tasks == s.tasks[k := AtWork(now, file, records, Tracking(i + 1))];
      s' := TracksOn(s0, s1, k, now, file, records, i + 1);
      assert s'.tasks == s.tasks[k := AtWork(now, file, records, Working)];
    }
  }

  lemma {:induction false} SavesOne(s0: State, s: State, k: nat, now: int, file: FileId, records: seq<Record>)
    returns (s': State)
    requires Reach(s0, s) && k in s.tasks && file !in s.stored && records != [] && !records[0].persist
    requires s.tasks[k] == AtWork(now, file, records, Working)
    ensures Reach(s0, s')
    ensures s' == At(ClearRetry(s, file).(stored := s.stored + {file}, published := s.published + [file]), k,
                     AtWork(now, file, records, Releasing(true)))
  {
    hide Reach;
    var io := Good([], file);
    var s1 := GoStep(s0, s, k, io);
    assert s1.tasks == s.tasks[k := AtWork(now, file, records, Clearing(true))];
    var s2 := GoStep(s0, s1, k, io);
    assert s2.tasks == s.tasks[k := AtWork(now, file, records, Publishing)];
    s' := GoStep(s0, s2, k, io);
    assert s'.tasks == s.tasks[k := AtWork(now, file, records, Releasing(true))];
  }

  lemma {:induction false} Leaves(s0: State, s: State, k: nat, now: int, file: FileId, records: seq<Record>)
    returns (s': State)
    requires Reach(s0, s) && k in s.tasks && s.tasks[k] == AtWork(now, file, records, Releasing(true))
    ensures Reach(s0, s') && s' == s.(processing := s.processing - {file}, tasks := s.tasks - {k})
  {
    hide Reach;
    var io := Good([], file);
    var s1 := GoStep(s0, s, k, io);
    assert s1.tasks == s.tasks[k := AtWork(now, file, records, Returned(true))];
    var s2 := GoStep(s0, s1, k, io);
    assert s2.tasks == s.tasks[k := Retrying(Retry(now, [], {file}), None)];
    s' := GoStep(s0, s2, k, io);
    assert s'.tasks == s.tasks - {k};
  }

  /** A retry that nothing disturbs, of a waiting message whose chunks now arrive and
      decrypt: the message is stored and published once, none of its retry rows remains, and
      no row of another message changes. */
  lemma {:induction false} UndisturbedRetry(s: State, k: nat, recipient: Recipient, l: Listed, records: seq<Record>)
    returns (s': State)
    requires k in s.tasks && s.tasks[k] == Listing(recipient) && Waiting(s, l, recipient, records)
    ensures Reach(s, s') && s'.stored == s.stored + {l.key.file} && s'.published == s.published + [l.key.file]
    ensures forall key :: key in s'.retry <==> key in s.retry && key.file != l.key.file
    ensures forall key <- s'.retry :: s'.retry[key] == s.retry[key]
    ensures s'.processing == s.processing && s'.cursors == s.cursors && s'.expired == s.expired
    ensures s'.tasks == s.tasks - {k}
  {
    hide Reach, Step;
    var file := l.key.file;
    var s1 := Starts(s, k, recipient, l, records);
    var s2 := TracksOn(s, s1, k, s.now, file, records, 0);
    var s3 := SavesOne(s, s2, k, s.now, file, records);
    s' := Leaves(s, s3, k, s.now, file, records);
    assert s'.tasks == s.tasks - {k};
  }

  /** A listed row whose time to live has run out is removed, and the retry goes on. */
  lemma {:induction false} ExpiredRowGoes(s: State, k: nat, recipient: Recipient, l: Listed) returns (s': State)
    requires k in s.tasks && s.tasks[k] == Listing(recipient)
    requires l.key in s.retry && s.retry[l.key] == l.row && l.row.recipient == recipient && Expired(l.row, s.now)
    ensures Reach(s, s') && s'.retry == s.retry - {l.key} && s'.expired == s.expired + {l.key.file}
    ensures s'.stored == s.stored && s'.published == s.published && s'.tasks == s.tasks - {k}
  {
    assert Exec(s, []) == s;
    assert Reach(s, s);
    hide Reach;
    var io := Answering([l], []);
    var s1 := GoStep(s, s, k, io);
    assert s1.tasks == s.tasks[k := Retrying(Retry(s.now, [l], {}), None)];
    assert [l][1..] == [];
    var s2 := GoStep(s, s1, k, io);
    assert s2.tasks == s.tasks[k := Retrying(Retry(s.now, [], {}), None)];
    s' := GoStep(s, s2, k, io);
    assert s'.tasks == s.tasks - {k};
  }

  /** A message that arrives directly, or is sent here, is stored and then published, if
      its id is new; otherwise nothing changes. */
  lemma {:induction false} UndisturbedDelivery(s: State, k: nat, id: FileId, direct: bool) returns (s': State)
    requires k !in s.tasks
    ensures Reach(s, s') && s'.tasks == s.tasks && s'.retry == s.retry && s'.cursors == s.cursors
    ensures id in s.stored ==> s' == s
    ensures id !in s.stored ==> s'.stored == s.stored + {id} && s'.published == s.published + [id]
  {
    assert Exec(s, []) == s;
    assert Reach(s, s);
    var a := if direct then ADirect(k, id, true) else ASend(k, id, true);
    s' := Next(s, a);
    Go(s, s, a);
    hide Reach;
    if id !in s.stored {
      assert s'.tasks == s.tasks[k := Announcing(id)];
      s' := GoStep(s, s', k, Good([], id));
      assert s'.tasks == s.tasks;
    }
  }
}

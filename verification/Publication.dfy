/** At-most-once publication over the runs of Reception, and what the set of messages in
    process is for. */
module Publication {
  import opened Basics
  import opened Reception

  function CallOf(task: Task): Option<Collect> {
    match task
    case Polling(_, call) => call
    case Retrying(_, call) => call
    case _ => None
  }

  /** The message whose row this task committed and which it is yet to announce. */
  function Owes(task: Task): Option<FileId> {
    if task.Announcing? then Some(task.id)
    else match CallOf(task)
      case Some(c) => if c.phase == Clearing(true) || c.phase == Publishing then Some(c.file) else None
      case None => None
  }

  /** The message whose slot in processingMsg this task holds. */
  function Holds(task: Task): Option<FileId> {
    match CallOf(task)
    case Some(c) => if c.phase.Trying? || c.phase.Returned? then None else Some(c.file)
    case None => None
  }

  predicate Disjoint(a: Task, b: Task) {
    && (Owes(a).Some? ==> Owes(a) != Owes(b))
    && (Holds(a).Some? ==> Holds(a) != Holds(b))
  }

  predicate TaskOk(s: State, task: Task) {
    && (Owes(task).Some? ==> Owes(task).value in s.stored && Owes(task).value !in s.published)
    && (Holds(task).Some? ==> Holds(task).value in s.processing)
  }

  predicate LogOk(s: State) {
    && (forall i, j :: 0 <= i < j < |s.published| ==> s.published[i] != s.published[j])
    && (forall id <- s.published :: id in s.stored)
  }

  predicate Inv(s: State) {
    && LogOk(s)
    && (forall k <- s.tasks :: TaskOk(s, s.tasks[k]))
    && (forall j, k :: j in s.tasks && k in s.tasks && j != k ==> Disjoint(s.tasks[j], s.tasks[k]))
  }

  // ---- What a step of task k may do ----

  /** Task k takes on an announcement only with a fresh row, publishes only what it owes,
      and takes or frees only the slot it holds. */
  predicate StepOk(s: State, s': State, k: nat, before: Option<Task>, after: Option<Task>) {
    var owed := if before.Some? then Owes(before.value) else None;
    var owes := if after.Some? then Owes(after.value) else None;
    var held := if before.Some? then Holds(before.value) else None;
    var holds := if after.Some? then Holds(after.value) else None;
    && s.stored <= s'.stored
    && (owes.Some? ==> owes == owed || (owes.value in s'.stored && owes.value !in s.stored))
    && (s'.published == s.published || (owed.Some? && s'.published == s.published + [owed.value] && owes.None?))
    && (holds.Some? ==> holds == held || (holds.value in s'.processing && holds.value !in s.processing))
    && (s.processing <= s'.processing || (held.Some? && holds.None? && s'.processing == s.processing - {held.value}))
  }

  function Get(s: State, k: nat): Option<Task> {
    if k in s.tasks then Some(s.tasks[k]) else None
  }

  lemma {:induction false} StepOkKeeps(s: State, s': State, k: nat)
    requires Inv(s) && StepOk(s, s', k, Get(s, k), Get(s', k))
    requires forall j <- s'.tasks :: j == k || (j in s.tasks && s'.tasks[j] == s.tasks[j])
    ensures Inv(s')
  {
    hide Owes, Holds;
    forall j <- s'.tasks | j != k && k in s.tasks
      ensures Disjoint(s.tasks[j], s.tasks[k])
    {
    }
    if s'.published != s.published {
      var owed := Owes(s.tasks[k]).value;
      assert owed !in s.published && owed in s.stored;
    }
  }

  lemma {:induction false} CollectingOk(s: State, c: Collect, io: Io, before: Task, after: Task)
    requires CallOf(before) == Some(c) && CallOf(after) == Some(c.(phase := Collecting(s, c, io).phase))
    requires !before.Announcing? && !after.Announcing?
    ensures StepOk(s, Collecting(s, c, io).state, 0, Some(before), Some(after))
    ensures Collecting(s, c, io).state.tasks == s.tasks
  {
  }

  /** A step that owes, holds, stores and publishes nothing. */
  predicate Idle(s: State, s': State, k: nat) {
    && s'.stored == s.stored && s'.published == s.published && s'.processing == s.processing
    && (forall j <- s'.tasks :: j == k || (j in s.tasks && s'.tasks[j] == s.tasks[j]))
    && (k in s'.tasks ==> Owes(s'.tasks[k]).None? && Holds(s'.tasks[k]).None?)
  }

  lemma {:induction false} PollIdle(s: State, k: nat, p: Poll, io: Io)
    ensures Idle(s, PollStep(s, k, p, io), k) || PollStep(s, k, p, io) == s
  {
    hide Sort;
  }

  lemma {:induction false} FetchIdle(s: State, k: nat, recipient: Recipient, lastCheck: int, io: Io)
    ensures Idle(s, Fetch(s, k, recipient, lastCheck, io), k) || Fetch(s, k, recipient, lastCheck, io) == s
    ensures Idle(s, List(s, k, recipient, io), k)
  {
    hide Answers;
  }

  lemma {:induction false} RetryIdle(s: State, k: nat, r: Retry, io: Io)
    ensures Idle(s, RetryStep(s, k, r, io), k)
  {
  }

  /** A poll or retry with a call in progress. */
  lemma {:induction false} CallKeeps(s: State, s': State, k: nat, c: Collect, io: Io)
    requires Inv(s) && k in s.tasks && CallOf(s.tasks[k]) == Some(c) && !c.phase.Returned?
    requires k in s'.tasks && !s'.tasks[k].Announcing?
             && CallOf(s'.tasks[k]) == Some(c.(phase := Collecting(s, c, io).phase))
    requires s' == At(Collecting(s, c, io).state, k, s'.tasks[k])
    ensures Inv(s')
  {
    CollectingOk(s, c, io, s.tasks[k], s'.tasks[k]);
    hide Inv, Collecting, Owes, Holds;
    StepOkKeeps(s, s', k);
  }

  lemma {:induction false} StepCallKeeps(s: State, k: nat, c: Collect, io: Io)
    requires Inv(s) && k in s.tasks && CallOf(s.tasks[k]) == Some(c)
    ensures Inv(Step(s, k, io))
  {
    hide Inv, Collecting;
    if c.phase.Returned? {
      IdleKeeps(s, Step(s, k, io), k);
    } else {
      CallKeeps(s, Step(s, k, io), k, c, io);
    }
  }

  lemma {:induction false} StepKeeps(s: State, k: nat, io: Io)
    requires Inv(s)
    ensures Inv(Step(s, k, io))
  {
    hide Inv, Collecting, PollStep, Fetch, List, RetryStep;
    if k in s.tasks {
      match s.tasks[k]
      case Fetching(recipient, lastCheck) => FetchIdle(s, k, recipient, lastCheck, io); IdleKeeps(s, Step(s, k, io), k);
      case Listing(recipient) => FetchIdle(s, k, recipient, 0, io); IdleKeeps(s, Step(s, k, io), k);
      case Polling(p, None) => PollIdle(s, k, p, io); IdleKeeps(s, Step(s, k, io), k);
      case Retrying(r, None) => RetryIdle(s, k, r, io); IdleKeeps(s, Step(s, k, io), k);
      case Polling(_, Some(c)) => StepCallKeeps(s, k, c, io);
      case Retrying(_, Some(c)) => StepCallKeeps(s, k, c, io);
      case Announcing(_) => StepOkKeeps(s, Step(s, k, io), k);
    }
  }

  lemma {:induction false} IdleKeeps(s: State, s': State, k: nat)
    requires Inv(s) && (Idle(s, s', k) || s' == s)
    ensures Inv(s')
  {
    if s' != s {
      hide Inv, Owes, Holds;
      StepOkKeeps(s, s', k);
    }
  }

  lemma {:induction false} NextKeeps(s: State, a: Action)
    requires Inv(s)
    ensures Inv(Next(s, a))
  {
    hide Inv, Step, Cleanup;
    match a
    case AStep(k, io) => StepKeeps(s, k, io);
    case APoll(k, _, _) => StepOkKeeps(s, Next(s, a), k);
    case ADirect(k, _, _) => StepOkKeeps(s, Next(s, a), k);
    case ASend(k, _, _) => StepOkKeeps(s, Next(s, a), k);
    case _ => WorldKeeps(s, a);
  }

  lemma {:induction false} WorldKeeps(s: State, a: Action)
    requires Inv(s)
    requires !a.AStep? && !a.APoll? && !a.ADirect? && !a.ASend?
    ensures Inv(Next(s, a))
  {
    hide Owes, Holds;
  }

  lemma {:induction false} RunKeeps(now: int, clock: nat, persistent: set<FileId>, run: seq<Action>)
    ensures Inv(Exec(Start(now, clock, persistent), run))
  {
    if run != [] {
      hide Inv, Next;
      RunKeeps(now, clock, persistent, run[..|run|-1]);
      NextKeeps(Exec(Start(now, clock, persistent), run[..|run|-1]), run[|run|-1]);
    }
  }

  /** In every run each message id is published at most once, over the direct path, the
      offline path, local sends and imports together, and its row is committed. */
  lemma {:induction false} PublishedAtMostOnce(now: int, clock: nat, persistent: set<FileId>, run: seq<Action>)
    ensures var s := Exec(Start(now, clock, persistent), run);
            && (forall i, j :: 0 <= i < j < |s.published| ==> s.published[i] != s.published[j])
            && (forall id <- s.published :: id in s.stored)
  {
    RunKeeps(now, clock, persistent, run);
  }

  /** At no time do two polls or retries work on the same message. */
  lemma {:induction false} OneWorkerPerMessage(now: int, clock: nat, persistent: set<FileId>, run: seq<Action>,
                                        j: nat, k: nat)
    requires var s := Exec(Start(now, clock, persistent), run);
             j in s.tasks && k in s.tasks && j != k && Holds(s.tasks[j]).Some?
    ensures var s := Exec(Start(now, clock, persistent), run); Holds(s.tasks[j]) != Holds(s.tasks[k])
  {
    RunKeeps(now, clock, persistent, run);
    var s := Exec(Start(now, clock, persistent), run);
    assert Disjoint(s.tasks[j], s.tasks[k]);
  }
}

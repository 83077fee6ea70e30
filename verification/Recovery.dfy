/**
 Restoring pending tasks at start-up (src/main.rs): they are sent into the
 channel before the worker that empties it exists.
 */
module Recovery {
  import opened Wrappers
  import opened Ledger
  import opened Storage
  import opened Lifecycle
  import Counter
  import LossWindow

  function Recovers(k: nat): (steps: seq<Step>)
    ensures |steps| == k
  {
    if k == 0 then [] else [Recover] + Recovers(k - 1)
  }

  /** `k` recovery steps are possible and end with the node up. */
  ghost predicate UpAfter(s: Node, k: nat) {
    Run(s, Recovers(k)) && RunTo(s, Recovers(k)).mode.Up?
  }

  lemma RecoversTail(k: nat)
    requires k > 0
    ensures Recovers(k)[0] == Recover && Recovers(k)[1..] == Recovers(k - 1)
  {
  }

  lemma OneMoreStep(s: Node, k: nat)
    requires CanRecover(s) && UpAfter(AfterRecover(s), k)
    ensures UpAfter(s, k + 1)
    ensures RunTo(s, Recovers(k + 1)) == RunTo(AfterRecover(s), Recovers(k))
  {
    RecoversTail(k + 1);
    assert Apply(s, Recover) == AfterRecover(s);
  }

  /** `up` has every task of `s` queued and held, in order. */
  ghost predicate Restores(s: Node, up: Node)
    requires s.mode.Recovering?
  {
    && up.queue == s.queue + s.mode.rest
    && up.pending == s.pending
    && up.ledger.held.Keys == s.ledger.held.Keys + Ids(s.mode.rest)
    && up.tables == s.tables
  }

  lemma LastStep(s: Node)
    requires s.mode.Recovering? && s.mode.rest == []
    ensures UpAfter(s, 1) && Restores(s, RunTo(s, Recovers(1)))
  {
    RecoversTail(1);
    assert Apply(s, Recover) == AfterRecover(s);
    assert Recovers(0) == [];
    assert s.queue + s.mode.rest == s.queue;
  }

  lemma OneMoreTask(s: Node, up: Node)
    requires CanRecover(s) && !s.mode.headHeld && s.mode.rest != []
    requires Restores(AfterRecover(AfterRecover(s)), up)
    ensures Restores(s, up)
  {
    hide AfterHold;
    var rest := s.mode.rest;
    HeldKeys(s.ledger, rest[0]);
    FirstId(rest);
    assert s.queue + rest == (s.queue + [rest[0]]) + rest[1..];
  }

  /** With room for every task, recovery ends with all of them queued, in order. */
  lemma {:induction false} RoomSuffices(s: Node) returns (k: nat)
    requires s.mode.Recovering? && !s.mode.headHeld && |s.queue| + |s.mode.rest| <= CAPACITY
    ensures UpAfter(s, k) && Restores(s, RunTo(s, Recovers(k)))
    decreases |s.mode.rest|
  {
    hide AfterHold, Run, RunTo, UpAfter, Restores;
    if s.mode.rest == [] {
      LastStep(s);
      k := 1;
    } else {
      var held := AfterRecover(s);
      var more := RoomSuffices(AfterRecover(held));
      OneMoreStep(held, more);
      OneMoreStep(s, more + 1);
      k := more + 2;
      OneMoreTask(s, RunTo(s, Recovers(k)));
    }
  }

  lemma HeldKeys(ledger: Ledger.State, task: Task)
    ensures AfterHold(ledger, task.id, task.parent, task.budget).held.Keys == ledger.held.Keys + {task.id}
  {
  }

  lemma FirstId(tasks: seq<Task>)
    requires tasks != []
    ensures Ids(tasks) == {tasks[0].id} + Ids(tasks[1..])
  {
    forall id | id in Ids(tasks) ensures id in {tasks[0].id} + Ids(tasks[1..]) {
      var i :| 0 <= i < |tasks| && tasks[i].id == id;
      if i > 0 {
        assert tasks[1..][i - 1].id == id;
      }
    }
    forall id | id in Ids(tasks[1..]) ensures id in Ids(tasks) {
      var i :| 0 <= i < |tasks[1..]| && tasks[1..][i].id == id;
      assert tasks[i + 1].id == id;
    }
  }

  /** Some run, of whatever steps, brings the node up. */
  ghost predicate ComesUp(s: Node) {
    exists steps :: Run(s, steps) && RunTo(s, steps).mode.Up?
  }

  /** Whoever lists the pending rows finds more than the channel can take. */
  ghost predicate Overfull(tables: TaskTables) {
    forall rows :: ListsPending(rows, tables.tasks) ==> |rows| > CAPACITY
  }

  lemma SameLength(rows: seq<Task>, others: seq<Task>, tasks: map<string, TaskRow>)
    requires ListsPending(rows, tasks) && ListsPending(others, tasks)
    ensures |rows| == |others|
  {
    assert Ids(rows) == Ids(others);
    Counter.DistinctCount(rows);
    Counter.DistinctCount(others);
  }

  /** The node is not up, and cannot get up with the rows it has. */
  ghost predicate Stuck(s: Node) {
    && Overfull(s.tables)
    && match s.mode
       case Up => false
       case Down => s.queue == []
       case Recovering(rest, _) => |s.queue| <= CAPACITY < |s.queue| + |rest|
  }

  lemma StepKeepsStuck(s: Node, step: Step)
    requires Stuck(s) && Enabled(s, step)
    ensures Stuck(Apply(s, step))
  {
    OnlyStartUpRuns(s, step);
    hide Apply, Enabled, Overfull, Stuck;
    match step
    case Crash => RestartKeepsStuck(s, []);
    case Boot(rows) => RestartKeepsStuck(s, rows);
    case _ => RecoverKeepsStuck(s);
  }

  lemma RestartKeepsStuck(s: Node, rows: seq<Task>)
    requires Stuck(s)
    ensures Stuck(AfterCrash(s))
    ensures s.mode.Down? && ListsPending(rows, s.tables.tasks) ==> Stuck(AfterBoot(s, rows))
  {
    hide ListsPending;
  }

  /** Before the node is up nothing but start-up runs. */
  lemma OnlyStartUpRuns(s: Node, step: Step)
    requires !s.mode.Up? && Enabled(s, step)
    ensures match step
            case Crash => Apply(s, step) == AfterCrash(s)
            case Boot(rows) => s.mode.Down? && ListsPending(rows, s.tables.tasks) && Apply(s, step) == AfterBoot(s, rows)
            case Recover => CanRecover(s) && Apply(s, step) == AfterRecover(s)
            case _ => false
  {
    hide AfterRecover, AfterCrash, AfterBoot;
  }

  lemma RecoverKeepsStuck(s: Node)
    requires Stuck(s) && CanRecover(s)
    ensures Stuck(AfterRecover(s))
  {
    hide Overfull, AfterHold;
  }

  /** Without room no run brings the node up, whatever crashes and restarts it has. */
  lemma {:induction false} StuckForGood(s: Node, steps: seq<Step>)
    requires Stuck(s) && Run(s, steps)
    ensures !RunTo(s, steps).mode.Up?
    decreases |steps|
  {
    hide Enabled, Apply, Overfull;
    if steps != [] {
      StepKeepsStuck(s, steps[0]);
      StuckForGood(Apply(s, steps[0]), steps[1..]);
    }
  }

  /**
   Start-up comes to its end, sooner or later and after whatever crashes, exactly
   when the pending rows fit the channel.
   */
  lemma RecoveryFinishesIffRowsFit(s: Node, rows: seq<Task>)
    requires s.mode.Down? && s.queue == [] && ListsPending(rows, s.tables.tasks)
    ensures ComesUp(s) <==> |rows| <= 100
  {
    var booted := AfterBoot(s, rows);
    hide Run, RunTo, ListsPending, Recovers;
    if |rows| <= CAPACITY {
      var k := RoomSuffices(booted);
      BootThenUp(s, rows, k);
    } else {
      forall others | ListsPending(others, s.tables.tasks) ensures |others| > CAPACITY {
        SameLength(rows, others, s.tables.tasks);
      }
      forall steps | Run(s, steps) ensures !RunTo(s, steps).mode.Up? {
        StuckForGood(s, steps);
      }
    }
  }

  lemma BootThenUp(s: Node, rows: seq<Task>, k: nat)
    requires s.mode.Down? && ListsPending(rows, s.tables.tasks) && UpAfter(AfterBoot(s, rows), k)
    ensures ComesUp(s)
  {
    var steps := [Boot(rows)] + Recovers(k);
    assert steps[0] == Boot(rows) && steps[1..] == Recovers(k);
    assert Apply(s, steps[0]) == AfterBoot(s, rows);
    hide AfterBoot, Recovers, ListsPending;
    assert Run(s, steps) && RunTo(s, steps).mode.Up?;
  }

  /** What a finished recovery has restored. */
  lemma RecoveryRestoresEverything(s: Node, rows: seq<Task>) returns (k: nat)
    requires s.mode.Down? && s.queue == [] && ListsPending(rows, s.tables.tasks) && |rows| <= CAPACITY
    ensures UpAfter(AfterBoot(s, rows), k)
    ensures var up := RunTo(AfterBoot(s, rows), Recovers(k));
      && up.queue == rows && up.pending == |rows| && up.ledger.held.Keys == Ids(rows)
      && (forall id :: id in s.tables.tasks && s.tables.tasks[id].status == Pending ==> id in Ids(up.queue))
      && (forall i, j :: 0 <= i < j < |up.queue| ==>
            && up.queue[i].id in s.tables.tasks && up.queue[j].id in s.tables.tasks
            && s.tables.tasks[up.queue[i].id].createdAt <= s.tables.tasks[up.queue[j].id].createdAt)
  {
    ListedOldestFirst(rows, s.tables.tasks);
    hide UpAfter, Run, RunTo, Recovers, ListsPending, Ids, AfterHold;
    var booted := AfterBoot(s, rows);
    assert booted.mode == Recovering(rows, false) && booted.pending == |rows| && booted.ledger.held.Keys == {};
    hide AfterBoot;
    k := RoomSuffices(booted);
    assert [] + rows == rows;
  }

  lemma ListedOldestFirst(rows: seq<Task>, tasks: map<string, TaskRow>)
    requires ListsPending(rows, tasks)
    ensures forall id :: id in tasks && tasks[id].status == Pending ==> id in Ids(rows)
    ensures forall i, j :: 0 <= i < j < |rows| ==>
              rows[i].id in tasks && rows[j].id in tasks && tasks[rows[i].id].createdAt <= tasks[rows[j].id].createdAt
  {
    hide Ids, DistinctIds;
  }

  // ---------------------------------------------------------------------
  // A start-up that never ends
  // ---------------------------------------------------------------------

  function Name(k: nat): (name: string)
    ensures |name| == k + 1
  {
    seq(k + 1, _ => 'x')
  }

  function Nth(k: nat): Task {
    Task(Name(k), None, "circuit", None, 0)
  }

  function Firsts(n: nat): (tasks: seq<Task>)
    ensures |tasks| == n && forall i :: 0 <= i < n ==> tasks[i] == Nth(i)
  {
    if n == 0 then [] else Firsts(n - 1) + [Nth(n - 1)]
  }

  /** The first `n` sub-tasks have been inserted, each by a handler of its own. */
  ghost predicate Inserted(s: Node, n: nat) {
    && LossWindow.Reached(s) && s.mode.Up?
    && (forall k: nat :: k < n ==> Name(k) in s.tables.tasks && s.tables.tasks[Name(k)] == TaskRow(Nth(k), Pending, 0))
    && (forall id :: id in s.tables.tasks || id in s.past.accepted ==> exists k :: 0 <= k < n && id == Name(k))
    && (forall h :: h in s.handlers ==> h < n)
  }

  lemma InsertNext(s: Node, n: nat) returns (next: Node)
    requires Inserted(s, n)
    ensures Inserted(next, n + 1)
  {
    hide LossWindow.Reached;
    assert Name(n) !in s.tables.tasks && Name(n) !in s.past.accepted;
    assert n !in s.handlers;
    next := InsertOne(s, n, Nth(n));
    hide Name;
  }

  /** A new task comes in, is looked up and is inserted. */
  lemma InsertOne(s: Node, h: nat, task: Task) returns (next: Node)
    requires LossWindow.Reached(s) && s.mode.Up? && h !in s.handlers
    requires task.id !in s.tables.tasks && task.id !in s.past.accepted
    ensures LossWindow.Reached(next) && next.mode.Up? && next.handlers.Keys == s.handlers.Keys + {h}
    ensures next.tables.tasks == s.tables.tasks[task.id := TaskRow(task, Pending, 0)]
    ensures next.past.accepted == s.past.accepted + {task.id}
  {
    hide LossWindow.Reached;
    LossWindow.Onward(s, Dispatch(h, task));
    var looking := Apply(s, Dispatch(h, task));
    LossWindow.Onward(looking, Handle(h, 0));
    var saving := Apply(looking, Handle(h, 0));
    assert saving == looking.(handlers := looking.handlers[h := Saving(task)]);
    LossWindow.Onward(saving, Handle(h, 0));
    next := Apply(saving, Handle(h, 0));
  }

  lemma {:induction false} InsertMany(n: nat) returns (s: Node)
    ensures Inserted(s, n)
    decreases n
  {
    if n == 0 {
      LossWindow.UpIsReached();
      s := INITIAL.(mode := Up, open := true);
      hide LossWindow.Reached;
    } else {
      hide Inserted;
      s := InsertMany(n - 1);
      s := InsertNext(s, n - 1);
    }
  }

  lemma ListInserted(s: Node, n: nat) returns (rows: seq<Task>)
    requires Inserted(s, n)
    ensures |rows| == n && ListsPending(rows, s.tables.tasks)
  {
    rows := Firsts(n);
    hide LossWindow.Reached, Firsts, Name;
    forall i, j | 0 <= i < j < n ensures rows[i].id != rows[j].id {
      assert |rows[i].id| < |rows[j].id|;
    }
    forall id | id in s.tables.tasks ensures id in Ids(rows) {
      var k :| 0 <= k < n && id == Name(k);
      assert rows[k].id == id;
    }
  }

  /** Handlers insert before they queue: a crash can leave any number of pending rows. */
  lemma AnyNumberOfRowsIsReached(n: nat) returns (s: Node, rows: seq<Task>)
    ensures LossWindow.Reached(s) && s.mode.Down? && s.queue == []
    ensures |rows| == n && ListsPending(rows, s.tables.tasks)
  {
    var up := InsertMany(n);
    rows := ListInserted(up, n);
    hide LossWindow.Reached;
    LossWindow.Onward(up, Crash);
    s := Apply(up, Crash);
  }

  /** So some reachable node never comes up again, whatever crashes and restarts follow. */
  lemma SomeStartUpNeverEnds() returns (s: Node)
    ensures LossWindow.Reached(s) && s.mode.Down? && !ComesUp(s)
  {
    var rows;
    s, rows := AnyNumberOfRowsIsReached(101);
    RecoveryFinishesIffRowsFit(s, rows);
  }

  // ---------------------------------------------------------------------
  // The channel never overflows
  // ---------------------------------------------------------------------

  lemma WorkKeepsQueue(s: Node, outcome: Outcome, sendOk: bool, now: int)
    requires s.worker.Busy?
    ensures AfterWork(s, outcome, sendOk, now).queue == s.queue
  {
    hide BuildWire, AfterRelease, Ledger.AfterStart, UpdateStatus, UpsertResult, DeleteResult;
  }

  lemma HandleKeepsQueue(s: Node, h: nat, now: int)
    requires CanHandle(s, h)
    ensures |AfterHandle(s, h, now).queue| <= |s.queue| || |AfterHandle(s, h, now).queue| <= 100
  {
    hide AfterHold, AfterRelease, SamePayload, SaveTask;
  }

  lemma StepKeepsQueue(s: Node, step: Step)
    requires |s.queue| <= 100 && Enabled(s, step)
    ensures |Apply(s, step).queue| <= 100
  {
    hide AfterWork, AfterHandle, CanHandle, ListsResults, ListsPending, AfterHold;
    match step
    case Work(outcome, sendOk, now) => WorkKeepsQueue(s, outcome, sendOk, now);
    case Handle(h, now) => HandleKeepsQueue(s, h, now);
    case _ =>
  }

  /** Whatever handlers, worker and recovery do, at most a hundred tasks are ever in the channel. */
  lemma {:induction false} QueueNeverOverflows(s: Node, steps: seq<Step>)
    requires |s.queue| <= 100 && Run(s, steps)
    ensures |RunTo(s, steps).queue| <= 100
    decreases |steps|
  {
    hide Enabled, Apply;
    if steps != [] {
      StepKeepsQueue(s, steps[0]);
      QueueNeverOverflows(Apply(s, steps[0]), steps[1..]);
    }
  }
}

/** Exactly the tasks caught in the window by a crash are lost, and for good. */
module LossWindow {
  import opened Wrappers
  import opened Ledger
  import opened Storage
  import opened Lifecycle
  import opened Durability
  import opened Counter

  ghost predicate PendingRow(s: Node, id: string) {
    id in s.tables.tasks && s.tables.tasks[id].status == Pending
  }

  /** The task has not reached its status update. */
  ghost predicate Early(s: Node, id: string)
    requires id in s.past.place
  {
    s.past.place[id].AtWorker? ==> s.worker.Busy? && s.worker.phase in {Start, Compute, Mark}
  }

  ghost predicate PlaceTracked(s: Node, id: string) {
    id in s.past.place ==>
      && (Early(s, id) ==> PendingRow(s, id) && id !in s.past.stored)
      && (s.past.place[id].AtWorker? && s.worker.Busy? && s.worker.phase == Store ==> !PendingRow(s, id) && id !in s.past.stored)
  }

  ghost predicate ExposedTracked(s: Node, id: string) {
    id in s.past.exposed ==>
      id in s.past.accepted && id !in s.past.stored && id !in s.past.place && !PendingRow(s, id)
  }

  ghost predicate TrackedId(s: Node, id: string) {
    && (id in s.tables.results || id in s.past.sent ==> id in s.past.stored)
    && (id in s.past.stored ==> !PendingRow(s, id) && id in s.past.accepted)
    && PlaceTracked(s, id)
    && ExposedTracked(s, id)
  }

  ghost predicate RetryTracked(s: Node) {
    match s.retry
    case Resting => true
    case Resending(entries) => forall i :: 0 <= i < |entries| ==> entries[i].id in s.past.stored
    case Clearing(entry, more) => entry.id in s.past.stored && forall i :: 0 <= i < |more| ==> more[i].id in s.past.stored
    case Noting(entry, more) => forall i :: 0 <= i < |more| ==> more[i].id in s.past.stored
  }

  ghost predicate Tracked(s: Node) {
    RetryTracked(s) && forall id :: TrackedId(s, id)
  }

  /** Everything `TrackedId` looks at, apart from the worker, is the same for `id`. */
  ghost predicate SameRecord(s: Node, next: Node, id: string) {
    && (PendingRow(next, id) <==> PendingRow(s, id))
    && (id in next.tables.results ==> id in s.tables.results)
    && (id in next.past.sent ==> id in s.past.sent)
    && (id in next.past.stored <==> id in s.past.stored)
    && (id in next.past.exposed <==> id in s.past.exposed)
    && (id in s.past.accepted ==> id in next.past.accepted)
  }

  lemma WorkSparesRows(s: Node, outcome: Outcome, sendOk: bool, now: int, id: string)
    requires s.worker.Busy? && id != s.worker.task.id
    ensures var next := AfterWork(s, outcome, sendOk, now);
      && (PendingRow(next, id) <==> PendingRow(s, id))
      && (id in next.tables.results ==> id in s.tables.results)
  {
    hide BuildWire, AfterRelease, Ledger.AfterStart;
  }

  /** What a worker step records: at most one fact, about its own task. */
  lemma WorkRecords(s: Node, outcome: Outcome, sendOk: bool, now: int)
    requires s.worker.Busy?
    ensures var past, next, own := s.past, AfterWork(s, outcome, sendOk, now).past, s.worker.task.id;
      || next == past
      || next == past.(stored := past.stored + {own})
      || next == past.(sent := past.sent + {own})
      || next == past.(place := past.place - {own})
  {
    hide BuildWire, AfterRelease, Ledger.AfterStart, UpdateStatus, UpsertResult, DeleteResult;
  }

  lemma WorkSparesPast(s: Node, outcome: Outcome, sendOk: bool, now: int, id: string)
    requires s.worker.Busy? && id != s.worker.task.id
    ensures var past, next := s.past, AfterWork(s, outcome, sendOk, now).past;
      && (id in next.sent ==> id in past.sent)
      && (id in next.stored <==> id in past.stored)
      && next.exposed == past.exposed && next.accepted == past.accepted
      && (id in next.place <==> id in past.place)
      && (id in past.place ==> next.place[id] == past.place[id])
  {
    WorkRecords(s, outcome, sendOk, now);
    hide AfterWork;
  }

  lemma WorkSparesOthers(s: Node, outcome: Outcome, sendOk: bool, now: int, id: string)
    requires s.worker.Busy? && id != s.worker.task.id
    ensures var next := AfterWork(s, outcome, sendOk, now);
      && SameRecord(s, next, id)
      && (id in next.past.place <==> id in s.past.place)
      && (id in s.past.place ==> next.past.place[id] == s.past.place[id])
  {
    hide AfterWork, PendingRow;
    WorkSparesRows(s, outcome, sendOk, now, id);
    WorkSparesPast(s, outcome, sendOk, now, id);
  }

  lemma WorkTracksOther(s: Node, outcome: Outcome, sendOk: bool, now: int, id: string)
    requires TrackedId(s, id) && Placed(s) && s.worker.Busy? && id != s.worker.task.id
    ensures TrackedId(AfterWork(s, outcome, sendOk, now), id)
  {
    if id in s.past.place {
      OthersElsewhere(s, id);
    }
    WorkSparesOthers(s, outcome, sendOk, now, id);
    hide AfterWork, Placed, PendingRow;
  }

  lemma OthersElsewhere(s: Node, id: string)
    requires Placed(s) && s.worker.Busy? && id != s.worker.task.id && id in s.past.place
    ensures !s.past.place[id].AtWorker?
  {
    assert Located(s, id);
  }

  lemma WorkTracksOwn(s: Node, outcome: Outcome, sendOk: bool, now: int, id: string)
    requires TrackedId(s, id) && Known(s) && At(s, id, AtWorker) && WorkerHonest(s) && s.worker.Busy? && id == s.worker.task.id
    ensures TrackedId(AfterWork(s, outcome, sendOk, now), id)
  {
    hide BuildWire, AfterRelease, Ledger.AfterStart;
  }

  lemma WorkKeepsRetryTracked(s: Node, outcome: Outcome, sendOk: bool, now: int)
    requires RetryTracked(s) && s.worker.Busy?
    ensures RetryTracked(AfterWork(s, outcome, sendOk, now))
  {
    hide BuildWire, AfterRelease, Ledger.AfterStart;
  }

  lemma HandleSparesRows(s: Node, h: nat, now: int, id: string)
    requires h in s.handlers && id != s.handlers[h].task.id
    ensures SameRecord(s, AfterHandle(s, h, now), id)
  {
    hide AfterHold, AfterRelease, SamePayload;
  }

  lemma HandleSparesPast(s: Node, h: nat, now: int, id: string)
    requires h in s.handlers && id != s.handlers[h].task.id
    ensures var next := AfterHandle(s, h, now);
      && (id in next.past.place <==> id in s.past.place)
      && (id in s.past.place ==> next.past.place[id] == s.past.place[id])
      && next.worker == s.worker && next.retry == s.retry && s.past.stored <= next.past.stored
  {
    hide AfterHold, AfterRelease, SamePayload;
  }

  lemma HandleSparesOthers(s: Node, h: nat, now: int, id: string)
    requires h in s.handlers && id != s.handlers[h].task.id
    ensures var next := AfterHandle(s, h, now);
      && SameRecord(s, next, id)
      && (id in next.past.place <==> id in s.past.place)
      && (id in s.past.place ==> next.past.place[id] == s.past.place[id])
      && next.worker == s.worker && next.retry == s.retry && s.past.stored <= next.past.stored
  {
    HandleSparesRows(s, h, now, id);
    HandleSparesPast(s, h, now, id);
    hide AfterHandle, SameRecord;
  }

  lemma HandleTracksOwn(s: Node, h: nat, now: int, id: string)
    requires h in s.handlers && id == s.handlers[h].task.id
    requires TrackedId(s, id) && Known(s) && Fresh(s, Handle(h, now))
    requires Responsible(s.handlers[h]) ==> At(s, id, AtHandler(h))
    ensures TrackedId(AfterHandle(s, h, now), id)
  {
    hide AfterHold, AfterRelease, SamePayload;
  }

  lemma HandleTracks(s: Node, h: nat, now: int, id: string)
    requires TrackedId(s, id) && Placed(s) && Known(s) && Enabled(s, Handle(h, now)) && Fresh(s, Handle(h, now))
    ensures TrackedId(AfterHandle(s, h, now), id)
  {
    if id == s.handlers[h].task.id {
      hide AfterHandle, TrackedId, Known, Fresh;
      HandleTracksOwn(s, h, now, id);
    } else {
      HandleSparesOthers(s, h, now, id);
      hide AfterHandle, Placed, PendingRow, Known;
    }
  }

  lemma RetryTracks(s: Node, sendOk: bool, id: string)
    requires Tracked(s) && Enabled(s, Resend(sendOk))
    ensures TrackedId(AfterRetry(s, sendOk), id)
  {
    assert TrackedId(s, id);
    RetryRecord(s, sendOk, id);
    hide AfterRetry, PendingRow;
  }

  lemma RetryRecord(s: Node, sendOk: bool, id: string)
    requires RetryTracked(s) && Enabled(s, Resend(sendOk))
    ensures var next := AfterRetry(s, sendOk);
      && (PendingRow(next, id) <==> PendingRow(s, id))
      && (id in next.tables.results ==> id in s.tables.results)
      && (id in next.past.sent ==> id in s.past.sent || id in s.past.stored)
      && next.past == s.past.(sent := next.past.sent) && next.worker == s.worker
      && RetryTracked(next)
  {
  }

  lemma CrashTracks(s: Node, id: string)
    requires TrackedId(s, id) && Placed(s) && Known(s)
    ensures TrackedId(AfterCrash(s), id)
  {
    hide Ids, DistinctIds;
    if id in Window(s) {
      assert At(s, id, AtWorker);
    }
  }

  lemma BootTracks(s: Node, rows: seq<Task>, id: string)
    requires TrackedId(s, id) && Enabled(s, Boot(rows))
    ensures TrackedId(AfterBoot(s, rows), id)
  {
    hide DistinctIds;
    if id in Ids(rows) {
      var i :| 0 <= i < |rows| && rows[i].id == id;
    }
  }

  lemma PruneTracks(s: Node, cutoff: int, id: string)
    requires TrackedId(s, id)
    ensures TrackedId(s.(tables := PruneTasks(s.tables, cutoff)), id)
  {
  }

  /** Dispatch, receive, recover, list and close move a task at most between early places. */
  lemma QuietTracks(s: Node, step: Step, id: string)
    requires TrackedId(s, id) && Placed(s) && Enabled(s, step)
    requires step.Dispatch? || step.Receive? || step.Recover? || step.List? || step.CloseWorker?
    ensures TrackedId(Apply(s, step), id)
  {
    if step.Receive? {
      ReceiveTracks(s, id);
    } else if step.Recover? {
      RecoverTracks(s, id);
    }
  }

  lemma ReceiveTracks(s: Node, id: string)
    requires TrackedId(s, id) && Placed(s) && s.queue != [] && s.worker.Idle?
    ensures TrackedId(AfterReceive(s), id)
  {
    assert s.queue[0].id in Ids(s.queue);
    assert At(s, s.queue[0].id, InQueue);
    if id in s.past.place {
      assert Located(s, id);
    }
    hide Ids, DistinctIds, Placed, PendingRow;
  }

  lemma RecoverTracks(s: Node, id: string)
    requires TrackedId(s, id) && Placed(s) && CanRecover(s)
    ensures TrackedId(AfterRecover(s), id)
  {
    if s.mode.rest != [] {
      assert s.mode.rest[0].id in Ids(s.mode.rest);
      assert At(s, s.mode.rest[0].id, InRecovery);
    }
    hide Ids, DistinctIds, Placed, PendingRow, AfterHold;
  }

  lemma ListTracked(s: Node, entries: seq<Entry>)
    requires Tracked(s) && ListsResults(entries, s.tables.results)
    ensures forall i :: 0 <= i < |entries| ==> entries[i].id in s.past.stored
  {
    forall i | 0 <= i < |entries| ensures entries[i].id in s.past.stored {
      assert TrackedId(s, entries[i].id);
    }
  }

  ghost predicate AllWell(s: Node) {
    Accounted(s) && Durable(s) && Tracked(s)
  }

  lemma StepTracksId(s: Node, step: Step, id: string)
    requires AllWell(s) && Enabled(s, step) && Fresh(s, step)
    ensures TrackedId(Apply(s, step), id)
  {
    assert TrackedId(s, id);
    hide Placed, Known, Staged, Conserved, Fresh, TrackedId, AfterHandle, AfterWork, AfterRetry, RetryTracked, Safe;
    match step
    case Handle(h, now) => HandleTracks(s, h, now, id);
    case Work(outcome, sendOk, now) => WorkTracks(s, outcome, sendOk, now, id);
    case Resend(sendOk) => RetryTracks(s, sendOk, id);
    case Crash => CrashTracks(s, id);
    case Boot(rows) => BootTracks(s, rows, id);
    case Prune(cutoff) => PruneTracks(s, cutoff, id);
    case _ => QuietTracks(s, step, id);
  }

  lemma WorkTracks(s: Node, outcome: Outcome, sendOk: bool, now: int, id: string)
    requires AllWell(s) && s.worker.Busy?
    ensures TrackedId(AfterWork(s, outcome, sendOk, now), id)
  {
    assert TrackedId(s, id);
    assert At(s, s.worker.task.id, AtWorker);
    hide Conserved, Staged, TrackedId, AfterWork, WorkerHonest, Safe, At, Known, Placed;
    if id == s.worker.task.id {
      WorkTracksOwn(s, outcome, sendOk, now, id);
    } else {
      WorkTracksOther(s, outcome, sendOk, now, id);
    }
  }

  lemma StepTracksRetry(s: Node, step: Step)
    requires Tracked(s) && Enabled(s, step)
    ensures RetryTracked(Apply(s, step))
  {
    match step
    case Handle(h, now) =>
      HandleSparesRetry(s, h, now);
      hide AfterHandle, TrackedId;
    case Work(outcome, sendOk, now) =>
      WorkKeepsRetryTracked(s, outcome, sendOk, now);
      hide AfterWork, TrackedId;
    case Resend(sendOk) =>
      RetryRecord(s, sendOk, "");
      hide AfterRetry, TrackedId;
    case List(entries) =>
      ListTracked(s, entries);
      hide TrackedId, ListsResults;
    case _ =>
      hide TrackedId;
  }

  lemma HandleSparesRetry(s: Node, h: nat, now: int)
    requires h in s.handlers
    ensures AfterHandle(s, h, now).retry == s.retry && s.past.stored <= AfterHandle(s, h, now).past.stored
  {
    hide AfterHold, AfterRelease, SamePayload;
  }

  lemma StepKeepsAllWell(s: Node, step: Step)
    requires AllWell(s) && Enabled(s, step) && Fresh(s, step)
    ensures AllWell(Apply(s, step))
  {
    hide Apply, Accounted, Durable, TrackedId, RetryTracked, Enabled, Fresh;
    StepKeepsAccounted(s, step);
    StepKeepsDurable(s, step);
    StepTracksRetry(s, step);
    forall id ensures TrackedId(Apply(s, step), id) {
      StepTracksId(s, step, id);
    }
  }

  lemma {:induction false} RunKeepsAllWell(s: Node, steps: seq<Step>)
    requires AllWell(s) && Run(s, steps) && FreshRun(s, steps)
    ensures AllWell(RunTo(s, steps))
    decreases |steps|
  {
    hide AllWell, Apply, Fresh, Enabled;
    if steps != [] {
      StepKeepsAllWell(s, steps[0]);
      RunKeepsAllWell(Apply(s, steps[0]), steps[1..]);
    }
  }

  lemma InitiallyAllWell()
    ensures AllWell(INITIAL)
  {
    InitiallyAccounted();
    InitiallyDurable();
  }

  /**
   After any run that accepts each id once, an accepted task can still be found
   or has been answered exactly if no crash ever caught it between the worker's
   status update and the outbox write.
   */
  lemma LostExactlyInTheWindow(steps: seq<Step>, id: string)
    requires Run(INITIAL, steps) && FreshRun(INITIAL, steps)
    requires id in RunTo(INITIAL, steps).past.accepted
    ensures var s := RunTo(INITIAL, steps);
            Recoverable(s, id) || id in Window(s) <==> id !in s.past.exposed
  {
    InitiallyAllWell();
    RunKeepsAllWell(INITIAL, steps);
    hide Run, RunTo, FreshRun;
    OneStateLoss(RunTo(INITIAL, steps), id);
  }

  lemma OneStateLoss(s: Node, id: string)
    requires AllWell(s) && id in s.past.accepted
    ensures Recoverable(s, id) || id in Window(s) <==> id !in s.past.exposed
  {
    assert TrackedId(s, id);
    assert Safe(s, id);
    if id in Window(s) {
      assert At(s, id, AtWorker);
    }
    hide Placed, Conserved, Known, Staged;
  }

  /** A crash loses a task that is not lost yet exactly if it is in the window. */
  lemma CrashLosesTheWindow(steps: seq<Step>, id: string)
    requires Run(INITIAL, steps) && FreshRun(INITIAL, steps)
    requires id in RunTo(INITIAL, steps).past.accepted && id !in RunTo(INITIAL, steps).past.exposed
    ensures var s := RunTo(INITIAL, steps); Recoverable(AfterCrash(s), id) <==> id !in Window(s)
  {
    InitiallyAllWell();
    RunKeepsAllWell(INITIAL, steps);
    hide Run, RunTo, FreshRun;
    OneCrash(RunTo(INITIAL, steps), id);
  }

  lemma OneCrash(s: Node, id: string)
    requires AllWell(s) && id in s.past.accepted && id !in s.past.exposed
    ensures Recoverable(AfterCrash(s), id) <==> id !in Window(s)
  {
    OneStateLoss(s, id);
    assert TrackedId(s, id);
    if id in Window(s) {
      assert At(s, id, AtWorker);
    }
    hide Placed, Conserved, Known, Staged;
  }

  // ---------------------------------------------------------------------
  // The window is real
  // ---------------------------------------------------------------------

  ghost predicate Reached(s: Node) {
    exists steps :: Run(INITIAL, steps) && FreshRun(INITIAL, steps) && RunTo(INITIAL, steps) == s
  }

  lemma {:induction false} RunSnoc(s: Node, steps: seq<Step>, step: Step)
    requires Run(s, steps) && FreshRun(s, steps) && Enabled(RunTo(s, steps), step) && Fresh(RunTo(s, steps), step)
    ensures Run(s, steps + [step]) && FreshRun(s, steps + [step])
    ensures RunTo(s, steps + [step]) == Apply(RunTo(s, steps), step)
    decreases |steps|
  {
    hide Enabled, Apply, Fresh;
    var longer := steps + [step];
    if steps == [] {
      assert longer[0] == step && longer[1..] == [];
    } else {
      assert longer[0] == steps[0] && longer[1..] == steps[1..] + [step];
      RunSnoc(Apply(s, steps[0]), steps[1..], step);
    }
  }

  lemma Onward(s: Node, step: Step)
    requires Reached(s) && Enabled(s, step) && Fresh(s, step)
    ensures Reached(Apply(s, step))
  {
    hide Enabled, Apply, Fresh;
    var steps :| Run(INITIAL, steps) && FreshRun(INITIAL, steps) && RunTo(INITIAL, steps) == s;
    RunSnoc(INITIAL, steps, step);
  }

  const TASK := Task("x", None, "circuit", None, 0)

  const QUEUED_ROW := map["x" := TaskRow(TASK, Pending, 0)]

  const BOOTED := INITIAL.(mode := Recovering([], false), open := true)

  lemma BootedIsReached()
    ensures Reached(BOOTED)
  {
    assert Run(INITIAL, []) && FreshRun(INITIAL, []) && RunTo(INITIAL, []) == INITIAL;
    assert Reached(INITIAL);
    hide Reached, Run, RunTo, FreshRun;
    assert Ids([]) == {};
    Onward(INITIAL, Boot([]));
    assert AfterBoot(INITIAL, []) == BOOTED;
  }

  lemma UpIsReached()
    ensures Reached(INITIAL.(mode := Up, open := true))
  {
    hide Reached, Run, RunTo, FreshRun;
    BootedIsReached();
    Onward(BOOTED, Recover);
  }

  lemma AcceptedIsReached() returns (s: Node)
    ensures Reached(s)
    ensures s.mode.Up? && s.open && s.worker.Idle? && s.queue == [TASK] && s.tables.tasks == QUEUED_ROW
    ensures s.past.accepted == {"x"} && s.past.sent == {} && s.tables.results == map[] && s.past.exposed == {}
  {
    hide Reached;
    UpIsReached();
    s := INITIAL.(mode := Up, open := true);
    Onward(s, Dispatch(0, TASK));
    s := Apply(s, Dispatch(0, TASK));
    Onward(s, Handle(0, 0));
    s := Apply(s, Handle(0, 0));
    assert s.handlers[0] == Saving(TASK);
    Onward(s, Handle(0, 0));
    s := Apply(s, Handle(0, 0));
    assert s.handlers[0] == Counting(TASK);
    Onward(s, Handle(0, 0));
    s := Apply(s, Handle(0, 0));
    assert s.handlers[0] == Holding(TASK);
    Onward(s, Handle(0, 0));
    s := Apply(s, Handle(0, 0));
    assert s.handlers[0] == Sending(TASK);
    Onward(s, Handle(0, 0));
    s := Apply(s, Handle(0, 0));
  }

  /** A crash at the wrong moment does lose a task: some run gets there. */
  lemma SomeRunLosesATask() returns (s: Node)
    ensures Reached(s) && Window(s) == {"x"}
    ensures Reached(AfterCrash(s)) && "x" in AfterCrash(s).past.accepted && !Recoverable(AfterCrash(s), "x")
  {
    hide Reached;
    s := AcceptedIsReached();
    Onward(s, Receive);
    s := AfterReceive(s);
    var outcome := Success("r", "p");
    Onward(s, Step.Work(outcome, false, 0));
    s := AfterWork(s, outcome, false, 0);
    Onward(s, Step.Work(outcome, false, 0));
    s := AfterWork(s, outcome, false, 0);
    Onward(s, Step.Work(outcome, false, 0));
    s := AfterWork(s, outcome, false, 0);
    Onward(s, Crash);
  }
}
